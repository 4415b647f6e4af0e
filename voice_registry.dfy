/**
 * The JSON-backed registry of reference voices of the speech service
 * (server3/voice_registry.py). The filesystem is the set of paths that
 * exist plus the content of the registry file; the fresh voice id that
 * `uuid4().hex` draws is a parameter. Paths are taken as already resolved
 * (`expanduser().resolve()` is not modelled).
 */
module Voices {
  import opened Wrappers

  /** The string fields stored for one voice (`voice_id`, `display_name`, `language`, `file_path`). */
  type Metadata = map<string, string>

  /** The registry's dictionary: its keys in insertion order and the metadata under each. */
  datatype Table = Table(keys: seq<string>, meta: map<string, Metadata>) {

    predicate Valid() {
      && (forall i, j :: 0 <= i < j < |keys| ==> keys[i] != keys[j])
      && meta.Keys == set k | k in keys
    }

    /** `d[k] = m`: an existing key keeps its place, a new one goes last. */
    function Put(k: string, m: Metadata): (r: Table)
      requires Valid()
      ensures r.Valid()
      ensures r.meta == meta[k := m]
      ensures k in keys ==> r.keys == keys
      ensures k !in keys ==> r.keys == keys + [k]
    {
      Table(if k in keys then keys else keys + [k], meta[k := m])
    }
  }

  const Empty: Table := Table([], map[])

  /** One member of the JSON object in the registry file. */
  datatype Entry = Entry(key: string, value: Metadata)

  /** What the registry file holds. */
  datatype FileState =
    | Missing
    | Corrupt            // not valid JSON
    | NotAnObject        // valid JSON, but not an object
    | Stored(entries: seq<Entry>)

  /** `json.load` of an object: later duplicates overwrite, keeping the first position. */
  function FromEntries(entries: seq<Entry>): (r: Table)
    ensures r.Valid()
  {
    if entries == [] then Empty
    else
      var last := entries[|entries| - 1];
      FromEntries(entries[..|entries| - 1]).Put(last.key, last.value)
  }

  /** `json.dump` of the dictionary: one member per key, in order. */
  function ToEntries(t: Table): (r: seq<Entry>)
    requires t.Valid()
    ensures |r| == |t.keys|
    ensures forall i :: 0 <= i < |r| ==> r[i] == Entry(t.keys[i], t.meta[t.keys[i]])
  {
    seq(|t.keys|, i requires 0 <= i < |t.keys| => Entry(t.keys[i], t.meta[t.keys[i]]))
  }

  /** `_load` in a fresh registry: the stored object, or nothing when the file is missing, unparseable or not an object. */
  function Load(f: FileState): (r: Table)
    ensures r.Valid()
    ensures !f.Stored? ==> r == Empty
  {
    if f.Stored? then FromEntries(f.entries) else Empty
  }

  /** The table without its last key. */
  function DropLast(t: Table): (r: Table)
    requires t.Valid() && t.keys != []
    ensures r.Valid()
    ensures r.keys == t.keys[..|t.keys| - 1]
    ensures r.meta == t.meta - {t.keys[|t.keys| - 1]}
  {
    var n := |t.keys|;
    var r := Table(t.keys[..n - 1], t.meta - {t.keys[n - 1]});
    assert r.meta.Keys == set k | k in r.keys by {
      forall j | j in r.meta ensures j in r.keys {
        var i :| 0 <= i < n && t.keys[i] == j;
      }
    }
    r
  }

  /** Putting the last key back after `DropLast` restores the table. */
  lemma PutLastBack(t: Table)
    requires t.Valid() && t.keys != []
    ensures var k := t.keys[|t.keys| - 1]; DropLast(t).Put(k, t.meta[k]) == t
  {
    var n := |t.keys|;
    var k := t.keys[n - 1];
    var d := DropLast(t);
    assert k !in d.keys;
    assert d.keys + [k] == t.keys;
    assert d.meta[k := t.meta[k]] == t.meta;
  }

  /** Loading what `_save` wrote gives the same dictionary back, order included. */
  lemma {:induction false} LoadSaved(t: Table)
    requires t.Valid()
    ensures FromEntries(ToEntries(t)) == t
    decreases |t.keys|
  {
    if t.keys != [] {
      var n := |t.keys|;
      var d := DropLast(t);
      assert ToEntries(t)[..n - 1] == ToEntries(d);
      LoadSaved(d);
      PutLastBack(t);
    }
  }

  /** An error Python raises. */
  datatype PyError = FileNotFound(path: string) | KeyError(key: string)

  /**
   * `Path(p).suffix`: the last component's text from its last dot, unless
   * that dot is the component's first or last character.
   */
  function Suffix(path: string): (r: string)
    ensures r == "" || (r[0] == '.' && |r| >= 2)
  {
    var name := LastComponent(path);
    var dot := LastDot(name, |name|);
    if dot.Some? && 0 < dot.value < |name| - 1 then name[dot.value..] else ""
  }

  function LastComponent(path: string): (r: string)
    ensures forall i :: 0 <= i < |r| ==> r[i] != '/'
  {
    if path == [] then []
    else if path[|path| - 1] == '/' then []
    else LastComponent(path[..|path| - 1]) + [path[|path| - 1]]
  }

  /** The position of the last '.' before `n`. */
  function LastDot(name: string, n: nat): (r: Option<nat>)
    requires n <= |name|
    ensures r.Some? ==> r.value < n && name[r.value] == '.' && forall i :: r.value < i < n ==> name[i] != '.'
    ensures r.None? ==> forall i :: 0 <= i < n ==> name[i] != '.'
  {
    if n == 0 then None
    else if name[n - 1] == '.' then Some(n - 1)
    else LastDot(name, n - 1)
  }

  /** `storage_dir / f"{voice_id}{extension}"`, with ".wav" when the source has no suffix. */
  function TargetPath(storageDir: string, source: string, voiceId: string): string {
    var suffix := Suffix(source);
    storageDir + "/" + voiceId + (if suffix != "" then suffix else ".wav")
  }

  predicate Lacks(s: string, c: char) {
    forall i :: 0 <= i < |s| ==> s[i] != c
  }

  /** The last component of `dir/name` is `name`. */
  lemma {:induction false} LastComponentOf(dir: string, name: string)
    requires Lacks(name, '/')
    ensures LastComponent(dir + "/" + name) == name
    decreases |name|
  {
    var p := dir + "/" + name;
    if name == [] {
      assert p[|p| - 1] == '/';
    } else {
      var init := name[..|name| - 1];
      assert p[..|p| - 1] == dir + "/" + init;
      LastComponentOf(dir, init);
      assert init + [name[|name| - 1]] == name;
    }
  }

  /** A sample `stem.ext` keeps its extension. */
  lemma TargetKeepsExtension(storageDir: string, dir: string, stem: string, ext: string, voiceId: string)
    requires Lacks(stem, '/') && Lacks(ext, '/') && Lacks(ext, '.')
    requires stem != "" && ext != ""
    ensures TargetPath(storageDir, dir + "/" + stem + "." + ext, voiceId) == storageDir + "/" + voiceId + "." + ext
  {
    var name := stem + "." + ext;
    assert dir + "/" + stem + "." + ext == dir + "/" + name;
    LastComponentOf(dir, name);
    var dot := LastDot(name, |name|);
    assert name[|stem|] == '.';
    assert dot == Some(|stem|) by {
      assert forall i :: |stem| < i < |name| ==> name[i] == ext[i - |stem| - 1];
    }
    assert name[|stem|..] == "." + ext;
  }

  /** A sample without a dot in its name is stored as a ".wav" file. */
  lemma TargetDefaultsToWav(storageDir: string, dir: string, name: string, voiceId: string)
    requires Lacks(name, '/') && Lacks(name, '.')
    ensures TargetPath(storageDir, dir + "/" + name, voiceId) == storageDir + "/" + voiceId + ".wav"
  {
    LastComponentOf(dir, name);
  }

  /** A leading dot is not a suffix: the hidden file `.voice` is stored as ".wav" too. */
  lemma HiddenFileHasNoSuffix(storageDir: string, dir: string, name: string, voiceId: string)
    requires Lacks(name, '/') && Lacks(name, '.')
    ensures TargetPath(storageDir, dir + "/." + name, voiceId) == storageDir + "/" + voiceId + ".wav"
  {
    var full := "." + name;
    assert dir + "/." + name == dir + "/" + full;
    LastComponentOf(dir, full);
    assert forall i :: 1 <= i < |full| ==> full[i] == name[i - 1];
  }

  /** `f"Voice {voice_id[:8]}"`. */
  function DefaultDisplayName(voiceId: string): string {
    "Voice " + (if |voiceId| <= 8 then voiceId else voiceId[..8])
  }

  /** `x or default` for an optional string: None and "" both give the default. */
  function OrDefault(x: Option<string>, default: string): (r: string)
    ensures x.Some? && x.value != "" ==> r == x.value
    ensures x.None? || x.value == "" ==> r == default
  {
    if x.Some? && x.value != "" then x.value else default
  }

  /** The metadata `register_voice` stores. */
  function NewMetadata(voiceId: string, displayName: Option<string>, language: Option<string>, target: string): Metadata {
    map["voice_id" := voiceId,
        "display_name" := OrDefault(displayName, DefaultDisplayName(voiceId)),
        "language" := OrDefault(language, "en"),
        "file_path" := target]
  }

  /** The fields of new metadata, with the fallbacks for a missing or empty name and language. */
  lemma NewMetadataFields(voiceId: string, displayName: Option<string>, language: Option<string>, target: string)
    ensures var meta := NewMetadata(voiceId, displayName, language, target);
      && meta["voice_id"] == voiceId
      && meta["display_name"] == (if displayName.Some? && displayName.value != "" then displayName.value else DefaultDisplayName(voiceId))
      && meta["language"] == (if language.Some? && language.value != "" then language.value else "en")
      && meta["file_path"] == target
  {
    var meta := NewMetadata(voiceId, displayName, language, target);
    assert "display_name" != "voice_id" && "language" != "voice_id" && "file_path" != "voice_id";
    assert "language" != "display_name" && "file_path" != "display_name" && "file_path" != "language";
  }

  const DefaultId: string := "default"

  /** The metadata `ensure_default_voice` stores, with the language setting passed in. */
  function DefaultMetadata(language: string, target: string): Metadata {
    map["voice_id" := DefaultId, "display_name" := "Default voice", "language" := language, "file_path" := target]
  }

  /** What `list_voices` shows of one voice: every field but `file_path`, `None` where a field is absent. */
  datatype PublicVoice = PublicVoice(voiceId: Option<string>, displayName: Option<string>, language: Option<string>)

  function Field(m: Metadata, k: string): Option<string> {
    if k in m then Some(m[k]) else None
  }

  function Public(m: Metadata): PublicVoice {
    PublicVoice(Field(m, "voice_id"), Field(m, "display_name"), Field(m, "language"))
  }

  /** `list_voices()`: one public record per voice, in insertion order. */
  function Listing(t: Table): (r: seq<PublicVoice>)
    requires t.Valid()
    ensures |r| == |t.keys|
    ensures forall i :: 0 <= i < |r| ==> r[i] == Public(t.meta[t.keys[i]])
  {
    seq(|t.keys|, i requires 0 <= i < |t.keys| => Public(t.meta[t.keys[i]]))
  }

  /** The answer of `get_voice_path`. */
  datatype PathLookup = NoPath | VoicePath(path: string) | LookupRaised(error: PyError)

  /** `get_voice_path(voice_id)` against the stored table and the existing paths. */
  function VoicePathOf(t: Table, files: set<string>, voiceId: string): (r: PathLookup)
    ensures voiceId !in t.meta ==> r == NoPath
    ensures r.VoicePath? <==> voiceId in t.meta && "file_path" in t.meta[voiceId] && t.meta[voiceId]["file_path"] in files
    ensures r.VoicePath? ==> r.path == t.meta[voiceId]["file_path"] && r.path in files
    ensures r.LookupRaised? <==> voiceId in t.meta && t.meta[voiceId] != map[] && "file_path" !in t.meta[voiceId]
  {
    if voiceId !in t.meta || t.meta[voiceId] == map[] then NoPath
    else if "file_path" !in t.meta[voiceId] then LookupRaised(KeyError("file_path"))
    else if t.meta[voiceId]["file_path"] in files then VoicePath(t.meta[voiceId]["file_path"])
    else NoPath
  }

  // ---------------------------------------------------------------------
  // The state-changing operations as functions of the state

  /** The registry's dictionary, the paths that exist and the registry file. */
  datatype State = State(table: Table, files: set<string>, file: FileState)

  /** What `register_voice` returns or raises. */
  datatype Registered = Registered(meta: Metadata) | RegisterRaised(error: PyError)

  /** `register_voice(source_path, display_name, language)` with the drawn id. */
  function Register(s: State, storageDir: string, source: string, voiceId: string,
                    displayName: Option<string>, language: Option<string>): (State, Registered)
    requires s.table.Valid()
  {
    if source !in s.files then (s, RegisterRaised(FileNotFound(source)))
    else
      var target := TargetPath(storageDir, source, voiceId);
      var meta := NewMetadata(voiceId, displayName, language, target);
      var table := s.table.Put(voiceId, meta);
      (State(table, s.files + {target}, Stored(ToEntries(table))), Registered(meta))
  }

  /** A missing source raises FileNotFoundError and leaves everything as it was. */
  lemma RegisterMissingSource(s: State, storageDir: string, source: string, voiceId: string,
                              displayName: Option<string>, language: Option<string>)
    requires s.table.Valid()
    requires source !in s.files
    ensures Register(s, storageDir, source, voiceId, displayName, language) == (s, RegisterRaised(FileNotFound(source)))
  {
  }

  /**
   * Registering under a fresh id adds exactly that entry, last in order,
   * leaves every other entry as it was, copies the sample to the target
   * path and saves the whole dictionary; the stored display name and
   * language fall back to "Voice " + the id's first 8 characters and "en".
   */
  lemma RegisterAddsOne(s: State, storageDir: string, source: string, voiceId: string,
                        displayName: Option<string>, language: Option<string>)
    requires s.table.Valid()
    requires source in s.files && voiceId !in s.table.keys
    ensures var (s', r) := Register(s, storageDir, source, voiceId, displayName, language);
      && r.Registered?
      && s'.table.keys == s.table.keys + [voiceId]
      && s'.table.meta.Keys == s.table.meta.Keys + {voiceId}
      && (forall k :: k in s.table.meta ==> s'.table.meta[k] == s.table.meta[k])
      && s'.table.meta[voiceId] == r.meta
      && r.meta["voice_id"] == voiceId
      && r.meta["display_name"] == (if displayName.Some? && displayName.value != "" then displayName.value else DefaultDisplayName(voiceId))
      && r.meta["language"] == (if language.Some? && language.value != "" then language.value else "en")
      && r.meta["file_path"] == TargetPath(storageDir, source, voiceId)
      && s'.files == s.files + {TargetPath(storageDir, source, voiceId)}
      && Load(s'.file) == s'.table
  {
    var (s', r) := Register(s, storageDir, source, voiceId, displayName, language);
    assert voiceId !in s.table.meta;
    NewMetadataFields(voiceId, displayName, language, TargetPath(storageDir, source, voiceId));
    LoadSaved(s'.table);
  }

  /** Listing after a fresh registration shows the old voices and then the new one, without its path. */
  lemma RegisterThenList(s: State, storageDir: string, source: string, voiceId: string,
                         displayName: Option<string>, language: Option<string>)
    requires s.table.Valid()
    requires source in s.files && voiceId !in s.table.keys
    ensures var (s', r) := Register(s, storageDir, source, voiceId, displayName, language);
      Listing(s'.table) == Listing(s.table) + [Public(r.meta)]
  {
    var (s', r) := Register(s, storageDir, source, voiceId, displayName, language);
    assert voiceId !in s.table.meta;
    assert Listing(s'.table)[..|s.table.keys|] == Listing(s.table);
  }

  /** A registered voice's path is found again. */
  lemma RegisterThenLookup(s: State, storageDir: string, source: string, voiceId: string,
                           displayName: Option<string>, language: Option<string>)
    requires s.table.Valid()
    requires source in s.files
    ensures var (s', r) := Register(s, storageDir, source, voiceId, displayName, language);
      VoicePathOf(s'.table, s'.files, voiceId) == VoicePath(TargetPath(storageDir, source, voiceId))
  {
  }

  /** `ensure_default_voice(voice_path)`, with the `XTTS_DEFAULT_LANGUAGE` setting (or "en") passed in. */
  function EnsureDefault(s: State, storageDir: string, voicePath: string, language: string): (State, Option<PyError>)
    requires s.table.Valid()
  {
    if voicePath !in s.files then (s, None)
    else if DefaultId in s.table.meta && s.table.meta[DefaultId] != map[] && "file_path" !in s.table.meta[DefaultId] then
      (s, Some(KeyError("file_path")))
    else if DefaultId in s.table.meta && s.table.meta[DefaultId] != map[] && s.table.meta[DefaultId]["file_path"] in s.files then
      (s, None)
    else
      var target := TargetPath(storageDir, voicePath, DefaultId);
      var table := s.table.Put(DefaultId, DefaultMetadata(language, target));
      (State(table, s.files + {target}, Stored(ToEntries(table))), None)
  }

  /**
   * Nothing changes when the sample is missing or the default voice's file
   * already exists; a non-empty "default" record without `file_path` raises a
   * KeyError and changes nothing; otherwise "default" is (re)set to the
   * copied sample and saved, and its path can then be looked up.
   */
  lemma EnsureDefaultOutcome(s: State, storageDir: string, voicePath: string, language: string)
    requires s.table.Valid()
    ensures var (s', e) := EnsureDefault(s, storageDir, voicePath, language);
      && (voicePath !in s.files ==> s' == s && e.None?)
      && (VoicePathOf(s.table, s.files, DefaultId).VoicePath? ==> s' == s && e.None?)
      && (voicePath in s.files && VoicePathOf(s.table, s.files, DefaultId).NoPath? ==>
            && e.None?
            && s'.table.meta == s.table.meta[DefaultId := DefaultMetadata(language, TargetPath(storageDir, voicePath, DefaultId))]
            && VoicePathOf(s'.table, s'.files, DefaultId) == VoicePath(TargetPath(storageDir, voicePath, DefaultId))
            && Load(s'.file) == s'.table)
      && (voicePath in s.files && VoicePathOf(s.table, s.files, DefaultId).LookupRaised? ==>
            s' == s && e == Some(KeyError("file_path")))
  {
    var (s', e) := EnsureDefault(s, storageDir, voicePath, language);
    if voicePath in s.files && VoicePathOf(s.table, s.files, DefaultId).NoPath? {
      LoadSaved(s'.table);
    }
  }

  /** After a call that raised nothing, a second call with the same sample changes nothing. */
  lemma EnsureDefaultIdempotent(s: State, storageDir: string, voicePath: string, language: string)
    requires s.table.Valid()
    requires EnsureDefault(s, storageDir, voicePath, language).1.None?
    ensures var s' := EnsureDefault(s, storageDir, voicePath, language).0;
      s'.table.Valid() && EnsureDefault(s', storageDir, voicePath, language) == (s', None)
  {
    var s' := EnsureDefault(s, storageDir, voicePath, language).0;
    if s' != s {
      var target := TargetPath(storageDir, voicePath, DefaultId);
      assert s'.table.meta[DefaultId] == DefaultMetadata(language, target);
      assert "file_path" in DefaultMetadata(language, target);
      assert target in s'.files;
    }
  }

  // ---------------------------------------------------------------------
  // The registry object

  class VoiceRegistry {
    const storageDir: string
    var table: Table
    var files: set<string>
    var registryFile: FileState

    predicate Valid()
      reads this
    {
      table.Valid()
    }

    function Snapshot(): State
      reads this
    {
      State(table, files, registryFile)
    }

    /** `__init__` up to `_load`: the dictionary read from the registry file. */
    constructor (storageDir: string, files: set<string>, registryFile: FileState)
      ensures Valid()
      ensures this.storageDir == storageDir && this.files == files && this.registryFile == registryFile
      ensures table == Load(registryFile)
    {
      this.storageDir := storageDir;
      this.files := files;
      this.registryFile := registryFile;
      table := Empty;
      new;
      LoadTable();
    }

    /** `_load()`. */
    method LoadTable()
      modifies this
      ensures table == Load(registryFile)
      ensures files == old(files) && registryFile == old(registryFile)
    {
      if registryFile.Stored? {
        table := FromEntries(registryFile.entries);
      } else {
        table := Empty;
      }
    }

    /** `_save()`. */
    method Save()
      requires Valid()
      modifies this
      ensures Valid() && table == old(table) && files == old(files)
      ensures registryFile == Stored(ToEntries(table))
    {
      registryFile := Stored(ToEntries(table));
    }

    /** `_copy_voice_file(source_path, voice_id)`. */
    method CopyVoiceFile(source: string, voiceId: string) returns (r: Result)
      modifies this
      ensures table == old(table) && registryFile == old(registryFile)
      ensures source !in old(files) ==> r == Raised(FileNotFound(source)) && files == old(files)
      ensures source in old(files) ==>
        var target := TargetPath(storageDir, source, voiceId);
        r == Copied(target) && files == old(files) + {target}
    {
      if source !in files {
        return Raised(FileNotFound(source));
      }
      var target := TargetPath(storageDir, source, voiceId);
      files := files + {target};
      return Copied(target);
    }

    /** `register_voice(source_path, display_name, language)`; `voiceId` is the drawn `uuid4().hex`. */
    method RegisterVoice(source: string, voiceId: string, displayName: Option<string>, language: Option<string>)
      returns (r: Registered)
      requires Valid()
      modifies this
      ensures Valid()
      ensures (Snapshot(), r) == Register(old(Snapshot()), storageDir, source, voiceId, displayName, language)
    {
      var copied := CopyVoiceFile(source, voiceId);
      if copied.Raised? {
        return RegisterRaised(copied.error);
      }
      var meta := NewMetadata(voiceId, displayName, language, copied.path);
      table := table.Put(voiceId, meta);
      Save();
      return Registered(meta);
    }

    /** `ensure_default_voice(voice_path)`. */
    method EnsureDefaultVoice(voicePath: string, language: string) returns (error: Option<PyError>)
      requires Valid()
      modifies this
      ensures Valid()
      ensures (Snapshot(), error) == EnsureDefault(old(Snapshot()), storageDir, voicePath, language)
    {
      if voicePath !in files {
        return None;
      }
      if DefaultId in table.meta && table.meta[DefaultId] != map[] {
        var metadata := table.meta[DefaultId];
        if "file_path" !in metadata {
          return Some(KeyError("file_path"));
        }
        if metadata["file_path"] in files {
          return None;
        }
      }
      var copied := CopyVoiceFile(voicePath, DefaultId);
      table := table.Put(DefaultId, DefaultMetadata(language, copied.path));
      Save();
      return None;
    }

    /** `list_voices()`. */
    function ListVoices(): (r: seq<PublicVoice>)
      requires Valid()
      reads this
      ensures r == Listing(table)
    {
      Listing(table)
    }

    /** `get_voice_path(voice_id)`. */
    function GetVoicePath(voiceId: string): (r: PathLookup)
      reads this
      ensures r == VoicePathOf(table, files, voiceId)
    {
      VoicePathOf(table, files, voiceId)
    }
  }

  /** What `_copy_voice_file` returns or raises. */
  datatype Result = Copied(path: string) | Raised(error: PyError)

  /**
   * `VoiceRegistry(storage_dir, default_voice)`: load, then make sure the
   * default voice is present when a sample is given.
   */
  method Open(storageDir: string, files: set<string>, registryFile: FileState,
              defaultVoice: Option<string>, language: string)
    returns (registry: VoiceRegistry, error: Option<PyError>)
    ensures fresh(registry) && registry.Valid() && registry.storageDir == storageDir
    ensures defaultVoice.None? ==> error.None? && registry.Snapshot() == State(Load(registryFile), files, registryFile)
    ensures defaultVoice.Some? ==>
      (registry.Snapshot(), error) == EnsureDefault(State(Load(registryFile), files, registryFile), storageDir, defaultVoice.value, language)
  {
    registry := new VoiceRegistry(storageDir, files, registryFile);
    error := None;
    if defaultVoice.Some? {
      error := registry.EnsureDefaultVoice(defaultVoice.value, language);
    }
  }
}
