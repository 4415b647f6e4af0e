/**
 * The speech service's request handling (server3/main.py): the CORS origin
 * list, the two request models and their validators, the choice of the
 * reference clip for synthesis, the temporary files each request creates
 * and removes, and the configuration it publishes to the widget. The model
 * itself, base64 decoding, downloads and the audio metadata are parameters.
 * The filesystem is the registry's set of existing paths.
 */
module SpeechService {
  import opened Wrappers
  import opened Text
  import opened JsValues
  import Voices
  import TtsWidget

  // ---------------------------------------------------------------------
  // Allowed origins

  /** `[origin.strip() for origin in parts if origin.strip()]`. */
  function CleanOrigins(parts: seq<string>): (r: seq<string>)
    ensures |r| <= |parts|
    ensures forall i :: 0 <= i < |r| ==> r[i] != "" && PyStrip(r[i]) == r[i]
  {
    if parts == [] then []
    else
      var o := PyStrip(parts[0]);
      TrimIdempotent(parts[0], IsPyWhitespace);
      (if o != "" then [o] else []) + CleanOrigins(parts[1..])
  }

  /** The origins allowed from the `XTTS_ALLOW_ORIGINS` setting (its default is "*"). */
  function ParseOrigins(setting: string): (r: seq<string>)
    ensures PyStrip(setting) == "*" ==> r == ["*"]
    ensures forall i :: 0 <= i < |r| ==> r[i] != "" && PyStrip(r[i]) == r[i]
  {
    if PyStrip(setting) == "*" then
      assert PyStrip("*") == "*" by { TrimNoop("*", IsPyWhitespace); }
      ["*"]
    else CleanOrigins(Split(setting, ','))
  }

  /** Origins that are already clean pass through unchanged. */
  lemma {:induction false} CleanOriginsKeeps(os: seq<string>)
    requires forall i :: 0 <= i < |os| ==> os[i] != "" && PyStrip(os[i]) == os[i]
    ensures CleanOrigins(os) == os
    decreases |os|
  {
    if os != [] {
      assert os == [os[0]] + os[1..];
      CleanOriginsCons(os[0], os[1..]);
      CleanOriginsKeeps(os[1..]);
    }
  }

  lemma CleanOriginsCons(o: string, rest: seq<string>)
    requires o != "" && PyStrip(o) == o
    ensures CleanOrigins([o] + rest) == [o] + CleanOrigins(rest)
  {
    assert ([o] + rest)[1..] == rest;
  }

  /** No entry holds a comma. */
  lemma {:induction false} CleanOriginsNoComma(parts: seq<string>)
    requires forall i :: 0 <= i < |parts| ==> ',' !in parts[i]
    ensures forall i :: 0 <= i < |CleanOrigins(parts)| ==> ',' !in CleanOrigins(parts)[i]
    decreases |parts|
  {
    if parts != [] {
      CleanOriginsNoComma(parts[1..]);
      TrimInfix(parts[0], IsPyWhitespace);
    }
  }

  /** The joined list starts with its first entry and ends with its last. */
  lemma {:induction false} JoinEnds(os: seq<string>)
    requires |os| >= 1 && forall i :: 0 <= i < |os| ==> os[i] != ""
    ensures var j := Join(os, ','); j != "" && j[0] == os[0][0] && j[|j| - 1] == os[|os| - 1][|os[|os| - 1]| - 1]
    ensures |os| >= 2 ==> ',' in Join(os, ',')
    decreases |os|
  {
    if |os| >= 2 {
      JoinEnds(os[1..]);
      var j := Join(os, ',');
      assert j == os[0] + [','] + Join(os[1..], ',');
      assert j[|os[0]|] == ',';
    }
  }

  /**
   * The setting written as a comma-separated list of clean origins is read
   * back as that list: no entry is lost, split or reordered.
   */
  lemma OriginsRoundTrip(os: seq<string>)
    requires |os| >= 1
    requires forall i :: 0 <= i < |os| ==> os[i] != "" && PyStrip(os[i]) == os[i] && ',' !in os[i]
    ensures ParseOrigins(Join(os, ',')) == os
  {
    var j := Join(os, ',');
    JoinStripped(os);
    if j == "*" {
      JoinEnds(os);
      assert ',' !in j;
      assert |os| == 1;
      assert os == [j];
    } else {
      assert ParseOrigins(j) == CleanOrigins(Split(j, ','));
      SplitJoin(os, ',');
      CleanOriginsKeeps(os);
    }
  }

  /** Clean entries joined with commas need no stripping. */
  lemma JoinStripped(os: seq<string>)
    requires |os| >= 1
    requires forall i :: 0 <= i < |os| ==> os[i] != "" && PyStrip(os[i]) == os[i]
    ensures PyStrip(Join(os, ',')) == Join(os, ',')
  {
    JoinEnds(os);
    TrimSpec(os[0], IsPyWhitespace);
    TrimSpec(os[|os| - 1], IsPyWhitespace);
    TrimNoop(Join(os, ','), IsPyWhitespace);
  }

  /**
   * An origin is allowed exactly when some comma-separated entry strips to
   * it and it is not blank.
   */
  lemma {:induction false} CleanOriginsMembers(parts: seq<string>, x: string)
    ensures x in CleanOrigins(parts) <==> x != "" && exists p :: p in parts && PyStrip(p) == x
    decreases |parts|
  {
    if parts != [] {
      CleanOriginsMembers(parts[1..], x);
      assert forall p :: p in parts <==> p == parts[0] || p in parts[1..];
    }
  }

  // ---------------------------------------------------------------------
  // Request models

  /** The outcome of validating a JSON body: the request, or a 422 answer. */
  datatype Validated<T> = Accepted(value: T) | Rejected

  /** Python truthiness of an optional string. */
  predicate Present(x: Option<string>) {
    x.Some? && x.value != ""
  }

  /** An `Optional[str]` field: absent or null is None, a string is kept, anything else is rejected. */
  function OptionalString(props: seq<Prop>, k: string): Validated<Option<string>> {
    match Lookup(props, k)
    case None => Accepted(None)
    case Some(Null) => Accepted(None)
    case Some(Str(s)) => Accepted(Some(s))
    case Some(_) => Rejected
  }

  /** An `Optional[AnyHttpUrl]` field; what counts as an HTTP URL is the parameter `isUrl`. */
  function OptionalUrl(props: seq<Prop>, k: string, isUrl: string -> bool): Validated<Option<string>> {
    match OptionalString(props, k)
    case Rejected => Rejected
    case Accepted(u) => if u.Some? && !isUrl(u.value) then Rejected else Accepted(u)
  }

  datatype RegistrationRequest = RegistrationRequest(
    displayName: Option<string>, language: Option<string>, base64: Option<string>, url: Option<string>)

  /** `VoiceRegistrationRequest` parsed from a JSON body, with `validate_source`. */
  function ParseRegistration(body: JsValue, isUrl: string -> bool): Validated<RegistrationRequest> {
    if !body.Obj? then Rejected
    else
      var name := OptionalString(body.props, "display_name");
      var language := OptionalString(body.props, "language");
      var base64 := OptionalString(body.props, "speaker_wav_base64");
      var url := OptionalUrl(body.props, "speaker_wav_url", isUrl);
      if name.Rejected? || language.Rejected? || base64.Rejected? || url.Rejected? then Rejected
      else if !(Present(base64.value) || Present(url.value)) then Rejected
      else Accepted(RegistrationRequest(name.value, language.value, base64.value, url.value))
  }

  /** A registration is accepted exactly when its fields have the right types and a base64 clip or a URL is given. */
  lemma RegistrationNeedsSource(body: JsValue, isUrl: string -> bool)
    requires body.Obj?
    requires OptionalString(body.props, "display_name").Accepted? && OptionalString(body.props, "language").Accepted?
    requires OptionalString(body.props, "speaker_wav_base64").Accepted?
    requires OptionalUrl(body.props, "speaker_wav_url", isUrl).Accepted?
    ensures ParseRegistration(body, isUrl).Accepted? <==>
      Present(OptionalString(body.props, "speaker_wav_base64").value)
      || Present(OptionalUrl(body.props, "speaker_wav_url", isUrl).value)
  {
  }

  const MaxTextLength: nat := 800

  datatype SynthesizeRequest = SynthesizeRequest(
    text: string, language: string, speakerId: Option<string>,
    base64: Option<string>, url: Option<string>, store: bool)

  /** The required `text` field: a string of 1 to 800 characters. */
  function TextField(props: seq<Prop>): Validated<string> {
    match Lookup(props, "text")
    case Some(Str(s)) => if 1 <= |s| <= MaxTextLength then Accepted(s) else Rejected
    case _ => Rejected
  }

  /** `language: str = "en"`: absent gives "en", null is rejected. */
  function LanguageField(props: seq<Prop>): Validated<string> {
    match Lookup(props, "language")
    case None => Accepted("en")
    case Some(Str(s)) => Accepted(s)
    case Some(_) => Rejected
  }

  /** `speaker_id: Optional[str] = "default"`: absent gives "default", null gives None. */
  function SpeakerField(props: seq<Prop>): Validated<Option<string>> {
    if Lookup(props, "speaker_id").None? then Accepted(Some("default")) else OptionalString(props, "speaker_id")
  }

  /** `store_generated_audio: bool = False`. */
  function StoreField(props: seq<Prop>): Validated<bool> {
    match Lookup(props, "store_generated_audio")
    case None => Accepted(false)
    case Some(Bool(b)) => Accepted(b)
    case Some(_) => Rejected
  }

  /** `SynthesizeRequest` parsed from a JSON body, with `validate_reference`. */
  function ParseSynthesize(body: JsValue, isUrl: string -> bool): Validated<SynthesizeRequest> {
    if !body.Obj? then Rejected
    else
      var text := TextField(body.props);
      var language := LanguageField(body.props);
      var speaker := SpeakerField(body.props);
      var base64 := OptionalString(body.props, "speaker_wav_base64");
      var url := OptionalUrl(body.props, "speaker_wav_url", isUrl);
      var store := StoreField(body.props);
      if text.Rejected? || language.Rejected? || speaker.Rejected? || base64.Rejected? || url.Rejected? || store.Rejected? then
        Rejected
      else if !(Present(base64.value) || Present(url.value) || Present(speaker.value)) then Rejected
      else Accepted(SynthesizeRequest(text.value, language.value, speaker.value, base64.value, url.value, store.value))
  }

  /**
   * An accepted request has 1 to 800 characters of text and at least one
   * reference; it is refused for want of a reference only when base64, URL
   * and speaker id are all empty or null. An absent speaker id means
   * "default", so a body with just a text is accepted.
   */
  lemma SynthesizeValidation(body: JsValue, isUrl: string -> bool)
    ensures var r := ParseSynthesize(body, isUrl);
      r.Accepted? ==>
        && 1 <= |r.value.text| <= MaxTextLength
        && (Present(r.value.base64) || Present(r.value.url) || Present(r.value.speakerId))
    ensures body.Obj? && Lookup(body.props, "speaker_id").None? ==>
      SpeakerField(body.props) == Accepted(Some("default"))
    ensures body.Obj? && Lookup(body.props, "language").None? ==> LanguageField(body.props) == Accepted("en")
  {
  }

  /**
   * The converse of `SynthesizeValidation`: a body whose fields are each
   * well typed is accepted exactly when a base64 clip, a URL or a speaker id
   * is non-empty, so a reference is the only thing left to refuse it for.
   */
  lemma SynthesizeNeedsReference(body: JsValue, isUrl: string -> bool)
    requires body.Obj?
    requires TextField(body.props).Accepted? && LanguageField(body.props).Accepted?
    requires SpeakerField(body.props).Accepted? && StoreField(body.props).Accepted?
    requires OptionalString(body.props, "speaker_wav_base64").Accepted?
    requires OptionalUrl(body.props, "speaker_wav_url", isUrl).Accepted?
    ensures ParseSynthesize(body, isUrl).Accepted? <==>
      || Present(OptionalString(body.props, "speaker_wav_base64").value)
      || Present(OptionalUrl(body.props, "speaker_wav_url", isUrl).value)
      || Present(SpeakerField(body.props).value)
  {
  }

  /** A body carrying only a text of acceptable length asks for the default voice in English. */
  lemma TextOnlyBody(text: string, isUrl: string -> bool)
    requires 1 <= |text| <= MaxTextLength
    ensures ParseSynthesize(Obj([Prop("text", Str(text))]), isUrl)
      == Accepted(SynthesizeRequest(text, "en", Some("default"), None, None, false))
  {
    var props := [Prop("text", Str(text))];
    assert Lookup(props, "text") == Some(Str(text));
    assert Lookup(props, "language").None?;
    assert Lookup(props, "speaker_id").None?;
    assert Lookup(props, "speaker_wav_base64").None?;
    assert Lookup(props, "speaker_wav_url").None?;
    assert Lookup(props, "store_generated_audio").None?;
    assert "default" != "";
  }

  /** A body whose fields hold a text, a language and a speaker id, and no clip, parses to that request. */
  lemma ParseSpeakerBody(props: seq<Prop>, t: string, l: string, v: string, isUrl: string -> bool)
    requires 1 <= |t| <= MaxTextLength && v != ""
    requires Lookup(props, "text") == Some(Str(t)) && Lookup(props, "language") == Some(Str(l))
    requires Lookup(props, "speaker_id") == Some(Str(v))
    requires Lookup(props, "store_generated_audio") == Some(Bool(false))
    requires Lookup(props, "speaker_wav_base64").None? && Lookup(props, "speaker_wav_url").None?
    ensures ParseSynthesize(Obj(props), isUrl) == Accepted(SynthesizeRequest(t, l, Some(v), None, None, false))
  {
    assert TextField(props) == Accepted(t);
    assert LanguageField(props) == Accepted(l);
    assert SpeakerField(props) == Accepted(Some(v));
    assert OptionalString(props, "speaker_wav_base64") == Accepted(None);
    assert OptionalUrl(props, "speaker_wav_url", isUrl) == Accepted(None);
    assert StoreField(props) == Accepted(false);
    assert Present(Some(v));
  }

  /** The widget's body carries no clip. */
  lemma WidgetBodyHasNoClip(t: JsValue, l: JsValue, v: JsValue)
    ensures var props := [Prop("text", t), Prop("language", l), Prop("speaker_id", v),
                          Prop("store_generated_audio", Bool(false))];
      Lookup(props, "speaker_wav_base64").None? && Lookup(props, "speaker_wav_url").None?
  {
    var props := [Prop("text", t), Prop("language", l), Prop("speaker_id", v),
                  Prop("store_generated_audio", Bool(false))];
    forall i | 0 <= i < |props|
      ensures props[i].key != "speaker_wav_base64" && props[i].key != "speaker_wav_url"
    {
      assert |props[i].key| != 18 && |props[i].key| != 15;
    }
  }

  /**
   * What the widget sends is always accepted when its trimmed text fits:
   * the text, the chosen language and voice, no clip, and no storage.
   */
  lemma WidgetPayloadAccepted(text: string, language: string, voice: string, isUrl: string -> bool)
    requires 1 <= |JsTrim(text)| <= MaxTextLength
    ensures var p := TtsWidget.SpeakPayload(text, language, voice);
      p.Some? && ParseSynthesize(p.value, isUrl) == Accepted(SynthesizeRequest(
        JsTrim(text), if language == "" then "en" else language,
        Some(if voice == "" then "default" else voice), None, None, false))
  {
    var l := if language == "" then "en" else language;
    var v := if voice == "" then "default" else voice;
    assert Or(Str(language), Str("en")) == Str(l);
    assert Or(Str(voice), Str("default")) == Str(v);
    TtsWidget.BodyFields(Str(JsTrim(text)), Str(l), Str(v));
    WidgetBodyHasNoClip(Str(JsTrim(text)), Str(l), Str(v));
    var props := [Prop("text", Str(JsTrim(text))), Prop("language", Str(l)), Prop("speaker_id", Str(v)),
                  Prop("store_generated_audio", Bool(false))];
    ParseSpeakerBody(props, JsTrim(text), l, v, isUrl);
  }

  // ---------------------------------------------------------------------
  // Choosing the reference clip

  /** What the handler answers, in place of an exception or a response model. */
  datatype Reply =
    | Audio(format: string, sampleRate: int, audioBase64: string)
    | Created(voiceId: string, displayName: string, language: string)
    | HttpError(status: int, detail: string)

  const InternalError: string := "Internal Server Error"
  const DefaultSampleRate: int := 24000

  /**
   * What the handler cannot see, as parameters: whether `b64decode`
   * accepts a text, the error `requests` reports for a URL (None when the
   * download works), and the names `NamedTemporaryFile` picks.
   */
  datatype Io = Io(decodes: string -> bool, downloadError: string -> Option<string>,
                   clipTemp: string, outputTemp: string)

  /** The reference the synthesis uses. */
  datatype Reference = TempClip(path: string) | VoiceFile(path: string) | NoReference(status: int, detail: string)

  /** A clip written from base64 or downloaded into a temporary file, or the error raised on the way. */
  function TempSource(base64: Option<string>, url: Option<string>, io: Io): Reference {
    if Present(base64) then
      if io.decodes(base64.value) then TempClip(io.clipTemp) else NoReference(400, "Invalid base64 payload")
    else if Present(url) then
      match io.downloadError(url.value)
      case None => TempClip(io.clipTemp)
      case Some(e) => NoReference(400, "Unable to download voice sample: " + e)
    else NoReference(400, "No voice source provided")
  }

  /** The `if`/`elif` chain of `synthesize`. */
  function ChooseReference(req: SynthesizeRequest, table: Voices.Table, files: set<string>, io: Io): Reference {
    if Present(req.base64) || Present(req.url) then TempSource(req.base64, req.url, io)
    else if Present(req.speakerId) then
      match Voices.VoicePathOf(table, files, req.speakerId.value)
      case VoicePath(p) => VoiceFile(p)
      case NoPath => NoReference(404, "Unknown speaker_id '" + req.speakerId.value + "'")
      case LookupRaised(_) => NoReference(500, InternalError)
    else NoReference(400, "No speaker reference provided")
  }

  /**
   * A base64 clip wins over a URL, which wins over a registered speaker; an
   * unknown speaker, or one whose file is gone, is a 404. Only clips from
   * base64 or a URL are temporary.
   */
  lemma ReferencePrecedence(req: SynthesizeRequest, table: Voices.Table, files: set<string>, io: Io)
    ensures var r := ChooseReference(req, table, files, io);
      && (Present(req.base64) ==> r == (if io.decodes(req.base64.value) then TempClip(io.clipTemp)
                                        else NoReference(400, "Invalid base64 payload")))
      && (!Present(req.base64) && Present(req.url) ==>
            (r.TempClip? <==> io.downloadError(req.url.value).None?) && (r.NoReference? ==> r.status == 400))
      && (!Present(req.base64) && !Present(req.url) && Present(req.speakerId) ==>
            && (r.VoiceFile? <==> Voices.VoicePathOf(table, files, req.speakerId.value).VoicePath?)
            && (Voices.VoicePathOf(table, files, req.speakerId.value).NoPath? ==>
                  r == NoReference(404, "Unknown speaker_id '" + req.speakerId.value + "'"))
            && (req.speakerId.value !in table.meta ==> r.NoReference? && r.status == 404))
      && (r.TempClip? ==> r.path == io.clipTemp && (Present(req.base64) || Present(req.url)))
  {
  }

  // ---------------------------------------------------------------------
  // Synthesis

  /** What the synthesis itself does, as parameters: the loader's error, the model's success, the audio and its sample rate. */
  datatype Tts = Tts(loadError: Option<string>, succeeds: bool, audioBase64: string, sampleRate: Option<int>)

  /** The final path component, `Path.name`. */
  function BaseName(path: string): string {
    Voices.LastComponent(path)
  }

  /** Where a stored clip goes: `store_dir / result_path.name`. */
  function StoredPath(storeDir: string, output: string): string {
    storeDir + "/" + BaseName(output)
  }

  /** The temporary clip the reference created, if any. */
  function TempFiles(r: Reference): seq<string> {
    if r.TempClip? then [r.path] else []
  }

  /** The paths that exist once the reference is had: the temporary clip is new. */
  function WithClip(files: set<string>, r: Reference): set<string> {
    if r.TempClip? then files + {r.path} else files
  }

  /** `synthesize(payload)`: the existing paths afterwards and the reply. */
  function Synthesis(files: set<string>, req: SynthesizeRequest, table: Voices.Table, storeDir: string,
                     io: Io, tts: Tts): (set<string>, Reply)
  {
    if tts.loadError.Some? then (files, HttpError(503, "XTTS model unavailable: " + tts.loadError.value))
    else
      var r := ChooseReference(req, table, files, io);
      var withClip := WithClip(files, r);
      if r.NoReference? then (Removed(withClip, TempFiles(r)), HttpError(r.status, r.detail))
      else
        var withOutput := withClip + {io.outputTemp};
        if !tts.succeeds then (Removed(withOutput, TempFiles(r)), HttpError(500, InternalError))
        else
          var stored := if req.store then withOutput + {StoredPath(storeDir, io.outputTemp)} else withOutput;
          (Removed(stored, TempFiles(r)) - {io.outputTemp},
           Audio("wav", tts.sampleRate.GetOr(DefaultSampleRate), tts.audioBase64))
  }

  /**
   * Without a model the answer is 503 and nothing is touched. A successful
   * synthesis answers "wav" at the clip's sample rate, or 24000 when it
   * cannot be read, and leaves behind only the stored copy when one was
   * asked for: the temporary clip and the output file are removed and a
   * registered voice file is kept.
   */
  lemma SynthesisSucceeds(files: set<string>, req: SynthesizeRequest, table: Voices.Table, storeDir: string,
                          io: Io, tts: Tts)
    requires tts.loadError.None? && tts.succeeds
    requires io.clipTemp !in files && io.outputTemp !in files && io.clipTemp != io.outputTemp
    requires StoredPath(storeDir, io.outputTemp) != io.outputTemp && StoredPath(storeDir, io.outputTemp) != io.clipTemp
    requires !ChooseReference(req, table, files, io).NoReference?
    ensures var (files', reply) := Synthesis(files, req, table, storeDir, io, tts);
      && reply == Audio("wav", if tts.sampleRate.Some? then tts.sampleRate.value else 24000, tts.audioBase64)
      && files' == files + (if req.store then {StoredPath(storeDir, io.outputTemp)} else {})
      && (ChooseReference(req, table, files, io).VoiceFile? ==> ChooseReference(req, table, files, io).path in files')
  {
    var r := ChooseReference(req, table, files, io);
    var withOutput := WithClip(files, r) + {io.outputTemp};
    var stored := if req.store then withOutput + {StoredPath(storeDir, io.outputTemp)} else withOutput;
    RemovedTemps(stored, r);
    if r.VoiceFile? {
      assert r.path in files;
    }
  }

  /** Without a model nothing else happens. */
  lemma SynthesisNeedsModel(files: set<string>, req: SynthesizeRequest, table: Voices.Table, storeDir: string,
                            io: Io, tts: Tts)
    requires tts.loadError.Some?
    ensures Synthesis(files, req, table, storeDir, io, tts) ==
      (files, HttpError(503, "XTTS model unavailable: " + tts.loadError.value))
  {
  }

  /**
   * When the reference cannot be had, the error is answered and no
   * temporary file is left; when the model fails, the temporary clip is
   * removed but the output file stays behind, because the handler only
   * removes the output once the synthesis has returned.
   */
  lemma SynthesisFails(files: set<string>, req: SynthesizeRequest, table: Voices.Table, storeDir: string,
                       io: Io, tts: Tts)
    requires tts.loadError.None?
    requires io.clipTemp !in files && io.outputTemp !in files && io.clipTemp != io.outputTemp
    ensures var r := ChooseReference(req, table, files, io);
      var (files', reply) := Synthesis(files, req, table, storeDir, io, tts);
      && (r.NoReference? ==> files' == files && reply == HttpError(r.status, r.detail))
      && (!r.NoReference? && !tts.succeeds ==> files' == files + {io.outputTemp} && reply == HttpError(500, InternalError))
  {
    var r := ChooseReference(req, table, files, io);
    RemovedTemps(WithClip(files, r), r);
    RemovedTemps(WithClip(files, r) + {io.outputTemp}, r);
  }

  /** The paths left after unlinking `paths` one after the other; a missing path is skipped. */
  function Removed(files: set<string>, paths: seq<string>): set<string>
    decreases |paths|
  {
    if paths == [] then files else Removed(files, paths[..|paths| - 1]) - {paths[|paths| - 1]}
  }

  /** A path survives exactly when it existed and was not queued for removal. */
  lemma {:induction false} RemovedMembers(files: set<string>, paths: seq<string>, x: string)
    ensures x in Removed(files, paths) <==> x in files && x !in paths
    decreases |paths|
  {
    if paths != [] {
      var init := paths[..|paths| - 1];
      RemovedMembers(files, init, x);
      assert paths == init + [paths[|paths| - 1]];
      assert x in paths <==> x in init || x == paths[|paths| - 1];
    }
  }

  /** Unlinking the temporary files of a reference removes its clip and nothing else. */
  lemma RemovedTemps(files: set<string>, r: Reference)
    ensures Removed(files, TempFiles(r)) == if r.TempClip? then files - {r.path} else files
  {
    if r.TempClip? {
      assert [r.path][..0] == [];
    }
  }

  /** The `finally` loop: every queued temporary file is unlinked, missing ones ignored. */
  method RemoveAll(registry: Voices.VoiceRegistry, temps: seq<string>)
    modifies registry
    ensures registry.files == Removed(old(registry.files), temps)
    ensures registry.table == old(registry.table) && registry.registryFile == old(registry.registryFile)
  {
    var i := 0;
    while i < |temps|
      invariant 0 <= i <= |temps|
      invariant registry.files == Removed(old(registry.files), temps[..i])
      invariant registry.table == old(registry.table) && registry.registryFile == old(registry.registryFile)
    {
      assert temps[..i + 1][..i] == temps[..i];
      registry.files := registry.files - {temps[i]};
      i := i + 1;
    }
    assert temps[..i] == temps;
  }

  /** The clip written or downloaded for a reference (`_base64_to_temp` / `_download_to_temp`), or the error raised. */
  method WriteTempClip(registry: Voices.VoiceRegistry, base64: Option<string>, url: Option<string>, io: Io)
    returns (r: Reference)
    modifies registry
    ensures r == TempSource(base64, url, io)
    ensures registry.files == WithClip(old(registry.files), r)
    ensures registry.table == old(registry.table) && registry.registryFile == old(registry.registryFile)
  {
    if Present(base64) {
      if !io.decodes(base64.value) {
        return NoReference(400, "Invalid base64 payload");
      }
    } else if Present(url) {
      var e := io.downloadError(url.value);
      if e.Some? {
        return NoReference(400, "Unable to download voice sample: " + e.value);
      }
    } else {
      return NoReference(400, "No voice source provided");
    }
    registry.files := registry.files + {io.clipTemp};
    r := TempClip(io.clipTemp);
  }

  /** `synthesize(payload)`: the reply, with the registry's paths updated as `Synthesis` says. */
  method Synthesize(registry: Voices.VoiceRegistry, req: SynthesizeRequest, storeDir: string, io: Io, tts: Tts)
    returns (reply: Reply)
    modifies registry
    ensures (registry.files, reply) == Synthesis(old(registry.files), req, registry.table, storeDir, io, tts)
    ensures registry.table == old(registry.table) && registry.registryFile == old(registry.registryFile)
  {
    if tts.loadError.Some? {
      return HttpError(503, "XTTS model unavailable: " + tts.loadError.value);
    }
    ghost var files0 := registry.files;
    var r: Reference;
    if Present(req.base64) || Present(req.url) {
      r := WriteTempClip(registry, req.base64, req.url, io);
    } else if Present(req.speakerId) {
      var found := Voices.VoicePathOf(registry.table, registry.files, req.speakerId.value);
      if found.VoicePath? {
        r := VoiceFile(found.path);
      } else if found.NoPath? {
        r := NoReference(404, "Unknown speaker_id '" + req.speakerId.value + "'");
      } else {
        r := NoReference(500, InternalError);
      }
    } else {
      r := NoReference(400, "No speaker reference provided");
    }
    assert r == ChooseReference(req, registry.table, files0, io);
    assert registry.files == WithClip(files0, r);
    var temps := TempFiles(r);
    var result: Option<string> := None;
    if r.NoReference? {
      reply := HttpError(r.status, r.detail);
    } else {
      registry.files := registry.files + {io.outputTemp};
      if !tts.succeeds {
        reply := HttpError(500, InternalError);
      } else {
        result := Some(io.outputTemp);
        if req.store {
          registry.files := registry.files + {StoredPath(storeDir, io.outputTemp)};
        }
        reply := Audio("wav", tts.sampleRate.GetOr(DefaultSampleRate), tts.audioBase64);
      }
    }
    // finally
    RemoveAll(registry, temps);
    if result.Some? {
      registry.files := registry.files - {result.value};
    }
  }

  // ---------------------------------------------------------------------
  // Registering a voice

  /** `register_voice(payload)` with the id `uuid4().hex` draws: the state afterwards and the reply. */
  function RegisterEndpoint(s: Voices.State, storageDir: string, req: RegistrationRequest, io: Io, voiceId: string)
    : (Voices.State, Reply)
    requires s.table.Valid()
  {
    var r := TempSource(req.base64, req.url, io);
    if r.NoReference? then (s, HttpError(r.status, r.detail))
    else
      var withClip := s.(files := s.files + {r.path});
      var (after, registered) := Voices.Register(withClip, storageDir, r.path, voiceId, req.displayName, req.language);
      var cleaned := after.(files := after.files - {r.path});
      match registered
      case Registered(meta) =>
        (cleaned, Created(meta["voice_id"], meta["display_name"], meta["language"]))
      case RegisterRaised(_) => (cleaned, HttpError(500, InternalError))
  }

  /**
   * A base64 clip is preferred over a URL. The temporary clip never
   * outlives the request, and a successful registration answers with the
   * new voice's public fields while its copied file stays.
   */
  lemma RegisterEndpointOutcome(s: Voices.State, storageDir: string, req: RegistrationRequest, io: Io, voiceId: string)
    requires s.table.Valid()
    requires io.clipTemp !in s.files
    requires Voices.TargetPath(storageDir, io.clipTemp, voiceId) != io.clipTemp
    ensures var (s', reply) := RegisterEndpoint(s, storageDir, req, io, voiceId);
      && io.clipTemp !in s'.files
      && (Present(req.base64) ==> (reply.Created? <==> io.decodes(req.base64.value)))
      && (reply.Created? ==>
            && reply.voiceId == voiceId
            && reply.displayName == (if Present(req.displayName) then req.displayName.value else Voices.DefaultDisplayName(voiceId))
            && reply.language == (if Present(req.language) then req.language.value else "en")
            && Voices.TargetPath(storageDir, io.clipTemp, voiceId) in s'.files
            && voiceId in s'.table.meta)
  {
    var r := TempSource(req.base64, req.url, io);
    if !r.NoReference? {
      assert r.path == io.clipTemp;
      var withClip := s.(files := s.files + {r.path});
      var target := Voices.TargetPath(storageDir, r.path, voiceId);
      var meta := Voices.NewMetadata(voiceId, req.displayName, req.language, target);
      var (after, registered) := Voices.Register(withClip, storageDir, r.path, voiceId, req.displayName, req.language);
      assert registered == Voices.Registered(meta);
      assert after.files == withClip.files + {target};
      assert voiceId in after.table.meta;
      Voices.NewMetadataFields(voiceId, req.displayName, req.language, target);
    }
  }

  /** `register_voice(payload)` on the registry. */
  method RegisterVoice(registry: Voices.VoiceRegistry, req: RegistrationRequest, io: Io, voiceId: string)
    returns (reply: Reply)
    requires registry.Valid()
    modifies registry
    ensures registry.Valid()
    ensures (registry.Snapshot(), reply) == RegisterEndpoint(old(registry.Snapshot()), registry.storageDir, req, io, voiceId)
  {
    var r := WriteTempClip(registry, req.base64, req.url, io);
    if r.NoReference? {
      return HttpError(r.status, r.detail);
    }
    var registered := registry.RegisterVoice(r.path, voiceId, req.displayName, req.language);
    if registered.Registered? {
      var meta := registered.meta;
      reply := Created(meta["voice_id"], meta["display_name"], meta["language"]);
    } else {
      reply := HttpError(500, InternalError);
    }
    // finally
    registry.files := registry.files - {r.path};
  }

  // ---------------------------------------------------------------------
  // Configuration published to the widget

  /** `{"id": key, "label": value}` for one entry of the loader's language map. */
  function LanguageJson(id: string, caption: string): JsValue {
    Obj([Prop("id", Str(id)), Prop("label", Str(caption))])
  }

  /** A public voice record as JSON; a missing field is `null`. */
  function VoiceJson(v: Voices.PublicVoice): JsValue {
    Obj([Prop("voice_id", OptionJson(v.voiceId)), Prop("display_name", OptionJson(v.displayName)),
         Prop("language", OptionJson(v.language))])
  }

  function OptionJson(x: Option<string>): JsValue {
    if x.Some? then Str(x.value) else Null
  }

  /** The languages and voices of `get_config`, as the widget receives them. */
  function ConfigJson(languages: seq<(string, string)>, voices: seq<Voices.PublicVoice>): JsValue {
    Obj([Prop("languages", Arr(seq(|languages|, i requires 0 <= i < |languages| => LanguageJson(languages[i].0, languages[i].1)))),
         Prop("voices", Arr(seq(|voices|, i requires 0 <= i < |voices| => VoiceJson(voices[i]))))])
  }

  /** The widget offers each published language under its id, labelled "label (id)". */
  lemma WidgetLanguage(id: string, caption: string)
    ensures TtsWidget.LanguageChoice(LanguageJson(id, caption)) == Some(TtsWidget.Choice(Str(id), caption + " (" + id + ")"))
  {
    var props := [Prop("id", Str(id)), Prop("label", Str(caption))];
    assert Lookup(props[1..], "label") == Some(Str(caption));
  }

  /**
   * The widget offers each registered voice under its id, labelled with
   * its display name and language; `ensure_default_voice`'s entry reads
   * "Default voice (…)".
   */
  lemma WidgetVoice(v: Voices.PublicVoice)
    requires Present(v.voiceId) && Present(v.displayName) && Present(v.language)
    ensures TtsWidget.VoiceChoice(VoiceJson(v)) ==
      Some(TtsWidget.Choice(Str(v.voiceId.value), v.displayName.value + " (" + v.language.value + ")"))
  {
    var props := VoiceJson(v).props;
    assert Lookup(props[1..], "display_name") == Some(Str(v.displayName.value));
    assert Lookup(props[1..][1..], "language") == Some(Str(v.language.value));
    assert Lookup(props[1..], "language") == Some(Str(v.language.value));
  }

  /** The voices of the published configuration, as the widget reads them. */
  lemma ConfigVoices(languages: seq<(string, string)>, voices: seq<Voices.PublicVoice>)
    ensures Get(ConfigJson(languages, voices), "voices")
      == Arr(seq(|voices|, i requires 0 <= i < |voices| => VoiceJson(voices[i])))
  {
    var config := ConfigJson(languages, voices);
    assert Lookup(config.props[1..], "voices") == Some(Arr(seq(|voices|, i requires 0 <= i < |voices| => VoiceJson(voices[i]))));
  }

  /** The widget's voice choices are one per published voice. */
  lemma ConfigVoiceChoices(languages: seq<(string, string)>, voices: seq<Voices.PublicVoice>)
    requires voices != []
    ensures TtsWidget.ChoicesOf(GetProp(ConfigJson(languages, voices), "voices").value, TtsWidget.VoiceChoice,
                                TtsWidget.DefaultVoiceChoice)
      == TtsWidget.MapChoices(seq(|voices|, i requires 0 <= i < |voices| => VoiceJson(voices[i])), TtsWidget.VoiceChoice)
  {
    ConfigVoices(languages, voices);
  }

  /** With at least one registered voice the widget selects the first one listed. */
  lemma WidgetSelectsFirstVoice(languages: seq<(string, string)>, voices: seq<Voices.PublicVoice>)
    requires voices != [] && voices[0].voiceId.Some?
    ensures var l := TtsWidget.LoadConfig(TtsWidget.Answered(ConfigJson(languages, voices)));
      l.Lists? ==> l.voice == voices[0].voiceId.value
  {
    var items := seq(|voices|, i requires 0 <= i < |voices| => VoiceJson(voices[i]));
    ConfigVoices(languages, voices);
    TtsWidget.LoadedLists(TtsWidget.Answered(ConfigJson(languages, voices)));
    assert items[0] == VoiceJson(voices[0]);
    assert GetProp(items[0], "voice_id") == Some(Str(voices[0].voiceId.value));
  }
}
