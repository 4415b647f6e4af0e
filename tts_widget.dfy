/**
 * The speech widget of the home page (public/script.js): where it finds the
 * speech service, how it reports status, the request it sends, how it fills
 * its language and voice lists from the service's configuration, and the
 * byte loop that turns decoded audio into a blob. The DOM is reduced to the
 * state these functions write; `fetch`, `atob` and the audio element are
 * parameters or left out.
 */
module TtsWidget {
  import opened Wrappers
  import opened JsValues
  import opened Text
  import opened PercentCoding

  const LocalBaseUrl: string := "http://localhost:8081"

  // ---------------------------------------------------------------------
  // Base URL

  /**
   * `DEFAULT_TTS_BASE_URL`: `window.TTS_BASE_URL` when it is set, otherwise
   * the local service. An unset setting is written "" (both are falsy).
   */
  function DefaultBaseUrl(windowUrl: string): string {
    if windowUrl != "" then windowUrl else LocalBaseUrl
  }

  /** `s.replace(/\/$/, '')`: one '/' at the very end is removed. */
  function StripTrailingSlash(s: string): (r: string)
    ensures |r| == |s| || |r| == |s| - 1
  {
    if s != "" && s[|s| - 1] == '/' then s[..|s| - 1] else s
  }

  /** `normaliseBaseUrl(rawUrl)`, with the default in force passed as `fallback`. */
  function NormaliseBaseUrl(fallback: string, raw: string): string {
    if raw == "" then fallback
    else if StripTrailingSlash(raw) == "" then fallback
    else StripTrailingSlash(raw)
  }

  /**
   * The default replaces an empty input or a lone "/"; any other input loses
   * exactly one trailing slash if it has one, and is kept otherwise.
   */
  lemma NormaliseSpec(fallback: string, raw: string)
    ensures raw == "" || raw == "/" ==> NormaliseBaseUrl(fallback, raw) == fallback
    ensures raw != "" && raw != "/" ==>
      var r := NormaliseBaseUrl(fallback, raw);
      r != "" && (if raw[|raw| - 1] == '/' then raw == r + "/" else r == raw)
  {
    if raw != "" && raw != "/" && raw[|raw| - 1] == '/' {
      assert raw == raw[..|raw| - 1] + "/";
    }
  }

  /** Only one slash goes: `a//` becomes `a/`. */
  lemma OnlyOneSlashStripped(fallback: string, s: string)
    requires s != ""
    ensures NormaliseBaseUrl(fallback, s + "//") == s + "/"
  {
    assert (s + "//")[..|s| + 1] == s + "/";
  }

  /**
   * Normalising twice is normalising once when the input does not end in
   * "//" and the default has no trailing slash.
   */
  lemma NormaliseIdempotent(fallback: string, raw: string)
    requires fallback == "" || fallback[|fallback| - 1] != '/'
    requires !(|raw| >= 2 && raw[|raw| - 2..] == "//")
    ensures NormaliseBaseUrl(fallback, NormaliseBaseUrl(fallback, raw)) == NormaliseBaseUrl(fallback, raw)
  {
    NormaliseSpec(fallback, raw);
    var r := NormaliseBaseUrl(fallback, raw);
    if r != fallback && raw[|raw| - 1] == '/' {
      assert raw[|raw| - 2..] == [r[|r| - 1], '/'];
    }
  }

  /** With the input "a//" a second pass strips another slash: the function is not idempotent there. */
  lemma NotIdempotentOnDoubleSlash()
    ensures NormaliseBaseUrl(LocalBaseUrl, "a//") == "a/"
    ensures NormaliseBaseUrl(LocalBaseUrl, NormaliseBaseUrl(LocalBaseUrl, "a//")) == "a"
  {
    OnlyOneSlashStripped(LocalBaseUrl, "a");
    assert "a" + "//" == "a//";
    assert ("a/")[..1] == "a";
  }

  /**
   * `getTtsBaseUrl(widgetEl)`. `widget` is None when there is no widget
   * element, and otherwise holds its `data-tts-base-url` attribute (None
   * when the attribute is absent).
   */
  function GetTtsBaseUrl(windowUrl: string, widget: Option<Option<string>>): string {
    var fallback := DefaultBaseUrl(windowUrl);
    if windowUrl != "" then NormaliseBaseUrl(fallback, windowUrl)
    else if widget.None? then NormaliseBaseUrl(fallback, "")
    else
      match widget.value
      case Some(attr) =>
        if attr != "" && JsTrim(attr) != "" then NormaliseBaseUrl(fallback, JsTrim(attr))
        else NormaliseBaseUrl(fallback, "")
      case None => NormaliseBaseUrl(fallback, "")
  }

  /**
   * The page setting wins, then a non-blank attribute of the widget
   * (trimmed), and only then the local service.
   */
  lemma BaseUrlPrecedence(windowUrl: string, widget: Option<Option<string>>)
    ensures windowUrl != "" ==> GetTtsBaseUrl(windowUrl, widget) == NormaliseBaseUrl(windowUrl, windowUrl)
    ensures windowUrl == "" && widget.Some? && widget.value.Some? && JsTrim(widget.value.value) != "" ==>
      GetTtsBaseUrl(windowUrl, widget) == NormaliseBaseUrl(LocalBaseUrl, JsTrim(widget.value.value))
    ensures windowUrl == "" && !(widget.Some? && widget.value.Some? && JsTrim(widget.value.value) != "") ==>
      GetTtsBaseUrl(windowUrl, widget) == LocalBaseUrl
  {
    if windowUrl == "" && widget.Some? && widget.value.Some? && JsTrim(widget.value.value) != "" {
      assert widget.value.value != "";
    }
  }

  // ---------------------------------------------------------------------
  // Status line

  const ToneClasses: set<string> := {"text-red-600", "text-green-700", "text-gray-700"}

  /** The colour class for a tone: red for errors, green for success, grey otherwise. */
  function ToneClass(tone: string): (c: string)
    ensures c in ToneClasses
    ensures c == "text-red-600" <==> tone == "error"
    ensures c == "text-green-700" <==> tone == "success"
  {
    if tone == "error" then "text-red-600"
    else if tone == "success" then "text-green-700"
    else "text-gray-700"
  }

  /** The status element `#ttsStatus`: its text and its class list. */
  class StatusLine {
    var text: string
    var classes: set<string>

    constructor (text: string, classes: set<string>)
      ensures this.text == text && this.classes == classes
    {
      this.text := text;
      this.classes := classes;
    }
  }

  /** The class list after a status update: the old tone removed, the new one added for a non-empty message. */
  function StatusClasses(classes: set<string>, message: string, tone: string): (r: set<string>)
    ensures message == "" ==> r * ToneClasses == {}
    ensures message != "" ==> r * ToneClasses == {ToneClass(tone)}
    ensures r - ToneClasses == classes - ToneClasses
  {
    (classes - ToneClasses) + (if message == "" then {} else {ToneClass(tone)})
  }

  /** `setTtsStatus(widgetEl, message, tone)`; a widget without a status element is left alone. */
  method SetTtsStatus(status: StatusLine?, message: string, tone: string)
    modifies status
    ensures status != null ==> status.text == message && status.classes == StatusClasses(old(status.classes), message, tone)
  {
    if status == null {
      return;
    }
    status.text := message;
    status.classes := status.classes - ToneClasses;
    if message == "" {
      return;
    }
    status.classes := status.classes + {ToneClass(tone)};
  }

  // ---------------------------------------------------------------------
  // Decoded audio to bytes

  /** The bytes a `Uint8Array` keeps of the char codes: each code modulo 256. */
  function Uint8Codes(binary: string): (r: seq<Byte>)
    ensures |r| == |binary|
    ensures forall i :: 0 <= i < |binary| ==> r[i] == binary[i] as int % 256
  {
    seq(|binary|, i requires 0 <= i < |binary| => binary[i] as int % 256)
  }

  /** The string whose char codes are the given bytes. */
  function Latin1(bytes: seq<Byte>): (r: string)
    ensures |r| == |bytes| && forall i :: 0 <= i < |bytes| ==> r[i] as int == bytes[i]
  {
    seq(|bytes|, i requires 0 <= i < |bytes| => bytes[i] as char)
  }

  /**
   * The loop of `base64ToBlob` over `atob`'s result: one byte per
   * character, in order.
   */
  method CharCodesToBytes(binary: string) returns (bytes: array<Byte>)
    ensures fresh(bytes)
    ensures bytes[..] == Uint8Codes(binary)
  {
    bytes := new Byte[|binary|](_ => 0);
    var i := 0;
    while i < |binary|
      invariant 0 <= i <= |binary|
      invariant forall j :: 0 <= j < i ==> bytes[j] == binary[j] as int % 256
    {
      bytes[i] := binary[i] as int % 256;
      i := i + 1;
    }
  }

  /**
   * `atob` yields characters below 256 only, and for those the bytes are
   * the char codes themselves: reading them back gives the string again.
   */
  lemma BytesReadBack(binary: string)
    requires forall i :: 0 <= i < |binary| ==> binary[i] as int < 256
    ensures Latin1(Uint8Codes(binary)) == binary
  {
    var r := Latin1(Uint8Codes(binary));
    forall i | 0 <= i < |binary| ensures r[i] == binary[i] {
      assert r[i] as int == binary[i] as int;
    }
  }

  // ---------------------------------------------------------------------
  // Speaking

  const BlankTextMessage: string := "Please provide some text to synthesize."
  const SpeechFailedMessage: string := "Speech synthesis failed. Check the console for details."

  /** What the widget does when asked to speak: nothing for blank text, otherwise this JSON body. */
  function SpeakPayload(text: string, language: string, voice: string): Option<JsValue> {
    var t := JsTrim(text);
    if t == "" then None
    else Some(Obj([
      Prop("text", Str(t)),
      Prop("language", Or(Str(language), Str("en"))),
      Prop("speaker_id", Or(Str(voice), Str("default"))),
      Prop("store_generated_audio", Bool(false))]))
  }

  /**
   * Blank text sends nothing. Otherwise the body carries the trimmed text,
   * the selected language or "en", the selected voice or "default", and
   * asks the service not to store the audio.
   */
  lemma PayloadFields(text: string, language: string, voice: string)
    ensures SpeakPayload(text, language, voice).None? <==> JsTrim(text) == ""
    ensures var p := SpeakPayload(text, language, voice);
      p.Some? ==>
        && Get(p.value, "text") == Str(JsTrim(text))
        && Get(p.value, "language") == Str(if language == "" then "en" else language)
        && Get(p.value, "speaker_id") == Str(if voice == "" then "default" else voice)
        && Get(p.value, "store_generated_audio") == Bool(false)
  {
    if JsTrim(text) != "" {
      BodyFields(Str(JsTrim(text)), Or(Str(language), Str("en")), Or(Str(voice), Str("default")));
    }
  }

  /** Each field of the request body reads back as written. */
  lemma BodyFields(t: JsValue, l: JsValue, v: JsValue)
    ensures var props := [Prop("text", t), Prop("language", l), Prop("speaker_id", v),
                          Prop("store_generated_audio", Bool(false))];
      && Lookup(props, "text") == Some(t) && Lookup(props, "language") == Some(l)
      && Lookup(props, "speaker_id") == Some(v) && Lookup(props, "store_generated_audio") == Some(Bool(false))
  {
    var props := [Prop("text", t), Prop("language", l), Prop("speaker_id", v),
                  Prop("store_generated_audio", Bool(false))];
    assert "language"[0] != "text"[0];
    assert "speaker_id"[0] != "text"[0] && "speaker_id"[0] != "language"[0];
    assert "store_generated_audio"[1] != "speaker_id"[1];
    assert "store_generated_audio"[0] != "text"[0] && "store_generated_audio"[0] != "language"[0];
    var tail := props[1..][1..];
    assert tail == [Prop("speaker_id", v), Prop("store_generated_audio", Bool(false))];
    assert Lookup(tail, "speaker_id") == Some(v);
    assert Lookup(tail[1..], "store_generated_audio") == Some(Bool(false));
    assert Lookup(tail, "store_generated_audio") == Some(Bool(false));
  }

  /** What `fetchJson` gave: a thrown error or the parsed body of an OK answer. */
  datatype Fetched = FetchFailed | Answered(body: JsValue)

  /** The status line and audio after a synthesis request. */
  datatype Spoken = Spoken(message: string, tone: string, audio: Option<seq<Byte>>)

  /**
   * `synthesizeSpeech` once the request is sent: the audio is decoded with
   * `atob` (None when it throws) and played, and the sample rate is reported;
   * every failure ends in the same error status.
   */
  function SpeakOutcome(answer: Fetched, atob: string -> Option<string>): Spoken {
    var failed := Spoken(SpeechFailedMessage, "error", None);
    match answer
    case FetchFailed => failed
    case Answered(body) =>
      match GetProp(body, "audio_base64")
      case None => failed
      case Some(audio) =>
        if !Truthy(audio) then failed
        else
          match atob(ToString(audio))
          case None => failed
          case Some(binary) =>
            var rate := Or(GetProp(body, "sample_rate").value, Num(0));
            Spoken("Speech generated (" + ToString(rate) + " Hz)", "success", Some(Uint8Codes(binary)))
  }

  /** Audio is played exactly when the answer carries a truthy `audio_base64` that decodes, and the status is then green. */
  lemma SpeakOutcomeIff(answer: Fetched, atob: string -> Option<string>)
    ensures var s := SpeakOutcome(answer, atob);
      && (s.audio.Some? <==>
        answer.Answered? && GetProp(answer.body, "audio_base64").Some?
        && Truthy(GetProp(answer.body, "audio_base64").value)
        && atob(ToString(GetProp(answer.body, "audio_base64").value)).Some?)
      && (s.tone == "success" <==> s.audio.Some?)
      && (s.audio.None? ==> s.message == SpeechFailedMessage && s.tone == "error")
  {
  }

  /**
   * `synthesizeSpeech(widgetEl)` with its three inputs present: the body sent,
   * if any, and the final status line and audio. Blank text sends nothing
   * and only shows `BlankTextMessage` in red.
   */
  function Speak(text: string, language: string, voice: string, answer: Fetched,
                 atob: string -> Option<string>): (Option<JsValue>, Spoken)
  {
    match SpeakPayload(text, language, voice)
    case None => (None, Spoken(BlankTextMessage, "error", None))
    case Some(body) => (Some(body), SpeakOutcome(answer, atob))
  }

  /** The blank-text status is shown exactly when the trimmed text is empty, and then nothing is sent or played. */
  lemma BlankTextRefused(text: string, language: string, voice: string, answer: Fetched,
                         atob: string -> Option<string>)
    ensures var (sent, status) := Speak(text, language, voice, answer, atob);
      && (status.message == BlankTextMessage <==> JsTrim(text) == "")
      && (JsTrim(text) == "" ==> sent.None? && status == Spoken(BlankTextMessage, "error", None))
      && (JsTrim(text) != "" ==> sent == SpeakPayload(text, language, voice) && sent.Some?)
  {
    PayloadFields(text, language, voice);
    SpeakOutcomeNotBlank(answer, atob);
  }

  /** No outcome of a sent request shows the blank-text message. */
  lemma SpeakOutcomeNotBlank(answer: Fetched, atob: string -> Option<string>)
    ensures SpeakOutcome(answer, atob).message != BlankTextMessage
  {
    SpeakOutcomeIff(answer, atob);
    var status := SpeakOutcome(answer, atob);
    assert BlankTextMessage[0] == 'P';
    if status.audio.Some? {
      assert status.message[0] == 'S';
    } else {
      assert |SpeechFailedMessage| != |BlankTextMessage|;
    }
  }

  // ---------------------------------------------------------------------
  // Configuration

  /** One entry of the lists `loadTtsConfig` builds: a raw value and a label. */
  datatype Choice = Choice(value: JsValue, caption: string)

  /** An `<option>` element: its value, a string once assigned, and its text. */
  datatype SelectOption = SelectOption(value: string, caption: string)

  /** `{ value: lang.id, label: `${lang.label} (${lang.id})` }`; None when `lang` is null or undefined (a TypeError). */
  function LanguageChoice(lang: JsValue): Option<Choice> {
    if lang.Undefined? || lang.Null? then None
    else
      var id := GetProp(lang, "id").value;
      Some(Choice(id, ToString(GetProp(lang, "label").value) + " (" + ToString(id) + ")"))
  }

  /** `{ value: voice.voice_id, label: `${voice.display_name || voice.voice_id} (${voice.language || 'en'})` }`. */
  function VoiceChoice(voice: JsValue): Option<Choice> {
    if voice.Undefined? || voice.Null? then None
    else
      var id := GetProp(voice, "voice_id").value;
      var name := Or(GetProp(voice, "display_name").value, id);
      var language := Or(GetProp(voice, "language").value, Str("en"));
      Some(Choice(id, ToString(name) + " (" + ToString(language) + ")"))
  }

  /** `items.map(f)`, which throws (None) as soon as one item does. */
  function MapChoices(items: seq<JsValue>, f: JsValue -> Option<Choice>): (r: Option<seq<Choice>>)
    ensures r.Some? <==> forall i :: 0 <= i < |items| ==> f(items[i]).Some?
    ensures r.Some? ==> |r.value| == |items| && forall i :: 0 <= i < |items| ==> r.value[i] == f(items[i]).value
  {
    if items == [] then Some([])
    else
      match f(items[0])
      case None => None
      case Some(c) =>
        var rest := MapChoices(items[1..], f);
        if rest.None? then None
        else
          var r := [c] + rest.value;
          assert forall i :: 1 <= i < |items| ==> r[i] == rest.value[i - 1] && items[i] == items[1..][i - 1];
          Some(r)
  }

  /** The choices built from one list of the configuration, with the fallback when it is not a non-empty array. */
  function ChoicesOf(list: JsValue, f: JsValue -> Option<Choice>, fallback: Choice): (r: Option<seq<Choice>>)
    ensures r.Some? ==> r.value != []
    ensures !(list.Arr? && |list.items| > 0) ==> r == Some([fallback])
    ensures list.Arr? && |list.items| > 0 && r.Some? ==>
      |r.value| == |list.items| && forall i :: 0 <= i < |list.items| ==> f(list.items[i]) == Some(r.value[i])
  {
    if list.Arr? && |list.items| > 0 then MapChoices(list.items, f) else Some([fallback])
  }

  /** The `<option>` made for a choice: its value turned into a string, and its label. */
  function OptionFor(c: Choice): SelectOption {
    SelectOption(ToString(c.value), c.caption)
  }

  /** `populateSelect(select, choices)` without a placeholder: one option per choice, its value turned into a string. */
  function Populate(choices: seq<Choice>): (r: seq<SelectOption>)
    ensures |r| == |choices|
    ensures forall i :: 0 <= i < |choices| ==>
      r[i] == OptionFor(choices[i])
  {
    seq(|choices|, i requires 0 <= i < |choices| => OptionFor(choices[i]))
  }

  /**
   * `ensureDefaultOption(select, value, label)`: an option is added unless
   * one already has a value strictly equal to `value`; a string value never
   * equals a number or any other non-string.
   */
  function EnsureOption(options: seq<SelectOption>, value: JsValue, caption: string): (r: seq<SelectOption>)
    ensures |options| <= |r| <= |options| + 1 && r[..|options|] == options
    ensures exists i :: 0 <= i < |r| && r[i].value == ToString(value)
    ensures |r| == |options| <==> exists i :: 0 <= i < |options| && Str(options[i].value) == value
  {
    if exists i :: 0 <= i < |options| && Str(options[i].value) == value then
      var i :| 0 <= i < |options| && Str(options[i].value) == value;
      assert options[i].value == ToString(value);
      options
    else
      var r := options + [SelectOption(ToString(value), caption)];
      assert r[|options|].value == ToString(value);
      r
  }

  const EnglishChoice: Choice := Choice(Str("en"), "English (en)")
  const DefaultVoiceChoice: Choice := Choice(Str("default"), "Default voice (en)")

  const ConfigReadyMessage: string := "Ready to synthesize speech."
  const ConfigFailedMessage: string := "Failed to load TTS configuration. Please verify the voice service is running."

  /**
   * The two select elements after loading, and the selected values; on any
   * failure the status line shows `ConfigFailedMessage`, otherwise
   * `ConfigReadyMessage`.
   */
  datatype Loaded = ConfigFailed | Lists(languages: seq<SelectOption>, voices: seq<SelectOption>,
                                          language: string, voice: string)

  /** `loadTtsConfig(widgetEl)` once the configuration request has answered. */
  function LoadConfig(answer: Fetched): Loaded {
    if answer.FetchFailed? || answer.body.Undefined? || answer.body.Null? then ConfigFailed
    else
      var config := answer.body;
      var languages := ChoicesOf(GetProp(config, "languages").value, LanguageChoice, EnglishChoice);
      var voices := ChoicesOf(GetProp(config, "voices").value, VoiceChoice, DefaultVoiceChoice);
      if languages.None? || voices.None? then ConfigFailed
      else
        var first := voices.value[0];
        Lists(EnsureOption(Populate(languages.value), Str("en"), "English (en)"),
              EnsureOption(Populate(voices.value), first.value, first.caption),
              "en", ToString(first.value))
  }

  /**
   * After a successful load English is always offered and selected, and the
   * language options start with one per language the service lists, or are
   * English alone when it lists none. The first voice is selected and
   * offered, and the voice options start with one per voice the service
   * lists, or are the default voice alone when it lists none.
   */
  lemma LoadedLists(answer: Fetched)
    ensures var l := LoadConfig(answer);
      l.Lists? ==>
        && l.language == "en"
        && (exists i :: 0 <= i < |l.languages| && l.languages[i].value == "en")
        && (Get(answer.body, "languages").Arr? && Get(answer.body, "languages").items != [] ==>
          var items := Get(answer.body, "languages").items;
          |l.languages| >= |items|
          && forall i :: 0 <= i < |items| ==>
            LanguageChoice(items[i]).Some? && l.languages[i] == OptionFor(LanguageChoice(items[i]).value))
        && (!(Get(answer.body, "languages").Arr? && Get(answer.body, "languages").items != []) ==>
          l.languages == [SelectOption("en", "English (en)")])
        && (exists i :: 0 <= i < |l.voices| && l.voices[i].value == l.voice)
        && (Get(answer.body, "voices").Arr? && Get(answer.body, "voices").items != [] ==>
          var items := Get(answer.body, "voices").items;
          |l.voices| >= |items| && l.voices[0].value == l.voice
          && forall i :: 0 <= i < |items| ==>
            VoiceChoice(items[i]).Some? && l.voices[i] == OptionFor(VoiceChoice(items[i]).value))
        && (!(Get(answer.body, "voices").Arr? && Get(answer.body, "voices").items != []) ==>
          l.voices == [SelectOption("default", "Default voice (en)")] && l.voice == "default")
  {
    var l := LoadConfig(answer);
    if l.Lists? {
      var config := answer.body;
      assert ToString(Str("en")) == "en";
      var langList := GetProp(config, "languages").value;
      var list := GetProp(config, "voices").value;
      ConfigList(config, "languages");
      ConfigList(config, "voices");
      var languages := ChoicesOf(langList, LanguageChoice, EnglishChoice).value;
      var choices := ChoicesOf(list, VoiceChoice, DefaultVoiceChoice).value;
      assert l == Lists(EnsureOption(Populate(languages), Str("en"), "English (en)"),
                        EnsureOption(Populate(choices), choices[0].value, choices[0].caption),
                        "en", ToString(choices[0].value));
      LoadedLanguages(langList, languages);
      LoadedVoices(list, choices);
    }
  }

  /** A list member of a configuration that is neither null nor undefined is an array only when read from an object. */
  lemma ConfigList(config: JsValue, key: string)
    requires !config.Undefined? && !config.Null?
    requires key == "languages" || key == "voices"
    ensures var list := GetProp(config, key).value;
      (list.Arr? || Get(config, key).Arr?) ==> list == Get(config, key)
  {
    if !config.Obj? {
      assert Get(config, key) == Undefined;
      assert !GetProp(config, key).value.Arr?;
    }
  }

  /** The language options for the configuration's list of languages. */
  lemma LoadedLanguages(list: JsValue, choices: seq<Choice>)
    requires ChoicesOf(list, LanguageChoice, EnglishChoice) == Some(choices)
    ensures var opts := EnsureOption(Populate(choices), Str("en"), "English (en)");
      && (list.Arr? && list.items != [] ==>
          |opts| >= |list.items|
          && forall i :: 0 <= i < |list.items| ==>
            LanguageChoice(list.items[i]).Some? && opts[i] == OptionFor(LanguageChoice(list.items[i]).value))
      && (!(list.Arr? && list.items != []) ==> opts == [SelectOption("en", "English (en)")])
  {
    var opts := EnsureOption(Populate(choices), Str("en"), "English (en)");
    if list.Arr? && list.items != [] {
      assert forall i :: 0 <= i < |list.items| ==> opts[i] == Populate(choices)[i];
    } else {
      assert choices == [EnglishChoice];
      assert ToString(Str("en")) == "en";
      assert Str(Populate(choices)[0].value) == Str("en");
    }
  }

  /** The voice options and the selected voice for the configuration's list of voices. */
  lemma LoadedVoices(list: JsValue, choices: seq<Choice>)
    requires ChoicesOf(list, VoiceChoice, DefaultVoiceChoice) == Some(choices)
    ensures var opts := EnsureOption(Populate(choices), choices[0].value, choices[0].caption);
      var voice := ToString(choices[0].value);
      && (list.Arr? && list.items != [] ==>
          |opts| >= |list.items| && opts[0].value == voice
          && forall i :: 0 <= i < |list.items| ==>
            VoiceChoice(list.items[i]).Some? && opts[i] == OptionFor(VoiceChoice(list.items[i]).value))
      && (!(list.Arr? && list.items != []) ==>
          opts == [SelectOption("default", "Default voice (en)")] && voice == "default")
  {
    var opts := EnsureOption(Populate(choices), choices[0].value, choices[0].caption);
    if list.Arr? && list.items != [] {
      assert forall i :: 0 <= i < |list.items| ==> opts[i] == Populate(choices)[i];
    } else {
      assert choices == [DefaultVoiceChoice];
      assert ToString(Str("default")) == "default";
      assert Populate(choices)[0].value == "default";
    }
  }

  /** A voice is labelled by its display name, or its id when that is falsy, and its language, or "en". */
  lemma VoiceLabel(voice: JsValue)
    requires voice.Obj?
    ensures VoiceChoice(voice).Some?
    ensures VoiceChoice(voice).value.caption ==
      ToString(Or(Get(voice, "display_name"), Get(voice, "voice_id"))) + " ("
      + ToString(Or(Get(voice, "language"), Str("en"))) + ")"
  {
  }

  /**
   * A voice id that is not a string never matches its own option, so the
   * option is added a second time: the number 7 gives two options "7".
   */
  lemma NumericVoiceIdDuplicated()
    ensures var o := Populate([Choice(Num(7), "x")]);
      EnsureOption(o, Num(7), "x") == [SelectOption("7", "x"), SelectOption("7", "x")]
  {
    var o := Populate([Choice(Num(7), "x")]);
    assert o == [SelectOption(ToString(Num(7)), "x")];
    assert !(exists i :: 0 <= i < |o| && Str(o[i].value) == Num(7));
    assert ToString(Num(7)) == "7" by { assert IntToDecimal(7) == "7"; }
  }
}
