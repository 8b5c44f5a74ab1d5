/** The speech-request translator of tts.py: the TTS entity built from a config entry,
    its effective options, the JSON payload it posts to the server and the mapping of
    the server's reply to an audio result. The HTTP exchange itself is replaced by a
    PostOutcome value supplied by the caller. */
module Tts {
  import opened Values
  import opened PyStrings

  /** What the POST to {url}/tts produced inside the try block: an exception (transport
      error, timeout, unreadable body) or a reply with its status and raw body. */
  datatype PostOutcome = PostRaised | PostReply(status: int, body: seq<byte>)

  /** The request the entity sends: target URL and JSON body. */
  datatype Request = Request(url: string, payload: Dict)

  /** (format, audio) on success, (None, None) otherwise. */
  datatype AudioResult = NoAudio | Audio(format: string, data: seq<byte>)

  const DefaultExaggeration: Value := Number("0.5")
  const DefaultSpeedFactor: Value := Number("1.0")

  /** The payload keys that carry the voice, one per voice mode. */
  const CloneVoiceKey := "reference_audio_filename"
  const PredefinedVoiceKey := "predefined_voice_id"

  /** The keys every payload has, whatever the mode. */
  const BaseKeys: set<string> :=
    {"text", "voice_mode", "output_format", "split_text", "chunk_size", "exaggeration", "speed_factor"}

  /** The configured voice, or "default" when the setup data has none. */
  function RawVoice(data: Dict): (r: string)
    requires "reference_audio_filename" in data ==> data["reference_audio_filename"].Text?
    ensures "reference_audio_filename" !in data ==> r == "default"
  {
    Get(data, "reference_audio_filename", Text("default")).s
  }

  /** Without a configured voice the clean name is "default". */
  lemma NoVoiceCleansToDefault(data: Dict)
    requires "reference_audio_filename" !in data
    ensures CleanVoice(RawVoice(data)) == "default"
  {
    var raw := RawVoice(data);
    DefaultIsClean(raw);
  }

  /** "default" is already a clean name. */
  lemma DefaultIsClean(raw: string)
    requires raw == "default"
    ensures CleanVoice(raw) == raw
  {
    CleanVoiceFixesClean(raw);
  }

  /** How one character of the voice name appears in the entity ids. */
  function CleanChar(c: char): char
  {
    LowerChar(if c == '-' || c == ' ' then '_' else c)
  }

  /** The voice name made fit for an entity id: the part before the first ".", with
      "-" and " " turned into "_", in lower case. */
  function CleanVoice(raw: string): (r: string)
    ensures '.' !in r && '-' !in r && ' ' !in r
    ensures forall i :: 0 <= i < |r| ==> !IsUpper(r[i])
  {
    Lower(Replace(Replace(SplitFirst(raw, '.'), '-', '_'), ' ', '_'))
  }

  /** Character by character: the clean name is as long as the part of raw before its
      first ".", and each character is that of raw, cleaned. */
  lemma CleanVoiceAt(raw: string)
    ensures |CleanVoice(raw)| <= |raw|
    ensures |CleanVoice(raw)| < |raw| ==> raw[|CleanVoice(raw)|] == '.'
    ensures '.' !in raw[..|CleanVoice(raw)|]
    ensures forall i :: 0 <= i < |CleanVoice(raw)| ==> CleanVoice(raw)[i] == CleanChar(raw[i])
  {
    var head := SplitFirst(raw, '.');
    assert raw[..|head|] == head;
  }

  /** A name that is already clean is left as it is. */
  lemma CleanVoiceFixesClean(s: string)
    requires '.' !in s && '-' !in s && ' ' !in s
    requires forall i :: 0 <= i < |s| ==> !IsUpper(s[i])
    ensures CleanVoice(s) == s
  {
    SplitFirstNoSep(s, '.');
    var r := CleanVoice(s);
    assert |r| == |s|;
    forall i | 0 <= i < |s| ensures r[i] == s[i] {
      assert s[i] != '-' && s[i] != ' ';
    }
  }

  /** Cleaning is idempotent. */
  lemma CleanVoiceIdempotent(raw: string)
    ensures CleanVoice(CleanVoice(raw)) == CleanVoice(raw)
  {
    CleanVoiceFixesClean(CleanVoice(raw));
  }

  /** Response mapping: status 200 yields ("mp3", body) with the body untouched; any
      other status and any exception yield (None, None). Nothing escapes. */
  function AudioFor(outcome: PostOutcome): (r: AudioResult)
    ensures r.Audio? <==> outcome.PostReply? && outcome.status == 200
    ensures r.Audio? ==> r.format == "mp3" && r.data == outcome.body
  {
    match outcome
    case PostRaised => NoAudio
    case PostReply(status, body) => if status != 200 then NoAudio else Audio("mp3", body)
  }

  /** The payload the entity posts for message, or None when the setup data holds no
      voice and no request is made. */
  function SpeechPayload(message: string, data: Dict, opts: Dict): (r: Option<Dict>)
    ensures r.Some? <==> Truthy(Get(data, "reference_audio_filename", Null))
    ensures r.Some? ==> BaseKeys <= r.value.Keys
    ensures r.Some? ==> && r.value["text"] == Text(message)
                        && r.value["voice_mode"] == Get(data, "voice_mode", Text("clone"))
                        && r.value["output_format"] == Text("mp3")
                        && r.value["split_text"] == Text("true")
                        && r.value["chunk_size"] == Text("240")
                        && r.value["exaggeration"] == Text(Show(Get(opts, "exaggeration", DefaultExaggeration)))
                        && r.value["speed_factor"] == Text(Show(Get(opts, "speed_factor", DefaultSpeedFactor)))
    // exactly one voice key, chosen by the mode, holding the configured voice
    ensures r.Some? && Get(data, "voice_mode", Text("clone")) == Text("clone") ==>
              && r.value.Keys == BaseKeys + {CloneVoiceKey}
              && r.value[CloneVoiceKey] == data["reference_audio_filename"]
    ensures r.Some? && Get(data, "voice_mode", Text("clone")) != Text("clone") ==>
              && r.value.Keys == BaseKeys + {PredefinedVoiceKey}
              && r.value[PredefinedVoiceKey] == data["reference_audio_filename"]
  {
    var voice := Get(data, "reference_audio_filename", Null);
    if !Truthy(voice) then None
    else
      var mode := Get(data, "voice_mode", Text("clone"));
      var base := map[
        "text" := Text(message),
        "voice_mode" := mode,
        "output_format" := Text("mp3"),
        "split_text" := Text("true"),
        "chunk_size" := Text("240"),
        "exaggeration" := Text(Show(Get(opts, "exaggeration", DefaultExaggeration))),
        "speed_factor" := Text(Show(Get(opts, "speed_factor", DefaultSpeedFactor)))];
      Some(base[if mode == Text("clone") then CloneVoiceKey else PredefinedVoiceKey := voice])
  }

  /** A payload never carries both voice keys. */
  lemma PayloadNeverBothVoiceKeys(message: string, data: Dict, opts: Dict)
    ensures SpeechPayload(message, data, opts).Some? ==>
              (CloneVoiceKey in SpeechPayload(message, data, opts).value) !=
              (PredefinedVoiceKey in SpeechPayload(message, data, opts).value)
  {
  }

  /** Voice and mode come from the setup data alone: the options change only the two
      numeric fields, never whether a request is made or which voice it names. */
  lemma PayloadVoiceIgnoresOptions(message: string, data: Dict, opts1: Dict, opts2: Dict)
    ensures SpeechPayload(message, data, opts1).Some? == SpeechPayload(message, data, opts2).Some?
    ensures SpeechPayload(message, data, opts1).Some? ==>
              SpeechPayload(message, data, opts1).value - {"exaggeration", "speed_factor"} ==
              SpeechPayload(message, data, opts2).value - {"exaggeration", "speed_factor"}
  {
  }

  /** The speech entity of one config entry. */
  class TtsEntity {
    /** The setup data, fixed for the entity's life. */
    const data: Dict
    /** The stored options. */
    const options: Dict
    /** The server's base URL, without trailing slashes. */
    const url: string
    const uniqueId: string
    const entityId: string

    constructor (data: Dict, options: Option<Dict>, entryId: string)
      requires "url" in data && data["url"].Text?
      requires "reference_audio_filename" in data ==> data["reference_audio_filename"].Text?
      ensures this.data == data
      ensures this.options == (if options.Some? then options.value else map[])
      ensures url == RStrip(data["url"].s, '/')
      ensures url <= data["url"].s && (url == [] || url[|url| - 1] != '/')
      ensures uniqueId == "chatterbox_tts_" + CleanVoice(RawVoice(data))
      ensures entityId == "tts.chatterbox_" + CleanVoice(RawVoice(data))
      ensures "reference_audio_filename" !in data ==>
                uniqueId == "chatterbox_tts_" + "default" && entityId == "tts.chatterbox_" + "default"
    {
      this.data := data;
      this.options := if options.Some? then options.value else map[];
      url := RStrip(data["url"].s, '/');
      var raw := RawVoice(data);
      var clean := CleanVoice(raw);
      if "reference_audio_filename" !in data {
        DefaultIsClean(raw);
      }
      uniqueId := "chatterbox_tts_" + clean;
      entityId := "tts.chatterbox_" + clean;
    }

    /** The built-in defaults overlaid with the stored options. */
    function DefaultOptions(): (r: Dict)
      ensures r.Keys == options.Keys + {"exaggeration", "speed_factor"}
      ensures forall k :: k in options ==> r[k] == options[k]
      ensures "exaggeration" !in options ==> r["exaggeration"] == DefaultExaggeration
      ensures "speed_factor" !in options ==> r["speed_factor"] == DefaultSpeedFactor
    {
      Merge(map["exaggeration" := DefaultExaggeration, "speed_factor" := DefaultSpeedFactor], options)
    }

    /** The options of one call: per-call overrides beat stored options, which beat the
        built-in defaults; both numeric keys are always present. */
    function EffectiveOptions(overrides: Option<Dict>): (r: Dict)
      ensures r.Keys == options.Keys + {"exaggeration", "speed_factor"} +
                        (if overrides.Some? then overrides.value.Keys else {})
      ensures overrides.Some? ==> forall k :: k in overrides.value ==> r[k] == overrides.value[k]
      ensures forall k :: k in options && (overrides.None? || k !in overrides.value) ==> r[k] == options[k]
      ensures (overrides.None? || "exaggeration" !in overrides.value) && "exaggeration" !in options ==>
                r["exaggeration"] == DefaultExaggeration
      ensures (overrides.None? || "speed_factor" !in overrides.value) && "speed_factor" !in options ==>
                r["speed_factor"] == DefaultSpeedFactor
    {
      Merge(DefaultOptions(), if overrides.Some? then overrides.value else map[])
    }

    /** Speak message: build the payload, stop before any request when no voice is
        configured, otherwise post it to {url}/tts and map the reply. The language is
        accepted and not used. sent is the request made, None when none is. */
    method GetTtsAudio(message: string, language: Option<string>, overrides: Option<Dict>, outcome: PostOutcome)
      returns (result: AudioResult, sent: Option<Request>)
      ensures sent.None? <==> SpeechPayload(message, data, EffectiveOptions(overrides)).None?
      ensures sent.Some? ==> sent.value == Request(url + "/tts", SpeechPayload(message, data, EffectiveOptions(overrides)).value)
      ensures result == (if sent.Some? then AudioFor(outcome) else NoAudio)
    {
      var opts := EffectiveOptions(overrides);
      var payload := map[
        "text" := Text(message),
        "voice_mode" := Get(data, "voice_mode", Text("clone")),
        "output_format" := Text("mp3"),
        "split_text" := Text("true"),
        "chunk_size" := Text("240"),
        "exaggeration" := Text(Show(Get(opts, "exaggeration", DefaultExaggeration))),
        "speed_factor" := Text(Show(Get(opts, "speed_factor", DefaultSpeedFactor)))];
      var voiceFilename := Get(data, "reference_audio_filename", Null);
      if Truthy(voiceFilename) {
        if payload["voice_mode"] == Text("clone") {
          payload := payload[CloneVoiceKey := voiceFilename];
        } else {
          payload := payload[PredefinedVoiceKey := voiceFilename];
        }
      } else {
        return NoAudio, None;
      }
      sent := Some(Request(url + "/tts", payload));
      match outcome {
        case PostRaised =>
          result := NoAudio;
        case PostReply(status, body) =>
          if status != 200 {
            result := NoAudio;
          } else {
            result := Audio("mp3", body);
          }
      }
    }
  }

  /** The worked example: predefined voice Alice.wav, exaggeration 0.5, speed 1.0, text
      "hello" gives exactly this body, and a 200 reply hands the bytes back as mp3. */
  lemma HelloAliceExample(body: seq<byte>)
    ensures SpeechPayload("hello",
              map["url" := Text("http://localhost:8004"), "voice_mode" := Text("predefined"),
                  "reference_audio_filename" := Text("Alice.wav")],
              map["exaggeration" := Number("0.5"), "speed_factor" := Number("1.0")])
            == Some(map["text" := Text("hello"), "voice_mode" := Text("predefined"),
                        "output_format" := Text("mp3"), "split_text" := Text("true"),
                        "chunk_size" := Text("240"), "exaggeration" := Text("0.5"),
                        "speed_factor" := Text("1.0"), "predefined_voice_id" := Text("Alice.wav")])
    ensures AudioFor(PostReply(200, body)) == Audio("mp3", body)
  {
  }
}
