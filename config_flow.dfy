/** The voice-option resolution of config_flow.py: the setup flow (server URL and voice
    mode, then the voice step) and the options flow. Each voice form lists the voices
    the server reports, falls back to a fixed list when there are none, and preselects
    a default voice. The GET to the server's listing endpoint is replaced by a
    FetchOutcome value supplied by the caller. */
module ConfigFlow {
  import opened Values
  import opened PyStrings

  /** What the GET of the voice listing produced inside the try block: an exception
      (transport error), or a reply with its status and, for status 200, the decoded
      JSON array (None when resp.json() raises). */
  datatype FetchOutcome = FetchRaised | FetchReply(status: int, body: Option<seq<Json>>)

  /** One entry of the voice dropdown: the value sent to the server and its label. */
  datatype OptionEntry = OptionEntry(value: Json, caption: Json)

  /** The voice form as shown: which step, the URL the listing was fetched from, the
      dropdown entries, the preselected voice, the numeric defaults, and the errors. */
  datatype VoiceForm = VoiceForm(
    stepId: string,
    listingUrl: string,
    options: seq<OptionEntry>,
    defaultVoice: Json,
    defaultExaggeration: Value,
    defaultSpeedFactor: Value,
    errors: map<string, string>)

  /** What a flow step returns to the host. */
  datatype FlowResult =
    | ShowUserForm
    | ShowVoiceForm(form: VoiceForm)
    | CreateEntry(title: string, data: Dict)

  /** A config entry as the options flow sees it. */
  datatype ConfigEntry = ConfigEntry(data: Dict, options: Dict)

  const FetchFailed := map["base" := "fetch_voices_failed"]

  function Txt(s: string): Json
  {
    Scalar(Text(s))
  }

  predicate IsPredefined(mode: Value)
  {
    mode == Text("predefined")
  }

  function Endpoint(mode: Value): string
  {
    if IsPredefined(mode) then "/get_predefined_voices" else "/get_reference_files"
  }

  /** Fallback voices of the setup flow. */
  function SetupFallback(mode: Value): (r: seq<OptionEntry>)
    ensures |r| > 0
  {
    if IsPredefined(mode) then
      [OptionEntry(Txt("Alice.wav"), Txt("Alice")), OptionEntry(Txt("Abigail.wav"), Txt("Abigail"))]
    else
      [OptionEntry(Txt("Gianna.wav"), Txt("Gianna.wav"))]
  }

  /** Fallback voices of the options flow. */
  function OptionsFallback(mode: Value): (r: seq<OptionEntry>)
    ensures |r| > 0
  {
    if IsPredefined(mode) then
      [OptionEntry(Txt("Alice.wav"), Txt("Alice"))]
    else
      [OptionEntry(Txt("Gianna.wav"), Txt("Gianna.wav"))]
  }

  /** The option builder of one listing item, None where Python raises: a predefined
      voice must be an object with "filename" and "display_name"; a reference file is
      shown as itself. */
  function BuildOption(predefined: bool, item: Json): (r: Option<OptionEntry>)
    ensures !predefined ==> r == Some(OptionEntry(item, item))
    ensures predefined ==> (r.Some? <==> item.Object? && "filename" in item.fields && "display_name" in item.fields)
    ensures predefined && r.Some? ==> r.value == OptionEntry(item.fields["filename"], item.fields["display_name"])
  {
    if !predefined then Some(OptionEntry(item, item))
    else match item
      case Object(fields) =>
        if "filename" in fields && "display_name" in fields
        then Some(OptionEntry(fields["filename"], fields["display_name"]))
        else None
      case _ => None
  }

  /** [option_builder(item) for item in items]: None when the builder raises on some item,
      otherwise the entries in the order and number of the items. */
  function BuildOptions(predefined: bool, items: seq<Json>): (r: Option<seq<OptionEntry>>)
    ensures r.Some? <==> forall i :: 0 <= i < |items| ==> BuildOption(predefined, items[i]).Some?
    ensures r.Some? ==> |r.value| == |items|
    ensures r.Some? ==> forall i :: 0 <= i < |items| ==> r.value[i] == BuildOption(predefined, items[i]).value
  {
    if items == [] then Some([])
    else
      match BuildOption(predefined, items[0])
      case None => None
      case Some(entry) =>
        match BuildOptions(predefined, items[1..])
        case None => None
        case Some(rest) => Some([entry] + rest)
  }

  /** The options list as the try block leaves it: None when an exception was raised
      (transport error, undecodable body, an item the builder cannot take), the built
      entries for status 200, and no entries for any other status. */
  function Listing(predefined: bool, outcome: FetchOutcome): (r: Option<seq<OptionEntry>>)
    ensures r.None? <==> || outcome.FetchRaised?
                         || (outcome.status == 200 && outcome.body.None?)
                         || (outcome.status == 200 && BuildOptions(predefined, outcome.body.value).None?)
    ensures outcome.FetchReply? && outcome.status != 200 ==> r == Some([])
    ensures outcome.FetchReply? && outcome.status == 200 && r.Some? ==>
              r == BuildOptions(predefined, outcome.body.value)
  {
    match outcome
    case FetchRaised => None
    case FetchReply(status, body) =>
      if status != 200 then Some([])
      else if body.None? then None
      else BuildOptions(predefined, body.value)
  }

  /** The dropdown entries and form errors after the fallback: the listing when it has
      entries, the fallback otherwise; the error only when an exception was raised. */
  function Resolved(mode: Value, outcome: FetchOutcome, fallback: seq<OptionEntry>): (r: (seq<OptionEntry>, map<string, string>))
    requires |fallback| > 0
    ensures |r.0| > 0
    ensures r.1 == (if Listing(IsPredefined(mode), outcome).None? then FetchFailed else map[])
    ensures Listing(IsPredefined(mode), outcome).Some? && Listing(IsPredefined(mode), outcome).value != [] ==>
              r.0 == Listing(IsPredefined(mode), outcome).value
    ensures Listing(IsPredefined(mode), outcome).None? || Listing(IsPredefined(mode), outcome).value == [] ==>
              r.0 == fallback
  {
    var listing := Listing(IsPredefined(mode), outcome);
    var errors := if listing.None? then FetchFailed else map[];
    if listing.None? || listing.value == [] then (fallback, errors) else (listing.value, errors)
  }

  /** A status other than 200 falls back silently: the fallback list and no error. */
  lemma Non200FallsBackSilently(mode: Value, status: int, body: Option<seq<Json>>, fallback: seq<OptionEntry>)
    requires |fallback| > 0 && status != 200
    ensures Resolved(mode, FetchReply(status, body), fallback) == (fallback, map[])
  {
  }

  /** A raised exception gives the fallback list and the fetch_voices_failed error. */
  lemma RaisedFallsBackWithError(mode: Value, fallback: seq<OptionEntry>)
    requires |fallback| > 0
    ensures Resolved(mode, FetchRaised, fallback) == (fallback, FetchFailed)
  {
  }

  /** A successful listing of reference files is shown file by file, in order. */
  lemma CloneListingShown(mode: Value, files: seq<Json>, fallback: seq<OptionEntry>)
    requires |fallback| > 0 && |files| > 0 && !IsPredefined(mode)
    ensures Resolved(mode, FetchReply(200, Some(files)), fallback).1 == map[]
    ensures |Resolved(mode, FetchReply(200, Some(files)), fallback).0| == |files|
    ensures forall i :: 0 <= i < |files| ==>
              Resolved(mode, FetchReply(200, Some(files)), fallback).0[i] == OptionEntry(files[i], files[i])
  {
  }

  /** An empty listing with status 200 falls back silently too. */
  lemma EmptyListingFallsBack(mode: Value, fallback: seq<OptionEntry>)
    requires |fallback| > 0
    ensures Resolved(mode, FetchReply(200, Some([])), fallback) == (fallback, map[])
  {
  }

  /** The fetch of the voice listing and the fallback, as the flow runs them: the options
      local starts empty, the try block may replace it, the except clause records the
      error, and an empty list is replaced by the fallback. */
  method ResolveVoiceOptions(mode: Value, outcome: FetchOutcome, fallback: seq<OptionEntry>)
    returns (options: seq<OptionEntry>, errors: map<string, string>)
    requires |fallback| > 0
    ensures (options, errors) == Resolved(mode, outcome, fallback)
    ensures |options| > 0
  {
    errors := map[];
    options := [];
    match outcome {
      case FetchRaised =>
        errors := errors["base" := "fetch_voices_failed"];
      case FetchReply(status, body) =>
        if status == 200 {
          if body.None? {
            errors := errors["base" := "fetch_voices_failed"];
          } else {
            var built := BuildOptions(IsPredefined(mode), body.value);
            if built.None? {
              errors := errors["base" := "fetch_voices_failed"];
            } else {
              options := built.value;
            }
          }
        }
    }
    if options == [] {
      options := fallback;
    }
  }

  /** The preselected voice: the stored voice when it is truthy, else the first entry. */
  function DefaultVoice(current: Dict, options: seq<OptionEntry>): (r: Json)
    requires |options| > 0
    ensures Truthy(Get(current, "reference_audio_filename", Null)) ==> r == Scalar(current["reference_audio_filename"])
    ensures !Truthy(Get(current, "reference_audio_filename", Null)) ==> r == options[0].value
  {
    var stored := Get(current, "reference_audio_filename", Null);
    if Truthy(stored) then Scalar(stored) else options[0].value
  }

  /** Without a usable stored voice the preselection is one of the entries offered. */
  lemma DefaultVoiceOffered(current: Dict, options: seq<OptionEntry>)
    requires |options| > 0
    requires !Truthy(Get(current, "reference_audio_filename", Null))
    ensures exists i :: 0 <= i < |options| && options[i].value == DefaultVoice(current, options)
  {
    assert options[0].value == DefaultVoice(current, options);
  }

  /** What the first step's form guarantees of its input: a URL and a voice mode. */
  predicate StepOneInput(d: Dict)
  {
    "url" in d && d["url"].Text? && "voice_mode" in d
  }

  /** The settings the options flow starts from: the entry data overridden by the
      entry options. */
  function CurrentSettings(entry: ConfigEntry): (r: Dict)
    ensures r.Keys == entry.data.Keys + entry.options.Keys
    ensures forall k :: k in entry.options ==> r[k] == entry.options[k]
    ensures forall k :: k in entry.data && k !in entry.options ==> r[k] == entry.data[k]
  {
    Merge(entry.data, entry.options)
  }

  /** The setup flow (ChatterboxConfigFlow). */
  class SetupFlow {
    /** The input of the first step. */
    var data: Dict

    constructor ()
      ensures data == map[]
    {
      data := map[];
    }

    /** The first step: without input, show the URL and mode form; with input, keep it
        and go on to the voice step. */
    method StepUser(userInput: Option<Dict>, outcome: FetchOutcome) returns (r: FlowResult)
      requires userInput.Some? ==> StepOneInput(userInput.value)
      modifies this
      ensures userInput.None? ==> r == ShowUserForm && data == old(data)
      ensures userInput.Some? ==> data == userInput.value && r.ShowVoiceForm? && r.form.stepId == "voice_params"
      ensures userInput.Some? ==> r.form.listingUrl == RStrip(data["url"].s, '/') + Endpoint(data["voice_mode"])
      ensures userInput.Some? ==> (r.form.options, r.form.errors) == Resolved(data["voice_mode"], outcome, SetupFallback(data["voice_mode"]))
      ensures userInput.Some? ==> r.form.defaultVoice == DefaultVoice(data, r.form.options)
      ensures userInput.Some? ==> r.form.defaultExaggeration == Number("0.5") && r.form.defaultSpeedFactor == Number("1.0")
    {
      if userInput.Some? {
        data := userInput.value;
        r := StepVoiceParams(None, outcome);
        return;
      }
      r := ShowUserForm;
    }

    /** The voice step: with input, create the entry from the first step's data
        overridden by this step's input; without input, fetch the voices and show the
        form. */
    method StepVoiceParams(userInput: Option<Dict>, outcome: FetchOutcome) returns (r: FlowResult)
      requires userInput.None? ==> StepOneInput(data)
      ensures userInput.Some? ==> r == CreateEntry("Chatterbox TTS", Merge(data, userInput.value))
      ensures userInput.None? ==> r.ShowVoiceForm? && r.form.stepId == "voice_params"
      ensures userInput.None? ==> r.form.listingUrl == RStrip(data["url"].s, '/') + Endpoint(data["voice_mode"])
      ensures userInput.None? ==> (r.form.options, r.form.errors) == Resolved(data["voice_mode"], outcome, SetupFallback(data["voice_mode"]))
      ensures userInput.None? ==> r.form.defaultVoice == DefaultVoice(data, r.form.options)
      ensures userInput.None? ==> r.form.defaultExaggeration == Number("0.5") && r.form.defaultSpeedFactor == Number("1.0")
    {
      if userInput.Some? {
        var finalData := Merge(data, userInput.value);
        return CreateEntry("Chatterbox TTS", finalData);
      }
      var voiceMode := data["voice_mode"];
      var url := RStrip(data["url"].s, '/');
      var options, errors := ResolveVoiceOptions(voiceMode, outcome, SetupFallback(voiceMode));
      var defaultVoice := DefaultVoice(data, options);
      r := ShowVoiceForm(VoiceForm("voice_params", url + Endpoint(voiceMode), options, defaultVoice,
                                   Number("0.5"), Number("1.0"), errors));
    }
  }

  /** The options flow (ChatterboxOptionsFlow) of one config entry. */
  class OptionsFlow {
    const entry: ConfigEntry

    constructor (entry: ConfigEntry)
      ensures this.entry == entry
    {
      this.entry := entry;
    }

    /** With input, store it as the entry's options; without input, fetch the voices for
        the current mode (clone when none is set) and show the form seeded from the
        current settings. */
    method StepInit(userInput: Option<Dict>, outcome: FetchOutcome) returns (r: FlowResult)
      requires userInput.None? ==> "url" in CurrentSettings(entry) && CurrentSettings(entry)["url"].Text?
      ensures userInput.Some? ==> r == CreateEntry("", userInput.value)
      ensures userInput.None? ==> r.ShowVoiceForm? && r.form.stepId == "init"
      ensures userInput.None? ==>
                var current := CurrentSettings(entry);
                var mode := Get(current, "voice_mode", Text("clone"));
                && r.form.listingUrl == RStrip(current["url"].s, '/') + Endpoint(mode)
                && (r.form.options, r.form.errors) == Resolved(mode, outcome, OptionsFallback(mode))
                && r.form.defaultVoice == DefaultVoice(current, r.form.options)
                && r.form.defaultExaggeration == Get(current, "exaggeration", Number("0.5"))
                && r.form.defaultSpeedFactor == Get(current, "speed_factor", Number("1.0"))
    {
      if userInput.Some? {
        return CreateEntry("", userInput.value);
      }
      var current := CurrentSettings(entry);
      var voiceMode := Get(current, "voice_mode", Text("clone"));
      var url := RStrip(current["url"].s, '/');
      var options, errors := ResolveVoiceOptions(voiceMode, outcome, OptionsFallback(voiceMode));
      var defaultVoice := DefaultVoice(current, options);
      r := ShowVoiceForm(VoiceForm("init", url + Endpoint(voiceMode), options, defaultVoice,
                                   Get(current, "exaggeration", Number("0.5")),
                                   Get(current, "speed_factor", Number("1.0")), errors));
    }
  }
}
