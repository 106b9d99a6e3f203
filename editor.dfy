/**
 * The front end's `Editor` component: a working copy of the animation
 * document, the untouched original it was opened with, the revision counter
 * that remounts the Lottie player, the four display sliders, the AI prompt
 * and the flag that keeps one AI request in flight.
 *
 * The transitions are first given as functions on an `EditorState` value
 * (what every property below is stated about); the `Editor` class then
 * updates its fields handler by handler and is proved to follow them.
 * Speed is kept in tenths: the slider runs from 0.1 to 3 in steps of 0.1.
 */
module EditorSession {
  import opened Wrappers
  import opened JsonModel
  import opened Text
  import opened AiEdit
  import opened Library

  // ---------------------------------------------------------------- sliders

  const SpeedMin := 1
  const SpeedMax := 30
  const SizeMin := 25
  const SizeMax := 150
  const SizeStep := 5
  const RotationMin := -360
  const RotationMax := 360
  const OpacityMin := 0
  const OpacityMax := 100

  /** The four display settings: speed in tenths, size and opacity in percent, rotation in degrees. */
  datatype Params = Params(speed: int, size: int, rotation: int, opacity: int)

  /** The settings an editor opens with and a reset restores: 1x, 100%, 0 degrees, 100%. */
  const Defaults := Params(10, 100, 0, 100)

  predicate SpeedOk(v: int) { SpeedMin <= v <= SpeedMax }
  predicate SizeOk(v: int) { SizeMin <= v <= SizeMax && (v - SizeMin) % SizeStep == 0 }
  predicate RotationOk(v: int) { RotationMin <= v <= RotationMax }
  predicate OpacityOk(v: int) { OpacityMin <= v <= OpacityMax }

  /** Every setting is a value its slider can produce. */
  predicate ParamsOk(p: Params) {
    SpeedOk(p.speed) && SizeOk(p.size) && RotationOk(p.rotation) && OpacityOk(p.opacity)
  }

  // ---------------------------------------------------------------- the session as a value

  /** The component's state. `key` is `animationKey`, the React key of the player. */
  datatype EditorState = EditorState(
    original: Json, current: Json, key: nat, params: Params, prompt: string, processing: bool)

  /** A freshly opened editor: the original is a deep copy of the document, so equal to it. */
  function Opened(doc: Json): (s: EditorState)
    ensures s.original == s.current == doc && s.key == 0
    ensures s.params == Defaults && ParamsOk(s.params)
    ensures s.prompt == "" && !s.processing
  {
    EditorState(doc, doc, 0, Defaults, "", false)
  }

  /** `handleReset`: a copy of the original, a new player, default settings, an empty prompt. */
  function ResetState(s: EditorState): EditorState {
    s.(current := s.original, key := s.key + 1, params := Defaults, prompt := "")
  }

  function WithSpeed(s: EditorState, v: int): EditorState { s.(params := s.params.(speed := v)) }
  function WithSize(s: EditorState, v: int): EditorState { s.(params := s.params.(size := v)) }
  function WithRotation(s: EditorState, v: int): EditorState { s.(params := s.params.(rotation := v)) }
  function WithOpacity(s: EditorState, v: int): EditorState { s.(params := s.params.(opacity := v)) }
  function WithPrompt(s: EditorState, p: string): EditorState { s.(prompt := p) }

  /** The "Apply AI" button is enabled: nothing in flight and a prompt that is not blank. */
  predicate CanSubmit(s: EditorState) {
    !s.processing && JsTrim(s.prompt) != ""
  }

  /** The button is enabled exactly when nothing is in flight and the prompt holds a character other than whitespace. */
  lemma CanSubmitExactly(s: EditorState)
    ensures CanSubmit(s) <==> !s.processing && !AllIn(s.prompt, JsWhitespace)
  {
    StripSpec(s.prompt, JsWhitespace);
  }

  /** `handlePromptSubmit` up to the request: the flag is raised. */
  function Begin(s: EditorState): EditorState { s.(processing := true) }

  /** The request body: the working document, the trimmed prompt and the animation's id. */
  function RequestFor(s: EditorState, animationId: string): EditRequest {
    EditRequest(s.current, JsTrim(s.prompt), animationId)
  }

  /** How the edit request ended: a response body, or a rejected request. */
  datatype SubmitOutcome =
    | Answered(success: bool, animationData: Json)
    | RequestFailed(detail: string)

  /** The response body as the editor receives it. */
  function Delivered(resp: EditResponse): SubmitOutcome {
    Answered(resp.success, resp.animationData)
  }

  /** The response is applied: `success` and a truthy `animationData`. */
  predicate Applies(o: SubmitOutcome) {
    o.Answered? && o.success && Truthy(o.animationData)
  }

  /**
   * `handlePromptSubmit` after the request: an applied answer replaces the document,
   * remounts the player and clears the prompt; the flag drops on every path.
   */
  function Complete(s: EditorState, o: SubmitOutcome): EditorState {
    if Applies(o) then
      s.(current := o.animationData, key := s.key + 1, prompt := "", processing := false)
    else
      s.(processing := false)
  }

  /** What the user can do while the editor is open. */
  datatype Event =
    | Reset
    | Speed(v: int)
    | Size(v: int)
    | Rotation(v: int)
    | Opacity(v: int)
    | Type(text: string)
    | Submit
    | Answer(outcome: SubmitOutcome)

  /** A slider event carries a value its slider can produce. */
  predicate EventOk(e: Event) {
    match e
    case Speed(v) => SpeedOk(v)
    case Size(v) => SizeOk(v)
    case Rotation(v) => RotationOk(v)
    case Opacity(v) => OpacityOk(v)
    case _ => true
  }

  /**
   * One event. A click on a disabled "Apply AI" button does nothing; an answer
   * arrives only for the request in flight, so with none pending it is ignored.
   */
  function Step(s: EditorState, e: Event): EditorState {
    match e
    case Reset => ResetState(s)
    case Speed(v) => WithSpeed(s, v)
    case Size(v) => WithSize(s, v)
    case Rotation(v) => WithRotation(s, v)
    case Opacity(v) => WithOpacity(s, v)
    case Type(text) => WithPrompt(s, text)
    case Submit => if CanSubmit(s) then Begin(s) else s
    case Answer(o) => if s.processing then Complete(s, o) else s
  }

  /** A sequence of events, in order. */
  function Run(s: EditorState, evs: seq<Event>): EditorState
    decreases |evs|
  {
    if evs == [] then s else Run(Step(s, evs[0]), evs[1..])
  }

  /** The events that remount the player: a reset, or an applied answer to a pending request. */
  predicate Remounts(s: EditorState, e: Event) {
    e.Reset? || (e.Answer? && s.processing && Applies(e.outcome))
  }

  // ---------------------------------------------------------------- properties of one step

  /**
   * The key grows by exactly one on a remount and stays put otherwise, and the
   * document only changes on a remount: a reset gives the original back, an
   * applied answer gives its document.
   */
  lemma StepKey(s: EditorState, e: Event)
    ensures Step(s, e).key == if Remounts(s, e) then s.key + 1 else s.key
    ensures !Remounts(s, e) ==> Step(s, e).current == s.current
    ensures e.Reset? ==> Step(s, e).current == s.original
    ensures Remounts(s, e) && e.Answer? ==> Step(s, e).current == e.outcome.animationData
  {
  }

  /** A reset gives the original document with default settings, whatever came before. */
  lemma ResetRestores(s: EditorState)
    ensures ResetState(s).current == s.original && ResetState(s).key == s.key + 1
    ensures ResetState(s).params == Defaults && ResetState(s).prompt == ""
    ensures ResetState(s).processing == s.processing
    ensures ResetState(ResetState(s)) == ResetState(s).(key := s.key + 2)
  {
  }

  /** A slider moves only its own setting; the document, the player and the prompt stay. */
  lemma SlidersTouchOnlyTheirSetting(s: EditorState, v: int)
    ensures WithSpeed(s, v).params == Params(v, s.params.size, s.params.rotation, s.params.opacity)
    ensures WithSize(s, v).params == Params(s.params.speed, v, s.params.rotation, s.params.opacity)
    ensures WithRotation(s, v).params == Params(s.params.speed, s.params.size, v, s.params.opacity)
    ensures WithOpacity(s, v).params == Params(s.params.speed, s.params.size, s.params.rotation, v)
    ensures forall e :: e in [Speed(v), Size(v), Rotation(v), Opacity(v)] ==>
      Step(s, e).(params := s.params) == s
  {
  }

  /** A prompt made of whitespace only is blank: submitting it does nothing. */
  lemma BlankPromptIgnored(s: EditorState)
    requires AllIn(s.prompt, JsWhitespace)
    ensures !CanSubmit(s)
    ensures Step(s, Submit) == s
  {
    StripSpec(s.prompt, JsWhitespace);
  }

  /**
   * A prompt with something other than whitespace starts a request when none is
   * in flight; the prompt sent is trimmed and not empty.
   */
  lemma PromptSubmitted(s: EditorState, animationId: string)
    requires !s.processing && !AllIn(s.prompt, JsWhitespace)
    ensures Step(s, Submit) == s.(processing := true)
    ensures RequestFor(s, animationId).prompt != ""
    ensures Trimmed(RequestFor(s, animationId).prompt, JsWhitespace)
    ensures RequestFor(s, animationId).animationData == s.current
  {
    StripSpec(s.prompt, JsWhitespace);
  }

  /** While a request is in flight a further click does nothing: one request at a time. */
  lemma SecondSubmitIgnored(s: EditorState)
    ensures Step(Step(s, Submit), Submit) == Step(s, Submit)
    ensures s.processing ==> Step(s, Submit) == s
  {
  }

  /**
   * The flag is down after every answer. An applied answer replaces the document,
   * bumps the key and clears the prompt; any other answer and a failed request leave
   * document, key, settings and prompt as they were.
   */
  lemma AnswerSettles(s: EditorState, o: SubmitOutcome)
    ensures !Complete(s, o).processing
    ensures Applies(o) ==>
      Complete(s, o) == s.(current := o.animationData, key := s.key + 1, prompt := "", processing := false)
    ensures !Applies(o) ==> Complete(s, o) == s.(processing := false)
    ensures o.RequestFailed? ==> Complete(s, o) == s.(processing := false)
  {
  }

  // ---------------------------------------------------------------- properties of runs

  /** No event writes the original. */
  lemma {:induction false} RunKeepsOriginal(s: EditorState, evs: seq<Event>)
    ensures Run(s, evs).original == s.original
    decreases |evs|
  {
    if evs != [] {
      RunKeepsOriginal(Step(s, evs[0]), evs[1..]);
    }
  }

  /** Every reset yields the same document: the one the editor was opened with. */
  lemma ResetAfterAnyRun(doc: Json, evs: seq<Event>)
    ensures ResetState(Run(Opened(doc), evs)).current == doc
    ensures ResetState(Run(Opened(doc), evs)).params == Defaults
    ensures ResetState(Run(Opened(doc), evs)).prompt == ""
  {
    RunKeepsOriginal(Opened(doc), evs);
  }

  /** Settings stay within their sliders' ranges when every slider event does. */
  lemma {:induction false} RunKeepsParamsOk(s: EditorState, evs: seq<Event>)
    requires ParamsOk(s.params)
    requires forall i :: 0 <= i < |evs| ==> EventOk(evs[i])
    ensures ParamsOk(Run(s, evs).params)
    decreases |evs|
  {
    if evs != [] {
      assert EventOk(evs[0]);
      RunKeepsParamsOk(Step(s, evs[0]), evs[1..]);
    }
  }

  /**
   * The key never goes down, and a run that leaves it where it was leaves the
   * document where it was: the document is never replaced without a remount.
   */
  lemma {:induction false} RunKeyGuardsDocument(s: EditorState, evs: seq<Event>)
    ensures Run(s, evs).key >= s.key
    ensures Run(s, evs).key == s.key ==> Run(s, evs).current == s.current
    decreases |evs|
  {
    if evs != [] {
      StepKey(s, evs[0]);
      RunKeyGuardsDocument(Step(s, evs[0]), evs[1..]);
    }
  }

  /** The key counts the remounts of a run. */
  function RemountCount(s: EditorState, evs: seq<Event>): nat
    decreases |evs|
  {
    if evs == [] then 0
    else (if Remounts(s, evs[0]) then 1 else 0) + RemountCount(Step(s, evs[0]), evs[1..])
  }

  lemma {:induction false} RunKeyCountsRemounts(s: EditorState, evs: seq<Event>)
    ensures Run(s, evs).key == s.key + RemountCount(s, evs)
    decreases |evs|
  {
    if evs != [] {
      StepKey(s, evs[0]);
      RunKeyCountsRemounts(Step(s, evs[0]), evs[1..]);
    }
  }

  /** A run with no reset and no answer to a pending request ends on the same document. */
  lemma RunWithoutRemountKeepsDocument(s: EditorState, evs: seq<Event>)
    requires RemountCount(s, evs) == 0
    ensures Run(s, evs).current == s.current && Run(s, evs).key == s.key
  {
    RunKeyCountsRemounts(s, evs);
    RunKeyGuardsDocument(s, evs);
  }

  // ---------------------------------------------------------------- with the back end

  /** No event of `evs` is an answer: the request in flight, if any, is still pending. */
  predicate NoAnswer(evs: seq<Event>) {
    forall i :: 0 <= i < |evs| ==> !evs[i].Answer?
  }

  /** Until its answer arrives, a request stays in flight: further clicks are ignored and nothing else drops the flag. */
  lemma {:induction false} RequestStaysInFlight(s: EditorState, evs: seq<Event>)
    requires s.processing && NoAnswer(evs)
    ensures Run(s, evs).processing
    decreases |evs|
  {
    if evs != [] {
      assert !evs[0].Answer?;
      RequestStaysInFlight(Step(s, evs[0]), evs[1..]);
    }
  }

  /**
   * A failed AI edit (no key, a chat error, a reply that is not JSON) reaches the
   * editor as an applied answer carrying the document the request was built from,
   * at the click. Whatever happened in between, that document is put back: the
   * player remounts and the prompt is cleared.
   */
  lemma FailedEditStillRemounts(s: EditorState, evs: seq<Event>, animationId: string, env: Env,
                                chat: (LlmModel, Json, string) -> ChatReply,
                                decode: string -> Option<Json>, validationError: string)
    requires CanSubmit(s) && s.current.Obj? && NoAnswer(evs)
    requires FallsBack(RequestFor(s, animationId).animationData, RequestFor(s, animationId).prompt, env, chat, decode)
    ensures
      var t := Run(Step(s, Submit), evs);
      Step(t, Answer(Delivered(EditAnimationWithAi(RequestFor(s, animationId), env, chat, decode, validationError))))
        == t.(current := s.current, key := t.key + 1, prompt := "", processing := false)
  {
    RequestStaysInFlight(Step(s, Submit), evs);
    FailedEditReportsSuccess(RequestFor(s, animationId), env, chat, decode, validationError);
  }

  /**
   * A reset made while a failing AI edit is in flight is undone when its answer
   * arrives: the document goes back to the one sent, not to the original, and the
   * player has been remounted twice.
   */
  lemma ResetDuringFailedEditUndone(s: EditorState, animationId: string, env: Env,
                                    chat: (LlmModel, Json, string) -> ChatReply,
                                    decode: string -> Option<Json>, validationError: string)
    requires CanSubmit(s) && s.current.Obj?
    requires FallsBack(RequestFor(s, animationId).animationData, RequestFor(s, animationId).prompt, env, chat, decode)
    ensures Run(s, [Submit, Reset]).current == s.original
    ensures
      var answer := Answer(Delivered(EditAnimationWithAi(RequestFor(s, animationId), env, chat, decode, validationError)));
      Run(s, [Submit, Reset, answer]).current == s.current &&
      Run(s, [Submit, Reset, answer]).key == s.key + 2 &&
      Run(s, [Submit, Reset, answer]).params == Defaults
  {
    var answer := Answer(Delivered(EditAnimationWithAi(RequestFor(s, animationId), env, chat, decode, validationError)));
    var t1 := Step(s, Submit);
    var t2 := Step(t1, Reset);
    FailedEditStillRemounts(s, [Reset], animationId, env, chat, decode, validationError);
    assert Run(t1, [Reset]) == t2;
    assert Run(s, [Submit, Reset]) == Run(t1, [Reset]);
    assert Run(s, [Submit, Reset, answer]) == Run(t1, [Reset, answer]);
    assert Run(t1, [Reset, answer]) == Run(t2, [answer]);
    assert Run(t2, [answer]) == Step(t2, answer);
  }

  /** Whatever the model answers, the editor's document stays a JSON object after an answer from the edit endpoint. */
  lemma EditAnswerKeepsObject(s: EditorState, animationId: string, env: Env,
                              chat: (LlmModel, Json, string) -> ChatReply,
                              decode: string -> Option<Json>, validationError: string)
    requires s.current.Obj?
    ensures Complete(s, Delivered(EditAnimationWithAi(RequestFor(s, animationId), env, chat, decode, validationError))).current.Obj?
  {
  }

  // ---------------------------------------------------------------- save as project

  /** The body `handleSaveAsProject` hands to `App`. */
  datatype ProjectData = ProjectData(name: string, templateId: string, animationData: Json, settings: Params)

  /** The project: a name made of the animation's name and a time stamp, the template's id, the working document and the four settings. */
  function Payload(s: EditorState, animation: Item, stamp: string): (p: ProjectData)
    ensures p.animationData == s.current && p.settings == s.params && p.templateId == animation.id
    ensures StartsWith(p.name, animation.name) && EndsWith(p.name, stamp)
  {
    var p := ProjectData(animation.name + " - Project " + stamp, animation.id, s.current, s.params);
    assert p.name[..|animation.name|] == animation.name;
    assert p.name[|p.name| - |stamp|..] == stamp;
    p
  }

  /**
   * A saved project opens on its document with the default settings: the settings
   * saved with it are not restored.
   */
  lemma ReopenedProjectLosesSettings(s: EditorState, animation: Item, stamp: string, created: Item)
    requires created.animationData == Payload(s, animation, stamp).animationData
    ensures Opened(created.animationData).current == s.current
    ensures Opened(created.animationData).params == Defaults
    ensures s.params != Defaults ==>
      Opened(created.animationData).params != Payload(s, animation, stamp).settings
  {
  }

  // ---------------------------------------------------------------- export

  datatype ExportFormat = Mp4 | Gif | JsonFile

  /** The format as sent, and as upper-cased for the default message. */
  function FormatName(f: ExportFormat): string {
    match f case Mp4 => "mp4" case Gif => "gif" case JsonFile => "json"
  }

  function FormatLabel(f: ExportFormat): (r: string)
    ensures r == Upper(FormatName(f))
  {
    match f case Mp4 => "MP4" case Gif => "GIF" case JsonFile => "JSON"
  }

  /** The body of the export request: the working document, the format and the animation's id. */
  datatype ExportRequest = ExportRequest(animationData: Json, format: string, animationId: string)

  function ExportRequestFor(s: EditorState, animationId: string, f: ExportFormat): ExportRequest {
    ExportRequest(s.current, FormatName(f), animationId)
  }

  /** How the export request ended; an empty `message` stands for a missing or empty one. */
  datatype ExportReply =
    | ExportAnswered(success: bool, data: Json, filename: string, message: string)
    | ExportRejected

  /** A file the browser saves: the reply's `data` under the reply's file name. */
  datatype Download = Download(filename: string, content: Json)

  /** What the user sees: nothing, a success toast (with a download for JSON), or an error toast. */
  datatype ExportFeedback =
    | Silent
    | Exported(download: Option<Download>, description: string)
    | ExportFailed

  /** `handleExport` after the request. */
  function ExportOutcome(f: ExportFormat, reply: ExportReply): (r: ExportFeedback)
    ensures r.ExportFailed? <==> reply.ExportRejected?
    ensures r.Exported? <==> reply.ExportAnswered? && reply.success
    ensures r.Exported? ==> (r.download.Some? <==> f == JsonFile)
    ensures r.Exported? ==> r.description != ""
    ensures r.Exported? && f == JsonFile ==> r.download == Some(Download(reply.filename, reply.data))
    ensures r.Exported? && reply.message != "" ==> r.description == reply.message
    ensures r.Exported? && reply.message == "" ==> r.description == "Exported as " + Upper(FormatName(f))
  {
    match reply
    case ExportRejected => ExportFailed
    case ExportAnswered(success, data, filename, message) =>
      if !success then Silent
      else
        Exported(
          if f == JsonFile then Some(Download(filename, data)) else None,
          if message != "" then message else "Exported as " + FormatLabel(f))
  }

  // ---------------------------------------------------------------- the component

  /** The `Editor` component, with one field per piece of state it updates. */
  class Editor {
    const animation: Item
    const isProject: bool
    const original: Json
    var current: Json
    var key: nat
    var speed: int
    var size: int
    var rotation: int
    var opacity: int
    var prompt: string
    var isProcessing: bool
    var isPlaying: bool

    /** The fields as an `EditorState`. */
    function State(): EditorState
      reads this
    {
      EditorState(original, current, key, Params(speed, size, rotation, opacity), prompt, isProcessing)
    }

    /** The original is the document the editor was opened with, and the sliders hold values they can produce. */
    predicate Valid()
      reads this
    {
      original == animation.animationData && ParamsOk(State().params)
    }

    constructor(animation: Item, isProject: bool)
      ensures this.animation == animation && this.isProject == isProject
      ensures Valid() && State() == Opened(animation.animationData) && isPlaying
    {
      this.animation := animation;
      this.isProject := isProject;
      original := animation.animationData;
      current := animation.animationData;
      key := 0;
      speed, size, rotation, opacity := 10, 100, 0, 100;
      prompt := "";
      isProcessing := false;
      isPlaying := true;
    }

    /** `handleReset`. */
    method Reset()
      requires Valid()
      modifies this
      ensures Valid() && State() == ResetState(old(State())) && isPlaying == old(isPlaying)
    {
      current := original;
      key := key + 1;
      speed, size, rotation, opacity := 10, 100, 0, 100;
      prompt := "";
    }

    /** `handleSpeedChange`; the player's own speed call is not modelled. */
    method ChangeSpeed(v: int)
      requires Valid() && SpeedOk(v)
      modifies this
      ensures Valid() && State() == WithSpeed(old(State()), v) && isPlaying == old(isPlaying)
    {
      speed := v;
    }

    /** The size slider. */
    method ChangeSize(v: int)
      requires Valid() && SizeOk(v)
      modifies this
      ensures Valid() && State() == WithSize(old(State()), v) && isPlaying == old(isPlaying)
    {
      size := v;
    }

    /** The rotation slider. */
    method ChangeRotation(v: int)
      requires Valid() && RotationOk(v)
      modifies this
      ensures Valid() && State() == WithRotation(old(State()), v) && isPlaying == old(isPlaying)
    {
      rotation := v;
    }

    /** The opacity slider. */
    method ChangeOpacity(v: int)
      requires Valid() && OpacityOk(v)
      modifies this
      ensures Valid() && State() == WithOpacity(old(State()), v) && isPlaying == old(isPlaying)
    {
      opacity := v;
    }

    /** Typing in the prompt box. */
    method ChangePrompt(text: string)
      requires Valid()
      modifies this
      ensures Valid() && State() == WithPrompt(old(State()), text) && isPlaying == old(isPlaying)
    {
      prompt := text;
    }

    /** `handlePlayPause`; the player's own play and pause calls are not modelled. */
    method PlayPause()
      requires Valid()
      modifies this
      ensures Valid() && State() == old(State()) && isPlaying == !old(isPlaying)
    {
      isPlaying := !isPlaying;
    }

    /**
     * A click on "Apply AI": when the button is enabled, the flag is raised and the
     * request to send is returned; a disabled button gives no request and no change.
     */
    method SubmitPrompt() returns (req: Option<EditRequest>)
      requires Valid()
      modifies this
      ensures Valid() && State() == Step(old(State()), Submit) && isPlaying == old(isPlaying)
      ensures req.Some? <==> CanSubmit(old(State()))
      ensures req.Some? ==> req.value == RequestFor(old(State()), animation.id)
    {
      if !isProcessing && JsTrim(prompt) != "" {
        req := Some(EditRequest(current, JsTrim(prompt), animation.id));
        isProcessing := true;
      } else {
        req := None;
      }
    }

    /** The end of `handlePromptSubmit`, for the request in flight. */
    method CompleteSubmit(o: SubmitOutcome)
      requires Valid() && isProcessing
      modifies this
      ensures Valid() && State() == Step(old(State()), Answer(o)) && isPlaying == old(isPlaying)
      ensures !isProcessing
    {
      if o.Answered? && o.success && Truthy(o.animationData) {
        current := o.animationData;
        key := key + 1;
        prompt := "";
      }
      isProcessing := false;
    }

    /** `handleSaveAsProject`, offered for templates only: the project handed to `App`; the editor does not change. */
    method SaveAsProject(stamp: string) returns (p: ProjectData)
      requires Valid() && !isProject
      ensures p.animationData == current && p.templateId == animation.id
      ensures p.settings == Params(speed, size, rotation, opacity)
      ensures p == Payload(State(), animation, stamp)
    {
      p := ProjectData(animation.name + " - Project " + stamp, animation.id, current,
                       Params(speed, size, rotation, opacity));
    }

    /** `handleExport`: the request sent and the feedback for its reply; the editor does not change. */
    method Export(f: ExportFormat, reply: ExportReply) returns (req: ExportRequest, feedback: ExportFeedback)
      requires Valid()
      ensures req.animationData == current && req.animationId == animation.id
      ensures req == ExportRequestFor(State(), animation.id, f)
      ensures feedback == ExportOutcome(f, reply)
    {
      req := ExportRequest(current, FormatName(f), animation.id);
      feedback := ExportOutcome(f, reply);
    }
  }
}
