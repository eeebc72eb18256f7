/**
 * The page's state machine: the three tabs, the shared image and result,
 * the per-tab options, and the submit / settle / switch-tab transitions.
 * A generation in flight is modelled as a counter of pending calls; its
 * completion arrives later as a separate `Settle` event.
 */
module App {
  import opened Wrappers
  import opened Types
  import opened Gemini

  datatype Mode = Emote | Portrait | RemoveBg

  /** The one message shown for any failed generation, whatever its cause. */
  const GenerationErrorMessage := "Hubo un error generando tu imagen. Por favor intenta de nuevo."

  datatype AppState = AppState(
    mode: Mode,
    selectedImage: Option<string>,
    generatedImage: Option<string>,
    isGenerating: bool,
    error: Option<string>,
    emoteStyle: EmoteStyle,
    emoteEmotion: EmoteEmotion,
    emotePrompt: string,
    portraitStyle: PortraitStyle,
    portraitPrompt: string,
    bgOption: BackgroundOption,
    bgPrompt: string)

  /** The state the page starts in. */
  const Initial: AppState :=
    AppState(Emote, None, None, false, None,
             EmoteStyle.Cartoon, EmoteEmotion.Hype, "",
             PortraitStyle.Disney3D, "",
             BackgroundOption.Transparent, "")

  /** `selectedImage` is truthy: present and not the empty string. */
  predicate HasImage(s: AppState)
  {
    s.selectedImage.Some? && s.selectedImage.value != ""
  }

  /** The generate button is enabled: `disabled={!selectedImage}` or-ed with `isGenerating`. */
  predicate ButtonEnabled(s: AppState)
  {
    HasImage(s) && !s.isGenerating
  }

  /** The options of all three tabs agree. */
  predicate SameOptions(a: AppState, b: AppState)
  {
    && a.emoteStyle == b.emoteStyle && a.emoteEmotion == b.emoteEmotion && a.emotePrompt == b.emotePrompt
    && a.portraitStyle == b.portraitStyle && a.portraitPrompt == b.portraitPrompt
    && a.bgOption == b.bgOption && a.bgPrompt == b.bgPrompt
  }

  /** Everything the user chose agrees: tab, selected image and all options. */
  predicate SameInputs(a: AppState, b: AppState)
  {
    a.mode == b.mode && a.selectedImage == b.selectedImage && SameOptions(a, b)
  }

  // ---------------------------------------------------------------------
  // Generation calls

  /** A generation request as dispatched by the page. */
  datatype Call =
    | EmoteCall(emote: GenerationConfig)
    | PortraitCall(portrait: PortraitConfig)
    | RemoveBgCall(removeBg: RemoveBgConfig)
  {
    function Image(): string
    {
      match this
      case EmoteCall(c) => c.imageBase64
      case PortraitCall(c) => c.imageBase64
      case RemoveBgCall(c) => c.imageBase64
    }

    function Prompt(): string
    {
      match this
      case EmoteCall(c) => c.prompt
      case PortraitCall(c) => c.prompt
      case RemoveBgCall(c) => c.prompt
    }
  }

  /** The call for the current tab, built from that tab's options and the selected image. */
  function Dispatch(s: AppState): (call: Call)
    requires HasImage(s)
    ensures call.EmoteCall? <==> s.mode == Emote
    ensures call.PortraitCall? <==> s.mode == Portrait
    ensures call.RemoveBgCall? <==> s.mode.RemoveBg?
    ensures call.Image() == s.selectedImage.value
    ensures call.Prompt() == match s.mode
                             case Emote => s.emotePrompt
                             case Portrait => s.portraitPrompt
                             case RemoveBg => s.bgPrompt
    ensures call.EmoteCall? ==> call.emote.style == s.emoteStyle && call.emote.emotion == s.emoteEmotion
    ensures call.PortraitCall? ==> call.portrait.style == s.portraitStyle
    ensures call.RemoveBgCall? ==> call.removeBg.background == s.bgOption
  {
    var image := s.selectedImage.value;
    if s.mode == Emote then
      EmoteCall(GenerationConfig(s.emotePrompt, s.emoteStyle, s.emoteEmotion, image))
    else if s.mode == Portrait then
      PortraitCall(PortraitConfig(s.portraitPrompt, s.portraitStyle, image))
    else
      RemoveBgCall(RemoveBgConfig(s.bgPrompt, s.bgOption, image))
  }

  /** Carry out a dispatched call against the image service. */
  function Perform(call: Call, service: Service): Result<string, Failure>
  {
    match call
    case EmoteCall(c) => GenerateEmote(c, service)
    case PortraitCall(c) => GeneratePortrait(c, service)
    case RemoveBgCall(c) => RemoveBackground(c, service)
  }

  // ---------------------------------------------------------------------
  // Transitions

  /**
   * The synchronous part of `handleGenerate`: without an image nothing
   * happens; otherwise the page enters the generating state with result and
   * error cleared, and the call for the current tab goes out. The handler
   * does not look at `isGenerating`.
   */
  function HandleGenerate(s: AppState): (r: (AppState, Option<Call>))
    ensures !HasImage(s) ==> r == (s, None)
    ensures HasImage(s) ==> r.1 == Some(Dispatch(s))
    ensures HasImage(s) ==>
              && r.0.isGenerating && r.0.error.None? && r.0.generatedImage.None?
              && SameInputs(r.0, s)
  {
    if !HasImage(s) then (s, None)
    else (s.(isGenerating := true, error := None, generatedImage := None), Some(Dispatch(s)))
  }

  /**
   * The asynchronous end of `handleGenerate`: a result is stored, a failure
   * shows the fixed message; either way the page leaves the generating state.
   */
  function Complete(s: AppState, outcome: Result<string, Failure>): (r: AppState)
    ensures !r.isGenerating && SameInputs(r, s)
    ensures outcome.Ok? ==> r.generatedImage == Some(outcome.value) && r.error == s.error
    ensures outcome.Err? ==> r.error == Some(GenerationErrorMessage) && r.generatedImage == s.generatedImage
  {
    match outcome
    case Ok(image) => s.(generatedImage := Some(image), isGenerating := false)
    case Err(_) => s.(error := Some(GenerationErrorMessage), isGenerating := false)
  }

  /** A tab button: change the mode and clear the result and the error, nothing else. */
  function SwitchTab(s: AppState, m: Mode): (r: AppState)
    ensures r.mode == m && r.generatedImage.None? && r.error.None?
    ensures r.selectedImage == s.selectedImage && r.isGenerating == s.isGenerating && SameOptions(r, s)
  {
    s.(mode := m, generatedImage := None, error := None)
  }

  // ---------------------------------------------------------------------
  // Events and traces

  datatype Event =
    | Click                                   // the generate button
    | Settle(outcome: Result<string, Failure>)  // the oldest pending generation ends
    | ChooseTab(tab: Mode)
    | ChooseImage(image: Option<string>)      // upload (a data URI) or clear (None)
    | ChooseEmoteStyle(emoteStyle: EmoteStyle)
    | ChooseEmotion(emotion: EmoteEmotion)
    | EditEmotePrompt(emotePrompt: string)
    | ChoosePortraitStyle(portraitStyle: PortraitStyle)
    | EditPortraitPrompt(portraitPrompt: string)
    | ChooseBackground(background: BackgroundOption)
    | EditBgPrompt(bgPrompt: string)

  /** The page together with the number of generations it still awaits. */
  datatype System = System(app: AppState, pending: nat)

  /** Calling the handler directly, bypassing the button. */
  function RawSubmit(sys: System): (r: System)
    ensures HasImage(sys.app) ==> r.pending == sys.pending + 1 && r.app.isGenerating
    ensures !HasImage(sys.app) ==> r == sys
  {
    var (app, call) := HandleGenerate(sys.app);
    System(app, if call.Some? then sys.pending + 1 else sys.pending)
  }

  /** The effect of one event; a click on a disabled button and a settle with nothing pending do nothing. */
  function Step(sys: System, e: Event): (r: System)
    ensures !e.Click? && !e.Settle? ==>
              r.pending == sys.pending && r.app.isGenerating == sys.app.isGenerating
    ensures !e.Click? && !e.Settle? && !e.ChooseTab? ==>
              r.app.generatedImage == sys.app.generatedImage && r.app.error == sys.app.error
    ensures e.Click? && !ButtonEnabled(sys.app) ==> r == sys
    ensures e.Click? && ButtonEnabled(sys.app) ==> r.pending == sys.pending + 1 && r.app.isGenerating
    ensures e.Settle? && sys.pending > 0 ==> r.pending == sys.pending - 1 && !r.app.isGenerating
    ensures e.Click? && ButtonEnabled(sys.app) ==> r.app == HandleGenerate(sys.app).0
    ensures e.Settle? && sys.pending > 0 ==> r.app == Complete(sys.app, e.outcome)
    ensures e.ChooseTab? ==> r.app == SwitchTab(sys.app, e.tab)
    ensures e.ChooseImage? ==>
              r.app.selectedImage == e.image && r.app.(selectedImage := sys.app.selectedImage) == sys.app
    ensures e.ChooseEmoteStyle? ==>
              r.app.emoteStyle == e.emoteStyle && r.app.(emoteStyle := sys.app.emoteStyle) == sys.app
    ensures e.ChooseEmotion? ==>
              r.app.emoteEmotion == e.emotion && r.app.(emoteEmotion := sys.app.emoteEmotion) == sys.app
    ensures e.EditEmotePrompt? ==>
              r.app.emotePrompt == e.emotePrompt && r.app.(emotePrompt := sys.app.emotePrompt) == sys.app
    ensures e.ChoosePortraitStyle? ==>
              r.app.portraitStyle == e.portraitStyle && r.app.(portraitStyle := sys.app.portraitStyle) == sys.app
    ensures e.EditPortraitPrompt? ==>
              r.app.portraitPrompt == e.portraitPrompt && r.app.(portraitPrompt := sys.app.portraitPrompt) == sys.app
    ensures e.ChooseBackground? ==>
              r.app.bgOption == e.background && r.app.(bgOption := sys.app.bgOption) == sys.app
    ensures e.EditBgPrompt? ==>
              r.app.bgPrompt == e.bgPrompt && r.app.(bgPrompt := sys.app.bgPrompt) == sys.app
  {
    var s := sys.app;
    match e
    case Click => if ButtonEnabled(s) then RawSubmit(sys) else sys
    case Settle(outcome) =>
      if sys.pending == 0 then sys else System(Complete(s, outcome), sys.pending - 1)
    case ChooseTab(m) => sys.(app := SwitchTab(s, m))
    case ChooseImage(image) => sys.(app := s.(selectedImage := image))
    case ChooseEmoteStyle(v) => sys.(app := s.(emoteStyle := v))
    case ChooseEmotion(v) => sys.(app := s.(emoteEmotion := v))
    case EditEmotePrompt(v) => sys.(app := s.(emotePrompt := v))
    case ChoosePortraitStyle(v) => sys.(app := s.(portraitStyle := v))
    case EditPortraitPrompt(v) => sys.(app := s.(portraitPrompt := v))
    case ChooseBackground(v) => sys.(app := s.(bgOption := v))
    case EditBgPrompt(v) => sys.(app := s.(bgPrompt := v))
  }

  function Run(sys: System, events: seq<Event>): System
    decreases |events|
  {
    if |events| == 0 then sys else Run(Step(sys, events[0]), events[1..])
  }

  /**
   * What the page maintains while only the button submits: at most one
   * generation in flight, exactly while the page says it is generating;
   * during a generation neither result nor error is shown; result and error
   * are never shown together; and an error is always the fixed message.
   */
  predicate Consistent(sys: System)
  {
    && sys.pending <= 1
    && (sys.app.isGenerating <==> sys.pending == 1)
    && (sys.app.isGenerating ==> sys.app.error.None? && sys.app.generatedImage.None?)
    && !(sys.app.error.Some? && sys.app.generatedImage.Some?)
    && (sys.app.error.Some? ==> sys.app.error.value == GenerationErrorMessage)
  }

  /** The initial state: the defaults the page starts with, and consistent. */
  lemma InitialState()
    ensures Initial.mode == Emote && Initial.selectedImage.None? && Initial.generatedImage.None?
    ensures !Initial.isGenerating && Initial.error.None?
    ensures Initial.emoteStyle == EmoteStyle.Cartoon && Initial.emoteEmotion == EmoteEmotion.Hype
    ensures Initial.portraitStyle == PortraitStyle.Disney3D && Initial.bgOption == BackgroundOption.Transparent
    ensures Initial.emotePrompt == "" && Initial.portraitPrompt == "" && Initial.bgPrompt == ""
    ensures Consistent(System(Initial, 0)) && !ButtonEnabled(Initial)
  {
  }

  /** Every event keeps the page consistent. */
  lemma StepPreservesConsistent(sys: System, e: Event)
    requires Consistent(sys)
    ensures Consistent(Step(sys, e))
  {
    match e
    case Click =>
    case Settle(outcome) =>
    case ChooseTab(m) =>
    case _ =>
  }

  /** Every sequence of events from a consistent state, in particular from the initial one, stays consistent. */
  lemma {:induction false} RunPreservesConsistent(sys: System, events: seq<Event>)
    requires Consistent(sys)
    ensures Consistent(Run(sys, events))
    decreases |events|
  {
    if |events| > 0 {
      StepPreservesConsistent(sys, events[0]);
      RunPreservesConsistent(Step(sys, events[0]), events[1..]);
    }
  }

  /**
   * Submitting and then settling with the service's answer: the result is
   * shown exactly when the service produced one, the fixed error exactly
   * when it failed, never both, and the user's choices are untouched.
   */
  lemma SubmitThenSettle(s: AppState, service: Service)
    requires HasImage(s)
    ensures var (started, call) := HandleGenerate(s);
            var outcome := Perform(call.value, service);
            var done := Complete(started, outcome);
            && !done.isGenerating && SameInputs(done, s)
            && (done.generatedImage.Some? <==> outcome.Ok?)
            && (outcome.Ok? ==> done.generatedImage == Some(outcome.value))
            && (done.error == Some(GenerationErrorMessage) <==> outcome.Err?)
            && (done.error.None? <==> outcome.Ok?)
  {
  }

  /** The dispatched call settles to exactly what the entry point for its tab returns. */
  lemma DispatchUsesTabEntryPoint(s: AppState, service: Service)
    requires HasImage(s)
    ensures s.mode == Emote ==>
              Perform(Dispatch(s), service) ==
              GenerateEmote(GenerationConfig(s.emotePrompt, s.emoteStyle, s.emoteEmotion, s.selectedImage.value), service)
    ensures s.mode == Portrait ==>
              Perform(Dispatch(s), service) ==
              GeneratePortrait(PortraitConfig(s.portraitPrompt, s.portraitStyle, s.selectedImage.value), service)
    ensures s.mode == RemoveBg ==>
              Perform(Dispatch(s), service) ==
              RemoveBackground(RemoveBgConfig(s.bgPrompt, s.bgOption, s.selectedImage.value), service)
  {
  }

  /**
   * Through the button, a submission while generating, or without an image,
   * is ignored: nothing changes and no further call goes out.
   */
  lemma ButtonIgnoresSecondSubmit(sys: System)
    requires sys.app.isGenerating || !HasImage(sys.app)
    ensures Step(sys, Click) == sys
  {
  }

  /**
   * A result that arrives after the user switched tabs is still stored and
   * shown on the new tab: the tab switch does not cancel the generation.
   */
  lemma StaleResultAfterTabSwitch(s: AppState, m: Mode, image: string)
    requires ButtonEnabled(s)
    ensures var after := Run(System(s, 0), [Click, ChooseTab(m), Settle(Ok(image))]);
            after.app.mode == m && after.app.generatedImage == Some(image) && !after.app.isGenerating
  {
    var s1 := Step(System(s, 0), Click);
    var s2 := Step(s1, ChooseTab(m));
    var s3 := Step(s2, Settle(Ok(image)));
    assert Run(s3, []) == s3;
    assert Run(s2, [Settle(Ok(image))]) == s3;
    assert Run(s1, [ChooseTab(m), Settle(Ok(image))]) == s3;
  }

  /**
   * The handler itself has no guard against a second submission: called
   * while a generation is running it starts another one. Two overlapping
   * generations, the first failing and the second succeeding, leave the page
   * showing the error and the result together, and the first completion
   * already reports "not generating" while the second is still pending.
   */
  lemma HandlerHasNoGuard(s: AppState, image: string, failure: Failure)
    requires HasImage(s)
    ensures HandleGenerate(HandleGenerate(s).0).1.Some?
    ensures var twice := RawSubmit(RawSubmit(System(s, 0)));
            var first := Step(twice, Settle(Err(failure)));
            var second := Step(first, Settle(Ok(image)));
            && twice.pending == 2
            && !first.app.isGenerating && first.pending == 1
            && second.app.error == Some(GenerationErrorMessage)
            && second.app.generatedImage == Some(image)
            && !Consistent(first) && !Consistent(second)
  {
  }
}
