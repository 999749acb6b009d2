/**
  The Prompt: construction picks the UI by mode (a caller-supplied resolver
  that must validate, or one of two fixed templates), `Trigger` brings the
  background to the front and shows it, and `Cancel` sets the cancelled flag
  and fires the cancel signal. Signals are an append-only event log.
 */
module Prompts {
  import opened Wrappers
  import opened Widgets
  import opened Resolvers

  /** The string enum `PromptType`. */
  const CustomMode := "Custom"
  const CompactMode := "Compact"
  const ChoiceMode := "Choice"

  /** The Compact template's background and its named children. */
  datatype CompactTemplate = CompactTemplate(
    frame: Widget, title: Widget, content: Widget, confirmBtn: Widget, closeBtn: Widget)

  /** The Choice template's background and its named children. */
  datatype ChoiceTemplate = ChoiceTemplate(
    frame: Widget, title: Widget, content: Widget, yBtn: Widget, nBtn: Widget)

  /**
    Module-level state every prompt shares: the two templates (never cloned)
    and the identity of the overlay ScreenGui prompts are parented to.
   */
  datatype Shared = Shared(compact: CompactTemplate, choice: ChoiceTemplate, overlay: WidgetId)

  /** A firing of the cancel signal, with its optional reason. */
  datatype Event = OnCancel(reason: Option<string>)

  datatype Prompt = Prompt(
    title: string,
    message: string,
    timeOut: int,
    cancelled: bool,
    ui: UIResolver,
    events: seq<Event>)

  datatype PromptError =
    | MissingResolver
    | InvalidResolver(cause: ValidationError)
    | UnknownPromptType(mode: string)

  /** The text each construction error is raised with. */
  function ErrorMessage(e: PromptError): string {
    match e
    case MissingResolver => "UIResolver must be given when using custom prompt type."
    case InvalidResolver(cause) => Message(cause)
    case UnknownPromptType(mode) => "Unknown PromptType: '" + mode + "'"
  }

  /** The resolver the Compact mode builds from its template. */
  function CompactResolver(t: CompactTemplate): (r: UIResolver)
    ensures r.bg == Some(t.frame) && r.title == Some(t.title) && r.content == Some(t.content)
    ensures r.acceptBtn == Some(t.confirmBtn) && r.declineBtn == Some(t.closeBtn)
  {
    SetDecline(SetAccept(SetContent(SetTitle(SetBG(Empty, t.frame), t.title), t.content), t.confirmBtn), t.closeBtn)
  }

  /** The resolver the Choice mode builds from its template. */
  function ChoiceResolver(t: ChoiceTemplate): (r: UIResolver)
    ensures r.bg == Some(t.frame) && r.title == Some(t.title) && r.content == Some(t.content)
    ensures r.acceptBtn == Some(t.yBtn) && r.declineBtn == Some(t.nBtn)
  {
    SetDecline(SetAccept(SetContent(SetTitle(SetBG(Empty, t.frame), t.title), t.content), t.yBtn), t.nBtn)
  }

  /** Parents the background into the overlay; the other slots are untouched. */
  function Mount(r: UIResolver, overlay: WidgetId): (r': UIResolver)
    requires r.bg.Some?
    ensures r'.bg == Some(r.bg.value.(parent := Some(overlay)))
    ensures r'.title == r.title && r'.content == r.content
    ensures r'.acceptBtn == r.acceptBtn && r'.declineBtn == r.declineBtn
  {
    r.(bg := Some(r.bg.value.(parent := Some(overlay))))
  }

  function Fresh(title: string, message: string, ui: UIResolver): Prompt {
    Prompt(title, message, -1, false, ui, [])
  }

  /**
    Construction. Custom mode needs a resolver that validates and adopts it;
    Compact and Choice map the roles onto their shared template without any
    check; any other mode raises. A built prompt keeps title and message as
    given, has no timeout (-1), is not cancelled, has fired nothing, and its
    background hangs under the overlay.
   */
  function NewPrompt(mode: string, title: string, message: string, ui: Option<UIResolver>, shared: Shared)
    : (r: Result<Prompt, PromptError>)
    ensures r.Success? ==>
      && r.value.title == title && r.value.message == message
      && r.value.timeOut == -1 && !r.value.cancelled && r.value.events == []
      && r.value.ui.bg.Some? && r.value.ui.bg.value.parent == Some(shared.overlay)
    ensures mode != CustomMode && mode != CompactMode && mode != ChoiceMode ==>
      r == Failure(UnknownPromptType(mode))
    ensures mode == CustomMode && ui.None? ==> r == Failure(MissingResolver)
    ensures mode == CustomMode && ui.Some? ==>
      && (r.Success? <==> WellKinded(ui.value))
      && (r.Failure? ==> r.error == InvalidResolver(Validate(ui.value).error))
      && (r.Success? ==> ui.value.bg.Some? && r.value.ui == Mount(ui.value, shared.overlay))
    ensures mode == CompactMode ==>
      r.Success? && r.value.ui == Mount(CompactResolver(shared.compact), shared.overlay)
    ensures mode == ChoiceMode ==>
      r.Success? && r.value.ui == Mount(ChoiceResolver(shared.choice), shared.overlay)
  {
    if mode == CustomMode then
      if ui.None? then Failure(MissingResolver)
      else
        match Validate(ui.value)
        case Fail(e) => Failure(InvalidResolver(e))
        case Pass => Success(Fresh(title, message, Mount(ui.value, shared.overlay)))
    else if mode == CompactMode then
      Success(Fresh(title, message, Mount(CompactResolver(shared.compact), shared.overlay)))
    else if mode == ChoiceMode then
      Success(Fresh(title, message, Mount(ChoiceResolver(shared.choice), shared.overlay)))
    else Failure(UnknownPromptType(mode))
  }

  /**
    Shows the prompt on top: the background's LayoutOrder becomes one more
    than the overlay's current child count and it is made visible. Nothing
    else about the prompt changes.
   */
  function Trigger(p: Prompt, overlayChildren: nat): (r: Prompt)
    requires p.ui.bg.Some?
    ensures r.ui.bg.Some? && r.ui.bg.value.layoutOrder == overlayChildren + 1 && r.ui.bg.value.visible
    ensures r.ui.bg.value.id == p.ui.bg.value.id && r.ui.bg.value.cls == p.ui.bg.value.cls
    ensures r.ui.bg.value.parent == p.ui.bg.value.parent
    ensures r.(ui := p.ui) == p
    ensures r.ui.(bg := p.ui.bg) == p.ui
  {
    var bg := p.ui.bg.value.(layoutOrder := overlayChildren + 1).(visible := true);
    p.(ui := p.ui.(bg := Some(bg)))
  }

  /** Sets the cancelled flag and fires exactly one cancel event; nothing guards a repeat. */
  function Cancel(p: Prompt, reason: Option<string>): (r: Prompt)
    ensures r.cancelled
    ensures r.events == p.events + [OnCancel(reason)]
    ensures r.(cancelled := p.cancelled, events := p.events) == p
  {
    p.(cancelled := true, events := p.events + [OnCancel(reason)])
  }

  // ---------------------------------------------------------------------
  // Properties relating several calls
  // ---------------------------------------------------------------------

  /** Two Compact prompts, whatever their text or supplied resolver, use the very same widgets. */
  lemma CompactPromptsShareTemplate(
    t1: string, m1: string, u1: Option<UIResolver>,
    t2: string, m2: string, u2: Option<UIResolver>, shared: Shared)
    ensures NewPrompt(CompactMode, t1, m1, u1, shared).Success?
    ensures NewPrompt(CompactMode, t2, m2, u2, shared).Success?
    ensures NewPrompt(CompactMode, t1, m1, u1, shared).value.ui
         == NewPrompt(CompactMode, t2, m2, u2, shared).value.ui
  {
  }

  /** Two Choice prompts, whatever their text or supplied resolver, use the very same widgets. */
  lemma ChoicePromptsShareTemplate(
    t1: string, m1: string, u1: Option<UIResolver>,
    t2: string, m2: string, u2: Option<UIResolver>, shared: Shared)
    ensures NewPrompt(ChoiceMode, t1, m1, u1, shared).Success?
    ensures NewPrompt(ChoiceMode, t2, m2, u2, shared).Success?
    ensures NewPrompt(ChoiceMode, t1, m1, u1, shared).value.ui
         == NewPrompt(ChoiceMode, t2, m2, u2, shared).value.ui
  {
  }

  /**
    A Custom prompt adopts the caller's widgets themselves: every slot holds
    the widget supplied, and only the background's parent differs.
   */
  lemma CustomAdoptsResolver(title: string, message: string, u: UIResolver, shared: Shared)
    requires WellKinded(u)
    ensures NewPrompt(CustomMode, title, message, Some(u), shared).Success?
    ensures var ui := NewPrompt(CustomMode, title, message, Some(u), shared).value.ui;
      && ui.title == u.title && ui.content == u.content
      && ui.acceptBtn == u.acceptBtn && ui.declineBtn == u.declineBtn
      && ui.bg.value.(parent := u.bg.value.parent) == u.bg.value
  {
  }

  /** Whatever the mode, a built prompt can be triggered: its background is set. */
  lemma BuiltPromptHasBackground(mode: string, title: string, message: string, ui: Option<UIResolver>, shared: Shared)
    requires NewPrompt(mode, title, message, ui, shared).Success?
    ensures NewPrompt(mode, title, message, ui, shared).value.ui.bg.Some?
  {
  }

  /**
    Triggering twice with the same overlay size leaves the same LayoutOrder and
    Visible as triggering once. The click connections each call adds are not
    part of this model.
   */
  lemma TriggerIdempotent(p: Prompt, n: nat)
    requires p.ui.bg.Some?
    ensures Trigger(Trigger(p, n), n) == Trigger(p, n)
  {
  }

  /** Cancelling never touches the UI: a triggered prompt stays visible. */
  lemma CancelKeepsUI(p: Prompt, reason: Option<string>)
    ensures Cancel(p, reason).ui == p.ui
    ensures Cancel(p, reason).title == p.title && Cancel(p, reason).message == p.message
  {
  }

  /** The events a run of cancels fires, one per call, in order. */
  function CancelEvents(reasons: seq<Option<string>>): (es: seq<Event>)
    ensures |es| == |reasons|
    ensures forall i :: 0 <= i < |reasons| ==> es[i] == OnCancel(reasons[i])
  {
    seq(|reasons|, i requires 0 <= i < |reasons| => OnCancel(reasons[i]))
  }

  /** Cancel called once per reason, in order. */
  function CancelAll(p: Prompt, reasons: seq<Option<string>>): Prompt
    decreases |reasons|
  {
    if reasons == [] then p else CancelAll(Cancel(p, reasons[0]), reasons[1..])
  }

  /** Repeated cancels fire repeatedly: each call appends exactly its own event. */
  lemma {:induction false} CancelAllLog(p: Prompt, reasons: seq<Option<string>>)
    ensures CancelAll(p, reasons).events == p.events + CancelEvents(reasons)
    ensures CancelAll(p, reasons).cancelled == (p.cancelled || reasons != [])
    ensures CancelAll(p, reasons).ui == p.ui
    decreases |reasons|
  {
    if reasons != [] {
      var p1 := Cancel(p, reasons[0]);
      CancelAllLog(p1, reasons[1..]);
      assert CancelEvents(reasons) == [OnCancel(reasons[0])] + CancelEvents(reasons[1..]);
    }
  }
}
