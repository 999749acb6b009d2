/**
  UIResolver: five role slots (background, title, content, accept button,
  decline button) filled with caller-owned widgets through chainable setters,
  plus two checks: a kind schema (`Validate`, which raises on the first bad
  slot) and a containment check (`ValidateStructure`).
 */
module Resolvers {
  import opened Wrappers
  import opened Widgets

  /** A slot is None until its setter has been called. */
  datatype UIResolver = UIResolver(
    bg: Option<Widget>,
    title: Option<Widget>,
    content: Option<Widget>,
    acceptBtn: Option<Widget>,
    declineBtn: Option<Widget>)

  /** A freshly constructed resolver: every slot unset. */
  const Empty := UIResolver(None, None, None, None, None)

  datatype Role = BGRole | TitleRole | ContentRole | AcceptRole | DeclineRole

  /** The slot a role names. */
  function Slot(r: UIResolver, role: Role): Option<Widget> {
    match role
    case BGRole => r.bg
    case TitleRole => r.title
    case ContentRole => r.content
    case AcceptRole => r.acceptBtn
    case DeclineRole => r.declineBtn
  }

  /** The classes each role admits. */
  function Allowed(role: Role): set<WidgetClass> {
    match role
    case BGRole => {Frame}
    case TitleRole => {TextLabel}
    case ContentRole => {ScrollingFrame, Frame}
    case AcceptRole => {TextButton, ImageButton}
    case DeclineRole => {TextButton, ImageButton}
  }

  /** A role is well filled when its slot is set to a widget of an admitted class. */
  predicate SlotOk(r: UIResolver, role: Role) {
    Slot(r, role).Some? && Slot(r, role).value.cls in Allowed(role)
  }

  /** The schema `Validate` enforces, stated role by role. */
  predicate WellKinded(r: UIResolver) {
    forall role: Role :: SlotOk(r, role)
  }

  /** The order in which `Validate` examines the roles. */
  const ValidationOrder: seq<Role> := [BGRole, TitleRole, ContentRole, AcceptRole, DeclineRole]

  /** The error raised for each role, one message per slot. */
  datatype ValidationError = BadBG | BadTitle | BadContent | BadAccept | BadDecline

  function ErrorFor(role: Role): ValidationError {
    match role
    case BGRole => BadBG
    case TitleRole => BadTitle
    case ContentRole => BadContent
    case AcceptRole => BadAccept
    case DeclineRole => BadDecline
  }

  function Message(e: ValidationError): string {
    match e
    case BadBG => "BG must be a Frame Instance."
    case BadTitle => "Title must be a TextLabel Instance."
    case BadContent => "Content must be a ScrollingFrame or a Frame Instance."
    case BadAccept => "AcceptBtn must be a TextButton or a ImageButton Instance."
    case BadDecline => "DeclineBtn must be a TextButton or a ImageButton Instance."
  }

  /** The instance test: the object must be set and of exactly that class. */
  predicate IsOfInstance(obj: Option<Widget>, cls: WidgetClass)
    ensures IsOfInstance(obj, cls) ==> obj.Some?
  {
    obj.Some? && obj.value.cls == cls
  }

  function SetBG(r: UIResolver, w: Widget): (r': UIResolver)
    ensures r'.bg == Some(w)
    ensures r'.title == r.title && r'.content == r.content
    ensures r'.acceptBtn == r.acceptBtn && r'.declineBtn == r.declineBtn
  {
    r.(bg := Some(w))
  }

  function SetTitle(r: UIResolver, w: Widget): (r': UIResolver)
    ensures r'.title == Some(w)
    ensures r'.bg == r.bg && r'.content == r.content
    ensures r'.acceptBtn == r.acceptBtn && r'.declineBtn == r.declineBtn
  {
    r.(title := Some(w))
  }

  function SetContent(r: UIResolver, w: Widget): (r': UIResolver)
    ensures r'.content == Some(w)
    ensures r'.bg == r.bg && r'.title == r.title
    ensures r'.acceptBtn == r.acceptBtn && r'.declineBtn == r.declineBtn
  {
    r.(content := Some(w))
  }

  function SetAccept(r: UIResolver, w: Widget): (r': UIResolver)
    ensures r'.acceptBtn == Some(w)
    ensures r'.bg == r.bg && r'.title == r.title && r'.content == r.content
    ensures r'.declineBtn == r.declineBtn
  {
    r.(acceptBtn := Some(w))
  }

  function SetDecline(r: UIResolver, w: Widget): (r': UIResolver)
    ensures r'.declineBtn == Some(w)
    ensures r'.bg == r.bg && r'.title == r.title && r'.content == r.content
    ensures r'.acceptBtn == r.acceptBtn
  {
    r.(declineBtn := Some(w))
  }

  /**
    The kind check. It passes exactly when every role is well filled, and
    otherwise fails with the error of the first role, in validation order,
    that is not.
   */
  function Validate(r: UIResolver): (o: Outcome<ValidationError>)
    ensures o.Pass? <==> WellKinded(r)
    ensures o.Fail? ==>
      exists i :: 0 <= i < |ValidationOrder|
        && o.error == ErrorFor(ValidationOrder[i])
        && !SlotOk(r, ValidationOrder[i])
        && forall j :: 0 <= j < i ==> SlotOk(r, ValidationOrder[j])
  {
    if !IsOfInstance(r.bg, Frame) then
      assert !SlotOk(r, ValidationOrder[0]);
      Fail(BadBG)
    else if !IsOfInstance(r.title, TextLabel) then
      assert !SlotOk(r, ValidationOrder[1]);
      Fail(BadTitle)
    else if !(IsOfInstance(r.content, ScrollingFrame) || IsOfInstance(r.content, Frame)) then
      assert !SlotOk(r, ValidationOrder[2]);
      Fail(BadContent)
    else if !(IsOfInstance(r.acceptBtn, TextButton) || IsOfInstance(r.acceptBtn, ImageButton)) then
      assert !SlotOk(r, ValidationOrder[3]);
      Fail(BadAccept)
    else if !(IsOfInstance(r.declineBtn, TextButton) || IsOfInstance(r.declineBtn, ImageButton)) then
      assert !SlotOk(r, ValidationOrder[4]);
      Fail(BadDecline)
    else
      Pass
  }

  /** The four roles that must sit directly inside the background. */
  const ChildRoles: seq<Role> := [TitleRole, ContentRole, AcceptRole, DeclineRole]

  /** Reading `Parent` of an unset slot raises; the error names that slot. */
  datatype StructureError = UnsetSlot(role: Role)

  /** The background's identity as a parent reference: nil when BG is unset. */
  function BGRef(r: UIResolver): Option<WidgetId> {
    if r.bg.Some? then Some(r.bg.value.id) else None
  }

  /** A set slot whose parent is the background (nil compared with nil when BG is unset). */
  predicate InBG(r: UIResolver, role: Role) {
    Slot(r, role).Some? && Slot(r, role).value.parent == BGRef(r)
  }

  /** Every child slot is set. */
  predicate ChildrenSet(r: UIResolver) {
    forall i :: 0 <= i < |ChildRoles| ==> Slot(r, ChildRoles[i]).Some?
  }

  /** Every child slot is set and parented directly by the background. */
  predicate ChildrenInBG(r: UIResolver) {
    forall i :: 0 <= i < |ChildRoles| ==> InBG(r, ChildRoles[i])
  }

  /** The child slot at position `i` is unset and every earlier one is in the background. */
  predicate FirstUnset(r: UIResolver, i: int) {
    && 0 <= i < |ChildRoles|
    && Slot(r, ChildRoles[i]).None?
    && forall j :: 0 <= j < i ==> InBG(r, ChildRoles[j])
  }

  /**
    The containment check. With all four child slots set it answers whether
    each is parented directly by the background; it is true only when they
    are; an unset slot raises only if the chain reaches it.
   */
  function ValidateStructure(r: UIResolver): (o: Result<bool, StructureError>)
    ensures ChildrenSet(r) ==> o.Success? && (o.value <==> ChildrenInBG(r))
    ensures o == Success(true) <==> ChildrenInBG(r)
    ensures o.Failure? ==> exists i :: FirstUnset(r, i) && o.error == UnsetSlot(ChildRoles[i])
    ensures forall i :: FirstUnset(r, i) ==> o == Failure(UnsetSlot(ChildRoles[i]))
  {
    if r.title.None? then
      assert FirstUnset(r, 0);
      Failure(UnsetSlot(TitleRole))
    else if r.title.value.parent != BGRef(r) then
      assert !InBG(r, ChildRoles[0]);
      Success(false)
    else if r.content.None? then
      assert InBG(r, ChildRoles[0]);
      assert FirstUnset(r, 1);
      Failure(UnsetSlot(ContentRole))
    else if r.content.value.parent != BGRef(r) then
      assert !InBG(r, ChildRoles[1]);
      Success(false)
    else if r.acceptBtn.None? then
      assert InBG(r, ChildRoles[0]) && InBG(r, ChildRoles[1]);
      assert FirstUnset(r, 2);
      Failure(UnsetSlot(AcceptRole))
    else if r.acceptBtn.value.parent != BGRef(r) then
      assert !InBG(r, ChildRoles[2]);
      Success(false)
    else if r.declineBtn.None? then
      assert InBG(r, ChildRoles[0]) && InBG(r, ChildRoles[1]) && InBG(r, ChildRoles[2]);
      assert FirstUnset(r, 3);
      Failure(UnsetSlot(DeclineRole))
    else if r.declineBtn.value.parent != BGRef(r) then
      assert !InBG(r, ChildRoles[3]);
      Success(false)
    else
      assert InBG(r, ChildRoles[0]) && InBG(r, ChildRoles[1]);
      assert InBG(r, ChildRoles[2]) && InBG(r, ChildRoles[3]);
      Success(true)
  }

  // ---------------------------------------------------------------------
  // Properties relating the setters and the two checks
  // ---------------------------------------------------------------------

  /** A resolver built by the five setters validates exactly when each argument's class is admitted. */
  lemma BuiltResolverValidates(bg: Widget, title: Widget, content: Widget, accept: Widget, decline: Widget)
    ensures var r := SetDecline(SetAccept(SetContent(SetTitle(SetBG(Empty, bg), title), content), accept), decline);
      Validate(r).Pass? <==>
        && bg.cls == Frame
        && title.cls == TextLabel
        && (content.cls == ScrollingFrame || content.cls == Frame)
        && (accept.cls == TextButton || accept.cls == ImageButton)
        && (decline.cls == TextButton || decline.cls == ImageButton)
  {
  }

  /** Any unset slot makes `Validate` fail. */
  lemma UnsetSlotFailsValidate(r: UIResolver, role: Role)
    requires Slot(r, role).None?
    ensures Validate(r).Fail?
  {
  }

  /** A bad background is reported first, whatever the other slots hold. */
  lemma BadBGReportedFirst(r: UIResolver)
    requires !SlotOk(r, BGRole)
    ensures Validate(r) == Fail(BadBG)
  {
  }

  /** Replaces the parent of the widget in a set slot. */
  function Reparent(r: UIResolver, role: Role, p: Option<WidgetId>): (r': UIResolver)
    requires Slot(r, role).Some?
    ensures Slot(r', role).Some? && Slot(r', role).value.parent == p
    ensures Slot(r', role).value == Slot(r, role).value.(parent := p)
  {
    var w := Some(Slot(r, role).value.(parent := p));
    match role
    case BGRole => r.(bg := w)
    case TitleRole => r.(title := w)
    case ContentRole => r.(content := w)
    case AcceptRole => r.(acceptBtn := w)
    case DeclineRole => r.(declineBtn := w)
  }

  /** Replaces the class of the widget in a set slot. */
  function Reclass(r: UIResolver, role: Role, c: WidgetClass): (r': UIResolver)
    requires Slot(r, role).Some?
    ensures Slot(r', role).Some? && Slot(r', role).value.cls == c
    ensures Slot(r', role).value == Slot(r, role).value.(cls := c)
  {
    var w := Some(Slot(r, role).value.(cls := c));
    match role
    case BGRole => r.(bg := w)
    case TitleRole => r.(title := w)
    case ContentRole => r.(content := w)
    case AcceptRole => r.(acceptBtn := w)
    case DeclineRole => r.(declineBtn := w)
  }

  /** `Validate` ignores parents: moving any slot's widget elsewhere keeps its verdict. */
  lemma ValidateIgnoresParents(r: UIResolver, role: Role, p: Option<WidgetId>)
    requires Slot(r, role).Some?
    ensures Validate(Reparent(r, role, p)) == Validate(r)
  {
  }

  /** `ValidateStructure` ignores classes: changing any slot's class keeps its answer. */
  lemma StructureIgnoresKinds(r: UIResolver, role: Role, c: WidgetClass)
    requires Slot(r, role).Some?
    ensures ValidateStructure(Reclass(r, role, c)) == ValidateStructure(r)
  {
  }

  /** The background's own parent never matters to the containment check. */
  lemma StructureIgnoresBGParent(r: UIResolver, p: Option<WidgetId>)
    requires r.bg.Some?
    ensures ValidateStructure(Reparent(r, BGRole, p)) == ValidateStructure(r)
  {
  }

  /** Moving a child out of the background breaks the structure. */
  lemma MovingChildOutBreaksStructure(r: UIResolver, i: nat, p: Option<WidgetId>)
    requires i < |ChildRoles| && Slot(r, ChildRoles[i]).Some? && p != BGRef(r)
    ensures ValidateStructure(Reparent(r, ChildRoles[i], p)) != Success(true)
  {
  }

  /** A resolver can pass the kind check and fail the containment check. */
  lemma KindsWithoutStructure()
    ensures exists r :: Validate(r).Pass? && ValidateStructure(r) == Success(false)
  {
    var r := UIResolver(
      Some(Widget(0, Frame, None, 0, false)),
      Some(Widget(1, TextLabel, None, 0, true)),
      Some(Widget(2, Frame, Some(0), 0, true)),
      Some(Widget(3, TextButton, Some(0), 0, true)),
      Some(Widget(4, ImageButton, Some(0), 0, true)));
    assert SlotOk(r, BGRole) && SlotOk(r, TitleRole) && SlotOk(r, ContentRole);
    assert SlotOk(r, AcceptRole) && SlotOk(r, DeclineRole);
    assert ValidateStructure(r) == Success(false);
  }

  /** A resolver can pass the containment check and fail the kind check. */
  lemma StructureWithoutKinds()
    ensures exists r :: Validate(r).Fail? && ValidateStructure(r) == Success(true)
  {
    var r := UIResolver(
      Some(Widget(0, TextLabel, None, 0, false)),
      Some(Widget(1, TextLabel, Some(0), 0, true)),
      Some(Widget(2, Frame, Some(0), 0, true)),
      Some(Widget(3, TextButton, Some(0), 0, true)),
      Some(Widget(4, ImageButton, Some(0), 0, true)));
    assert !SlotOk(r, BGRole);
    assert ValidateStructure(r) == Success(true);
  }
}
