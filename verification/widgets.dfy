/**
  An abstract view of the engine's UI instances: a widget is a handle with an
  identity, a class tag, a reference to its parent (by identity), and the two
  properties the prompt core writes (LayoutOrder and Visible). Class
  inheritance is not modelled: `IsA` is equality of class tags.
 */
module Widgets {
  import opened Wrappers

  type WidgetId = nat

  /**
    The instance classes the core distinguishes. `OtherClass` stands only for
    classes outside the five listed; its name is never one of theirs.
   */
  datatype WidgetClass =
    | Frame
    | ScrollingFrame
    | TextLabel
    | TextButton
    | ImageButton
    | OtherClass(name: string)

  datatype Widget = Widget(
    id: WidgetId,
    cls: WidgetClass,
    parent: Option<WidgetId>,
    layoutOrder: int,
    visible: bool)
}
