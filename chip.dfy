/**
 * The `Chip` component: its class list, whether it renders as a button or a
 * div, and which of its optional parts (icon, badge, close action) appear.
 * The icon and the close callback are values of the caller's choosing, so
 * they are type parameters here.
 */
module Chip {
  import opened Wrappers
  import opened ClassList

  const CHIP := "pf-v5-c-chip"
  const MODIFIER_DRAGGABLE := "pf-m-draggable"
  const MODIFIER_OVERFLOW := "pf-m-overflow"
  const CHIP_ICON := "pf-v5-c-chip__icon"
  const BADGE := "pf-v5-c-badge"
  const MODIFIER_READ := "pf-m-read"
  const CHIP_ACTIONS := "pf-v5-c-chip__actions"

  /** The properties of a `Chip`. */
  datatype ChipProps<Icon, Handler> = ChipProps(
    text: string,
    badge: Option<string>,
    overflow: bool,
    draggable: bool,
    onclose: Option<Handler>,
    icon: Option<Icon>)

  /** The root element of a chip. */
  datatype Element = Button | Div

  /** An optional part of a chip: absent, or a span with its classes around some content. */
  datatype Part<T> = Absent | Present(classes: Classes, content: T)

  /** The chip's class list, built by pushing the modifiers one by one. */
  method ChipClasses<Icon, Handler>(props: ChipProps<Icon, Handler>) returns (classes: Classes)
    ensures |classes| > 0 && classes[0] == CHIP
    ensures MODIFIER_DRAGGABLE in classes <==> props.draggable
    ensures MODIFIER_OVERFLOW in classes <==> props.overflow
    ensures forall u :: u in classes ==> u in {CHIP, MODIFIER_DRAGGABLE, MODIFIER_OVERFLOW}
    ensures classes == [CHIP]
      + (if props.draggable then [MODIFIER_DRAGGABLE] else [])
      + (if props.overflow then [MODIFIER_OVERFLOW] else [])
  {
    classes := Push([], CHIP);
    assert classes == [CHIP];
    if props.draggable {
      classes := Push(classes, MODIFIER_DRAGGABLE);
    }
    if props.overflow {
      classes := Push(classes, MODIFIER_OVERFLOW);
    }
  }

  /** An overflow chip (used inside a chip group) is a button; every other chip is a div. */
  function RootElement<Icon, Handler>(props: ChipProps<Icon, Handler>): (e: Element)
    ensures e == Button <==> props.overflow
    ensures e == Div <==> !props.overflow
  {
    if props.overflow then Button else Div
  }

  /** The icon part: present exactly when an icon is given, and then it shows that icon. */
  function RenderIcon<Icon, Handler>(props: ChipProps<Icon, Handler>): (p: Part<Icon>)
    ensures p.Present? <==> props.icon.Some?
    ensures p.Present? ==> p.content == props.icon.value && p.classes == [CHIP_ICON]
  {
    match props.icon
    case Some(icon) => Present([CHIP_ICON], icon)
    case None => Absent
  }

  /** The badge part: present exactly when a badge text is given, and then it shows that text. */
  function RenderBadge<Icon, Handler>(props: ChipProps<Icon, Handler>): (p: Part<string>)
    ensures p.Present? <==> props.badge.Some?
    ensures p.Present? ==> p.content == props.badge.value && p.classes == [BADGE, MODIFIER_READ]
  {
    match props.badge
    case Some(badge) => Present([BADGE, MODIFIER_READ], badge)
    case None => Absent
  }

  /** The close action: present exactly when a close callback is given, and then its button calls it. */
  function RenderClose<Icon, Handler>(props: ChipProps<Icon, Handler>): (p: Part<Handler>)
    ensures p.Present? <==> props.onclose.Some?
    ensures p.Present? ==> p.content == props.onclose.value && p.classes == [CHIP_ACTIONS]
  {
    match props.onclose
    case Some(onclose) => Present([CHIP_ACTIONS], onclose)
    case None => Absent
  }

  /** What `chip` renders. */
  datatype ChipView<Icon, Handler> = ChipView(
    root: Element,
    classes: Classes,
    icon: Part<Icon>,
    text: string,
    badge: Part<string>,
    close: Part<Handler>)

  /** The rendered chip. */
  method Render<Icon, Handler>(props: ChipProps<Icon, Handler>) returns (v: ChipView<Icon, Handler>)
    ensures |v.classes| > 0 && v.classes[0] == CHIP
    ensures v.root == Button <==> MODIFIER_OVERFLOW in v.classes
    ensures (v.root == Button <==> props.overflow) && (MODIFIER_DRAGGABLE in v.classes <==> props.draggable)
    ensures v.icon.Present? <==> props.icon.Some?
    ensures v.badge.Present? <==> props.badge.Some?
    ensures v.close.Present? <==> props.onclose.Some?
    ensures v.text == props.text
    ensures v.classes == [CHIP]
      + (if props.draggable then [MODIFIER_DRAGGABLE] else [])
      + (if props.overflow then [MODIFIER_OVERFLOW] else [])
    ensures v.root == RootElement(props)
    ensures v.icon == RenderIcon(props) && v.badge == RenderBadge(props) && v.close == RenderClose(props)
  {
    var classes := ChipClasses(props);
    v := ChipView(RootElement(props), classes, RenderIcon(props), props.text, RenderBadge(props), RenderClose(props));
  }
}
