/**
 * The `Accordion` component: which element it renders as, its ARIA role,
 * its class list, and the pair of container tags it hands down to its
 * items through the accordion context.
 */
module Accordion {
  import opened Wrappers
  import opened ClassList
  import opened AccordionStyles

  /** The heading level the toggles use when the accordion is not a definition list. */
  datatype HeadingLevel = H1 | H2 | H3 | H4 | H5 | H6

  /** The tag name of a heading level. */
  function Level(h: HeadingLevel): (tag: string)
    ensures |tag| == 2 && tag[0] == 'h' && '1' <= tag[1] <= '6'
    ensures (h == H1 <==> tag == "h1") && (h == H2 <==> tag == "h2") && (h == H3 <==> tag == "h3")
    ensures (h == H4 <==> tag == "h4") && (h == H5 <==> tag == "h5") && (h == H6 <==> tag == "h6")
  {
    match h
    case H1 => "h1"
    case H2 => "h2"
    case H3 => "h3"
    case H4 => "h4"
    case H5 => "h5"
    case H6 => "h6"
  }

  /** Different heading levels have different tag names. */
  lemma LevelInjective(a: HeadingLevel, b: HeadingLevel)
    ensures Level(a) == Level(b) <==> a == b
  {
    if a != b {
      assert Level(a)[1] != Level(b)[1];
    }
  }

  datatype DisplaySize = Default | Lg

  /** The modifier class of a display size; the default size has none (the empty name). */
  function DisplaySizeClass(d: DisplaySize): (c: string)
    ensures c == "" <==> d == Default
    ensures d == Lg ==> c == MODIFIERS_DISPLAY_LG
  {
    match d
    case Default => ""
    case Lg => MODIFIERS_DISPLAY_LG
  }

  /** The container tags that accordion items read from the context. */
  datatype AccordionContext = AccordionContext(contentContainer: string, toggleContainer: string)

  /** The properties of an `Accordion` (children are markup). */
  datatype AccordionProps = AccordionProps(
    extraClasses: Classes,
    ariaLabel: Option<string>,
    headingLevel: HeadingLevel,
    fullHeight: bool,
    asDefinitionList: bool,
    bordered: bool,
    displaySize: DisplaySize)

  /** The properties when none is given. */
  function Defaults(): (p: AccordionProps)
    ensures p.asDefinitionList && p.headingLevel == H3 && p.displaySize == Default
    ensures p.ariaLabel.None? && !p.bordered && !p.fullHeight && p.extraClasses == []
  {
    AccordionProps([], None, H3, false, true, false, Default)
  }

  /** The element the accordion renders as: a definition list or a plain div. */
  function ListTag(props: AccordionProps): (tag: string)
    ensures tag == "dl" <==> props.asDefinitionList
    ensures tag == "div" <==> !props.asDefinitionList
  {
    if props.asDefinitionList then "dl" else "div"
  }

  /** The ARIA role: a labelled div is a region; otherwise there is none. */
  function Role(props: AccordionProps): (role: Option<string>)
    ensures role == Some("region") <==> !props.asDefinitionList && props.ariaLabel.Some?
    ensures role.None? <==> props.asDefinitionList || props.ariaLabel.None?
  {
    if !props.asDefinitionList && props.ariaLabel.Some? then Some("region") else None
  }

  /** The context handed to the items: `dd`/`dt` in a definition list, else a div and a heading. */
  function Context(props: AccordionProps): (ctx: AccordionContext)
    ensures props.asDefinitionList ==> ctx == AccordionContext("dd", "dt")
    ensures !props.asDefinitionList ==> ctx == AccordionContext("div", Level(props.headingLevel))
    ensures ctx.contentContainer != ctx.toggleContainer
  {
    var contentContainer := if props.asDefinitionList then "dd" else "div";
    var toggleContainer := if props.asDefinitionList then "dt" else Level(props.headingLevel);
    AccordionContext(contentContainer, toggleContainer)
  }

  /** The accordion's own classes, in the order `accordion` adds them; the default size adds none. */
  function OwnClasses(props: AccordionProps): (c: Classes)
    ensures c == [ACCORDION]
      + (if props.bordered then [MODIFIERS_BORDERED] else [])
      + (if props.displaySize == Lg then [MODIFIERS_DISPLAY_LG] else [])
  {
    var first := Push([], ACCORDION);
    assert first == [ACCORDION];
    var second := Push(first, if props.bordered then MODIFIERS_BORDERED else "");
    assert second == first + (if props.bordered then [MODIFIERS_BORDERED] else []);
    Push(second, DisplaySizeClass(props.displaySize))
  }

  /** The accordion's class list: its base class, the border and size modifiers, then the extra classes. */
  function AccordionClasses(props: AccordionProps): (c: Classes)
    ensures |c| > 0 && c[0] == ACCORDION
    ensures MODIFIERS_BORDERED in c <==> props.bordered || MODIFIERS_BORDERED in props.extraClasses
    ensures MODIFIERS_DISPLAY_LG in c <==> props.displaySize == Lg || MODIFIERS_DISPLAY_LG in props.extraClasses
    ensures forall u :: u in c <==>
      || u == ACCORDION
      || (u == MODIFIERS_BORDERED && props.bordered)
      || (u == MODIFIERS_DISPLAY_LG && props.displaySize == Lg)
      || u in props.extraClasses
  {
    var own := OwnClasses(props);
    assert forall u :: u in own <==>
      u == ACCORDION || (u == MODIFIERS_BORDERED && props.bordered) || (u == MODIFIERS_DISPLAY_LG && props.displaySize == Lg);
    Extend(own, props.extraClasses)
  }

  /** When the extra classes repeat none of the classes the accordion adds itself, they follow those in order. */
  lemma AccordionClassesOrder(props: AccordionProps)
    requires forall i :: 0 <= i < |props.extraClasses| ==> props.extraClasses[i] !in OwnClasses(props)
    ensures AccordionClasses(props)
      == [ACCORDION]
      + (if props.bordered then [MODIFIERS_BORDERED] else [])
      + (if props.displaySize == Lg then [MODIFIERS_DISPLAY_LG] else [])
      + props.extraClasses
  {
    ExtendDisjoint(OwnClasses(props), props.extraClasses);
  }

  /** What `accordion` renders around its children. */
  datatype AccordionView = AccordionView(
    tag: string,
    classes: Classes,
    ariaLabel: Option<string>,
    role: Option<string>,
    context: AccordionContext)

  /** The rendered accordion, with the facts that tie its parts together. */
  function Render(props: AccordionProps): (v: AccordionView)
    ensures v.ariaLabel == props.ariaLabel
    ensures v.role.Some? ==> v.tag == "div" && v.ariaLabel.Some?
    ensures v.tag == "dl" <==> v.context.toggleContainer == "dt"
    ensures v.tag == "dl" <==> v.context.contentContainer == "dd"
    ensures |v.classes| > 0 && v.classes[0] == ACCORDION
    ensures v.tag == ListTag(props) && v.role == Role(props) && v.context == Context(props)
    ensures v.classes == AccordionClasses(props)
  {
    AccordionView(ListTag(props), AccordionClasses(props), props.ariaLabel, Role(props), Context(props))
  }

  /** With no properties given, the accordion is a bare definition list whose toggles are `dt`s. */
  lemma DefaultsRender()
    ensures var v := Render(Defaults());
      && v.tag == "dl"
      && v.role.None?
      && v.classes == [ACCORDION]
      && v.context == AccordionContext("dd", "dt")
  {
    var c := AccordionClasses(Defaults());
    assert forall u :: u in c <==> u == ACCORDION;
    assert c == [ACCORDION];
  }
}
