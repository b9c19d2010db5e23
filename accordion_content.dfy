/**
 * The `AccordionContent` component: the container element it renders in,
 * taken from its own `component` property or from the enclosing accordion's
 * context, and the class list and `hidden` flag of its body.
 */
module AccordionContent {
  import opened Wrappers
  import opened ClassList
  import opened AccordionStyles
  import Accordion

  /** The properties of an `AccordionContent` (children are markup). */
  datatype ContentProps = ContentProps(
    extraClasses: Classes,
    id: string,
    hidden: bool,
    fixed: bool,
    ariaLabel: string,
    ariaLabelledby: string,
    component: Option<string>,
    customContent: bool)

  /** Rendering fails when neither a container nor an enclosing accordion is given. */
  datatype ContentError = MissingContainer

  /**
   * The container element: the `component` property when set, else the
   * context's toggle container (not its content container).
   */
  function Container(component: Option<string>, context: Option<Accordion.AccordionContext>): (r: Result<string, ContentError>)
    ensures component.Some? ==> r == Success(component.value)
    ensures component.None? && context.Some? ==> r == Success(context.value.toggleContainer)
    ensures r.Failure? <==> component.None? && context.None?
  {
    if component.Some? then Success(component.value)
    else if context.Some? then Success(context.value.toggleContainer)
    else Failure(MissingContainer)
  }

  /** The content's own classes, in the order `accordion_content` adds them. */
  function OwnClasses(props: ContentProps): (c: Classes)
    ensures c == [ACCORDION_EXPANDABLE_CONTENT]
      + (if props.fixed then [MODIFIERS_FIXED] else [])
      + (if !props.hidden then [MODIFIERS_EXPANDED] else [])
  {
    var first := Push([], ACCORDION_EXPANDABLE_CONTENT);
    assert first == [ACCORDION_EXPANDABLE_CONTENT];
    var second := Push(first, if props.fixed then MODIFIERS_FIXED else "");
    assert second == first + (if props.fixed then [MODIFIERS_FIXED] else []);
    Push(second, if !props.hidden then MODIFIERS_EXPANDED else "")
  }

  /** The body's class list: its base class, `pf-m-fixed` when fixed, `pf-m-expanded` when shown, then the extra classes. */
  function ContentClasses(props: ContentProps): (c: Classes)
    ensures |c| > 0 && c[0] == ACCORDION_EXPANDABLE_CONTENT
    ensures MODIFIERS_FIXED in c <==> props.fixed || MODIFIERS_FIXED in props.extraClasses
    ensures MODIFIERS_EXPANDED in c <==> !props.hidden || MODIFIERS_EXPANDED in props.extraClasses
    ensures forall u :: u in c <==>
      || u == ACCORDION_EXPANDABLE_CONTENT
      || (u == MODIFIERS_FIXED && props.fixed)
      || (u == MODIFIERS_EXPANDED && !props.hidden)
      || u in props.extraClasses
  {
    var own := OwnClasses(props);
    assert forall u :: u in own <==>
      u == ACCORDION_EXPANDABLE_CONTENT || (u == MODIFIERS_FIXED && props.fixed) || (u == MODIFIERS_EXPANDED && !props.hidden);
    Extend(own, props.extraClasses)
  }

  /** When the extra classes repeat none of the classes the content adds itself, they follow those in order. */
  lemma ContentClassesOrder(props: ContentProps)
    requires forall i :: 0 <= i < |props.extraClasses| ==> props.extraClasses[i] !in OwnClasses(props)
    ensures ContentClasses(props)
      == [ACCORDION_EXPANDABLE_CONTENT]
      + (if props.fixed then [MODIFIERS_FIXED] else [])
      + (if !props.hidden then [MODIFIERS_EXPANDED] else [])
      + props.extraClasses
  {
    ExtendDisjoint(OwnClasses(props), props.extraClasses);
  }

  /** What `accordion_content` renders. */
  datatype ContentView = ContentView(
    container: string,
    id: string,
    classes: Classes,
    hidden: bool,
    ariaLabel: string,
    ariaLabelledby: string)

  /** The rendered content, or the failure when there is no container to render in. */
  function Render(props: ContentProps, context: Option<Accordion.AccordionContext>): (r: Result<ContentView, ContentError>)
    ensures r.Success? <==> props.component.Some? || context.Some?
    ensures r.Success? ==>
      && Container(props.component, context) == Success(r.value.container)
      && r.value.hidden == props.hidden
      && r.value.id == props.id
      && r.value.ariaLabel == props.ariaLabel
      && r.value.ariaLabelledby == props.ariaLabelledby
    ensures r.Success? ==> r.value.classes == ContentClasses(props)
    ensures r.Success? && MODIFIERS_EXPANDED !in props.extraClasses ==>
      (MODIFIERS_EXPANDED in r.value.classes <==> !r.value.hidden)
  {
    match Container(props.component, context)
    case Failure(e) => Failure(e)
    case Success(container) =>
      Success(ContentView(container, props.id, ContentClasses(props), props.hidden, props.ariaLabel, props.ariaLabelledby))
  }

  /**
   * Inside an accordion and without its own `component`, the content renders
   * in the accordion's toggle container: `dt` in a definition list, the
   * heading tag otherwise; never in the context's content container.
   */
  lemma InsideAccordion(accordion: Accordion.AccordionProps, props: ContentProps)
    requires props.component.None?
    ensures var ctx := Accordion.Context(accordion);
      var r := Render(props, Some(ctx));
      && r.Success?
      && r.value.container == ctx.toggleContainer
      && r.value.container != ctx.contentContainer
      && r.value.container == (if accordion.asDefinitionList then "dt" else Accordion.Level(accordion.headingLevel))
  {
  }
}
