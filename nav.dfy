/**
 * The expandable navigation section (`NavExpandable`). Its state is an
 * explicit expansion override and the set of ids of the children that are
 * currently active; whether the section is shown expanded is derived from
 * both and from the `expanded` property.
 *
 * The first half states the behaviour on state values; the class at the end
 * is the component itself, whose methods update its two fields in place and
 * are proved to follow the functions of the first half.
 */
module Nav {
  import opened Wrappers
  import opened ClassList

  const NAV_ITEM := "pf-v5-c-nav__item"
  const MODIFIER_EXPANDABLE := "pf-m-expandable"
  const MODIFIER_EXPANDED := "pf-m-expanded"

  /** The properties of a `NavExpandable` that its logic reads (children are markup). */
  datatype NavExpandableProps = NavExpandableProps(title: string, expanded: bool)

  /** The messages the component handles: a click on its toggle, and a child reporting its state. */
  datatype Msg<Id> = Toggle | ChildState(id: Id, active: bool)

  /** The component's own state: the override and the active children. */
  datatype ExpandState<Id> = ExpandState(expanded: Option<bool>, active: set<Id>)

  /** Whether the section is expanded: the override when set, else the property or any active child. */
  function IsExpandedIn<Id>(s: ExpandState<Id>, props: NavExpandableProps): (r: bool)
    ensures s.expanded.Some? ==> r == s.expanded.value
    ensures s.expanded.None? ==> (r <==> props.expanded || exists id :: id in s.active)
  {
    match s.expanded
    case Some(b) => b
    case None => props.expanded || s.active != {}
  }

  /** The state right after `create`. */
  function Created<Id>(props: NavExpandableProps): (s: ExpandState<Id>)
    ensures s.expanded == Some(true) <==> props.expanded
    ensures s.expanded != Some(false)
    ensures s.active == {}
    ensures IsExpandedIn(s, props) == props.expanded
  {
    ExpandState(if props.expanded then Some(true) else None, {})
  }

  /** The state after `update` handles one message. */
  function Updated<Id>(s: ExpandState<Id>, props: NavExpandableProps, msg: Msg<Id>): (r: ExpandState<Id>)
    ensures msg.Toggle? ==>
      && IsExpandedIn(r, props) == !IsExpandedIn(s, props)
      && r.expanded.Some?
      && r.active == s.active
    ensures msg.ChildState? ==>
      && r.expanded == s.expanded
      && (msg.id in r.active <==> msg.active)
      && r.active - {msg.id} == s.active - {msg.id}
  {
    match msg
    case Toggle => ExpandState(Some(!IsExpandedIn(s, props)), s.active)
    case ChildState(id, state) =>
      if state then ExpandState(s.expanded, s.active + {id})
      else ExpandState(s.expanded, s.active - {id})
  }

  /** The state after `changed`, given the new properties. */
  function AfterChanged<Id>(s: ExpandState<Id>, props: NavExpandableProps): (r: ExpandState<Id>)
    ensures props.expanded ==> r.expanded == Some(true) && r.active == s.active && IsExpandedIn(r, props)
    ensures !props.expanded ==> r == s
  {
    if props.expanded then ExpandState(Some(true), s.active) else s
  }

  /** The state after `rendered`: on the first render an expanded section latches its expansion. */
  function AfterRendered<Id>(s: ExpandState<Id>, props: NavExpandableProps, firstRender: bool): (r: ExpandState<Id>)
    ensures IsExpandedIn(r, props) == IsExpandedIn(s, props)
    ensures r.active == s.active
    ensures r != s <==> firstRender && s.expanded.None? && IsExpandedIn(s, props)
    ensures r != s ==> r.expanded == Some(true)
  {
    if firstRender && s.expanded.None? && IsExpandedIn(s, props) then ExpandState(Some(true), s.active) else s
  }

  /** The state after a run of messages, handled in order. */
  function UpdatedAll<Id>(s: ExpandState<Id>, props: NavExpandableProps, msgs: seq<Msg<Id>>): ExpandState<Id>
    decreases |msgs|
  {
    if msgs == [] then s else UpdatedAll(Updated(s, props, msgs[0]), props, msgs[1..])
  }

  /** Two toggles in a row restore the effective expansion; the override is then set to it. */
  lemma ToggleTwiceRestores<Id>(s: ExpandState<Id>, props: NavExpandableProps)
    ensures var r := Updated(Updated(s, props, Toggle), props, Toggle);
      && IsExpandedIn(r, props) == IsExpandedIn(s, props)
      && r == ExpandState(Some(IsExpandedIn(s, props)), s.active)
  {
  }

  /** Reporting the same child state twice is the same as reporting it once. */
  lemma ChildStateIdempotent<Id>(s: ExpandState<Id>, props: NavExpandableProps, id: Id, active: bool)
    ensures var once := Updated(s, props, ChildState(id, active));
      Updated(once, props, ChildState(id, active)) == once
  {
  }

  /** Of two reports about the same child, the later one decides. */
  lemma ChildStateLastWins<Id>(s: ExpandState<Id>, props: NavExpandableProps, id: Id, first: bool, second: bool)
    ensures Updated(Updated(s, props, ChildState(id, first)), props, ChildState(id, second))
         == Updated(s, props, ChildState(id, second))
  {
  }

  /** Reports about two different children can be handled in either order. */
  lemma ChildStatesCommute<Id>(s: ExpandState<Id>, props: NavExpandableProps, a: Msg<Id>, b: Msg<Id>)
    requires a.ChildState? && b.ChildState? && a.id != b.id
    ensures Updated(Updated(s, props, a), props, b) == Updated(Updated(s, props, b), props, a)
  {
  }

  /** Once the override is set, no run of child reports changes it or the effective expansion. */
  lemma {:induction false} OverrideFreezes<Id>(s: ExpandState<Id>, props: NavExpandableProps, msgs: seq<Msg<Id>>)
    requires s.expanded.Some?
    requires forall i :: 0 <= i < |msgs| ==> msgs[i].ChildState?
    ensures UpdatedAll(s, props, msgs).expanded == s.expanded
    ensures IsExpandedIn(UpdatedAll(s, props, msgs), props) == IsExpandedIn(s, props)
    decreases |msgs|
  {
    if msgs != [] {
      OverrideFreezes(Updated(s, props, msgs[0]), props, msgs[1..]);
    }
  }

  /** Once the override is set, no run of messages clears it again. */
  lemma {:induction false} OverrideNeverCleared<Id>(s: ExpandState<Id>, props: NavExpandableProps, msgs: seq<Msg<Id>>)
    requires s.expanded.Some?
    ensures UpdatedAll(s, props, msgs).expanded.Some?
    decreases |msgs|
  {
    if msgs != [] {
      OverrideNeverCleared(Updated(s, props, msgs[0]), props, msgs[1..]);
    }
  }

  /** Without an override, the effective expansion follows the children's reports. */
  lemma {:induction false} InheritedFollowsChildren<Id>(s: ExpandState<Id>, props: NavExpandableProps, msgs: seq<Msg<Id>>)
    requires s.expanded.None?
    requires forall i :: 0 <= i < |msgs| ==> msgs[i].ChildState?
    ensures UpdatedAll(s, props, msgs).expanded.None?
    ensures IsExpandedIn(UpdatedAll(s, props, msgs), props) == (props.expanded || UpdatedAll(s, props, msgs).active != {})
    decreases |msgs|
  {
    if msgs != [] {
      InheritedFollowsChildren(Updated(s, props, msgs[0]), props, msgs[1..]);
    }
  }

  /** The last report about `id` in a run of messages, if any. */
  ghost function LastReport<Id>(msgs: seq<Msg<Id>>, id: Id): Option<bool>
    decreases |msgs|
  {
    if msgs == [] then None
    else
      match LastReport(msgs[1..], id)
      case Some(b) => Some(b)
      case None => if msgs[0].ChildState? && msgs[0].id == id then Some(msgs[0].active) else None
  }

  /**
   * After a run of messages, a child is active exactly when its last report
   * said so, or, when it was never reported, when it was active before.
   */
  lemma {:induction false} ActiveFollowsLastReport<Id>(s: ExpandState<Id>, props: NavExpandableProps, msgs: seq<Msg<Id>>, id: Id)
    ensures id in UpdatedAll(s, props, msgs).active <==>
      match LastReport(msgs, id)
      case Some(b) => b
      case None => id in s.active
    decreases |msgs|
  {
    if msgs != [] {
      ActiveFollowsLastReport(Updated(s, props, msgs[0]), props, msgs[1..], id);
    }
  }

  /**
   * A section that is expanded at its first render stays expanded whatever
   * its children report afterwards, until it is toggled.
   */
  lemma FirstRenderLatch<Id>(s: ExpandState<Id>, props: NavExpandableProps, msgs: seq<Msg<Id>>)
    requires IsExpandedIn(s, props)
    requires forall i :: 0 <= i < |msgs| ==> msgs[i].ChildState?
    ensures IsExpandedIn(UpdatedAll(AfterRendered(s, props, true), props, msgs), props)
  {
    OverrideFreezes(AfterRendered(s, props, true), props, msgs);
  }

  /** What the view shows of the expansion state. */
  datatype ExpandableView = ExpandableView(
    itemClasses: Classes,
    title: string,
    ariaExpanded: string,
    subnavHidden: bool)

  /** The `NavExpandable` component: the override and the active children, updated in place. */
  class NavExpandable<Id(==)> {
    var expanded: Option<bool>
    var active: set<Id>

    /** The fields as a state value. */
    function State(): ExpandState<Id>
      reads this
    {
      ExpandState(expanded, active)
    }

    /** `is_expanded` of the current state under the given properties. */
    function IsExpanded(props: NavExpandableProps): bool
      reads this
    {
      IsExpandedIn(State(), props)
    }

    /** `create`: the override is set only when the property asks for expansion; no child is active. */
    constructor (props: NavExpandableProps)
      ensures State() == Created(props)
    {
      expanded := if props.expanded then Some(true) else None;
      active := {};
    }

    /** `update`: handles one message and asks for a re-render. */
    method Update(props: NavExpandableProps, msg: Msg<Id>) returns (rerender: bool)
      modifies this
      ensures State() == Updated(old(State()), props, msg)
      ensures rerender
    {
      match msg {
        case Toggle =>
          expanded := Some(!IsExpanded(props));
        case ChildState(id, state) =>
          if state {
            active := active + {id};
          } else {
            active := active - {id};
          }
      }
      rerender := true;
    }

    /** `changed`: new properties asking for expansion set the override; it asks for a re-render. */
    method Changed(props: NavExpandableProps) returns (rerender: bool)
      modifies this
      ensures State() == AfterChanged(old(State()), props)
      ensures rerender
    {
      if props.expanded {
        expanded := Some(true);
      }
      rerender := true;
    }

    /** `rendered`: latches an inherited expansion on the first render. */
    method Rendered(props: NavExpandableProps, firstRender: bool)
      modifies this
      ensures State() == AfterRendered(old(State()), props, firstRender)
    {
      if firstRender && expanded.None? && IsExpanded(props) {
        expanded := Some(true);
      }
    }

    /** The expansion-dependent part of `view`: the item's classes, `aria-expanded` and the subnav's `hidden`. */
    method View(props: NavExpandableProps) returns (v: ExpandableView)
      ensures |v.itemClasses| == if IsExpanded(props) then 3 else 2
      ensures v.itemClasses[..2] == [NAV_ITEM, MODIFIER_EXPANDABLE]
      ensures MODIFIER_EXPANDED in v.itemClasses <==> IsExpanded(props)
      ensures v.ariaExpanded == if IsExpanded(props) then "true" else "false"
      ensures v.subnavHidden <==> !IsExpanded(props)
      ensures v.title == props.title
    {
      var classes := Push([], NAV_ITEM);
      classes := Push(classes, MODIFIER_EXPANDABLE);
      assert classes == [NAV_ITEM, MODIFIER_EXPANDABLE];
      var isExpanded := IsExpanded(props);
      if isExpanded {
        classes := Push(classes, MODIFIER_EXPANDED);
        assert classes == [NAV_ITEM, MODIFIER_EXPANDABLE, MODIFIER_EXPANDED];
      }
      v := ExpandableView(classes, props.title, if isExpanded then "true" else "false", !isExpanded);
    }
  }
}
