# patternfly-yew components: a Dafny model

This project models the decision logic of three presentational components of
patternfly-yew, a PatternFly 5 component library for the yew web framework:

- **`NavExpandable`**, the expandable navigation section. Its state is an
  explicit expansion override (`Option<bool>`) and the set of ids of its
  children that are currently active. Two messages (`Toggle`,
  `ChildState(id, active)`) and three lifecycle hooks (`create`, `changed`,
  `rendered`) update it. Whether the section is expanded is derived from it:
  the override wins when set; otherwise the section is expanded when its
  `expanded` property is set or any child is active.
- **`Accordion`** and **`AccordionContent`**. The accordion chooses its outer
  element (`dl` or `div`), its ARIA role and its class list. It also chooses
  the pair of container tags (content container, toggle container) that it
  passes down through the accordion context. The content element renders in
  its own `component` when one is given. Otherwise it renders in the
  context's **toggle** container. With neither, it fails.
- **`Chip`**: its class list, whether its root is a button or a div, and
  which of its optional parts (icon, badge, close action) appear.

The model is split by component:

- `wrappers.dfy`: `Option` and `Result`.
- `class_list.dfy`: yew's `Classes`. A class list is a `seq<string>` with no
  empty name and no name twice. Pushing an empty name, or one already
  present, leaves the list unchanged. So the empty class of the default
  accordion display size is absent from the list, not present as `""`.
- `nav.dfy`: the navigation section. It has two parts:
  - functions on a state value (`ExpandState`), with the lemmas about them;
  - the class `NavExpandable<Id>`, whose `expanded` and `active` fields its
    methods update in place. Each method is proved to produce the state the
    matching function gives.

  Child ids are a type parameter with equality.
- `accordion_styles.dfy`: the accordion's class-name constants.
- `accordion.dfy`, `accordion_content.dfy`, `chip.dfy`: the other
  components. In `ChipProps`, the icon and the close callback are type
  parameters.

The edge cases are these:

- When no container is available, `AccordionContent` panics. Here `Render`
  returns `Failure(MissingContainer)` instead.
- The extra `class` property of a component may repeat one of its modifier
  names. So "`pf-m-bordered` is present" is stated as "`bordered` is set, or
  the extra classes contain it". The same holds for `pf-m-display-lg`,
  `pf-m-fixed` and `pf-m-expanded`.
- Inside an accordion, `AccordionContent` renders in the toggle container:
  `dt` in a definition list, the heading tag otherwise. It never renders in
  the context's content container (`dd` or `div`). This is what the code does
  (src/components/accordion/accordion_content.rs:55-56), and
  `AccordionContent.InsideAccordion` states it.

## Model

| member | source | states |
|---|---|---|
| `Nav.IsExpandedIn` | src/components/nav/mod.rs:259-267 | with the override set, the section's expansion is the override's value; without it, the section is expanded iff the `expanded` property holds or some child id is active |
| `Nav.Created` | src/components/nav/mod.rs:169-185 | after `create`, the override is `Some(true)` exactly when the property asks for expansion and is never `Some(false)`; no child is active; expansion equals the property |
| `Nav.Updated` | src/components/nav/mod.rs:188-203 | `Toggle` inverts the effective expansion, sets the override and keeps the active set; `ChildState(id, active)` keeps the override and makes `id` a member exactly when `active`, leaving every other id as it was |
| `Nav.AfterChanged` | src/components/nav/mod.rs:205-210 | new properties asking for expansion set the override to `Some(true)` (so the section is expanded) and keep the active set; otherwise nothing changes |
| `Nav.AfterRendered` | src/components/nav/mod.rs:212-218 | `rendered` never changes the effective expansion or the active set; it changes the state exactly on a first render of an expanded section that has no override, and then sets the override to `Some(true)` |
| `Nav.ToggleTwiceRestores` | src/components/nav/mod.rs:190-192 | two toggles restore the effective expansion, leaving the override set to it and the active set unchanged |
| `Nav.ChildStateIdempotent` | src/components/nav/mod.rs:193-200 | reporting the same child state twice equals reporting it once |
| `Nav.ChildStateLastWins` | src/components/nav/mod.rs:193-200 | of two reports about one child, the later decides |
| `Nav.ChildStatesCommute` | src/components/nav/mod.rs:193-200 | reports about two different children commute |
| `Nav.OverrideFreezes` | src/components/nav/mod.rs:193-200 | once the override is set, any run of child reports keeps the override and the effective expansion |
| `Nav.OverrideNeverCleared` | src/components/nav/mod.rs:188-203 | once the override is set, no run of messages clears it |
| `Nav.InheritedFollowsChildren` | src/components/nav/mod.rs:259-267 | without an override, child reports never set one and the expansion stays "property or some child active" |
| `Nav.ActiveFollowsLastReport` | src/components/nav/mod.rs:193-200 | after any run of messages, a child is active exactly when its last report said so, or, if it was never reported, when it was active before |
| `Nav.FirstRenderLatch` | src/components/nav/mod.rs:212-218 | a section expanded at its first render stays expanded whatever its children report afterwards |
| `Nav.NavExpandable.constructor` | src/components/nav/mod.rs:169-185 | the fields start as `Created` gives |
| `Nav.NavExpandable.Update` | src/components/nav/mod.rs:188-203 | the fields become `Updated` of the old fields, and `update` asks for a re-render |
| `Nav.NavExpandable.Changed` | src/components/nav/mod.rs:205-210 | the fields become `AfterChanged` of the old fields, and `changed` asks for a re-render |
| `Nav.NavExpandable.Rendered` | src/components/nav/mod.rs:212-218 | the fields become `AfterRendered` of the old fields |
| `Nav.NavExpandable.View` | src/components/nav/mod.rs:220-247 | the item's classes start with `pf-v5-c-nav__item pf-m-expandable` and contain `pf-m-expanded` iff the section is expanded; `aria-expanded` is `"true"`/`"false"` accordingly; the subnav is hidden iff not expanded |
| `ClassList.Push` | src/components/chip.rs:34-43 | a push adds the name at the end unless it is empty or already present, keeping the list well formed |
| `ClassList.Extend` | src/components/accordion/accordion.rs:112-117 | adding a list of names keeps what was there as a prefix, and the result holds exactly the old names and the non-empty added ones |
| `ClassList.ExtendDisjoint` | src/components/accordion/accordion.rs:112-117 | adding a well-formed list that shares no name with the current one appends it unchanged |
| `Accordion.Level` | src/components/accordion/accordion.rs:18-27 | `H1` to `H6` map to `"h1"` to `"h6"`, each level to its own digit and each of those tags from exactly that level; every tag is `h` followed by a digit 1 to 6 |
| `Accordion.LevelInjective` | src/components/accordion/accordion.rs:18-27 | two heading levels have the same tag iff they are the same level |
| `Accordion.DisplaySizeClass` | src/components/accordion/accordion.rs:37-42 | the class is empty exactly for the default size, and `pf-m-display-lg` for the large size |
| `Accordion.Defaults` | src/components/accordion/accordion.rs:45-78 | by default the accordion is a definition list with `h3` headings, default size, no label, no border and no extra classes |
| `Accordion.ListTag` | src/components/accordion/accordion.rs:82-86 | the outer tag is `dl` iff `as_definition_list`, else `div` |
| `Accordion.Role` | src/components/accordion/accordion.rs:88-92 | the role is `Some("region")` iff the accordion is not a definition list and has an ARIA label, else none |
| `Accordion.Context` | src/components/accordion/accordion.rs:95-108 | the context is `("dd", "dt")` for a definition list, else `("div", heading tag)`; its two containers always differ |
| `Accordion.OwnClasses` | src/components/accordion/accordion.rs:112-115 | the accordion's own classes are `pf-v5-c-accordion`, then `pf-m-bordered` if bordered, then `pf-m-display-lg` if large |
| `Accordion.AccordionClasses` | src/components/accordion/accordion.rs:112-117 | the class list starts with `pf-v5-c-accordion`; holds `pf-m-bordered` iff bordered or given as an extra; `pf-m-display-lg` iff large or given as an extra; and nothing but these and the extras |
| `Accordion.AccordionClassesOrder` | src/components/accordion/accordion.rs:112-117 | when the extras repeat none of the classes the accordion added itself, the list is those classes followed by the extras in order |
| `Accordion.Render` | src/components/accordion/accordion.rs:81-126 | the ARIA label is passed through; a role implies a labelled `div`; the toggle container is `dt` iff the outer tag is `dl`, and the content container is `dd` iff it is `dl`; the tag, role, context and classes are exactly those of `ListTag`, `Role`, `Context` and `AccordionClasses` |
| `Accordion.DefaultsRender` | src/components/accordion/accordion.rs:45-108 | with the default properties the accordion is a `dl` with no role, the single class `pf-v5-c-accordion`, and context `("dd", "dt")` |
| `AccordionContent.Container` | src/components/accordion/accordion_content.rs:53-59 | an explicit `component` wins; otherwise the context's toggle container is used; it fails exactly when neither is given |
| `AccordionContent.OwnClasses` | src/components/accordion/accordion_content.rs:65-68 | the content's own classes are `pf-v5-c-accordion__expandable-content`, then `pf-m-fixed` if fixed, then `pf-m-expanded` if not hidden |
| `AccordionContent.ContentClasses` | src/components/accordion/accordion_content.rs:65-70 | the class list starts with the expandable-content class; holds `pf-m-fixed` iff fixed or given as an extra; `pf-m-expanded` iff not hidden or given as an extra; and nothing else but the extras |
| `AccordionContent.ContentClassesOrder` | src/components/accordion/accordion_content.rs:65-70 | when the extras repeat none of the classes the content added itself, the list is those classes followed by the extras in order |
| `AccordionContent.Render` | src/components/accordion/accordion_content.rs:50-78 | rendering succeeds iff a component or a context is given; the container is the resolved one; `hidden`, `id` and the ARIA attributes are the properties'; the classes are exactly `ContentClasses`; without an extra `pf-m-expanded`, that class is present exactly when the element is not hidden |
| `AccordionContent.InsideAccordion` | src/components/accordion/accordion_content.rs:53-56 | inside an accordion and without its own component, the content renders in the accordion's toggle container (`dt` or the heading tag), never in its content container |
| `Chip.ChipClasses` | src/components/chip.rs:34-43 | the class list starts with `pf-v5-c-chip`, holds `pf-m-draggable` iff draggable and `pf-m-overflow` iff overflow, in that order, and nothing else |
| `Chip.RootElement` | src/components/chip.rs:56-60 | the root is a button iff the chip is an overflow chip, else a div |
| `Chip.RenderIcon` | src/components/chip.rs:63-69 | the icon part is present iff an icon is given, and then shows it in a `pf-v5-c-chip__icon` span |
| `Chip.RenderBadge` | src/components/chip.rs:71-77 | the badge part is present iff a badge is given, and then shows its text with classes `pf-v5-c-badge pf-m-read` |
| `Chip.RenderClose` | src/components/chip.rs:79-90 | the close action is present iff a close callback is given, and then its button calls that callback from a `pf-v5-c-chip__actions` span |
| `Chip.Render` | src/components/chip.rs:33-61 | the rendered chip's root is a button iff its classes hold `pf-m-overflow` iff the chip overflows; `pf-m-draggable` iff draggable; each optional part is present iff its property is given; the text is the property's; the classes are exactly `pf-v5-c-chip`, then `pf-m-draggable` if draggable, then `pf-m-overflow` if overflow; the root and the icon, badge and close parts are exactly those of `RootElement`, `RenderIcon`, `RenderBadge` and `RenderClose` |

## Left out

- Markup trees, `ContextProvider`, `use_context`, `use_expandable` and the
  `Callback`/`reform` plumbing are yew framework machinery. The views are
  modelled only for the values they decide: classes, tags, role, `hidden`,
  `aria-expanded`, and which parts are present.
- `Expandable::state` only emits the callback that becomes a `ChildState`
  message. The model handles that message directly.
- `Nav`, `NavList`, `NavGroup`, `NavItem` and `NavLink` render fixed markup
  and make no decisions.
- The router module behind the `yew-nested-router` feature is not part of
  this model.
- `log::debug!` in `create` is I/O.
- The fixed spans are not modelled: the nav toggle icon and the chip's
  `pf-v5-c-chip__content` and `pf-v5-c-chip__text`. The same goes for the
  `Icon::Times` and `ButtonVariant::Plain` of the close button, and for
  `e.stop_propagation()`, which is DOM event behaviour.
- `Icon`, `Button` and `Id` are foreign types. Icons, close callbacks and
  child ids are type parameters.
- yew's `Classes::from` splits a string at whitespace. The model does not.
  Each literal is pushed as one name, and the nav's
  `"pf-v5-c-nav__item pf-m-expandable"` is pushed as its two names. Extra
  `class` properties are taken to be class lists already.
- `accordion_toggle.rs` renders an empty div and ignores its properties.
- `accordion/mod.rs` only re-exports.
- `full_height` (accordion) and `custom_content` (accordion content) are
  declared but never read. They are carried in the properties and affect
  nothing.
- Children properties are markup.
