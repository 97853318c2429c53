# Admin Portal disclosure and sidebar logic, in Dafny

This project models the two pieces of decision logic in the enterprise Admin
Portal front end:

- **The coupon row** (`src/components/Coupon/index.jsx`). Its local state is
  the pair `(detailsExpanded, dimmed)`, starting at `(false, false)`.
  `toggleCouponDetails` flips the expansion, clears the dimming and fires
  exactly one of `onExpand` / `onCollapse`. The key-down handler is a
  two-state machine: a collapsed row accepts Space and Enter, an expanded
  row accepts Space, Enter and Escape, and an accepted key suppresses the
  browser default and then toggles. `setCouponOpacity` and
  `closeCouponDetails` are called by a sibling coordinator. `render` derives
  the error border, the error icon, the chevron and the ARIA state.
- **The sidebar** (`src/components/Sidebar/index.jsx`). It has a fixed
  six-entry menu gated by feature switches and tenant flags, and it renders
  the non-hidden entries in order. Its expansion is `isExpanded ||
  isExpandedByToggle`, and it may be collapsed only when not pinned by the
  toggle. Pointer and focus handlers ask the parent to expand or collapse it.
  It reports its measured width after mounting when pinned, and after an
  update when the pin or the viewport class changed.

`coupon.dfy` (module `Coupon`) gives each coupon handler as a pure
transition on `DisclosureState`. The transition also returns the effects it
hands out, in order: `PreventDefault`, `OnExpand` and `OnCollapse`.
`Run` folds a sequence of events. Class `Coupon` holds the two fields and
updates them in place. Its methods return their effects and are proved to
follow `Next`.

`sidebar.dfy` (module `Sidebar`) gives the menu, the visibility filter, the
derived flags and the handler requests as functions. It also has an
independent table of sections (`Title`, `Path`, `FeatureOn`, `TenantOn`)
against which the menu literal is checked. Class `Sidebar` holds the props,
the feature switches and the ref's node. Its lifecycle methods and its
pointer-event handler return the requests they make of the parent.
`wrappers.dfy` holds `Option`.

Modelling choices:

- `isTriggerKey` lives in `src/utils`, which is not part of this model. It is
  modelled as membership of the key in the action's list.
- The `features` object from `src/config` is not part of this model. It is a
  `Features` value with four booleans.
- A measured width is a `real` the model never computes with.
  `getBoundingClientRect` is not modelled. A node is either attached to the ref or absent.
- Callbacks are not called. Each handler returns the list of calls it would
  make.
- One might expect an open panel never to be dimmed. The code does not
  enforce it: `setCouponOpacity(true)` on an open panel dims it. The model
  follows the code. `NeverDimmedWhileOpenPreserved` proves the rule for every
  run in which dimming is only applied to closed panels (undimming and
  dimming a closed panel are unrestricted), and `DimmingAnOpenPanel` shows
  the one event that breaks it.
- The parent that grants expand/collapse requests is not part of this model.
  `Grant` states how a parent that honours every request behaves: expand
  sets `isExpanded`, collapse clears it, and neither touches the pin or the
  viewport class. `Grant` is used only by `Session` and by the lemmas
  `GrantedHandlersSettle` and `PinnedNeverCollapses`.

## Model

| member | source | states |
|---|---|---|
| Coupon.TriggerKeysSpelledOut | src/components/Coupon/index.jsx:12-15 | the opening keys are exactly Space and Enter; the closing keys are Space, Enter and Escape; every opening key also closes |
| Coupon.Toggled | src/components/Coupon/index.jsx:43-56 | a toggle negates `detailsExpanded`, clears `dimmed`, and fires exactly one callback: `onExpand` if the row is now expanded, otherwise `onCollapse` |
| Coupon.AfterKeyDown | src/components/Coupon/index.jsx:58-67 | collapsed: the row opens iff the key is Space or Enter; expanded: it closes iff the key is Space, Enter or Escape; an accepted key emits `preventDefault` then the one callback and undims; any other key leaves the state unchanged and emits nothing |
| Coupon.Next | src/components/Coupon/index.jsx:30-67 | one event fires at most one callback, matching the new expansion; a click or key fires one exactly when the expansion changed; `setCouponOpacity(b)` sets only `dimmed := b` and `closeCouponDetails` returns to the initial state, neither emitting anything |
| Coupon.NeverDimmedWhileOpenPreserved | src/components/Coupon/index.jsx:30-56 | "open implies not dimmed" holds after any run that starts in it and applies `setCouponOpacity(true)` only to closed panels (any other event, including undimming and clicks after dimming a closed row, is allowed) |
| Coupon.DimmingAClosedRowThenOpening | src/components/Coupon/index.jsx:30-56 | dimming a new (closed) row and then clicking it is a run the rule admits, and it ends open and undimmed |
| Coupon.DimmingAnOpenPanel | src/components/Coupon/index.jsx:30-34 | `setCouponOpacity(true)` on an open row yields an open, dimmed row |
| Coupon.OpenOnlyAfterOnExpand | src/components/Coupon/index.jsx:43-67 | a row open after any run was open at its start with no callback since, or the last callback fired was `onExpand` |
| Coupon.StepAlternates | src/components/Coupon/index.jsx:43-67 | any single event other than close fires at most one callback, the one that flips the expansion, and flips it exactly when it fires |
| Coupon.OpenIffOddCallbacks | src/components/Coupon/index.jsx:43-67 | without close, the row ends open iff it started open xor an odd number of callbacks fired |
| Coupon.CallbacksAlternate | src/components/Coupon/index.jsx:51-55 | without close, the callbacks alternate between `onExpand` and `onCollapse`, starting with the one that leaves the starting expansion |
| Coupon.FromInitialFirstCallbackIsOnExpand | src/components/Coupon/index.jsx:21-56 | from a new row and without close, the first callback is `onExpand` and no callback repeats back to back |
| Coupon.Render | src/components/Coupon/index.jsx:95-158 | error border and error icon are shown together, exactly when `hasError && !detailsExpanded`; `aria-expanded`, the `expanded` class and the up chevron follow the expansion; `rounded-top` exactly when expanded and `rounded` exactly when collapsed; the `dimmed` class follows `dimmed` |
| Coupon.Coupon.constructor | src/components/Coupon/index.jsx:18-28 | a new coupon starts collapsed and undimmed |
| Coupon.Coupon.SetCouponOpacity | src/components/Coupon/index.jsx:30-34 | sets `dimmed` to the argument and leaves `detailsExpanded` unchanged |
| Coupon.Coupon.CloseCouponDetails | src/components/Coupon/index.jsx:36-41 | sets both fields false and fires no callback |
| Coupon.Coupon.ToggleCouponDetails | src/components/Coupon/index.jsx:43-56 | negates `detailsExpanded`, clears `dimmed`, returns the one callback fired, as `Next` on a click prescribes |
| Coupon.Coupon.HandleCouponKeyDown | src/components/Coupon/index.jsx:58-67 | updates the fields and returns the effects exactly as `AfterKeyDown` prescribes; no effect iff the expansion is unchanged, and then `dimmed` is unchanged too |
| Sidebar.MenuItemsFollowSections | src/components/Sidebar/index.jsx:42-87 | the menu always has six entries in the fixed section order, each titled and linked as the section table says below `baseUrl`, and hidden exactly when a switch gating its section is off |
| Sidebar.HiddenRules | src/components/Sidebar/index.jsx:51-87 | Learner Report is never hidden; Subscription Management is hidden iff its tenant flag is off; Support iff its feature is off; the other three iff their feature or tenant flag is off |
| Sidebar.VisibleItems | src/components/Sidebar/index.jsx:143 | the rendered entries are exactly the non-hidden entries, each kept as many times as it occurs, as a subsequence (original relative order kept) |
| Sidebar.ListedIffOffered | src/components/Sidebar/index.jsx:51-87 | a section's unhidden link is among the menu entries iff every switch gating that section is on |
| Sidebar.RenderedIffOffered | src/components/Sidebar/index.jsx:143-150 | a section's link is rendered iff every switch gating that section is on |
| Sidebar.DefaultTenantMenu | src/components/Sidebar/index.jsx:158-162 | with all tenant flags at their default, the menu is Learner Report, followed by Support iff the support feature is on |
| Sidebar.ShouldSidebarCollapse | src/components/Sidebar/index.jsx:98-106 | collapse is allowed exactly when hover expansion is on and the toggle is off, so never while pinned |
| Sidebar.HasShadow | src/components/Sidebar/index.jsx:116-131 | a sidebar that is not pinned always has a shadow; a pinned one has a shadow iff on mobile |
| Sidebar.Render | src/components/Sidebar/index.jsx:118-153 | `d-flex`, `expanded`, `aria-expanded` and the links' expansion all follow `isSidebarExpanded`; the links are exactly the non-hidden entries, in order; `has-shadow` holds iff not pinned, or on mobile while expanded, so a pinned desktop sidebar has none |
| Sidebar.HandlerRequests | src/components/Sidebar/index.jsx:134-137 | mouse-over/focus ask to expand iff neither hover expansion nor the pin is on; mouse-leave/blur ask to collapse iff hover expansion is on and the pin is off; at most one request |
| Sidebar.HoverChangeNeverReportsWidth | src/components/Sidebar/index.jsx:27-40 | a change of `isExpanded` alone never triggers a width report |
| Sidebar.GrantedHandlersSettle | src/components/Sidebar/index.jsx:134-137 | with a granting parent, mouse-over/focus leave the sidebar expanded, and mouse-leave/blur leave it expanded iff pinned |
| Sidebar.PinnedNeverCollapses | src/components/Sidebar/index.jsx:134-137 | while pinned, no sequence of pointer events requests a collapse, and the sidebar stays pinned and expanded |
| Sidebar.Sidebar.constructor | src/components/Sidebar/index.jsx:12-15 | a new sidebar keeps its props and starts with an empty ref |
| Sidebar.Sidebar.AttachElement | src/components/Sidebar/index.jsx:139 | attaching the rendered node fills the ref and leaves the props unchanged |
| Sidebar.Sidebar.GetSidebarWidth | src/components/Sidebar/index.jsx:90-96 | yields null iff no node is attached, and otherwise the node's width |
| Sidebar.Sidebar.ComponentDidMount | src/components/Sidebar/index.jsx:17-25 | reports the width exactly once when mounted pinned, never otherwise; with the node attached, the reported width is non-null |
| Sidebar.Sidebar.ComponentDidUpdate | src/components/Sidebar/index.jsx:27-40 | reports the width exactly once iff `isExpandedByToggle` or `isMobile` differs from the previous props, never otherwise |
| Sidebar.Sidebar.HandlePointerEvent | src/components/Sidebar/index.jsx:134-137 | makes exactly the requests of `HandlerRequests` for the current props; never a collapse while pinned |

## Left out

- The enrollment percentage (`src/components/Coupon/index.jsx:149`) is left out. It uses floating-point division and rounding, and it is NaN or Infinity when the total is 0.
- The DOM measurement via `getBoundingClientRect` is left out because it is a browser call. The width is a `real` the model never computes with.
- CSS class strings beyond the boolean conditions listed above, icon class names, `tabIndex`/`role`/`aria-controls`, and the `CouponDetails` and `IconLink` children are presentation only.
- `isTriggerKey` in `src/utils` and `features` in `src/config` are not part of this model. They are modelled as list membership and as input booleans.
- The expand/collapse authority (the parent layout and its store) is not part of this model. `Grant` is an explicit assumption about it, used only by `Session` and lemmas.
- The other files are bootstrap, routing, form and store wiring or trivial wrappers, and are not modelled: `src/index.jsx`, `src/components/SupportPage/SupportForm.jsx`, `src/components/subscriptions/AddUsersButton.jsx`, `src/containers/EnterpriseApp/index.jsx` and `src/components/H2/index.jsx`.
- React's scheduling is not modelled. Each `setState` is applied at once, and the callbacks fire after the fields are updated, as in the source's order of statements.
