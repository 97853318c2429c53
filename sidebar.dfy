/**
 * The collapsible navigation sidebar (src/components/Sidebar/index.jsx).
 *
 * The sidebar owns no state of its own: its expansion is decided upstream and
 * arrives as props. From the props and the deployment's feature switches it
 * derives the menu it shows and its visual flags; from pointer and focus
 * events it asks its parent to expand or collapse it; after mounting and after
 * each update it decides whether to report its measured width upstream.
 */
module Sidebar {
  import opened Wrappers

  /** A measured width in CSS pixels: a `real` the model never computes with. */
  type Width = real

  /** The deployment-wide feature switches the menu consults. */
  datatype Features = Features(
    codeManagement: bool,
    reportingConfigurations: bool,
    samlConfiguration: bool,
    support: bool)

  /** The props the sidebar reads (the two request callbacks and
      onWidthChange are modelled by Request values instead). */
  datatype SidebarProps = SidebarProps(
    baseUrl: string,
    isExpanded: bool,
    isExpandedByToggle: bool,
    isMobile: bool,
    enableCodeManagementScreen: bool,
    enableReportingConfigScreen: bool,
    enableSubscriptionManagementScreen: bool,
    enableSamlConfigurationScreen: bool)

  /** The props as seen when the parent passes only the required ones: every
      tenant screen flag and isMobile default to false. */
  function WithDefaults(baseUrl: string, isExpanded: bool, isExpandedByToggle: bool): SidebarProps
  {
    SidebarProps(baseUrl, isExpanded, isExpandedByToggle, false, false, false, false, false)
  }

  datatype MenuItem = MenuItem(title: string, to: string, iconClassName: string, hidden: bool)

  /** getMenuItems: the fixed six-entry menu; each entry's `hidden` is the
      component's own formula over the feature switches and tenant flags. */
  function GetMenuItems(p: SidebarProps, features: Features): seq<MenuItem>
  {
    [
      MenuItem("Learner Report", p.baseUrl + "/admin/learners", "fa-line-chart", false),
      MenuItem("Code Management", p.baseUrl + "/admin/coupons", "fa-tags",
               !features.codeManagement || !p.enableCodeManagementScreen),
      MenuItem("Reporting Configurations", p.baseUrl + "/admin/reporting", "fa-file",
               !features.reportingConfigurations || !p.enableReportingConfigScreen),
      MenuItem("Subscription Management", p.baseUrl + "/admin/subscriptions", "fa-credit-card",
               !p.enableSubscriptionManagementScreen),
      MenuItem("Saml Configuration", p.baseUrl + "/admin/samlconfiguration", "fa-id-card",
               !features.samlConfiguration || !p.enableSamlConfigurationScreen),
      MenuItem("Support", p.baseUrl + "/admin/support", "fa-support", !features.support)
    ]
  }

  /** The sections of the admin portal, as an independent table of what the
      menu offers and which switches gate each entry. */
  datatype Section =
    | LearnerReport
    | CodeManagement
    | ReportingConfigurations
    | SubscriptionManagement
    | SamlConfiguration
    | Support

  const MenuOrder: seq<Section> :=
    [LearnerReport, CodeManagement, ReportingConfigurations,
     SubscriptionManagement, SamlConfiguration, Support]

  function Title(s: Section): string
  {
    match s
    case LearnerReport => "Learner Report"
    case CodeManagement => "Code Management"
    case ReportingConfigurations => "Reporting Configurations"
    case SubscriptionManagement => "Subscription Management"
    case SamlConfiguration => "Saml Configuration"
    case Support => "Support"
  }

  function Path(s: Section): string
  {
    match s
    case LearnerReport => "/admin/learners"
    case CodeManagement => "/admin/coupons"
    case ReportingConfigurations => "/admin/reporting"
    case SubscriptionManagement => "/admin/subscriptions"
    case SamlConfiguration => "/admin/samlconfiguration"
    case Support => "/admin/support"
  }

  /** The deployment-wide switch of a section, if it has one, is on. */
  predicate FeatureOn(s: Section, features: Features)
  {
    match s
    case LearnerReport => true
    case CodeManagement => features.codeManagement
    case ReportingConfigurations => features.reportingConfigurations
    case SubscriptionManagement => true
    case SamlConfiguration => features.samlConfiguration
    case Support => features.support
  }

  /** The tenant's screen flag of a section, if it has one, is on. */
  predicate TenantOn(s: Section, p: SidebarProps)
  {
    match s
    case LearnerReport => true
    case CodeManagement => p.enableCodeManagementScreen
    case ReportingConfigurations => p.enableReportingConfigScreen
    case SubscriptionManagement => p.enableSubscriptionManagementScreen
    case SamlConfiguration => p.enableSamlConfigurationScreen
    case Support => true
  }

  /** A section is offered when every switch that gates it is on. */
  predicate Offered(s: Section, p: SidebarProps, features: Features)
  {
    FeatureOn(s, features) && TenantOn(s, p)
  }

  /** The menu always has six entries, in the fixed order of MenuOrder, each
      linking below baseUrl, and an entry is hidden exactly when one of the
      switches that gate it is off. */
  lemma MenuItemsFollowSections(p: SidebarProps, features: Features)
    ensures var items := GetMenuItems(p, features);
            |items| == |MenuOrder| == 6 &&
            forall i :: 0 <= i < 6 ==>
              items[i].title == Title(MenuOrder[i]) &&
              items[i].to == p.baseUrl + Path(MenuOrder[i]) &&
              (items[i].hidden <==> !Offered(MenuOrder[i], p, features))
  {
    var items := GetMenuItems(p, features);
    forall i | 0 <= i < 6
      ensures items[i].title == Title(MenuOrder[i])
      ensures items[i].to == p.baseUrl + Path(MenuOrder[i])
      ensures items[i].hidden <==> !Offered(MenuOrder[i], p, features)
    {
    }
  }

  /** The gating written out entry by entry: Learner Report is never hidden,
      Subscription Management only by its tenant flag, Support only by its
      feature switch. */
  lemma HiddenRules(p: SidebarProps, features: Features)
    ensures var items := GetMenuItems(p, features);
            !items[0].hidden &&
            (items[1].hidden <==> !features.codeManagement || !p.enableCodeManagementScreen) &&
            (items[2].hidden <==> !features.reportingConfigurations || !p.enableReportingConfigScreen) &&
            (items[3].hidden <==> !p.enableSubscriptionManagementScreen) &&
            (items[4].hidden <==> !features.samlConfiguration || !p.enableSamlConfigurationScreen) &&
            (items[5].hidden <==> !features.support)
  {
    MenuItemsFollowSections(p, features);
  }

  /** `xs` is `ys` with some elements left out, the rest in the same order. */
  predicate IsSubsequence(xs: seq<MenuItem>, ys: seq<MenuItem>)
    decreases |ys|
  {
    if xs == [] then true
    else if ys == [] then false
    else (xs[0] == ys[0] && IsSubsequence(xs[1..], ys[1..])) || IsSubsequence(xs, ys[1..])
  }

  /** The menu as rendered: the entries that are not hidden, in their
      original relative order. */
  function VisibleItems(items: seq<MenuItem>): (shown: seq<MenuItem>)
    ensures forall x :: x in shown <==> x in items && !x.hidden
    ensures forall x :: multiset(shown)[x] == if x.hidden then 0 else multiset(items)[x]
    ensures IsSubsequence(shown, items)
    ensures |shown| <= |items|
  {
    assert items != [] ==> items == [items[0]] + items[1..];
    if items == [] then []
    else if items[0].hidden then VisibleItems(items[1..])
    else [items[0]] + VisibleItems(items[1..])
  }

  /** A section's link is rendered exactly when the section is offered. */
  lemma RenderedIffOffered(p: SidebarProps, features: Features, s: Section)
    ensures MenuItem(Title(s), p.baseUrl + Path(s), IconFor(s), false)
              in VisibleItems(GetMenuItems(p, features))
            <==> Offered(s, p, features)
  {
    ListedIffOffered(p, features, s);
  }

  /** The unhidden link of a section is among the menu entries exactly when
      the section is offered. */
  lemma {:induction false} ListedIffOffered(p: SidebarProps, features: Features, s: Section)
    ensures MenuItem(Title(s), p.baseUrl + Path(s), IconFor(s), false) in GetMenuItems(p, features)
            <==> Offered(s, p, features)
  {
    var items := GetMenuItems(p, features);
    var link := MenuItem(Title(s), p.baseUrl + Path(s), IconFor(s), false);
    MenuItemsFollowSections(p, features);
    var k := IndexOf(s);
    assert items[k].title == Title(s) && items[k].to == p.baseUrl + Path(s);
    assert items[k].iconClassName == IconFor(s);
    if link in items {
      var j :| 0 <= j < 6 && items[j] == link;
      TitlesDistinct(j, k);
    }
  }

  function IconFor(s: Section): string
  {
    match s
    case LearnerReport => "fa-line-chart"
    case CodeManagement => "fa-tags"
    case ReportingConfigurations => "fa-file"
    case SubscriptionManagement => "fa-credit-card"
    case SamlConfiguration => "fa-id-card"
    case Support => "fa-support"
  }

  /** Where a section stands in MenuOrder. */
  function IndexOf(s: Section): (k: nat)
    ensures k < |MenuOrder| && MenuOrder[k] == s
  {
    match s
    case LearnerReport => 0
    case CodeManagement => 1
    case ReportingConfigurations => 2
    case SubscriptionManagement => 3
    case SamlConfiguration => 4
    case Support => 5
  }

  /** No two menu entries share a title. */
  lemma TitlesDistinct(j: nat, k: nat)
    requires j < 6 && k < 6
    requires Title(MenuOrder[j]) == Title(MenuOrder[k])
    ensures j == k
  {
  }

  /** With every tenant flag at its default, the rendered menu is Learner
      Report, followed by Support when the support feature is switched on. */
  lemma DefaultTenantMenu(baseUrl: string, isExpanded: bool, isExpandedByToggle: bool, features: Features)
    ensures var items := GetMenuItems(WithDefaults(baseUrl, isExpanded, isExpandedByToggle), features);
            VisibleItems(items) == [items[0]] + (if features.support then [items[5]] else [])
  {
    var items := GetMenuItems(WithDefaults(baseUrl, isExpanded, isExpandedByToggle), features);
    var tail := if features.support then [items[5]] else [];
    VisibleCons(items[5..]);
    assert items[5..][1..] == [];
    assert VisibleItems(items[5..]) == tail;
    VisibleCons(items[4..]);
    assert items[4..][1..] == items[5..];
    VisibleCons(items[3..]);
    assert items[3..][1..] == items[4..];
    VisibleCons(items[2..]);
    assert items[2..][1..] == items[3..];
    VisibleCons(items[1..]);
    assert items[1..][1..] == items[2..];
    assert VisibleItems(items[1..]) == tail;
    VisibleCons(items);
  }

  lemma VisibleCons(items: seq<MenuItem>)
    requires items != []
    ensures VisibleItems(items) == (if items[0].hidden then [] else [items[0]]) + VisibleItems(items[1..])
  {
  }

  /** isSidebarExpanded: expanded by hover or focus, or pinned by the toggle. */
  predicate IsSidebarExpanded(p: SidebarProps)
  {
    p.isExpanded || p.isExpandedByToggle
  }

  /** shouldSidebarCollapse: only an expansion that is not pinned may be
      collapsed, so it holds exactly when hover expansion is on and the
      toggle is off. */
  function ShouldSidebarCollapse(p: SidebarProps): (r: bool)
    ensures r ==> IsSidebarExpanded(p) && !p.isExpandedByToggle
    ensures r <==> p.isExpanded && !p.isExpandedByToggle
  {
    IsSidebarExpanded(p) && !p.isExpandedByToggle
  }

  /** The `has-shadow` class: always when not pinned; when pinned, only on
      mobile. */
  function HasShadow(p: SidebarProps): (r: bool)
    ensures !p.isExpandedByToggle ==> r
    ensures p.isExpandedByToggle ==> (r <==> p.isMobile)
  {
    var hasMobileShadow := p.isMobile && IsSidebarExpanded(p);
    !p.isExpandedByToggle || hasMobileShadow
  }

  /** The state-dependent parts of the rendered `<nav>`. */
  datatype SidebarView = SidebarView(
    displayFlex: bool,
    expandedClass: bool,
    hasShadow: bool,
    ariaExpanded: bool,
    links: seq<MenuItem>,
    linksExpanded: bool)

  /** render: every expansion marker follows isSidebarExpanded, only
      non-hidden entries are linked, and a pinned desktop sidebar has no
      shadow. */
  function Render(p: SidebarProps, features: Features): (v: SidebarView)
    ensures v.ariaExpanded == v.expandedClass == v.displayFlex == v.linksExpanded == IsSidebarExpanded(p)
    ensures forall x :: x in v.links <==> x in GetMenuItems(p, features) && !x.hidden
    ensures IsSubsequence(v.links, GetMenuItems(p, features))
    ensures v.hasShadow <==> !p.isExpandedByToggle || (p.isMobile && IsSidebarExpanded(p))
    ensures p.isExpandedByToggle && !p.isMobile ==> !v.hasShadow
  {
    SidebarView(
      IsSidebarExpanded(p),
      IsSidebarExpanded(p),
      HasShadow(p),
      IsSidebarExpanded(p),
      VisibleItems(GetMenuItems(p, features)),
      IsSidebarExpanded(p))
  }

  /** What the sidebar asks of its parent. */
  datatype Request = ExpandSidebar | CollapseSidebar | WidthChange(width: Option<Width>)

  /** The pointer and focus events the `<nav>` listens to. */
  datatype PointerEvent = MouseOver | Focus | MouseLeave | Blur

  /** The handlers: mouse-over and focus ask to expand unless already
      expanded; mouse-leave and blur ask to collapse only when collapsing is
      allowed, hence never while pinned. */
  function HandlerRequests(p: SidebarProps, e: PointerEvent): (calls: seq<Request>)
    ensures calls == [] || calls == [ExpandSidebar] || calls == [CollapseSidebar]
    ensures ExpandSidebar in calls <==>
            (e.MouseOver? || e.Focus?) && !p.isExpanded && !p.isExpandedByToggle
    ensures CollapseSidebar in calls <==>
            (e.MouseLeave? || e.Blur?) && p.isExpanded && !p.isExpandedByToggle
  {
    match e
    case MouseOver | Focus => if !IsSidebarExpanded(p) then [ExpandSidebar] else []
    case MouseLeave | Blur => if ShouldSidebarCollapse(p) then [CollapseSidebar] else []
  }

  /** The condition of componentDidUpdate: the pin or the viewport class
      changed between the previous and the current props. */
  predicate ShouldUpdateSidebarWidth(prev: SidebarProps, cur: SidebarProps)
  {
    cur.isExpandedByToggle != prev.isExpandedByToggle || cur.isMobile != prev.isMobile
  }

  /** A change of the hover expansion alone never makes the sidebar report
      its width. */
  lemma HoverChangeNeverReportsWidth(prev: SidebarProps, isExpanded: bool)
    ensures !ShouldUpdateSidebarWidth(prev, prev.(isExpanded := isExpanded))
  {
  }

  /** How a parent that grants every request updates the props. The parent
      is not part of this model; this is how a parent that honours every
      request behaves, and it never touches the pin or the viewport class. */
  function Grant(p: SidebarProps, calls: seq<Request>): (q: SidebarProps)
    ensures q.isExpandedByToggle == p.isExpandedByToggle && q.isMobile == p.isMobile
    decreases |calls|
  {
    if calls == [] then p
    else
      var p' := match calls[0]
                case ExpandSidebar => p.(isExpanded := true)
                case CollapseSidebar => p.(isExpanded := false)
                case WidthChange(_) => p;
      Grant(p', calls[1..])
  }

  /** With a granting parent, mouse-over or focus always leaves the sidebar
      expanded, and mouse-leave or blur leaves it expanded exactly when it is
      pinned. */
  lemma GrantedHandlersSettle(p: SidebarProps, e: PointerEvent)
    ensures (e.MouseOver? || e.Focus?) ==> IsSidebarExpanded(Grant(p, HandlerRequests(p, e)))
    ensures (e.MouseLeave? || e.Blur?) ==>
            (IsSidebarExpanded(Grant(p, HandlerRequests(p, e))) <==> p.isExpandedByToggle)
  {
    var calls := HandlerRequests(p, e);
    if calls != [] {
      assert calls[1..] == [];
    }
  }

  /** A sequence of pointer events, each handled against the props the
      granting parent produced for it, with every request made on the way. */
  function Session(p: SidebarProps, events: seq<PointerEvent>): (SidebarProps, seq<Request>)
    decreases |events|
  {
    if events == [] then (p, [])
    else
      var calls := HandlerRequests(p, events[0]);
      var rest := Session(Grant(p, calls), events[1..]);
      (rest.0, calls + rest.1)
  }

  /** While the sidebar is pinned, no sequence of pointer events ever makes
      it ask to collapse, and it stays pinned and expanded throughout. */
  lemma {:induction false} PinnedNeverCollapses(p: SidebarProps, events: seq<PointerEvent>)
    requires p.isExpandedByToggle
    ensures CollapseSidebar !in Session(p, events).1
    ensures Session(p, events).0.isExpandedByToggle && IsSidebarExpanded(Session(p, events).0)
    decreases |events|
  {
    if events != [] {
      var calls := HandlerRequests(p, events[0]);
      PinnedNeverCollapses(Grant(p, calls), events[1..]);
    }
  }

  /** The rendered `<nav>` node the component's ref points at. */
  datatype NavElement = NavElement(boundingWidth: Width)

  /** One mounted sidebar. Its props are replaced by its parent on every
      render; `element` is what its ref holds. */
  class Sidebar {
    var props: SidebarProps
    const features: Features
    var element: Option<NavElement>

    /** A new sidebar: its ref is still empty. */
    constructor (props: SidebarProps, features: Features)
      ensures this.props == props && this.features == features && element == None
    {
      this.props := props;
      this.features := features;
      element := None;
    }

    /** The ref is filled in once the `<nav>` node is rendered. */
    method AttachElement(node: NavElement)
      modifies this
      ensures element == Some(node) && props == old(props)
    {
      element := Some(node);
    }

    /** getSidebarWidth: the node's width, or null while there is no node. */
    function GetSidebarWidth(): (w: Option<Width>)
      reads this
      ensures w == None <==> element == None
      ensures element.Some? ==> w == Some(element.value.boundingWidth)
    {
      if element.Some? then Some(element.value.boundingWidth) else None
    }

    /** componentDidMount: reports the width exactly once when mounted
      pinned, and not at all otherwise; with its node attached the report
      carries a width. */
    method ComponentDidMount() returns (calls: seq<Request>)
      ensures |calls| == (if props.isExpandedByToggle then 1 else 0)
      ensures forall c :: c in calls ==> c == WidthChange(GetSidebarWidth())
      ensures props.isExpandedByToggle && element.Some? ==>
              calls == [WidthChange(Some(element.value.boundingWidth))]
    {
      calls := [];
      if props.isExpandedByToggle {
        var width := GetSidebarWidth();
        calls := calls + [WidthChange(width)];
      }
    }

    /** componentDidUpdate: reports the width exactly once when the pin or
      the viewport class changed since the previous props, and not at all
      otherwise. */
    method ComponentDidUpdate(prevProps: SidebarProps) returns (calls: seq<Request>)
      ensures |calls| <= 1
      ensures calls != [] <==>
              props.isExpandedByToggle != prevProps.isExpandedByToggle || props.isMobile != prevProps.isMobile
      ensures forall c :: c in calls ==> c == WidthChange(GetSidebarWidth())
    {
      calls := [];
      if ShouldUpdateSidebarWidth(prevProps, props) {
        var width := GetSidebarWidth();
        calls := calls + [WidthChange(width)];
      }
    }

    /** onMouseOver, onFocus, onMouseLeave, onBlur. */
    method HandlePointerEvent(e: PointerEvent) returns (calls: seq<Request>)
      ensures calls == HandlerRequests(props, e)
      ensures props.isExpandedByToggle ==> CollapseSidebar !in calls
    {
      calls := [];
      match e {
        case MouseOver | Focus =>
          if !IsSidebarExpanded(props) {
            calls := [ExpandSidebar];
          }
        case MouseLeave | Blur =>
          if ShouldSidebarCollapse(props) {
            calls := [CollapseSidebar];
          }
      }
    }
  }
}
