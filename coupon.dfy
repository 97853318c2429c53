/**
 * The disclosure row of one coupon (src/components/Coupon/index.jsx).
 *
 * Local state is the pair (detailsExpanded, dimmed). A click toggles it, a
 * key-down toggles it when the key is accepted in the current state, a
 * sibling coordinator may dim or close it. Every handler is given here twice:
 * as a pure transition on DisclosureState that also lists what it hands to
 * the outside world (Effect), and as a method of class Coupon that updates the
 * two fields in place and is proved to follow that transition.
 */
module Coupon {

  /** The two named key lists of the component. */
  datatype Action = OpenDetails | CloseDetails

  /** The keys accepted for each action, in the order the component lists them. */
  function TriggerKeys(action: Action): seq<string>
  {
    match action
    case OpenDetails => [" ", "Enter"]
    case CloseDetails => [" ", "Enter", "Escape"]
  }

  /** Whether `key` is one of the keys listed for `action`. */
  predicate IsTriggerKey(action: Action, key: string)
  {
    key in TriggerKeys(action)
  }

  /** The accepted keys written out: opening keys are exactly Space and Enter,
      closing keys add Escape, so every opening key also closes. */
  lemma TriggerKeysSpelledOut(key: string)
    ensures IsTriggerKey(OpenDetails, key) <==> key == " " || key == "Enter"
    ensures IsTriggerKey(CloseDetails, key) <==> key == " " || key == "Enter" || key == "Escape"
    ensures IsTriggerKey(OpenDetails, key) ==> IsTriggerKey(CloseDetails, key)
  {
  }

  datatype DisclosureState = DisclosureState(detailsExpanded: bool, dimmed: bool)

  /** The state a new coupon row starts in. */
  const Initial := DisclosureState(false, false)

  /** What a handler hands to the outside world: suppressing the browser's
      default key action, or one of the two callbacks of the owner. */
  datatype Effect = PreventDefault | OnExpand | OnCollapse

  /** A new state together with the effects emitted on the way, in order. */
  datatype Outcome = Outcome(state: DisclosureState, effects: seq<Effect>)

  /** The callback invocations among `effects`, in order. */
  function Callbacks(effects: seq<Effect>): (cbs: seq<Effect>)
    ensures |cbs| <= |effects|
    ensures PreventDefault !in cbs
  {
    if effects == [] then []
    else (if effects[0] == PreventDefault then [] else [effects[0]]) + Callbacks(effects[1..])
  }

  lemma {:induction false} CallbacksAppend(a: seq<Effect>, b: seq<Effect>)
    ensures Callbacks(a + b) == Callbacks(a) + Callbacks(b)
  {
    if a == [] {
      assert a + b == b;
    } else {
      assert (a + b)[0] == a[0];
      assert (a + b)[1..] == a[1..] + b;
      CallbacksAppend(a[1..], b);
    }
  }

  /** toggleCouponDetails: flips the expansion, clears the dimming and fires
      exactly one callback, the one matching the new expansion. */
  function Toggled(s: DisclosureState): (r: Outcome)
    ensures r.state.detailsExpanded == !s.detailsExpanded
    ensures !r.state.dimmed
    ensures r.effects == [OnExpand] || r.effects == [OnCollapse]
    ensures r.effects == [OnExpand] <==> r.state.detailsExpanded
  {
    var detailsExpanded := !s.detailsExpanded;
    Outcome(DisclosureState(detailsExpanded, false),
            if detailsExpanded then [OnExpand] else [OnCollapse])
  }

  /** handleCouponKeyDown: a collapsed row opens on Space or Enter, an
      expanded row closes on Space, Enter or Escape; an accepted key first
      suppresses the default action and then toggles. Any other key changes
      nothing and emits nothing. */
  function AfterKeyDown(s: DisclosureState, key: string): (r: Outcome)
    ensures !s.detailsExpanded ==> (r.state.detailsExpanded <==> key == " " || key == "Enter")
    ensures s.detailsExpanded ==> (!r.state.detailsExpanded <==> key == " " || key == "Enter" || key == "Escape")
    ensures r.state.detailsExpanded == s.detailsExpanded ==> r == Outcome(s, [])
    ensures r.state.detailsExpanded != s.detailsExpanded ==>
      !r.state.dimmed &&
      r.effects == [PreventDefault, if r.state.detailsExpanded then OnExpand else OnCollapse]
  {
    TriggerKeysSpelledOut(key);
    if !s.detailsExpanded && IsTriggerKey(OpenDetails, key) then
      var t := Toggled(s);
      Outcome(t.state, [PreventDefault] + t.effects)
    else if s.detailsExpanded && IsTriggerKey(CloseDetails, key) then
      var t := Toggled(s);
      Outcome(t.state, [PreventDefault] + t.effects)
    else
      Outcome(s, [])
  }

  /** Everything that can happen to one coupon row: a click on the row, a
      key-down on it, setCouponOpacity, closeCouponDetails. */
  datatype Event = Click | KeyDown(key: string) | SetOpacity(dimmedStatus: bool) | Close

  /** One event applied to one state. */
  function Next(s: DisclosureState, e: Event): (r: Outcome)
    ensures Callbacks(r.effects) == [] ||
            Callbacks(r.effects) == [if r.state.detailsExpanded then OnExpand else OnCollapse]
    ensures (e.Click? || e.KeyDown?) ==>
            (Callbacks(r.effects) != [] <==> r.state.detailsExpanded != s.detailsExpanded)
    ensures (e.SetOpacity? || e.Close?) ==> r.effects == []
    ensures e.SetOpacity? ==> r.state == DisclosureState(s.detailsExpanded, e.dimmedStatus)
    ensures e.Close? ==> r.state == Initial
  {
    match e
    case Click => Toggled(s)
    case KeyDown(key) => AfterKeyDown(s, key)
    case SetOpacity(dimmedStatus) => Outcome(DisclosureState(s.detailsExpanded, dimmedStatus), [])
    case Close => Outcome(DisclosureState(false, false), [])
  }

  /** A sequence of events applied in order; the effects are concatenated. */
  function Run(s: DisclosureState, events: seq<Event>): Outcome
    decreases |events|
  {
    if events == [] then Outcome(s, [])
    else
      var first := Next(s, events[0]);
      var rest := Run(first.state, events[1..]);
      Outcome(rest.state, first.effects + rest.effects)
  }

  /** The rule that an open panel is never dimmed. */
  ghost predicate NeverDimmedWhileOpen(s: DisclosureState)
  {
    s.detailsExpanded ==> !s.dimmed
  }

  /** Along the run of `events` from `s`, dimming is only ever applied to a
      closed panel (as a sibling coordinator does); every other event,
      including undimming, is unrestricted. */
  ghost predicate DimsOnlyClosed(s: DisclosureState, events: seq<Event>)
    decreases |events|
  {
    events == [] ||
    ((events[0] == SetOpacity(true) ==> !s.detailsExpanded) &&
     DimsOnlyClosed(Next(s, events[0]).state, events[1..]))
  }

  /** As long as only closed panels are dimmed, "an open panel is not
      dimmed" holds after every run that starts in it. */
  lemma {:induction false} NeverDimmedWhileOpenPreserved(s: DisclosureState, events: seq<Event>)
    requires NeverDimmedWhileOpen(s)
    requires DimsOnlyClosed(s, events)
    ensures NeverDimmedWhileOpen(Run(s, events).state)
    decreases |events|
  {
    if events != [] {
      NeverDimmedWhileOpenPreserved(Next(s, events[0]).state, events[1..]);
    }
  }

  /** A sibling dimming a closed row is within that rule: the row can then
      be opened, and it opens undimmed. */
  lemma DimmingAClosedRowThenOpening()
    ensures DimsOnlyClosed(Initial, [SetOpacity(true), Click])
    ensures Run(Initial, [SetOpacity(true), Click]).state == DisclosureState(true, false)
  {
    assert [SetOpacity(true), Click][1..] == [Click];
    assert [Click][1..] == [];
  }

  /** The component itself does not enforce that rule: setCouponOpacity(true)
      on an open panel dims it. */
  lemma DimmingAnOpenPanel()
    ensures Next(DisclosureState(true, false), SetOpacity(true)).state == DisclosureState(true, true)
    ensures !NeverDimmedWhileOpen(Next(DisclosureState(true, false), SetOpacity(true)).state)
  {
  }

  /** A panel that is open at the end of a run was either open at its start
      with no callback fired since, or the last callback fired was onExpand. */
  lemma {:induction false} OpenOnlyAfterOnExpand(s: DisclosureState, events: seq<Event>)
    ensures var r := Run(s, events);
            var cbs := Callbacks(r.effects);
            r.state.detailsExpanded ==>
              if cbs == [] then s.detailsExpanded else cbs[|cbs| - 1] == OnExpand
    decreases |events|
  {
    if events != [] {
      var first := Next(s, events[0]);
      var rest := Run(first.state, events[1..]);
      var c1, c2 := Callbacks(first.effects), Callbacks(rest.effects);
      OpenOnlyAfterOnExpand(first.state, events[1..]);
      CallbacksAppend(first.effects, rest.effects);
      if c2 == [] {
        assert c1 + c2 == c1;
      } else {
        assert (c1 + c2)[|c1 + c2| - 1] == c2[|c2| - 1];
      }
    }
  }

  /** `cbs` alternates between the two callbacks, starting with the one that
      leaves the expansion `expanded`. */
  ghost predicate Alternates(expanded: bool, cbs: seq<Effect>)
    decreases |cbs|
  {
    cbs == [] ||
    (cbs[0] == (if expanded then OnCollapse else OnExpand) && Alternates(!expanded, cbs[1..]))
  }

  lemma {:induction false} AlternatesAppend(expanded: bool, a: seq<Effect>, b: seq<Effect>)
    requires Alternates(expanded, a)
    requires Alternates(expanded != (|a| % 2 == 1), b)
    ensures Alternates(expanded, a + b)
    decreases |a|
  {
    if a == [] {
      assert |a| % 2 == 0;
      assert a + b == b;
    } else {
      var ab := a + b;
      assert ab[0] == a[0];
      assert ab[1..] == a[1..] + b;
      assert |a[1..]| == |a| - 1;
      assert (|a[1..]| % 2 == 1) == (|a| % 2 != 1);
      AlternatesAppend(!expanded, a[1..], b);
      assert Alternates(!expanded, ab[1..]);
    }
  }


  /** A single event other than closeCouponDetails fires at most the one
      callback that flips the expansion. */
  lemma StepAlternates(s: DisclosureState, e: Event)
    requires !e.Close?
    ensures var r := Next(s, e);
            var cbs := Callbacks(r.effects);
            |cbs| <= 1 &&
            Alternates(s.detailsExpanded, cbs) &&
            r.state.detailsExpanded == (s.detailsExpanded != (|cbs| == 1))
  {
    var cbs := Callbacks(Next(s, e).effects);
    if cbs != [] {
      assert cbs[1..] == [];
    }
  }

  /** Without closeCouponDetails, the panel is open at the end of a run
      exactly when an odd number of callbacks has moved it away from where
      it started. */
  lemma {:induction false} OpenIffOddCallbacks(s: DisclosureState, events: seq<Event>)
    requires forall i :: 0 <= i < |events| ==> !events[i].Close?
    ensures var r := Run(s, events);
            r.state.detailsExpanded == (s.detailsExpanded != (|Callbacks(r.effects)| % 2 == 1))
    decreases |events|
  {
    if events != [] {
      var first := Next(s, events[0]);
      var rest := Run(first.state, events[1..]);
      NoCloseInTail(events);
      StepAlternates(s, events[0]);
      OpenIffOddCallbacks(first.state, events[1..]);
      CallbacksAppend(first.effects, rest.effects);
      ParityOfAppend(Callbacks(first.effects), Callbacks(rest.effects));
    }
  }

  /** Without closeCouponDetails, the owner hears onExpand and onCollapse
      strictly in turn, starting with the one that leaves the initial
      expansion. */
  lemma {:induction false} CallbacksAlternate(s: DisclosureState, events: seq<Event>)
    requires forall i :: 0 <= i < |events| ==> !events[i].Close?
    ensures Alternates(s.detailsExpanded, Callbacks(Run(s, events).effects))
    decreases |events|
  {
    if events != [] {
      var first := Next(s, events[0]);
      var rest := Run(first.state, events[1..]);
      NoCloseInTail(events);
      StepAlternates(s, events[0]);
      CallbacksAlternate(first.state, events[1..]);
      CallbacksAppend(first.effects, rest.effects);
      var c1, c2 := Callbacks(first.effects), Callbacks(rest.effects);
      assert Run(s, events).effects == first.effects + rest.effects;
      assert Alternates(s.detailsExpanded != (|c1| % 2 == 1), c2) by {
        assert (|c1| % 2 == 1) == (|c1| == 1);
      }
      AlternatesAppend(s.detailsExpanded, c1, c2);
    }
  }

  lemma NoCloseInTail(events: seq<Event>)
    requires events != []
    requires forall i :: 0 <= i < |events| ==> !events[i].Close?
    ensures forall i :: 0 <= i < |events[1..]| ==> !events[1..][i].Close?
  {
    forall i | 0 <= i < |events[1..]| ensures !events[1..][i].Close? {
      assert events[1..][i] == events[i + 1];
    }
  }

  lemma ParityOfAppend(c1: seq<Effect>, c2: seq<Effect>)
    requires |c1| <= 1
    ensures (|c1 + c2| % 2 == 1) == ((|c1| == 1) != (|c2| % 2 == 1))
  {
  }

  /** From a new coupon row and without closeCouponDetails, the first
      callback is onExpand and no callback is ever repeated back to back. */
  lemma FromInitialFirstCallbackIsOnExpand(events: seq<Event>)
    requires forall i :: 0 <= i < |events| ==> !events[i].Close?
    ensures var cbs := Callbacks(Run(Initial, events).effects);
            (cbs != [] ==> cbs[0] == OnExpand) &&
            (forall i :: 0 <= i < |cbs| - 1 ==> cbs[i] != cbs[i + 1])
  {
    CallbacksAlternate(Initial, events);
    var cbs := Callbacks(Run(Initial, events).effects);
    NoRepeats(false, cbs);
  }

  lemma {:induction false} NoRepeats(expanded: bool, cbs: seq<Effect>)
    requires Alternates(expanded, cbs)
    ensures forall i :: 0 <= i < |cbs| - 1 ==> cbs[i] != cbs[i + 1]
    decreases |cbs|
  {
    if |cbs| > 1 {
      NoRepeats(!expanded, cbs[1..]);
      forall i | 0 <= i < |cbs| - 1
        ensures cbs[i] != cbs[i + 1]
      {
        if i > 0 {
          assert cbs[i] == cbs[1..][i - 1];
        }
      }
    }
  }

  /** The chevron on the row: up (and labelled "Close") when expanded. */
  datatype Chevron = ChevronUp | ChevronDown

  /** The state-dependent parts of the rendered row. */
  datatype CouponView = CouponView(
    expandedClass: bool,
    borderDanger: bool,
    dimmedClass: bool,
    roundedCorners: bool,
    roundedTop: bool,
    ariaExpanded: bool,
    errorIcon: bool,
    chevron: Chevron,
    chevronLabel: string)

  /** render: the error border and the error icon appear together, exactly
      while the coupon has an error and its details are closed; the
      accessibility state and the chevron follow the expansion. */
  function Render(s: DisclosureState, hasError: bool): (v: CouponView)
    ensures v.borderDanger == v.errorIcon
    ensures v.errorIcon <==> hasError && !s.detailsExpanded
    ensures v.ariaExpanded == s.detailsExpanded && v.expandedClass == s.detailsExpanded
    ensures v.roundedCorners != v.roundedTop && v.roundedTop == s.detailsExpanded
    ensures (v.chevron == ChevronUp) == s.detailsExpanded
    ensures v.dimmedClass == s.dimmed
  {
    var detailsExpanded := s.detailsExpanded;
    CouponView(
      detailsExpanded,
      hasError && !detailsExpanded,
      s.dimmed,
      !detailsExpanded,
      detailsExpanded,
      detailsExpanded,
      hasError && !detailsExpanded,
      if detailsExpanded then ChevronUp else ChevronDown,
      if detailsExpanded then "Close coupon details" else "Open coupon details")
  }

  /** One coupon row, with its local state held in two fields. Every method
      returns what it hands to the outside world. */
  class Coupon {
    var detailsExpanded: bool
    var dimmed: bool

    function State(): DisclosureState
      reads this
    {
      DisclosureState(detailsExpanded, dimmed)
    }

    constructor ()
      ensures State() == Initial
    {
      detailsExpanded, dimmed := false, false;
    }

    method SetCouponOpacity(dimmedStatus: bool)
      modifies this
      ensures dimmed == dimmedStatus && detailsExpanded == old(detailsExpanded)
      ensures Outcome(State(), []) == Next(old(State()), SetOpacity(dimmedStatus))
    {
      dimmed := dimmedStatus;
    }

    method CloseCouponDetails()
      modifies this
      ensures !detailsExpanded && !dimmed
      ensures Outcome(State(), []) == Next(old(State()), Close)
    {
      detailsExpanded, dimmed := false, false;
    }

    method ToggleCouponDetails() returns (fired: Effect)
      modifies this
      ensures detailsExpanded == !old(detailsExpanded) && !dimmed
      ensures fired == (if detailsExpanded then OnExpand else OnCollapse)
      ensures Outcome(State(), [fired]) == Next(old(State()), Click)
    {
      var expanded := !detailsExpanded;
      detailsExpanded, dimmed := expanded, false;
      if expanded {
        fired := OnExpand;
      } else {
        fired := OnCollapse;
      }
    }

    method HandleCouponKeyDown(key: string) returns (effects: seq<Effect>)
      modifies this
      ensures effects == [] <==> detailsExpanded == old(detailsExpanded)
      ensures effects == [] ==> dimmed == old(dimmed)
      ensures Outcome(State(), effects) == Next(old(State()), KeyDown(key))
    {
      effects := [];
      if !detailsExpanded && IsTriggerKey(OpenDetails, key) {
        effects := effects + [PreventDefault];
        var fired := ToggleCouponDetails();
        effects := effects + [fired];
      } else if detailsExpanded && IsTriggerKey(CloseDetails, key) {
        effects := effects + [PreventDefault];
        var fired := ToggleCouponDetails();
        effects := effects + [fired];
      }
    }
  }
}
