/** When a settled impact-report protocol stays settled, exactly. */
module ImpactRuns {
  import opened Ordered
  import opened ImpactReports
  import opened ImpactSafety

  function AllItems(s: State): seq<Item> {
    Items(s.routes, s.terminals, s.reports)
  }

  predicate Covered(s: State, key: Key) {
    Delivered(s, key) || Exhausted(s, key)
  }

  /** Another record than m's shows the report delivered. */
  predicate DeliveredBeside(s: State, key: Key, m: nat) {
    exists i :: 0 <= i < |s.log| && s.log[i].delivered && s.log[i].impact && s.log[i].key == key && s.log[i].id != m
  }

  /** A new impact or an authority edit gives a route a report that is neither delivered nor exhausted; or a
      failed write takes the only delivery off a report that is not exhausted. */
  predicate Unsettles(s: State, step: Step)
    requires Enabled(s, step)
  {
    match step
    case Impact(_) => exists item :: item in AllItems(Apply(s, step)) && !Covered(s, KeyOf(item))
    case Edit(_) => exists item :: item in AllItems(Apply(s, step)) && item !in AllItems(s) && !Covered(s, KeyOf(item))
    case Erase(m) => exists item :: item in AllItems(s) && !Exhausted(s, KeyOf(item)) && !DeliveredBeside(s, KeyOf(item), m)
    case _ => false
  }

  lemma SameCover(s: State, t: State, key: Key)
    requires t.attempts == s.attempts && t.pending == s.pending && t.log == s.log
    ensures Covered(t, key) == Covered(s, key)
  {
    assert Delivered(t, key) == Delivered(s, key);
    assert InFlight(t, key) == InFlight(s, key);
  }

  lemma {:induction false} ItemsGrow(routes: seq<Route>, terminals: map<nat, nat>, reports: seq<Report>, report: Report, item: Item)
    requires item in Items(routes, terminals, reports)
    ensures item in Items(routes, terminals, reports + [report])
    decreases |routes|
  {
    var route := routes[0];
    if item in Items(routes[1..], terminals, reports) {
      ItemsGrow(routes[1..], terminals, reports, report, item);
    } else {
      IntentsGrow(reports, report, terminals[route.role]);
      var before := LocalIntents(reports, terminals[route.role]);
      var after := LocalIntents(reports + [report], terminals[route.role]);
      ItemsOfSplit(route, before, after[|before|..]);
      assert after == before + after[|before|..];
    }
  }

  lemma {:induction false} IntentsGrow(reports: seq<Report>, report: Report, terminal: nat)
    ensures LocalIntents(reports, terminal) <= LocalIntents(reports + [report], terminal)
  {
    if reports != [] {
      assert (reports + [report])[1..] == reports[1..] + [report];
      IntentsGrow(reports[1..], report, terminal);
    }
  }

  lemma {:induction false} ItemsOfSplit(route: Route, a: seq<nat>, b: seq<nat>)
    ensures ItemsOf(route, a + b) == ItemsOf(route, a) + ItemsOf(route, b)
  {
    if a == [] {
      assert a + b == b;
    } else {
      assert (a + b)[1..] == a[1..] + b;
      ItemsOfSplit(route, a[1..], b);
    }
  }

  lemma {:induction false} IntentsConcat(a: seq<Report>, b: seq<Report>, terminal: nat)
    ensures LocalIntents(a + b, terminal) == LocalIntents(a, terminal) + LocalIntents(b, terminal)
  {
    if a == [] {
      assert a + b == b;
    } else {
      assert (a + b)[1..] == a[1..] + b;
      IntentsConcat(a[1..], b, terminal);
    }
  }

  /** A pass goes route by route. */
  lemma {:induction false} RoutesInOrder(a: seq<Route>, b: seq<Route>, terminals: map<nat, nat>, reports: seq<Report>)
    ensures Items(a + b, terminals, reports) == Items(a, terminals, reports) + Items(b, terminals, reports)
    decreases |a|
  {
    if a == [] {
      assert a + b == b;
    } else {
      assert (a + b)[1..] == a[1..] + b;
      RoutesInOrder(a[1..], b, terminals, reports);
    }
  }

  /** Within a route it goes report by report in the order they were made, each at most once. */
  lemma ReportsInOrder(route: Route, terminals: map<nat, nat>, c: seq<Report>, d: seq<Report>, report: Report)
    ensures Items([route], terminals, c + d) == Items([route], terminals, c) + Items([route], terminals, d)
    ensures |Items([route], terminals, [report])| <= 1
  {
    assert [route][1..] == [] && Items([], terminals, c + d) == Items([], terminals, c) == Items([], terminals, d) == [];
    assert [report][1..] == [] && Items([], terminals, [report]) == [];
    if route.role in terminals {
      IntentsConcat(c, d, terminals[route.role]);
      ItemsOfSplit(route, LocalIntents(c, terminals[route.role]), LocalIntents(d, terminals[route.role]));
      OneIntent(route, report, terminals[route.role]);
    }
  }

  lemma OneIntent(route: Route, report: Report, terminal: nat)
    ensures |ItemsOf(route, LocalIntents([report], terminal))| <= 1
  {
    var intents := LocalIntents([report], terminal);
    assert [report][1..] == [] && LocalIntents([], terminal) == [] && |intents| <= 1;
    assert intents != [] ==> intents[1..] == [] && ItemsOf(route, []) == [];
  }

  /** A new impact keeps a settled game settled if and only if no route has to carry it. */
  lemma ImpactSettledExactly(s: State, report: Report)
    requires Settled(s)
    ensures Settled(Apply(s, Impact(report))) <==> !Unsettles(s, Impact(report))
  {
    var t := Apply(s, Impact(report));
    SettledItems(s);
    SettledItems(t);
    forall item | item in AllItems(t) ensures Covered(t, KeyOf(item)) == Covered(s, KeyOf(item)) {
      SameCover(s, t, KeyOf(item));
    }
  }

  /** An authority edit keeps a settled game settled if and only if every report it newly makes local to a
      route is already delivered, or exhausted and not in flight. */
  lemma EditSettledExactly(s: State, terminals: map<nat, nat>)
    requires Settled(s)
    ensures var t := Apply(s, Edit(terminals));
            Settled(t) <==> forall item :: item in AllItems(t) && item !in AllItems(s) ==> Covered(s, KeyOf(item))
  {
    var t := Apply(s, Edit(terminals));
    SettledItems(s);
    SettledItems(t);
    forall item | item in AllItems(t) ensures Covered(t, KeyOf(item)) == Covered(s, KeyOf(item)) {
      SameCover(s, t, KeyOf(item));
    }
  }

  lemma EraseCover(s: State, m: nat, key: Key)
    requires Numbered(s)
    ensures Covered(Apply(s, Erase(m)), key) <==> Exhausted(s, key) || DeliveredBeside(s, key, m)
  {
    var t := Apply(s, Erase(m));
    MarkPointwise(s.log, m, false);
    forall i: nat | i < |s.log| && s.log[i].id == m ensures !t.log[i].delivered {
      MarkOne(s.log, m, false, i);
    }
    assert InFlight(t, key) == InFlight(s, key);
    if DeliveredBeside(s, key, m) {
      var i :| 0 <= i < |s.log| && s.log[i].delivered && s.log[i].impact && s.log[i].key == key && s.log[i].id != m;
      assert t.log[i] == s.log[i];
    }
    if Delivered(t, key) {
      var i :| 0 <= i < |t.log| && t.log[i].delivered && t.log[i].impact && t.log[i].key == key;
      assert s.log[i].id != m && t.log[i] == s.log[i];
    }
  }

  lemma EraseSettledExactly(s: State, m: nat)
    requires Settled(s) && Numbered(s)
    ensures Settled(Apply(s, Erase(m))) <==> !Unsettles(s, Erase(m))
  {
    SettledItems(s);
    SettledItems(Apply(s, Erase(m)));
    forall item | item in AllItems(s)
      ensures Covered(Apply(s, Erase(m)), KeyOf(item))
              <==> Exhausted(s, KeyOf(item)) || DeliveredBeside(s, KeyOf(item), m)
    {
      EraseCover(s, m, KeyOf(item));
    }
  }

  /** Steps that only deliver, or drop what waits, keep every report covered. */
  lemma StaysCovered(s: State, t: State, key: Key)
    requires t.attempts == s.attempts && |s.log| <= |t.log| && Covered(s, key)
    requires forall i :: 0 <= i < |s.log| ==>
      t.log[i].(delivered := false) == s.log[i].(delivered := false) && (s.log[i].delivered ==> t.log[i].delivered)
    requires forall m :: m in t.pending ==> m in s.pending && t.pending[m] == s.pending[m]
    ensures Covered(t, key)
  {
    if Delivered(s, key) {
      var i :| 0 <= i < |s.log| && s.log[i].delivered && s.log[i].impact && s.log[i].key == key;
      assert t.log[i].(delivered := false) == s.log[i].(delivered := false);
      assert t.log[i].delivered && t.log[i].impact && t.log[i].key == key;
    }
  }

  lemma MarkedCount(s: State, m: nat, delivered: bool)
    ensures SendCount(Mark(s.log, m, delivered)) == SendCount(s.log)
  {
    MarkPointwise(s.log, m, delivered);
    SendCountSameButDelivered(s.log, Mark(s.log, m, delivered));
  }

  lemma {:induction false} SendCountSameButDelivered(a: seq<Record>, b: seq<Record>)
    requires SameButDelivered(a, b)
    ensures SendCount(a) == SendCount(b)
    decreases |a|
  {
    if a != [] {
      assert a[|a| - 1].(delivered := false).impact == b[|b| - 1].(delivered := false).impact;
      SendCountSameButDelivered(a[..|a| - 1], b[..|b| - 1]);
    }
  }

  /** No step of a settled game sends a report. */
  lemma SettledStepSendsNothing(s: State, step: Step)
    requires Settled(s) && s.profile && Enabled(s, step)
    ensures var t := Apply(s, step); t.profile && t.attempts == s.attempts && SendCount(t.log) == SendCount(s.log)
  {
    match step
    case Send(outcomes) => SettledSendsNothing(s, outcomes);
    case Deliver(m) => MarkedCount(s, m, true);
    case Erase(m) => MarkedCount(s, m, false);
    case Foreign(_, _) => assert Apply(s, step).log[..|s.log|] == s.log;
    case _ =>
  }

  lemma QuietStepKeepsSettled(s: State, step: Step)
    requires Settled(s) && s.profile && Enabled(s, step) && !step.Impact? && !step.Edit? && !step.Erase?
    ensures Settled(Apply(s, step))
  {
    var t := Apply(s, step);
    if step.Send? {
      SettledSendsNothing(s, step.outcomes);
    } else {
      if step.Deliver? {
        MarkPointwise(s.log, step.m, true);
      }
      SettledItems(s);
      SettledItems(t);
      forall item | item in AllItems(t) ensures Covered(t, KeyOf(item)) {
        StaysCovered(s, t, KeyOf(item));
      }
    }
  }

  /** One step keeps a settled game settled exactly if it does not unsettle it. */
  lemma StepSettledExactly(s: State, step: Step)
    requires Inv(s) && Settled(s) && s.profile && Enabled(s, step)
    ensures Settled(Apply(s, step)) <==> !Unsettles(s, step)
  {
    match step
    case Impact(report) => ImpactSettledExactly(s, report);
    case Edit(terminals) => EditSettledExactly(s, terminals);
    case Erase(m) => EraseSettledExactly(s, m);
    case _ => QuietStepKeepsSettled(s, step);
  }

  ghost predicate EverUnsettles(s: State, steps: seq<Step>)
    requires Valid(s, steps)
    decreases |steps|
  {
    steps != [] && (Unsettles(s, steps[0]) || EverUnsettles(Apply(s, steps[0]), steps[1..]))
  }

  ghost predicate AlwaysSettled(s: State, steps: seq<Step>)
    requires Valid(s, steps)
    decreases |steps|
  {
    Settled(s) && (steps != [] ==> AlwaysSettled(Apply(s, steps[0]), steps[1..]))
  }

  /** A settled game is settled at every point of a run if and only if no step of it unsettles it; and then
      nothing more is ever sent, no attempt is counted, and each pass is a no-op. */
  lemma {:induction false} SettledIsFinal(s: State, steps: seq<Step>)
    requires Inv(s) && Settled(s) && s.profile && Valid(s, steps)
    ensures AlwaysSettled(s, steps) <==> !EverUnsettles(s, steps)
    ensures !EverUnsettles(s, steps) ==>
              var t := Run(s, steps);
              && Settled(t) && t.attempts == s.attempts && SendCount(t.log) == SendCount(s.log)
              && forall outcomes :: SendReports(t, outcomes) == t
    decreases |steps|
  {
    if steps == [] {
      forall outcomes ensures SendReports(s, outcomes) == s {
        SettledSendsNothing(s, outcomes);
      }
    } else {
      var t := Apply(s, steps[0]);
      StepSettledExactly(s, steps[0]);
      SettledStepSendsNothing(s, steps[0]);
      if Settled(t) {
        ApplyKeepsInv(s, steps[0]);
        SettledIsFinal(t, steps[1..]);
      }
    }
  }

  /** The failing run: a role moved to a unit that already holds an impact. Nothing new has happened, yet the
      settled game is unsettled and its next pass sends. */
  lemma EditUnsettles() returns (s: State, step: Step)
    ensures Fresh(s) && Inv(s) && s.profile && Settled(s) && step.Edit?
    ensures var t := Apply(s, step);
            && t.reports == s.reports && !Settled(t) && |SendReports(t, []).log| == 1
  {
    var route := Route(1, 9, 5);
    s := State(Running, 0, true, [route], map[1 := 5], [Report(6, 3)], map[], map[], [], 0, {}, {}, {});
    step := Edit(map[1 := 6]);
    var t := Apply(s, step);
    FreshInv(s);
    OneRoute(s, route, []);
    OneRoute(t, route, [3]);
    assert ItemsOf(route, [3]) == [Item(route, 3)];
    assert Item(route, 3) in AllItems(t) && Due(t, Item(route, 3)) && !Covered(t, KeyOf(Item(route, 3)));
    var u := SendOne(t, Item(route, 3), Accepted);
    assert SendAll(t, [Item(route, 3)], []) == SendAll(u, [], []) == u;
  }

  /** A game with one route whose origin holds one impact. */
  function OneImpact(): State {
    State(Running, 0, true, [Route(1, 9, 5)], map[1 := 6], [Report(6, 3)], map[], map[], [], 0, {}, {}, {})
  }

  lemma OneItem(s: State)
    requires s.routes == [Route(1, 9, 5)] && s.terminals == map[1 := 6] && s.reports == [Report(6, 3)]
    ensures AllItems(s) == [Item(Route(1, 9, 5), 3)]
  {
    OneRoute(s, Route(1, 9, 5), [3]);
    assert ItemsOf(Route(1, 9, 5), [3]) == [Item(Route(1, 9, 5), 3)];
  }

  /** Its first pass puts one report in flight. */
  lemma FirstPass()
    ensures var s := OneImpact(); var key := Key(1, 9, 3);
            Apply(s, Send([Accepted])) == s.(
              attempts := map[key := Attempt(0, 1)], pending := map[0 := Awaited(9, 3)],
              log := [Record(0, true, key, 0, 5, false)], next := 1)
  {
    var s, item := OneImpact(), Item(Route(1, 9, 5), 3);
    OneItem(s);
    ItemsKnown(s.routes, s.terminals, s.reports);
    assert Due(s, item);
    var u := SendOne(s, item, Accepted);
    assert SendAll(s, [item], [Accepted]) == SendAll(u, [], []) == u;
  }

  /** The other failing run, from a fresh game: a report is sent, delivered, and its delivery taken back by a
      failed write. The game was settled and is no more. */
  lemma EraseUnsettles() returns (s: State, steps: seq<Step>)
    ensures Fresh(s) && Valid(s, steps) && |steps| == 3 && steps[2].Erase?
    ensures Valid(s, steps[..1]) && (exists m, i :: m in Run(s, steps[..1]).pending && AwaitsRecord(Run(s, steps[..1]), m, i))
    ensures Valid(s, steps[..2]) && Settled(Run(s, steps[..2])) && !Settled(Run(s, steps))
  {
    s, steps := OneImpact(), [Send([Accepted]), Deliver(0), Erase(0)];
    FirstPass();
    var t := Apply(s, steps[0]);
    assert 0 in t.pending && AwaitsRecord(t, 0, 0);
    var u := Apply(t, Deliver(0));
    var v := Apply(u, Erase(0));
    OneItem(u);
    OneItem(v);
    assert u.log[0].delivered && u.log[0].impact && u.log[0].key == KeyOf(AllItems(u)[0]);
    assert Settled(u);
    assert AllItems(v)[0] in AllItems(v) && !Delivered(v, KeyOf(AllItems(v)[0])) && !Exhausted(v, KeyOf(AllItems(v)[0]));
    OneStep(s, steps[0]);
    TwoSteps(s, steps[0], steps[1]);
    ThreeSteps(s, steps[0], steps[1], steps[2]);
    assert steps[..1] == [steps[0]] && steps[..2] == [steps[0], steps[1]];
  }

  lemma FirstStep(s: State, a: Step, rest: seq<Step>)
    requires Enabled(s, a) && Valid(Apply(s, a), rest)
    ensures Valid(s, [a] + rest) && Run(s, [a] + rest) == Run(Apply(s, a), rest)
  {
    assert ([a] + rest)[1..] == rest;
  }

  lemma OneStep(s: State, a: Step)
    requires Enabled(s, a)
    ensures Valid(s, [a]) && Run(s, [a]) == Apply(s, a)
  {
    FirstStep(s, a, []);
    assert [a] + [] == [a];
  }

  lemma TwoSteps(s: State, a: Step, b: Step)
    requires Enabled(s, a) && Enabled(Apply(s, a), b)
    ensures Valid(s, [a, b]) && Run(s, [a, b]) == Apply(Apply(s, a), b)
  {
    OneStep(Apply(s, a), b);
    FirstStep(s, a, [b]);
    assert [a] + [b] == [a, b];
  }

  lemma ThreeSteps(s: State, a: Step, b: Step, c: Step)
    requires Enabled(s, a) && Enabled(Apply(s, a), b) && Enabled(Apply(Apply(s, a), b), c)
    ensures Valid(s, [a, b, c]) && Run(s, [a, b, c]) == Apply(Apply(Apply(s, a), b), c)
  {
    TwoSteps(Apply(s, a), b, c);
    FirstStep(s, a, [b, c]);
    assert [a] + [b, c] == [a, b, c];
  }

  lemma OneRoute(s: State, route: Route, intents: seq<nat>)
    requires s.routes == [route] && route.role in s.terminals
    requires LocalIntents(s.reports, s.terminals[route.role]) == intents
    ensures AllItems(s) == ItemsOf(route, intents)
  {
    assert Items([], s.terminals, s.reports) == [];
    assert s.routes[1..] == [];
  }
}
