/** The impact-report pass on a game that is updated in place, proved against module ImpactReports. */
module ImpactGame {
  import opened Ordered
  import opened ImpactReports

  class Game {
    var status: Status
    var tick: nat
    var profile: bool
    var routes: seq<Route>
    var terminals: map<nat, nat>
    var reports: seq<Report>
    var attempts: map<Key, ImpactReports.Attempt>
    var pending: map<nat, Awaited>
    var log: seq<Record>
    var next: nat
    var received: set<Awaited>
    var heard: set<nat>
    var abandoned: set<nat>

    /** The fields as one value. */
    function Model(): State
      reads this
    {
      State(status, tick, profile, routes, terminals, reports, attempts, pending, log, next, received, heard, abandoned)
    }

    constructor (tick: nat, profile: bool, routes: seq<Route>, terminals: map<nat, nat>)
      ensures Fresh(Model()) && status == Running && reports == []
      ensures this.tick == tick && this.profile == profile && this.routes == routes && this.terminals == terminals
    {
      status, this.tick, this.profile, this.routes, this.terminals := Running, tick, profile, routes, terminals;
      reports, attempts, pending, log, next := [], map[], map[], [], 0;
      received, heard, abandoned := {}, {}, {};
    }

    method LogShowsDelivery(key: Key) returns (found: bool)
      ensures found == Delivered(Model(), key)
    {
      for i := 0 to |log|
        invariant forall k :: 0 <= k < i ==> !(log[k].delivered && log[k].impact && log[k].key == key)
      {
        if log[i].delivered && log[i].impact && log[i].key == key {
          return true;
        }
      }
      return false;
    }

    /** Send one report if it is due; sent says whether the transport was asked. */
    method Attempt(item: Item, outcome: Outcome) returns (sent: bool)
      requires item.route.role in terminals
      modifies this
      ensures sent == Due(old(Model()), item)
      ensures Model() == SendOne(old(Model()), item, outcome)
    {
      var key := KeyOf(item);
      var delivered := LogShowsDelivery(key);
      if delivered || InFlight(Model(), key) {
        return false;
      }
      var attempt := AttemptOf(Model(), key);
      if attempt.count >= MAX_ATTEMPTS
         || (attempt.count > 0 && SaturatingSub(tick, attempt.tick) < item.route.interval) {
        return false;
      }
      var local := terminals[item.route.role] == item.route.recipient;
      attempts := attempts[key := ImpactReports.Attempt(tick, attempt.count + 1)];
      Transmit(Record(next, true, key, tick, item.route.interval, local && outcome != StoreFailed), local, outcome);
      return true;
    }

    /** Record one report, hand it to the radio, and apply its delivery at once or wait for it. */
    method Transmit(record: Record, local: bool, outcome: Outcome)
      modifies this`log, this`next, this`status, this`pending, this`abandoned, this`received, this`heard
      ensures log == old(log) + [record] && next == old(next) + 1
      ensures var told, aborted := local && outcome != StoreFailed, outcome == StoreFailed;
              && status == (if aborted then Paused else old(status))
              && pending == (if aborted then map[]
                             else if !local && outcome == Accepted
                             then old(pending)[old(next) := Awaited(record.key.recipient, record.key.intent)] else old(pending))
              && abandoned == (if !aborted then old(abandoned)
                               else if local then old(abandoned) + old(pending.Keys)
                               else old(abandoned) + old(pending.Keys) + {old(next)})
              && received == (if told then old(received) + {Awaited(record.key.recipient, record.key.intent)} else old(received))
              && heard == (if told then old(heard) + {old(next)} else old(heard))
    {
      log := log + [record];
      if outcome == StoreFailed {
        status, pending, abandoned := Paused, map[], abandoned + pending.Keys;
        if !local {
          abandoned := abandoned + {next};
        }
      } else if local {
        received, heard := received + {Awaited(record.key.recipient, record.key.intent)}, heard + {next};
      } else if outcome == Accepted {
        pending := pending[next := Awaited(record.key.recipient, record.key.intent)];
      }
      next := next + 1;
    }

    /** Carry these reports in turn, stopping if the game pauses. */
    method Carry(items: seq<Item>, outcomes: seq<Outcome>) returns (answers: seq<Outcome>)
      requires Known(items, terminals)
      modifies this
      ensures Model() == SendAll(old(Model()), items, outcomes)
      ensures answers == Left(old(Model()), items, outcomes)
      ensures routes == old(routes) && terminals == old(terminals) && reports == old(reports)
    {
      answers := outcomes;
      var i := 0;
      while i < |items| && status == Running
        invariant i <= |items|
        invariant routes == old(routes) && terminals == old(terminals) && reports == old(reports)
        invariant SendAll(Model(), items[i..], answers) == SendAll(old(Model()), items, outcomes)
        invariant Left(Model(), items[i..], answers) == Left(old(Model()), items, outcomes)
      {
        SendAllUnfolds(Model(), items, i, answers);
        var sent := Attempt(items[i], Head(answers));
        answers := if sent then Tail(answers) else answers;
        i := i + 1;
      }
    }

    method SendReports(outcomes: seq<Outcome>)
      modifies this
      ensures Model() == ImpactReports.SendReports(old(Model()), outcomes)
    {
      if status != Running || routes == [] {
        return;
      }
      if !profile {
        status := Paused;
        return;
      }
      ItemsKnown(routes, terminals, reports);
      var answers, i := outcomes, 0;
      while i < |routes| && status == Running
        invariant i <= |routes|
        invariant routes == old(routes) && terminals == old(terminals) && reports == old(reports)
        invariant Known(Items(routes[i..], terminals, reports), terminals)
        invariant SendAll(Model(), Items(routes[i..], terminals, reports), answers)
               == ImpactReports.SendReports(old(Model()), outcomes)
      {
        assert routes[i..][0] == routes[i] && routes[i..][1..] == routes[i + 1..];
        ItemsKnown(routes[i..i + 1], terminals, reports);
        ItemsKnown(routes[i + 1..], terminals, reports);
        var role := routes[i].role;
        if role in terminals {
          var items := ItemsOf(routes[i], LocalIntents(reports, terminals[role]));
          SendAllConcat(Model(), items, Items(routes[i + 1..], terminals, reports), answers);
          answers := Carry(items, answers);
        } else {
          assert Items(routes[i..], terminals, reports) == Items(routes[i + 1..], terminals, reports);
        }
        i := i + 1;
      }
    }
  }

  /** The transport answers not used up by these items. */
  function Left(s: State, items: seq<Item>, outcomes: seq<Outcome>): seq<Outcome>
    requires Known(items, s.terminals)
    decreases |items|
  {
    if items == [] || s.status == Paused then outcomes
    else
      assert items[0] in items;
      Left(SendOne(s, items[0], Head(outcomes)), items[1..], if Due(s, items[0]) then Tail(outcomes) else outcomes)
  }

  lemma {:induction false} SendAllConcat(s: State, a: seq<Item>, b: seq<Item>, outcomes: seq<Outcome>)
    requires Known(a + b, s.terminals)
    ensures Known(a, s.terminals) && Known(b, SendAll(s, a, outcomes).terminals)
    ensures SendAll(s, a + b, outcomes) == SendAll(SendAll(s, a, outcomes), b, Left(s, a, outcomes))
    decreases |a|
  {
    if a == [] {
      assert a + b == b;
    } else if s.status == Running {
      assert a[0] in a + b;
      assert (a + b)[1..] == a[1..] + b;
      SendAllConcat(SendOne(s, a[0], Head(outcomes)), a[1..], b, if Due(s, a[0]) then Tail(outcomes) else outcomes);
    }
  }

  lemma SendAllUnfolds(s: State, items: seq<Item>, i: nat, outcomes: seq<Outcome>)
    requires i < |items| && s.status == Running && Known(items, s.terminals)
    ensures items[i].route.role in s.terminals
    ensures var t, left := SendOne(s, items[i], Head(outcomes)), if Due(s, items[i]) then Tail(outcomes) else outcomes;
            && t.routes == s.routes && t.terminals == s.terminals && t.reports == s.reports
            && SendAll(s, items[i..], outcomes) == SendAll(t, items[i + 1..], left)
            && Left(s, items[i..], outcomes) == Left(t, items[i + 1..], left)
  {
    assert items[i] in items;
    assert items[i..][0] == items[i] && items[i..][1..] == items[i + 1..];
  }
}
