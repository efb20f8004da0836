/** The acknowledgement operations on a game that is updated in place, proved against the protocol
    of module ExecutionAcks. */
module AckGame {
  import opened Ordered
  import opened ExecutionAcks
  import AckRuns
  import AckSafety

  class Game {
    var status: Status
    var tick: nat
    var expiry: Option<nat>
    var roles: map<nat, nat>
    var results: map<nat, Ack>
    var pending: map<nat, nat>
    var log: seq<Record>
    var next: nat
    var heard: map<nat, nat>
    var abandoned: set<nat>

    /** The fields as one value. */
    function Model(): State
      reads this
    {
      State(status, tick, expiry, roles, results, pending, log, next, heard, abandoned)
    }

    constructor (tick: nat, expiry: Option<nat>, roles: map<nat, nat>)
      ensures Fresh(Model()) && status == Running && this.tick == tick
      ensures this.expiry == expiry && this.roles == roles
    {
      status, this.tick, this.expiry, this.roles := Running, tick, expiry, roles;
      results, pending, log, next, heard, abandoned := map[], map[], [], 0, map[], {};
    }

    /** The first result reported for an order wins: a new order starts unconfirmed and due at once, and no
        report changes what a recorded order says, sends or knows. */
    method RecordResult(issuer: nat, executor: nat, executedTick: nat, result: OrderResult)
      requires issuer in roles
      modifies this`results
      ensures Model() == ExecutionAcks.RecordResult(old(Model()), issuer, executor, executedTick, result)
      ensures AckSafety.Inv(old(Model())) ==> AckSafety.Inv(Model()) && AckRuns.Continues(old(Model()), Model())
      ensures result.intent in results && (result.intent !in old(results) && AckSafety.Inv(old(Model())) ==>
                Due(Model(), result.intent) && Confirmation(Model(), result.intent) == None)
      ensures result.intent !in old(results) ==>
                && results[result.intent].issuer == issuer && results[result.intent].executor == executor
                && results[result.intent].recipient == roles[issuer]
                && results[result.intent].executedTick == executedTick && results[result.intent].result == result
      ensures forall intent :: intent != result.intent || intent in old(results) ==>
                Confirmation(Model(), intent) == Confirmation(old(Model()), intent)
    {
      RecordingStarts(Model(), issuer, executor, executedTick, result);
      var recipient := roles[issuer];
      if result.intent !in results {
        results := results[result.intent :=
          Ack(issuer, executor, recipient, executedTick, result, 0, None, None)];
      }
    }

    method Receive(m: nat, intent: nat)
      modifies this`results
      ensures Model() == ExecutionAcks.Receive(old(Model()), m, intent)
    {
      var i := 0;
      while i < |log| && log[i].message.id != m
        invariant i <= |log|
        invariant forall k :: 0 <= k < i ==> log[k].message.id != m
      {
        i := i + 1;
      }
      assert i == IndexOf(log, m);
      if i == |log| || intent !in results {
        return;
      }
      var ack := results[intent];
      if log[i].deliveredNs.Some? && Matches(log[i].message, ack, intent) {
        if ack.received.None? {
          results := results[intent := ack.(received := Some(CeilTick(log[i].deliveredNs.value)))];
        }
      }
    }

    /** Forget every waiting action; the radio is not told. */
    method AbortPending()
      modifies this`status, this`pending, this`abandoned
      ensures Model() == Abandoned(old(Model()))
    {
      status, pending, abandoned := Paused, map[], abandoned + pending.Keys;
    }

    /** Record one message and hand it to the radio; absent when it was refused or not stored. */
    method Transmit(message: Message, outcome: Outcome) returns (sent: Option<nat>)
      requires message.id == next
      modifies this`log, this`next, this`status, this`pending, this`abandoned
      ensures next == old(next) + 1 && |log| == |old(log)| + 1 && log[..|log| - 1] == old(log)
      ensures log[|log| - 1].message == message
      ensures var local := message.origin == message.recipient;
              if outcome == StoreFailed
              then && sent == None && status == Paused && pending == map[] && log[|log| - 1].deliveredNs == None
                   && abandoned == old(abandoned) + old(pending.Keys) + (if local then {} else {message.id})
              else && status == old(status) && pending == old(pending) && abandoned == old(abandoned)
                   && sent == (if local || outcome == Accepted then Some(message.id) else None)
                   && log[|log| - 1].deliveredNs == (if local then Some(message.createdTick * NANOS_PER_TICK) else None)
    {
      var local := message.origin == message.recipient;
      next := next + 1;
      if outcome == StoreFailed {
        log := log + [Record(message, None)];
        AbortPending();
        if !local {
          abandoned := abandoned + {message.id};
        }
        return None;
      }
      log := log + [Record(message, if local then Some(message.createdTick * NANOS_PER_TICK) else None)];
      sent := if local || outcome == Accepted then Some(message.id) else None;
    }

    /** Apply a delivery already recorded, or wait for it. */
    method AwaitDelivery(m: nat, intent: nat, delivered: Option<nat>)
      modifies this`results, this`pending, this`heard
      ensures Model() == if delivered.Some?
                         then ExecutionAcks.Receive(old(Model()).(heard := old(heard)[m := delivered.value]), m, intent)
                         else old(Model()).(pending := old(pending)[m := intent])
    {
      if delivered.Some? {
        heard := heard[m := delivered.value];
        Receive(m, intent);
      } else {
        pending := pending[m := intent];
      }
    }

    method Attempt(intent: nat, outcome: Outcome)
      requires intent in results
      modifies this
      ensures Model() == SendOne(old(Model()), intent, outcome)
    {
      var message := Composed(Model(), intent);
      var ack := results[intent];
      results := results[intent := ack.(attempts := ack.attempts + 1, last := Some(tick))];
      var sent := Transmit(message, outcome);
      assert log == old(log) + [log[|log| - 1]];
      assert sent.None? ==> Model() == SendOne(old(Model()), intent, outcome);
      if sent.Some? {
        AwaitDelivery(sent.value, intent, log[|log| - 1].deliveredNs);
      }
    }

    method AttemptAll(due: seq<nat>, outcomes: seq<Outcome>)
      requires forall intent :: intent in due ==> intent in results
      modifies this
      ensures Model() == SendAll(old(Model()), due, outcomes)
    {
      var answers, i := outcomes, 0;
      while i < |due| && status == Running
        invariant i <= |due|
        invariant forall intent :: intent in due ==> intent in results
        invariant SendAll(Model(), due[i..], answers) == SendAll(old(Model()), due, outcomes)
      {
        SendAllUnfolds(Model(), due, i, answers);
        Attempt(due[i], Head(answers));
        i, answers := i + 1, Tail(answers);
      }
    }

    method SendPending(outcomes: seq<Outcome>)
      modifies this
      ensures Model() == ExecutionAcks.SendPending(old(Model()), outcomes)
    {
      if status != Running || results == map[] || Settled(Model()) {
        return;
      }
      if expiry.None? {
        status := Paused;
        return;
      }
      AttemptAll(DueIntents(Model()), outcomes);
    }
  }

  lemma SendAllUnfolds(s: State, due: seq<nat>, i: nat, outcomes: seq<Outcome>)
    requires i < |due| && s.status == Running
    requires forall intent :: intent in due ==> intent in s.results
    ensures SendOne(s, due[i], Head(outcomes)).results.Keys == s.results.Keys
    ensures SendAll(s, due[i..], outcomes)
         == SendAll(SendOne(s, due[i], Head(outcomes)), due[i + 1..], Tail(outcomes))
  {
    assert due[i..][0] == due[i] && due[i..][1..] == due[i + 1..];
  }

  /** What recording a result means for the protocol. */
  lemma RecordingStarts(s: State, issuer: nat, executor: nat, executedTick: nat, result: OrderResult)
    requires issuer in s.roles
    ensures var t := ExecutionAcks.RecordResult(s, issuer, executor, executedTick, result);
            && (AckSafety.Inv(s) ==> AckSafety.Inv(t) && AckRuns.Continues(s, t))
            && (result.intent !in s.results && AckSafety.Inv(s) ==> Due(t, result.intent))
  {
    if AckSafety.Inv(s) {
      AckSafety.RecordResultKeepsInv(s, issuer, executor, executedTick, result);
      var t := ExecutionAcks.RecordResult(s, issuer, executor, executedTick, result);
      AckRuns.SameLogContinues(s, t);
      NothingInFlight(s, result.intent);
    }
  }

  lemma NothingInFlight(s: State, intent: nat)
    requires AckSafety.Inv(s)
    ensures intent !in s.results ==> !InFlight(s, intent)
  {
    forall m | m in s.pending ensures s.pending[m] in s.results {
      var i :| AckSafety.InFlightAt(s, m, i);
    }
  }
}
