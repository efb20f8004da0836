/** Who sends an order's acknowledgements, and to whom: settled by the first report of its result. */
module AckAddresses {
  import opened Ordered
  import opened ExecutionAcks
  import opened AckSafety
  import opened AckRuns

  /** The first report of an order's result in a run, with the terminal its issuer's role had then. */
  datatype Report = Report(issuer: nat, executor: nat, terminal: nat, executedTick: nat, result: OrderResult)

  ghost function FirstReport(s: State, steps: seq<Step>, intent: nat): Option<Report>
    requires Valid(s, steps)
    decreases |steps|
  {
    if steps == [] then None
    else
      var step := steps[0];
      if step.RecordStep? && step.result.intent == intent
      then Some(Report(step.issuer, step.executor, s.roles[step.issuer], step.executedTick, step.result))
      else FirstReport(Apply(s, step), steps[1..], intent)
  }

  /** The order's entry is that of the report. */
  ghost predicate Follows(t: State, intent: nat, r: Report) {
    && intent in t.results
    && t.results[intent].issuer == r.issuer && t.results[intent].executor == r.executor
    && t.results[intent].recipient == r.terminal
    && t.results[intent].executedTick == r.executedTick && t.results[intent].result == r.result
  }

  lemma RecordingFollows(s: State, step: Step)
    requires Inv(s) && Enabled(s, step) && step.RecordStep? && step.result.intent !in s.results
    ensures Follows(Apply(s, step), step.result.intent,
                    Report(step.issuer, step.executor, s.roles[step.issuer], step.executedTick, step.result))
  {
  }

  lemma {:induction false} EntryFollowsFirstReport(s: State, steps: seq<Step>, intent: nat)
    requires Inv(s) && Valid(s, steps) && intent !in s.results
    ensures var t, first := Run(s, steps), FirstReport(s, steps, intent);
            if first.None? then intent !in t.results else Follows(t, intent, first.value)
    decreases |steps|
  {
    if steps != [] {
      var step := steps[0];
      var t := Apply(s, step);
      ApplyKeepsInv(s, step);
      OnlyRecordingAdds(s, step, intent);
      if step.RecordStep? && step.result.intent == intent {
        RecordingFollows(s, step);
        RunContinues(t, steps[1..]);
        assert OrderContinues(t, Run(t, steps[1..]), intent);
      } else {
        EntryFollowsFirstReport(t, steps[1..], intent);
      }
    }
  }

  /** In every run from a fresh game an order's issuer and executor are those of the first report of its
      result, and its recipient is the terminal the issuer's role had at that report, whatever edits follow.
      Every acknowledgement of the order in the log goes from that executor to that terminal and repeats that
      tick and result; without a report there is none. */
  lemma AcksGoToTheIssuer(s: State, steps: seq<Step>, intent: nat)
    requires Fresh(s) && Valid(s, steps)
    ensures var t, first := Run(s, steps), FirstReport(s, steps, intent);
            if first.None? then intent !in t.results && forall i :: 0 <= i < |t.log| ==> !IsAttempt(t.log[i], intent)
            else
              && Follows(t, intent, first.value)
              && forall i :: 0 <= i < |t.log| && IsAttempt(t.log[i], intent) ==>
                   && t.log[i].message.origin == first.value.executor
                   && t.log[i].message.recipient == first.value.terminal
                   && t.log[i].message.executedTick == first.value.executedTick
                   && t.log[i].message.result == first.value.result
  {
    FreshInv(s);
    RunKeepsInv(s, steps);
    EntryFollowsFirstReport(s, steps, intent);
    var t := Run(s, steps);
    forall i | 0 <= i < |t.log| && IsAttempt(t.log[i], intent)
      ensures intent in t.results && Matches(t.log[i].message, t.results[intent], intent)
      ensures t.log[i].message.origin == t.results[intent].executor
              && t.log[i].message.recipient == t.results[intent].recipient
    {
      assert t.log[i].message.intent == intent;
    }
  }

  // ---- The sending role ----------------------------------------------------------------------------

  /** The message is sent now, in the name of the first role at the executing unit, or of the issuer's when no
      role is there. */
  ghost predicate SentByExecutor(s: State, message: Message) {
    && message.intent in s.results && message.createdTick == s.tick
    && (var ack := s.results[message.intent];
        && (|| (message.originRole in s.roles && s.roles[message.originRole] == ack.executor)
            || (message.originRole == ack.issuer && forall q :: q in s.roles ==> s.roles[q] != ack.executor))
        && forall q :: q in s.roles && s.roles[q] == ack.executor ==> message.originRole <= q)
  }

  lemma ComposedByExecutor(s: State, intent: nat)
    requires intent in s.results
    ensures SentByExecutor(s, Composed(s, intent))
  {
    var ack := s.results[intent];
    if q :| q in s.roles && s.roles[q] == ack.executor {
      assert OriginRole(s, ack) in s.roles;
    }
  }

  lemma SameSender(s: State, t: State, message: Message)
    requires t.roles == s.roles && t.tick == s.tick && t.results.Keys == s.results.Keys
    requires forall intent :: intent in s.results ==>
      t.results[intent].executor == s.results[intent].executor && t.results[intent].issuer == s.results[intent].issuer
    ensures SentByExecutor(t, message) == SentByExecutor(s, message)
  {
  }

  lemma AttemptKeepsSenders(s: State, t: State, intent: nat)
    requires intent in s.results && Attempted(s, t, intent)
    ensures t.roles == s.roles && t.tick == s.tick && t.results.Keys == s.results.Keys
    ensures forall other :: other in s.results ==>
              t.results[other].executor == s.results[other].executor && t.results[other].issuer == s.results[other].issuer
  {
  }

  lemma {:induction false} SendAllByExecutor(s: State, due: seq<nat>, outcomes: seq<Outcome>)
    requires Inv(s) && Ascending(due) && forall id :: id in due ==> id in s.results && Due(s, id)
    ensures var t := SendAll(s, due, outcomes);
            && s.log <= t.log
            && forall i :: |s.log| <= i < |t.log| ==> SentByExecutor(s, t.log[i].message)
    decreases |due|
  {
    if due != [] && s.status == Running {
      var t := SendOne(s, due[0], Head(outcomes));
      FirstAttempt(s, due, outcomes, t);
      AttemptKeepsSenders(s, t, due[0]);
      ComposedByExecutor(s, due[0]);
      SendAllByExecutor(t, due[1..], Tail(outcomes));
      var u := SendAll(t, due[1..], Tail(outcomes));
      forall i | |s.log| <= i < |u.log| ensures SentByExecutor(s, u.log[i].message) {
        if i == |s.log| {
          assert u.log[i] == t.log[i];
        } else {
          SameSender(s, t, u.log[i].message);
        }
      }
    }
  }

  lemma OnlySendsLogAcks(s: State, step: Step, i: nat)
    requires Enabled(s, step) && !step.Send? && !step.Deliver? && |s.log| <= i < |Apply(s, step).log|
    ensures Apply(s, step).log[i].message.profile != AckProfile
  {
  }

  lemma DeliveryLogsNothing(s: State, m: nat, atNs: nat)
    requires Inv(s) && Enabled(s, Deliver(m, atNs))
    ensures |Apply(s, Deliver(m, atNs)).log| == |s.log|
  {
  }

  /** Whatever step of a run logs an acknowledgement, it is a send, and the message is in the name of the first
      role then at the executing unit. */
  lemma AcksNameTheExecutor(s: State, step: Step, i: nat)
    requires Inv(s) && Enabled(s, step)
    requires |s.log| <= i < |Apply(s, step).log| && Apply(s, step).log[i].message.profile == AckProfile
    ensures step.Send? && SentByExecutor(s, Apply(s, step).log[i].message)
  {
    if step.Send? {
      SendAllByExecutor(s, DueIntents(s), step.outcomes);
    } else if step.Deliver? {
      DeliveryLogsNothing(s, step.m, step.atNs);
    } else {
      OnlySendsLogAcks(s, step, i);
    }
  }
}
