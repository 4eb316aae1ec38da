/**
 What `retry_count` says about an event. Failing adds one and going back to pending adds one more,
 so the count is odd exactly while the event is failed, and an attempt costs two.
 */
module RetryAccounting {
  import opened Schema
  import opened SyncProtocol

  /** How often an event has been handed to the worker, read off its row. */
  function Attempts(ev: Event): nat {
    match ev.status
    case Pending => ev.retries / 2
    case Processing => ev.retries / 2 + 1
    case Completed => ev.retries / 2 + 1
    case Failed => (ev.retries + 1) / 2
  }

  predicate CountFits(ev: Event, maxRetries: nat) {
    if ev.status == Failed then ev.retries % 2 == 1 && ev.retries <= maxRetries + 1
    else ev.retries % 2 == 0 && ev.retries <= maxRetries
  }

  predicate CountsFit(outbox: seq<Event>, maxRetries: nat) {
    forall i | 0 <= i < |outbox| :: CountFits(outbox[i], maxRetries)
  }

  function Begins(steps: seq<Step>, ev: nat): nat {
    if steps == [] then 0 else Begins(steps[..|steps| - 1], ev) + if steps[|steps| - 1] == Begin(ev) then 1 else 0
  }

  function AllBegins(steps: seq<Step>): nat {
    if steps == [] then 0 else AllBegins(steps[..|steps| - 1]) + if steps[|steps| - 1].Begin? then 1 else 0
  }

  function Commits(steps: seq<Step>): nat {
    if steps == [] then 0 else Commits(steps[..|steps| - 1]) + if steps[|steps| - 1].Commit? then 1 else 0
  }

  /** A failed attempt costs two counts, and one more attempt starts from the last count allowed. */
  function MaxAttempts(maxRetries: nat): nat { maxRetries / 2 + 1 }

  /** Attempts the outbox may still cost. */
  function Budget(outbox: seq<Event>, maxRetries: nat): int {
    if outbox == [] then 0
    else Budget(outbox[..|outbox| - 1], maxRetries) + MaxAttempts(maxRetries) - Attempts(outbox[|outbox| - 1])
  }

  lemma {:induction false} BudgetUpdate(outbox: seq<Event>, i: nat, ev: Event, maxRetries: nat)
    requires i < |outbox|
    ensures Budget(outbox[i := ev], maxRetries) == Budget(outbox, maxRetries) + Attempts(outbox[i]) - Attempts(ev)
  {
    var front, n := outbox[..|outbox| - 1], |outbox| - 1;
    if i == n {
      assert outbox[i := ev][..n] == front;
    } else {
      assert outbox[i := ev][..n] == front[i := ev];
      BudgetUpdate(front, i, ev, maxRetries);
    }
  }

  lemma {:induction false} BudgetNonNegative(outbox: seq<Event>, maxRetries: nat)
    requires CountsFit(outbox, maxRetries)
    ensures Budget(outbox, maxRetries) >= 0
  {
    if outbox != [] {
      assert CountFits(outbox[|outbox| - 1], maxRetries);
      BudgetNonNegative(outbox[..|outbox| - 1], maxRetries);
    }
  }

  /** The one event a step changes, if any. */
  function Changed(s: State, step: Step): int {
    match step
    case Begin(i) => i
    case Retry(i) => i
    case Commit(_, _) => -1
    case _ => if s.worker.Idle? then -1 else s.worker.ev
  }

  lemma StepKeepsCount(s: State, step: Step, s': State, i: nat, maxRetries: nat)
    requires Enabled(s, step, maxRetries) && WorkerCovered(s) && s' == Apply(s, step)
    requires i < |s.outbox| && CountFits(s.outbox[i], maxRetries)
    ensures i < |s'.outbox| && CountFits(s'.outbox[i], maxRetries)
    ensures Attempts(s'.outbox[i]) == Attempts(s.outbox[i]) + if step == Begin(i) then 1 else 0
    ensures i != Changed(s, step) ==> s'.outbox[i] == s.outbox[i]
  {
  }

  lemma StepKeepsLength(s: State, step: Step, s': State, maxRetries: nat)
    requires s' == Apply(s, step)
    ensures step.Commit? ==>
      (&& |s'.outbox| == |s.outbox| + 1 && s'.outbox[..|s.outbox|] == s.outbox
       && s'.outbox[|s.outbox|].status == Pending && s'.outbox[|s.outbox|].retries == 0)
    ensures !step.Commit? ==> |s'.outbox| == |s.outbox|
    ensures step.Begin? && Enabled(s, step, maxRetries) ==> step.ev < |s.outbox|
  {
  }

  /** Over every run: the count's parity and bound, and what it says about attempts. */
  lemma {:induction false} EveryRunKeepsCounts(steps: seq<Step>, i: nat, maxRetries: nat)
    requires Legal(INIT, steps, maxRetries)
    ensures i < |Run(INIT, steps).outbox| ==>
      CountFits(Run(INIT, steps).outbox[i], maxRetries) && Begins(steps, i) == Attempts(Run(INIT, steps).outbox[i])
    ensures i >= |Run(INIT, steps).outbox| ==> Begins(steps, i) == 0
  {
    if steps != [] {
      var front, step := steps[..|steps| - 1], steps[|steps| - 1];
      EveryRunKeepsCounts(front, i, maxRetries);
      EveryRunIsSynchronised(front, maxRetries);
      CountsAfter(Run(INIT, front), step, Run(INIT, steps), i, Begins(front, i), maxRetries);
    }
  }

  lemma CountsAfter(s: State, step: Step, s': State, i: nat, begins: nat, maxRetries: nat)
    requires Enabled(s, step, maxRetries) && WorkerCovered(s) && s' == Apply(s, step)
    requires i < |s.outbox| ==> CountFits(s.outbox[i], maxRetries) && begins == Attempts(s.outbox[i])
    requires i >= |s.outbox| ==> begins == 0
    ensures i < |s'.outbox| ==> CountFits(s'.outbox[i], maxRetries) && begins + (if step == Begin(i) then 1 else 0) == Attempts(s'.outbox[i])
    ensures i >= |s'.outbox| ==> begins + (if step == Begin(i) then 1 else 0) == 0
  {
    StepKeepsLength(s, step, s', maxRetries);
    if i < |s.outbox| {
      StepKeepsCount(s, step, s', i, maxRetries);
    }
  }

  lemma StepSpendsBudget(s: State, step: Step, s': State, maxRetries: nat)
    requires Enabled(s, step, maxRetries) && WorkerCovered(s) && CountsFit(s.outbox, maxRetries) && s' == Apply(s, step)
    ensures Budget(s'.outbox, maxRetries) ==
            Budget(s.outbox, maxRetries) - (if step.Begin? then 1 else 0) + if step.Commit? then MaxAttempts(maxRetries) else 0
  {
    StepKeepsLength(s, step, s', maxRetries);
    if step.Commit? {
      assert s'.outbox[..|s'.outbox| - 1] == s.outbox;
    } else {
      forall i: nat | i < |s.outbox| ensures i != Changed(s, step) ==> s'.outbox[i] == s.outbox[i] {
        StepKeepsCount(s, step, s', i, maxRetries);
      }
      var i := Changed(s, step);
      if 0 <= i < |s.outbox| {
        StepKeepsCount(s, step, s', i, maxRetries);
        BudgetUpdate(s.outbox, i, s'.outbox[i], maxRetries);
        assert s'.outbox == s.outbox[i := s'.outbox[i]];
      } else {
        assert s'.outbox == s.outbox;
      }
    }
  }

  lemma RunFits(steps: seq<Step>, maxRetries: nat)
    requires Legal(INIT, steps, maxRetries)
    ensures CountsFit(Run(INIT, steps).outbox, maxRetries)
  {
    forall i: nat | i < |Run(INIT, steps).outbox| ensures CountFits(Run(INIT, steps).outbox[i], maxRetries) {
      EveryRunKeepsCounts(steps, i, maxRetries);
    }
  }

  /** Attempts the committed events of a run are worth. */
  function Granted(steps: seq<Step>, maxRetries: nat): nat {
    if steps == [] then 0
    else Granted(steps[..|steps| - 1], maxRetries) + if steps[|steps| - 1].Commit? then MaxAttempts(maxRetries) else 0
  }

  lemma {:induction false} GrantedPerCommit(steps: seq<Step>, maxRetries: nat)
    ensures Granted(steps, maxRetries) == MaxAttempts(maxRetries) * Commits(steps)
  {
    if steps != [] {
      GrantedPerCommit(steps[..|steps| - 1], maxRetries);
    }
  }

  /** Attempts spent plus attempts left is what the committed events brought in. */
  lemma {:induction false} AttemptsConserved(steps: seq<Step>, maxRetries: nat)
    requires Legal(INIT, steps, maxRetries)
    ensures AllBegins(steps) + Budget(Run(INIT, steps).outbox, maxRetries) == Granted(steps, maxRetries)
  {
    if steps != [] {
      var front, step := steps[..|steps| - 1], steps[|steps| - 1];
      AttemptsConserved(front, maxRetries);
      RunFits(front, maxRetries);
      EveryRunIsSynchronised(front, maxRetries);
      StepSpendsBudget(Run(INIT, front), step, Run(INIT, steps), maxRetries);
    }
  }

  /** Without new events the worker stops: every event is attempted at most ⌊max/2⌋ + 1 times. */
  lemma AttemptsBounded(steps: seq<Step>, ev: nat, maxRetries: nat)
    requires Legal(INIT, steps, maxRetries)
    ensures Begins(steps, ev) <= MaxAttempts(maxRetries)
    ensures AllBegins(steps) <= MaxAttempts(maxRetries) * Commits(steps)
  {
    EveryRunKeepsCounts(steps, ev, maxRetries);
    RunFits(steps, maxRetries);
    AttemptsConserved(steps, maxRetries);
    BudgetNonNegative(Run(INIT, steps).outbox, maxRetries);
    GrantedPerCommit(steps, maxRetries);
  }

  /** A failed event is given up exactly when it has used up its attempts. */
  lemma GivenUpIffAttemptsUsed(steps: seq<Step>, ev: nat, maxRetries: nat)
    requires Legal(INIT, steps, maxRetries)
    requires ev < |Run(INIT, steps).outbox| && Run(INIT, steps).outbox[ev].status == Failed
    ensures !Enabled(Run(INIT, steps), Retry(ev), maxRetries) <==> Begins(steps, ev) == MaxAttempts(maxRetries)
  {
    EveryRunKeepsCounts(steps, ev, maxRetries);
  }
}
