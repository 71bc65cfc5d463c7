/**
  The terminal cleanup ledger: what a call that has ended still has to cancel, close, stop and
  release, the bounded retries, and the record left when they are exhausted.

  `CleanupLedger` describes one attempt over the set of pending work; the class `Cleanup` is the
  source's form, a flag or a list per kind of step, and is proved to do the same.
*/
module Iteration {
  function Iterate<S>(s: S, step: S -> S, n: nat): S
    decreases n
  {
    if n == 0 then s else step(Iterate(s, step, n - 1))
  }

  /** At most `budget` steps, none more once a state says to stop. */
  function Repeat<S>(s: S, step: S -> S, stop: S -> bool, budget: nat): S
    decreases budget
  {
    if budget == 0 then s else
    var next := step(s);
    if stop(next) then next else Repeat(next, step, stop, budget - 1)
  }

  /** The steps taken are exactly those up to the first that says to stop, or all of the budget. */
  lemma {:induction false} RepeatStops<S>(s: S, step: S -> S, stop: S -> bool, budget: nat) returns (n: nat)
    ensures n <= budget && Repeat(s, step, stop, budget) == Iterate(s, step, n) && (budget > 0 ==> n > 0)
    ensures forall j | 0 < j < n :: !stop(Iterate(s, step, j))
    ensures n < budget ==> stop(Iterate(s, step, n))
    decreases budget
  {
    n := 0;
    if budget != 0 {
      n := 1;
      assert Iterate(s, step, 1) == step(Iterate(s, step, 0));
      if !stop(step(s)) {
        var rest := RepeatStops(step(s), step, stop, budget - 1);
        IterateSplit(s, step, 1, rest);
        forall j | 0 < j < 1 + rest ensures !stop(Iterate(s, step, j)) {
          IterateSplit(s, step, 1, j - 1);
        }
        n := 1 + rest;
      }
    }
  }

  lemma {:induction false} IterateSplit<S>(s: S, step: S -> S, n: nat, m: nat)
    ensures Iterate(Iterate(s, step, n), step, m) == Iterate(s, step, n + m)
    decreases m
  {
    if m != 0 {
      IterateSplit(s, step, n, m - 1);
    }
  }
}

module CleanupLedger {
  import opened Iteration

  const RETRY_LIMIT: nat := 32
  const TRANSACTION_ATTEMPTS: nat := 3

  /** Steps that call something: an attempt on each is recorded in the log. */
  datatype Step = Cancel | ActivePeer | CandidatePeer | ExtraPeer(id: nat) | ExtraTrack(id: nat) | PromptLease

  datatype Outcome = Done | Raises | TimesOut

  /** What waiting for an owned prompt-lease cleanup gives. */
  datatype LeaseOutcome = LeaseOutcome(timedOut: bool, released: bool)

  /** Where a lease handoff is after waiting for it: settled, finished with an unreleased cleanup, or neither. */
  datatype Fate = Settled | Moved(cleanup: nat) | Kept
  datatype HandoffOutcome = HandoffOutcome(timedOut: bool, fate: Fate)

  /** What the outside world answers, per attempt number. */
  datatype Env = Env(
    step: (nat, Step) -> Outcome,
    lease: (nat, nat) -> LeaseOutcome,
    handoff: (nat, nat) -> HandoffOutcome)

  datatype Entry = Entry(attempt: nat, step: Step, done: bool)

  datatype Ledger = Ledger(
    steps: set<Step>, cleanups: set<nat>, handoffs: set<nat>, attempts: nat, timedOut: bool, log: set<Entry>)

  // ---- one attempt ----

  predicate Fails(env: Env, attempt: nat, step: Step) {
    env.step(attempt, step) != Done
  }

  function Failing(steps: set<Step>, env: Env, attempt: nat): set<Step> {
    set st | st in steps && Fails(env, attempt, st)
  }

  function Tried(steps: set<Step>, env: Env, attempt: nat): set<Entry> {
    set st | st in steps :: Entry(attempt, st, !Fails(env, attempt, st))
  }

  function Unreleased(cleanups: set<nat>, env: Env, attempt: nat): set<nat> {
    set c | c in cleanups && !env.lease(attempt, c).released
  }

  function Unsettled(handoffs: set<nat>, env: Env, attempt: nat): set<nat> {
    set h | h in handoffs && env.handoff(attempt, h).fate.Kept?
  }

  function MovedFrom(handoffs: set<nat>, env: Env, attempt: nat): set<nat> {
    set h | h in handoffs && env.handoff(attempt, h).fate.Moved? :: env.handoff(attempt, h).fate.cleanup
  }

  predicate StepTimesOut(steps: set<Step>, env: Env, attempt: nat) {
    exists st | st in steps :: env.step(attempt, st) == TimesOut
  }

  predicate LeaseTimesOut(cleanups: set<nat>, env: Env, attempt: nat) {
    exists c | c in cleanups :: env.lease(attempt, c).timedOut
  }

  predicate HandoffTimesOut(handoffs: set<nat>, env: Env, attempt: nat) {
    exists h | h in handoffs :: env.handoff(attempt, h).timedOut
  }

  function After(ledger: Ledger, env: Env): Ledger {
    var attempt := ledger.attempts + 1;
    Ledger(
      Failing(ledger.steps, env, attempt),
      Unreleased(ledger.cleanups, env, attempt) + MovedFrom(ledger.handoffs, env, attempt),
      Unsettled(ledger.handoffs, env, attempt),
      attempt,
      || StepTimesOut(ledger.steps, env, attempt)
      || LeaseTimesOut(ledger.cleanups, env, attempt)
      || HandoffTimesOut(ledger.handoffs, env, attempt),
      ledger.log + Tried(ledger.steps, env, attempt))
  }

  predicate Pending(ledger: Ledger) {
    ledger.steps != {} || ledger.cleanups != {} || ledger.handoffs != {}
  }

  // ---- the attempts of a call ----

  function Attempt(env: Env): Ledger -> Ledger {
    (ledger: Ledger) => After(ledger, env)
  }

  function AfterAttempts(ledger: Ledger, env: Env, n: nat): Ledger {
    Iterate(ledger, Attempt(env), n)
  }

  /** The first task: at most `budget` attempts, none more once nothing is pending or a step timed out. */
  function Transaction(ledger: Ledger, env: Env, budget: nat): Ledger {
    Repeat(ledger, Attempt(env), Stops(), budget)
  }

  function Stops(): Ledger -> bool {
    (ledger: Ledger) => !Pending(ledger) || ledger.timedOut
  }

  lemma TransactionStep(ledger: Ledger, env: Env, budget: nat)
    requires budget != 0
    ensures var next := After(ledger, env);
            Transaction(ledger, env, budget)
            == if !Pending(next) || next.timedOut then next else Transaction(next, env, budget - 1)
  {}

  /** The background task: attempts until nothing is pending or the limit is reached. */
  function Retries(ledger: Ledger, env: Env): Ledger
    decreases RETRY_LIMIT - ledger.attempts
  {
    if Pending(ledger) && ledger.attempts < RETRY_LIMIT then Retries(After(ledger, env), env) else ledger
  }

  function Finished(ledger: Ledger, env: Env, budget: nat): Ledger {
    Retries(Transaction(ledger, env, budget), env)
  }

  /** The first task waits until the terminal event is published and only then starts the background task, so a
      publication that raises or never comes back leaves what is pending as it is. */
  function CallCleanup(ledger: Ledger, env: Env, budget: nat, published: bool): Ledger {
    if published then Finished(ledger, env, budget) else Transaction(ledger, env, budget)
  }

  // ---- what every attempt keeps ----

  /** Work only shrinks: a step, cleanup or handoff is pending after an attempt only if it was before,
      except that a finished handoff leaves and hands over its unreleased cleanup. */
  lemma PendingOnlyShrinks(ledger: Ledger, env: Env)
    ensures After(ledger, env).steps <= ledger.steps
    ensures After(ledger, env).handoffs <= ledger.handoffs
    ensures |After(ledger, env).cleanups| + |After(ledger, env).handoffs| <= |ledger.cleanups| + |ledger.handoffs|
  {
    var attempt := ledger.attempts + 1;
    MovedNoMore(ledger.handoffs, env, attempt);
    SubsetSize(Unreleased(ledger.cleanups, env, attempt), ledger.cleanups);
    UnionSize(Unreleased(ledger.cleanups, env, attempt), MovedFrom(ledger.handoffs, env, attempt));
  }

  /** A cleanup that was not pending before an attempt comes from a handoff that the attempt ended. */
  lemma NewCleanupsComeFromHandoffs(ledger: Ledger, env: Env, c: nat) returns (h: nat)
    requires c in After(ledger, env).cleanups && c !in ledger.cleanups
    ensures h in ledger.handoffs && h !in After(ledger, env).handoffs
    ensures env.handoff(ledger.attempts + 1, h).fate == Moved(c)
  {
    h :| h in ledger.handoffs && env.handoff(ledger.attempts + 1, h).fate == Moved(c);
  }

  lemma {:induction false} SubsetSize(a: set<nat>, b: set<nat>)
    requires a <= b
    ensures |a| <= |b|
  {
    if a != {} {
      var x :| x in a;
      SubsetSize(a - {x}, b - {x});
    }
  }

  lemma UnionSize(a: set<nat>, b: set<nat>)
    ensures |a + b| <= |a| + |b|
  {
    assert a + b == a + (b - a);
    SubsetSize(b - a, b);
  }

  lemma OneUnsettled(rest: set<nat>, h: nat, env: Env, attempt: nat)
    requires h !in rest
    ensures |Unsettled(rest + {h}, env, attempt)|
            == |Unsettled(rest, env, attempt)| + if env.handoff(attempt, h).fate.Kept? then 1 else 0
  {
    var fate := env.handoff(attempt, h).fate;
    if fate.Kept? {
      assert Unsettled(rest + {h}, env, attempt) == Unsettled(rest, env, attempt) + {h};
    } else {
      assert Unsettled(rest + {h}, env, attempt) == Unsettled(rest, env, attempt);
    }
  }

  lemma OneMoved(rest: set<nat>, h: nat, env: Env, attempt: nat)
    ensures |MovedFrom(rest + {h}, env, attempt)|
            <= |MovedFrom(rest, env, attempt)| + if env.handoff(attempt, h).fate.Moved? then 1 else 0
  {
    var fate := env.handoff(attempt, h).fate;
    if fate.Moved? {
      assert MovedFrom(rest + {h}, env, attempt) == MovedFrom(rest, env, attempt) + {fate.cleanup};
    } else {
      assert MovedFrom(rest + {h}, env, attempt) == MovedFrom(rest, env, attempt);
    }
  }

  lemma {:induction false} MovedNoMore(handoffs: set<nat>, env: Env, attempt: nat)
    ensures |MovedFrom(handoffs, env, attempt)| + |Unsettled(handoffs, env, attempt)| <= |handoffs|
    decreases |handoffs|
  {
    if handoffs != {} {
      var h :| h in handoffs;
      MovedNoMore(handoffs - {h}, env, attempt);
      OneUnsettled(handoffs - {h}, h, env, attempt);
      OneMoved(handoffs - {h}, h, env, attempt);
      assert handoffs == handoffs - {h} + {h};
    }
  }

  ghost predicate FailsThroughout(env: Env, st: Step, lo: nat, hi: nat) {
    forall j: nat | lo < j <= hi :: Fails(env, j, st)
  }

  lemma {:induction false} AttemptsCount(ledger: Ledger, env: Env, n: nat)
    ensures AfterAttempts(ledger, env, n).attempts == ledger.attempts + n
    decreases n
  {
    if n != 0 {
      AttemptsCount(ledger, env, n - 1);
    }
  }

  /** After n attempts a step is pending exactly when it was at first and failed every time. */
  lemma {:induction false} PendingExactly(ledger: Ledger, env: Env, n: nat, st: Step)
    ensures st in AfterAttempts(ledger, env, n).steps <==>
              st in ledger.steps && FailsThroughout(env, st, ledger.attempts, ledger.attempts + n)
    decreases n
  {
    AttemptsCount(ledger, env, n);
    if n != 0 {
      PendingExactly(ledger, env, n - 1, st);
    }
  }

  lemma LogAfter(ledger: Ledger, env: Env, e: Entry)
    ensures e in After(ledger, env).log <==>
              || e in ledger.log
              || (e.attempt == ledger.attempts + 1 && e.step in ledger.steps && e.done == !Fails(env, e.attempt, e.step))
  {}

  /** The log holds attempt number j on a step exactly when the step was still pending then. */
  lemma {:induction false} LogExactly(ledger: Ledger, env: Env, n: nat, e: Entry)
    requires ledger.log == {}
    ensures e in AfterAttempts(ledger, env, n).log <==>
              && ledger.attempts < e.attempt <= ledger.attempts + n
              && e.step in AfterAttempts(ledger, env, e.attempt - ledger.attempts - 1).steps
              && e.done == !Fails(env, e.attempt, e.step)
    decreases n
  {
    if n != 0 {
      LogExactly(ledger, env, n - 1, e);
      AttemptsCount(ledger, env, n - 1);
      LogAfter(AfterAttempts(ledger, env, n - 1), env, e);
    }
  }

  /** No completed step is replayed: after the attempt that completed it, a step is never tried again. */
  lemma NoCompletedStepIsReplayed(ledger: Ledger, env: Env, n: nat, first: Entry, second: Entry)
    requires ledger.log == {}
    requires first in AfterAttempts(ledger, env, n).log && second in AfterAttempts(ledger, env, n).log
    requires first.step == second.step && first.done
    ensures second.attempt <= first.attempt
  {
    LogExactly(ledger, env, n, first);
    LogExactly(ledger, env, n, second);
    if first.attempt < second.attempt {
      PendingExactly(ledger, env, second.attempt - ledger.attempts - 1, first.step);
    }
  }

  /** The wait for this handoff in these attempts found it neither settled nor finished. */
  ghost predicate KeptThroughout(env: Env, h: nat, lo: nat, hi: nat) {
    forall j: nat | lo < j <= hi :: env.handoff(j, h).fate.Kept?
  }

  /** After n attempts a handoff is pending exactly when every wait for it found it neither settled nor finished. */
  lemma {:induction false} HandoffPendingExactly(ledger: Ledger, env: Env, n: nat, h: nat)
    ensures h in AfterAttempts(ledger, env, n).handoffs <==>
              h in ledger.handoffs && KeptThroughout(env, h, ledger.attempts, ledger.attempts + n)
    decreases n
  {
    AttemptsCount(ledger, env, n);
    if n != 0 {
      HandoffPendingExactly(ledger, env, n - 1, h);
    }
  }

  /** A lease cleanup is in the ledger from the start, or enters it in attempt j with the handoff that finished. */
  ghost predicate CleanupEnters(ledger: Ledger, env: Env, j: nat, c: nat)
    requires ledger.attempts <= j
  {
    if j == ledger.attempts then c in ledger.cleanups
    else exists h | h in AfterAttempts(ledger, env, j - 1 - ledger.attempts).handoffs :: env.handoff(j, h).fate == Moved(c)
  }

  ghost predicate UnreleasedThroughout(env: Env, c: nat, lo: nat, hi: nat) {
    forall k: nat | lo < k <= hi :: !env.lease(k, c).released
  }

  /** After n attempts a lease cleanup is pending exactly when it entered and no later wait found it released. */
  lemma {:induction false} CleanupPendingExactly(ledger: Ledger, env: Env, n: nat, c: nat)
    ensures c in AfterAttempts(ledger, env, n).cleanups <==>
              exists j: nat | ledger.attempts <= j <= ledger.attempts + n ::
                CleanupEnters(ledger, env, j, c) && UnreleasedThroughout(env, c, j, ledger.attempts + n)
    decreases n
  {
    var now := ledger.attempts + n;
    assert UnreleasedThroughout(env, c, now, now);
    if n == 0 {
      assert CleanupEnters(ledger, env, now, c) <==> c in ledger.cleanups;
    } else {
      CleanupPendingExactly(ledger, env, n - 1, c);
      AttemptsCount(ledger, env, n - 1);
      LastAttempt(ledger, env, n, c);
      hide AfterAttempts, CleanupEnters;
      forall j: nat | ledger.attempts <= j < now
        ensures UnreleasedThroughout(env, c, j, now)
                <==> UnreleasedThroughout(env, c, j, now - 1) && !env.lease(now, c).released
      {}
      hide UnreleasedThroughout;
    }
  }

  lemma LastAttempt(ledger: Ledger, env: Env, n: nat, c: nat)
    requires n != 0 && AfterAttempts(ledger, env, n - 1).attempts == ledger.attempts + n - 1
    ensures c in AfterAttempts(ledger, env, n).cleanups <==>
              || (c in AfterAttempts(ledger, env, n - 1).cleanups && !env.lease(ledger.attempts + n, c).released)
              || CleanupEnters(ledger, env, ledger.attempts + n, c)
  {
    assert AfterAttempts(ledger, env, n) == After(AfterAttempts(ledger, env, n - 1), env);
  }

  // ---- how it ends ----

  lemma OneAttempt(ledger: Ledger, env: Env, n: nat)
    ensures AfterAttempts(After(ledger, env), env, n) == AfterAttempts(ledger, env, n + 1)
  {
    IterateSplit(ledger, Attempt(env), 1, n);
    assert Iterate(ledger, Attempt(env), 1) == Attempt(env)(Iterate(ledger, Attempt(env), 0));
  }

  lemma {:induction false} RetriesAreAttempts(ledger: Ledger, env: Env) returns (n: nat)
    requires ledger.attempts <= RETRY_LIMIT
    ensures Retries(ledger, env) == AfterAttempts(ledger, env, n)
    decreases RETRY_LIMIT - ledger.attempts
  {
    n := 0;
    if Pending(ledger) && ledger.attempts < RETRY_LIMIT {
      var rest := RetriesAreAttempts(After(ledger, env), env);
      OneAttempt(ledger, env, rest);
      n := rest + 1;
    }
  }

  lemma {:induction false} RetriesEnd(ledger: Ledger, env: Env)
    requires ledger.attempts <= RETRY_LIMIT
    ensures Retries(ledger, env).attempts <= RETRY_LIMIT
    ensures Pending(Retries(ledger, env)) ==> Retries(ledger, env).attempts == RETRY_LIMIT
    decreases RETRY_LIMIT - ledger.attempts
  {
    if Pending(ledger) && ledger.attempts < RETRY_LIMIT {
      RetriesEnd(After(ledger, env), env);
    }
  }

  lemma RetriesReach(ledger: Ledger, env: Env, a: nat, t: Ledger) returns (n: nat)
    requires t == AfterAttempts(ledger, env, a) && t.attempts <= RETRY_LIMIT
    ensures Retries(t, env) == AfterAttempts(ledger, env, n)
    ensures ledger.attempts + n == Retries(t, env).attempts <= RETRY_LIMIT
    ensures Pending(Retries(t, env)) ==> ledger.attempts + n == RETRY_LIMIT
  {
    hide Retries, Pending;
    RetriesEnd(t, env);
    var b := RetriesAreAttempts(t, env);
    IterateSplit(ledger, Attempt(env), a, b);
    AttemptsCount(ledger, env, a + b);
    n := a + b;
  }

  /** A call's cleanup ends within the limit, and only a used-up limit leaves work behind. */
  lemma CleanupEnds(ledger: Ledger, env: Env, budget: nat) returns (n: nat)
    requires ledger.attempts == 0 && budget <= RETRY_LIMIT
    ensures Finished(ledger, env, budget) == AfterAttempts(ledger, env, n)
    ensures n == Finished(ledger, env, budget).attempts <= RETRY_LIMIT
    ensures Pending(Finished(ledger, env, budget)) ==> n == RETRY_LIMIT
  {
    var a := RepeatStops(ledger, Attempt(env), Stops(), budget);
    AttemptsCount(ledger, env, a);
    n := RetriesReach(ledger, env, a, Transaction(ledger, env, budget));
  }

  /** Something the next attempt waits for, a step, a lease or a handoff, times out. */
  ghost predicate AttemptTimesOut(ledger: Ledger, env: Env) {
    var attempt := ledger.attempts + 1;
    || (exists st | st in ledger.steps :: env.step(attempt, st) == TimesOut)
    || (exists c | c in ledger.cleanups :: env.lease(attempt, c).timedOut)
    || (exists h | h in ledger.handoffs :: env.handoff(attempt, h).timedOut)
  }

  /** Attempt number j leaves nothing pending, or something in it times out. */
  ghost predicate LastOfTransaction(ledger: Ledger, env: Env, j: nat) {
    j > 0 && (!Pending(AfterAttempts(ledger, env, j)) || AttemptTimesOut(AfterAttempts(ledger, env, j - 1), env))
  }

  lemma StopsExactly(ledger: Ledger, env: Env, j: nat)
    requires j > 0
    ensures Stops()(Iterate(ledger, Attempt(env), j)) <==> LastOfTransaction(ledger, env, j)
  {
    assert AfterAttempts(ledger, env, j) == After(AfterAttempts(ledger, env, j - 1), env);
  }

  /** The first task makes attempts up to the first that leaves nothing pending or in which something times out, at
      most its budget. */
  lemma TransactionExactly(ledger: Ledger, env: Env, budget: nat) returns (n: nat)
    ensures n <= budget && Transaction(ledger, env, budget) == AfterAttempts(ledger, env, n) && (budget > 0 ==> n > 0)
    ensures forall j | 0 < j < n :: !LastOfTransaction(ledger, env, j)
    ensures n < budget ==> LastOfTransaction(ledger, env, n)
  {
    n := RepeatStops(ledger, Attempt(env), Stops(), budget);
    hide LastOfTransaction, Stops;
    forall j | 0 < j < n ensures !LastOfTransaction(ledger, env, j) {
      StopsExactly(ledger, env, j);
    }
    if 0 < n < budget {
      StopsExactly(ledger, env, n);
    }
  }

  /** The background task goes on only while something is pending: a further attempt finds work left. */
  lemma {:induction false} NoIdleRetry(ledger: Ledger, env: Env, k: nat)
    requires ledger.attempts <= RETRY_LIMIT && ledger.attempts + k < Retries(ledger, env).attempts
    ensures Pending(AfterAttempts(ledger, env, k))
    decreases k
  {
    if k != 0 {
      NoIdleRetry(After(ledger, env), env, k - 1);
      OneAttempt(ledger, env, k - 1);
    }
  }

  /** A step is left over exactly when every one of the 32 attempts on it failed. */
  lemma LeftOverExactly(ledger: Ledger, env: Env, budget: nat, st: Step)
    requires ledger.attempts == 0 && budget <= RETRY_LIMIT
    ensures st in Finished(ledger, env, budget).steps <==> st in ledger.steps && FailsThroughout(env, st, 0, RETRY_LIMIT)
  {
    var n := CleanupEnds(ledger, env, budget);
    PendingExactly(ledger, env, n, st);
    if st in ledger.steps && FailsThroughout(env, st, 0, RETRY_LIMIT) {
      assert FailsThroughout(env, st, 0, n);
    }
    if st in Finished(ledger, env, budget).steps {
      assert Pending(Finished(ledger, env, budget));
    }
  }

  /** Every step not left over was completed, in exactly one attempt. */
  lemma CompletedExactlyOnce(ledger: Ledger, env: Env, budget: nat, st: Step) returns (attempt: nat)
    requires ledger.attempts == 0 && ledger.log == {} && budget <= RETRY_LIMIT
    requires st in ledger.steps && st !in Finished(ledger, env, budget).steps
    ensures Entry(attempt, st, true) in Finished(ledger, env, budget).log && env.step(attempt, st) == Done
    ensures forall other: nat | Entry(other, st, true) in Finished(ledger, env, budget).log :: other == attempt
  {
    var n := CleanupEnds(ledger, env, budget);
    attempt := CompletedWithin(ledger, env, n, st);
  }

  lemma CompletedWithin(ledger: Ledger, env: Env, n: nat, st: Step) returns (attempt: nat)
    requires ledger.attempts == 0 && ledger.log == {}
    requires st in ledger.steps && st !in AfterAttempts(ledger, env, n).steps
    ensures Entry(attempt, st, true) in AfterAttempts(ledger, env, n).log && env.step(attempt, st) == Done
    ensures forall other: nat | Entry(other, st, true) in AfterAttempts(ledger, env, n).log :: other == attempt
  {
    PendingExactly(ledger, env, n, st);
    attempt := FirstSuccess(env, st, 0, n);
    PendingExactly(ledger, env, attempt - 1, st);
    LogExactly(ledger, env, n, Entry(attempt, st, true));
    forall other: nat | Entry(other, st, true) in AfterAttempts(ledger, env, n).log ensures other == attempt {
      NoCompletedStepIsReplayed(ledger, env, n, Entry(attempt, st, true), Entry(other, st, true));
      NoCompletedStepIsReplayed(ledger, env, n, Entry(other, st, true), Entry(attempt, st, true));
    }
  }

  lemma {:induction false} FirstSuccess(env: Env, st: Step, lo: nat, hi: nat) returns (j: nat)
    requires lo <= hi && !FailsThroughout(env, st, lo, hi)
    ensures lo < j <= hi && !Fails(env, j, st) && FailsThroughout(env, st, lo, j - 1)
    decreases hi - lo
  {
    if Fails(env, lo + 1, st) {
      j := FirstSuccess(env, st, lo + 1, hi);
    } else {
      j := lo + 1;
    }
  }
}

module TerminalCleanup {
  import opened Iteration
  import opened CleanupLedger
  import opened Wrappers
  import L = PeerLifecycle
  import PeerClosing
  import PeerOwnership

  /** One line of the failure record; the counted kinds carry how many are left. */
  datatype PendingStep =
    | CancelLeft | ActivePeerLeft | CandidatePeerLeft | PromptLeaseLeft
    | OwnedLeasesLeft(count: nat) | HandoffsLeft(count: nat) | ExtraPeersLeft(count: nat) | ExtraTracksLeft(count: nat)

  datatype Failure = RetryExhausted(attempts: nat, pending: seq<PendingStep>)

  /** The steps with a flag each. */
  datatype Flags = Flags(cancel: bool, activePeer: bool, candidatePeer: bool, promptLease: bool)

  function Flagged(pending: bool, st: Step): set<Step> {
    if pending then {st} else {}
  }

  function Each(ids: seq<nat>, make: nat -> Step): set<Step> {
    set i | i in ids :: make(i)
  }

  function Peer(id: nat): Step { ExtraPeer(id) }

  function Track(id: nat): Step { ExtraTrack(id) }

  function Elements(s: seq<nat>): set<nat> {
    set x | x in s
  }

  ghost predicate Distinct(s: seq<nat>) {
    forall i, j :: 0 <= i < j < |s| ==> s[i] != s[j]
  }

  /** Python's list.remove on a list that holds the value. */
  function Remove(s: seq<nat>, x: nat): seq<nat> {
    if s == [] then [] else if s[0] == x then s[1..] else [s[0]] + Remove(s[1..], x)
  }

  lemma {:induction false} RemoveKeepsOrder(s: seq<nat>, x: nat)
    requires Distinct(s)
    ensures forall y :: y in Remove(s, x) <==> y in s && y != x
    ensures Distinct(Remove(s, x))
    decreases |s|
  {
    if s != [] {
      assert s == [s[0]] + s[1..];
      if s[0] == x {
        forall i | 1 <= i < |s| ensures s[i] != x && s[i] in s[1..] {
          assert s[i] != s[0] && s[i] == s[1..][i - 1];
        }
      } else {
        var rest := Remove(s[1..], x);
        RemoveKeepsOrder(s[1..], x);
        assert Remove(s, x) == [s[0]] + rest;
        forall i | 0 <= i < |rest| ensures rest[i] != s[0] {
          assert rest[i] in rest;
        }
      }
    }
  }

  lemma ElementsSnoc(s: seq<nat>, x: nat)
    ensures Elements(s + [x]) == Elements(s) + {x}
  {}

  lemma {:induction false} CountsElements(s: seq<nat>)
    requires Distinct(s)
    ensures |Elements(s)| == |s|
    decreases |s|
  {
    if s != [] {
      CountsElements(s[1..]);
      assert s == [s[0]] + s[1..];
      assert Elements(s) == {s[0]} + Elements(s[1..]);
    }
  }

  function OneLeft(pending: bool, left: PendingStep): seq<PendingStep> {
    if pending then [left] else []
  }

  function ExtraPeers(steps: set<Step>): set<Step> {
    set st | st in steps && st.ExtraPeer?
  }

  function ExtraTracks(steps: set<Step>): set<Step> {
    set st | st in steps && st.ExtraTrack?
  }

  /** The lines for steps with a flag each. */
  function RecordFlags(cancel: bool, active: bool, candidate: bool, lease: bool): seq<PendingStep> {
    OneLeft(cancel, CancelLeft) + OneLeft(active, ActivePeerLeft) + OneLeft(candidate, CandidatePeerLeft)
    + OneLeft(lease, PromptLeaseLeft)
  }

  /** The lines for the kinds that are counted. */
  function RecordCounts(cleanups: nat, handoffs: nat, peers: nat, tracks: nat): seq<PendingStep> {
    OneLeft(cleanups != 0, OwnedLeasesLeft(cleanups)) + OneLeft(handoffs != 0, HandoffsLeft(handoffs))
    + OneLeft(peers != 0, ExtraPeersLeft(peers)) + OneLeft(tracks != 0, ExtraTracksLeft(tracks))
  }

  /** What the failure record must list, from the pending work alone. */
  function Record(t: Ledger): seq<PendingStep> {
    RecordFlags(Cancel in t.steps, ActivePeer in t.steps, CandidatePeer in t.steps, PromptLease in t.steps)
    + RecordCounts(|t.cleanups|, |t.handoffs|, |ExtraPeers(t.steps)|, |ExtraTracks(t.steps)|)
  }

  class Cleanup {
    var flags: Flags
    var extraPeersPending: seq<nat>
    var extraTracksPending: seq<nat>
    var ownedPromptCleanupsPending: seq<nat>
    var ownedPromptHandoffsPending: seq<nat>
    var attempts: nat
    var lastAttemptTimedOut: bool
    var failure: Option<Failure>
    ghost var log: set<Entry>

    /** The ledger a terminal transition creates for the peers it takes over. */
    constructor (peers: L.TerminalPeers, cancel: bool, lease: bool, extraPeers: seq<nat>, extraTracks: seq<nat>,
                 cleanups: seq<nat>, handoffs: seq<nat>)
      requires Distinct(extraPeers) && Distinct(extraTracks) && Distinct(cleanups) && Distinct(handoffs)
      requires Elements(extraPeers) == peers.extras
      ensures Valid() && View() == Opened(peers, cancel, lease, Elements(extraTracks), Elements(cleanups), Elements(handoffs))
      ensures failure == None
    {
      flags := Flags(cancel, true, peers.candidate.Some? && peers.candidate.value != peers.active, lease);
      extraPeersPending, extraTracksPending := extraPeers, extraTracks;
      ownedPromptCleanupsPending, ownedPromptHandoffsPending := cleanups, handoffs;
      attempts, lastAttemptTimedOut, failure, log := 0, false, None, {};
      new;
      SameSteps(flags, extraPeers, extraTracks, peers, cancel, lease);
    }

    ghost function View(): Ledger
      reads this
    {
      Ledger(
        StepsOf(flags, extraPeersPending, extraTracksPending),
        Elements(ownedPromptCleanupsPending), Elements(ownedPromptHandoffsPending), attempts, lastAttemptTimedOut, log)
    }

    ghost predicate Valid()
      reads this
    {
      && Distinct(extraPeersPending) && Distinct(extraTracksPending)
      && Distinct(ownedPromptCleanupsPending) && Distinct(ownedPromptHandoffsPending)
    }

    /** Tries one step: the log records it, and a timeout is remembered. */
    method Try(env: Env, st: Step) returns (done: bool)
      modifies `lastAttemptTimedOut, `log
      ensures done == !Fails(env, attempts, st)
      ensures log == old(log) + {Entry(attempts, st, done)}
      ensures lastAttemptTimedOut == (old(lastAttemptTimedOut) || env.step(attempts, st) == TimesOut)
    {
      done := env.step(attempts, st) == Done;
      lastAttemptTimedOut := lastAttemptTimedOut || env.step(attempts, st) == TimesOut;
      log := log + {Entry(attempts, st, done)};
    }

    /** Tries a step if its flag is up; the flag stays up only when it fails. */
    method TryFlagged(env: Env, st: Step, pending: bool) returns (left: bool)
      modifies `lastAttemptTimedOut, `log
      ensures Flagged(left, st) == Failing(Flagged(pending, st), env, attempts)
      ensures log == old(log) + Tried(Flagged(pending, st), env, attempts)
      ensures lastAttemptTimedOut == (old(lastAttemptTimedOut) || StepTimesOut(Flagged(pending, st), env, attempts))
    {
      left := pending;
      if pending {
        var done := Try(env, st);
        left := !done;
        assert Tried({st}, env, attempts) == {Entry(attempts, st, done)};
        assert st in Flagged(pending, st);
      }
    }

    /** One loop over a snapshot of pending peers or tracks; each success leaves the list. */
    method TryEach(env: Env, pending: seq<nat>, make: nat -> Step) returns (left: seq<nat>)
      requires Distinct(pending)
      modifies `lastAttemptTimedOut, `log
      ensures Distinct(left)
      ensures Each(left, make) == Failing(Each(pending, make), env, attempts)
      ensures log == old(log) + Tried(Each(pending, make), env, attempts)
      ensures lastAttemptTimedOut == (old(lastAttemptTimedOut) || StepTimesOut(Each(pending, make), env, attempts))
    {
      left := pending;
      var i := 0;
      while i < |pending|
        invariant 0 <= i <= |pending|
        invariant Distinct(left)
        invariant forall y :: y in left <==> y in pending && (y in pending[..i] ==> Fails(env, attempts, make(y)))
        invariant log == old(log) + Tried(Each(pending[..i], make), env, attempts)
        invariant lastAttemptTimedOut == (old(lastAttemptTimedOut) || StepTimesOut(Each(pending[..i], make), env, attempts))
      {
        var done := Try(env, make(pending[i]));
        NextStep(pending, i, make, env, attempts);
        if done {
          RemoveKeepsOrder(left, pending[i]);
          left := Remove(left, pending[i]);
        }
        i := i + 1;
      }
      assert pending[..i] == pending;
    }

    /** Waits for each owned cleanup; the released ones leave the list. */
    method WaitForCleanups(env: Env)
      requires Distinct(ownedPromptCleanupsPending)
      modifies `ownedPromptCleanupsPending, `lastAttemptTimedOut
      ensures Distinct(ownedPromptCleanupsPending)
      ensures Elements(ownedPromptCleanupsPending) == Unreleased(old(Elements(ownedPromptCleanupsPending)), env, attempts)
      ensures lastAttemptTimedOut
              == (old(lastAttemptTimedOut) || LeaseTimesOut(old(Elements(ownedPromptCleanupsPending)), env, attempts))
    {
      var snapshot := ownedPromptCleanupsPending;
      var i := 0;
      while i < |snapshot|
        invariant 0 <= i <= |snapshot|
        invariant Distinct(ownedPromptCleanupsPending)
        invariant forall c :: c in ownedPromptCleanupsPending <==>
                    c in snapshot && (c in snapshot[..i] ==> !env.lease(attempts, c).released)
        invariant lastAttemptTimedOut
                  == (old(lastAttemptTimedOut) || exists c | c in snapshot[..i] :: env.lease(attempts, c).timedOut)
      {
        var outcome := env.lease(attempts, snapshot[i]);
        assert snapshot[..i + 1] == snapshot[..i] + [snapshot[i]];
        lastAttemptTimedOut := lastAttemptTimedOut || outcome.timedOut;
        if outcome.released {
          RemoveKeepsOrder(ownedPromptCleanupsPending, snapshot[i]);
          ownedPromptCleanupsPending := Remove(ownedPromptCleanupsPending, snapshot[i]);
        }
        i := i + 1;
      }
      assert snapshot[..i] == snapshot;
    }

    /** Waits for each handoff; settled ones leave, finished ones leave their unreleased cleanup behind. */
    method WaitForHandoffs(env: Env)
      requires Distinct(ownedPromptHandoffsPending) && Distinct(ownedPromptCleanupsPending)
      modifies `ownedPromptHandoffsPending, `ownedPromptCleanupsPending, `lastAttemptTimedOut
      ensures Distinct(ownedPromptHandoffsPending) && Distinct(ownedPromptCleanupsPending)
      ensures Elements(ownedPromptHandoffsPending) == Unsettled(old(Elements(ownedPromptHandoffsPending)), env, attempts)
      ensures Elements(ownedPromptCleanupsPending)
              == old(Elements(ownedPromptCleanupsPending)) + MovedFrom(old(Elements(ownedPromptHandoffsPending)), env, attempts)
      ensures lastAttemptTimedOut
              == (old(lastAttemptTimedOut) || HandoffTimesOut(old(Elements(ownedPromptHandoffsPending)), env, attempts))
    {
      hide MovedFrom, HandoffTimesOut;
      NoHandoffs(env, attempts);
      var snapshot := ownedPromptHandoffsPending;
      var i := 0;
      while i < |snapshot|
        invariant 0 <= i <= |snapshot|
        invariant Distinct(ownedPromptHandoffsPending) && Distinct(ownedPromptCleanupsPending)
        invariant forall h :: h in ownedPromptHandoffsPending <==>
                    h in snapshot && (h in snapshot[..i] ==> env.handoff(attempts, h).fate.Kept?)
        invariant Elements(ownedPromptCleanupsPending)
                  == old(Elements(ownedPromptCleanupsPending)) + MovedFrom(Elements(snapshot[..i]), env, attempts)
        invariant lastAttemptTimedOut
                  == (old(lastAttemptTimedOut) || HandoffTimesOut(Elements(snapshot[..i]), env, attempts))
      {
        var outcome := env.handoff(attempts, snapshot[i]);
        NextHandoff(snapshot, i, env, attempts);
        lastAttemptTimedOut := lastAttemptTimedOut || outcome.timedOut;
        if outcome.fate.Moved? && outcome.fate.cleanup !in ownedPromptCleanupsPending {
          ElementsSnoc(ownedPromptCleanupsPending, outcome.fate.cleanup);
          ownedPromptCleanupsPending := ownedPromptCleanupsPending + [outcome.fate.cleanup];
        }
        if !outcome.fate.Kept? {
          RemoveKeepsOrder(ownedPromptHandoffsPending, snapshot[i]);
          ownedPromptHandoffsPending := Remove(ownedPromptHandoffsPending, snapshot[i]);
        }
        i := i + 1;
      }
      assert snapshot[..i] == snapshot;
    }

    /** Cancels the turn and closes the active and the candidate peer. */
    method TryCallAndPeers(env: Env)
      modifies `flags, `lastAttemptTimedOut, `log
      ensures CallSteps(flags) == Failing(old(CallSteps(flags)), env, attempts)
      ensures flags.promptLease == old(flags.promptLease)
      ensures log == old(log) + Tried(old(CallSteps(flags)), env, attempts)
      ensures lastAttemptTimedOut == (old(lastAttemptTimedOut) || StepTimesOut(old(CallSteps(flags)), env, attempts))
    {
      hide Failing, Tried, StepTimesOut, Flagged;
      ghost var cancelStep, activeStep, candidateStep :=
        Flagged(flags.cancel, Cancel), Flagged(flags.activePeer, ActivePeer), Flagged(flags.candidatePeer, CandidatePeer);
      var cancel := TryFlagged(env, Cancel, flags.cancel);
      var active := TryFlagged(env, ActivePeer, flags.activePeer);
      TriedTogether(cancelStep, activeStep, env, attempts);
      var candidate := TryFlagged(env, CandidatePeer, flags.candidatePeer);
      TriedTogether(cancelStep + activeStep, candidateStep, env, attempts);
      flags := Flags(cancel, active, candidate, flags.promptLease);
    }

    /** Closes the extra peers, stops the extra tracks and releases the prompt lease. */
    method TryExtrasAndLease(env: Env)
      requires Distinct(extraPeersPending) && Distinct(extraTracksPending)
      modifies `flags, `extraPeersPending, `extraTracksPending, `lastAttemptTimedOut, `log
      ensures Distinct(extraPeersPending) && Distinct(extraTracksPending)
      ensures CallSteps(flags) == old(CallSteps(flags))
      ensures ExtraSteps(flags, extraPeersPending, extraTracksPending)
              == Failing(old(ExtraSteps(flags, extraPeersPending, extraTracksPending)), env, attempts)
      ensures log == old(log) + Tried(old(ExtraSteps(flags, extraPeersPending, extraTracksPending)), env, attempts)
      ensures lastAttemptTimedOut
              == (old(lastAttemptTimedOut) || StepTimesOut(old(ExtraSteps(flags, extraPeersPending, extraTracksPending)), env, attempts))
    {
      hide Failing, Tried, StepTimesOut, Each, Flagged;
      ghost var peers, tracks, lease :=
        Each(extraPeersPending, Peer), Each(extraTracksPending, Track), Flagged(flags.promptLease, PromptLease);
      extraPeersPending := TryEach(env, extraPeersPending, Peer);
      extraTracksPending := TryEach(env, extraTracksPending, Track);
      TriedTogether(peers, tracks, env, attempts);
      var left := TryFlagged(env, PromptLease, flags.promptLease);
      TriedTogether(peers + tracks, lease, env, attempts);
      flags := flags.(promptLease := left);
    }

    /** The part of an attempt that calls something. */
    method TryAllSteps(env: Env)
      requires Valid()
      modifies `flags, `extraPeersPending, `extraTracksPending, `lastAttemptTimedOut, `log
      ensures Distinct(extraPeersPending) && Distinct(extraTracksPending)
      ensures StepsOf(flags, extraPeersPending, extraTracksPending)
              == Failing(old(StepsOf(flags, extraPeersPending, extraTracksPending)), env, attempts)
      ensures log == old(log) + Tried(old(StepsOf(flags, extraPeersPending, extraTracksPending)), env, attempts)
      ensures lastAttemptTimedOut
              == (old(lastAttemptTimedOut) || StepTimesOut(old(StepsOf(flags, extraPeersPending, extraTracksPending)), env, attempts))
    {
      ghost var calls, extras := CallSteps(flags), ExtraSteps(flags, extraPeersPending, extraTracksPending);
      TryCallAndPeers(env);
      TryExtrasAndLease(env);
      TriedTogether(calls, extras, env, attempts);
    }

    /** The part of an attempt that waits: owned cleanups first, then handoffs. */
    method WaitForPromptLeases(env: Env)
      requires Valid()
      modifies `ownedPromptHandoffsPending, `ownedPromptCleanupsPending, `lastAttemptTimedOut
      ensures Valid()
      ensures Elements(ownedPromptHandoffsPending) == Unsettled(old(Elements(ownedPromptHandoffsPending)), env, attempts)
      ensures Elements(ownedPromptCleanupsPending)
              == Unreleased(old(Elements(ownedPromptCleanupsPending)), env, attempts)
                 + MovedFrom(old(Elements(ownedPromptHandoffsPending)), env, attempts)
      ensures lastAttemptTimedOut
              == (|| old(lastAttemptTimedOut)
                  || LeaseTimesOut(old(Elements(ownedPromptCleanupsPending)), env, attempts)
                  || HandoffTimesOut(old(Elements(ownedPromptHandoffsPending)), env, attempts))
    {
      WaitForCleanups(env);
      WaitForHandoffs(env);
    }

    /** One attempt on everything pending. */
    method RunTerminalCleanup(env: Env)
      requires Valid()
      modifies this
      ensures Valid() && View() == After(old(View()), env) && failure == old(failure)
    {
      hide Failing, Tried, StepTimesOut, StepsOf, Elements, Unreleased, Unsettled, MovedFrom;
      attempts := attempts + 1;
      lastAttemptTimedOut := false;
      TryAllSteps(env);
      WaitForPromptLeases(env);
    }

    predicate AnyPending()
      reads this
    {
      || flags.cancel || flags.activePeer || flags.candidatePeer || flags.promptLease
      || ownedPromptCleanupsPending != [] || ownedPromptHandoffsPending != []
      || extraPeersPending != [] || extraTracksPending != []
    }

    lemma AnyPendingIsPending()
      ensures AnyPending() == Pending(View())
    {
      PendingMeans(flags, extraPeersPending, extraTracksPending);
      assert ownedPromptCleanupsPending != [] ==> ownedPromptCleanupsPending[0] in Elements(ownedPromptCleanupsPending);
      assert ownedPromptHandoffsPending != [] ==> ownedPromptHandoffsPending[0] in Elements(ownedPromptHandoffsPending);
    }

    /** The task started with the terminal transition: a few attempts before the outcome is published. */
    method RunTerminalTransaction(env: Env, limit: nat)
      requires Valid()
      modifies this
      ensures Valid() && View() == Transaction(old(View()), env, limit) && failure == old(failure)
    {
      hide After, Pending, Distinct;
      ghost var start, now := Transaction(View(), env, limit), View();
      var attempt := 0;
      while attempt < limit
        invariant attempt <= limit && Valid() && failure == old(failure) && View() == now
        invariant Transaction(now, env, limit - attempt) == start
      {
        TransactionStep(now, env, limit - attempt);
        now := After(now, env);
        RunTerminalCleanup(env);
        AnyPendingIsPending();
        if !AnyPending() || lastAttemptTimedOut {
          return;
        }
        attempt := attempt + 1;
      }
    }

    /** The whole cleanup of a call: the transaction, then, once the terminal event is published, the background
        task if work is left. */
    method FinishTerminalCleanup(env: Env, published: bool)
      requires Valid() && failure.None?
      modifies this
      ensures Valid() && View() == CallCleanup(old(View()), env, TRANSACTION_ATTEMPTS, published)
      ensures failure == if published && Pending(View()) then Some(RetryExhausted(attempts, Record(View()))) else None
    {
      RunTerminalTransaction(env, TRANSACTION_ATTEMPTS);
      AnyPendingIsPending();
      if published && AnyPending() {
        RetryTerminalCleanupUntilResolved(env);
      }
    }

    /** The background task: it stops with nothing pending and no failure, or with the limit used up
        and a failure record of exactly what is left. */
    method RetryTerminalCleanupUntilResolved(env: Env)
      requires Valid()
      modifies this
      ensures Valid() && View() == Retries(old(View()), env)
      ensures failure == if Pending(View()) then Some(RetryExhausted(attempts, Record(View()))) else None
    {
      AnyPendingIsPending();
      while AnyPending() && attempts < RETRY_LIMIT
        invariant Valid() && Retries(View(), env) == Retries(old(View()), env)
        invariant AnyPending() == Pending(View())
        decreases RETRY_LIMIT - attempts
      {
        RunTerminalCleanup(env);
        AnyPendingIsPending();
      }
      if AnyPending() {
        var left := PendingSteps();
        failure := Some(RetryExhausted(attempts, left));
      } else {
        failure := None;
      }
    }

    method PendingSteps() returns (left: seq<PendingStep>)
      requires Valid()
      ensures left == Record(View())
    {
      MembersOfSteps(flags, extraPeersPending, extraTracksPending);
      CountsElements(ownedPromptCleanupsPending);
      CountsElements(ownedPromptHandoffsPending);
      CountsMade(extraPeersPending, Peer);
      CountsMade(extraTracksPending, Track);
      left := RecordFlags(flags.cancel, flags.activePeer, flags.candidatePeer, flags.promptLease);
      left := left + RecordCounts(|ownedPromptCleanupsPending|, |ownedPromptHandoffsPending|,
                                  |extraPeersPending|, |extraTracksPending|);
    }
  }

  /** The pending work of a call that has just ended. */
  function Opened(peers: L.TerminalPeers, cancel: bool, lease: bool, tracks: set<nat>, cleanups: set<nat>, handoffs: set<nat>)
    : Ledger
  {
    Ledger(
      Flagged(cancel, Cancel) + PeerSteps(peers) + (set t | t in tracks :: ExtraTrack(t)) + Flagged(lease, PromptLease),
      cleanups, handoffs, 0, false, {})
  }

  function PeerSteps(peers: L.TerminalPeers): set<Step> {
    {ActivePeer} + Flagged(peers.candidate.Some? && peers.candidate.value != peers.active, CandidatePeer)
    + set p | p in peers.extras :: ExtraPeer(p)
  }

  /** The step that closes a peer of the ledger. */
  function StepFor(peers: L.TerminalPeers, p: nat): Step {
    if p == peers.active then ActivePeer
    else if peers.candidate == Some(p) then CandidatePeer
    else ExtraPeer(p)
  }

  lemma SameSteps(flags: Flags, extraPeers: seq<nat>, extraTracks: seq<nat>, peers: L.TerminalPeers, cancel: bool, lease: bool)
    requires Elements(extraPeers) == peers.extras
    requires flags == Flags(cancel, true, peers.candidate.Some? && peers.candidate.value != peers.active, lease)
    ensures StepsOf(flags, extraPeers, extraTracks) == Opened(peers, cancel, lease, Elements(extraTracks), {}, {}).steps
  {
    assert Each(extraPeers, Peer) == set p | p in peers.extras :: ExtraPeer(p) by {
      assert forall p | p in extraPeers :: p in Elements(extraPeers);
    }
    assert Each(extraTracks, Track) == set t | t in Elements(extraTracks) :: ExtraTrack(t);
  }

  /** The line of the failure record that stands for a step. */
  function LineFor(t: Ledger, st: Step): PendingStep {
    match st
    case Cancel => CancelLeft
    case ActivePeer => ActivePeerLeft
    case CandidatePeer => CandidatePeerLeft
    case PromptLease => PromptLeaseLeft
    case ExtraPeer(_) => ExtraPeersLeft(|ExtraPeers(t.steps)|)
    case ExtraTrack(_) => ExtraTracksLeft(|ExtraTracks(t.steps)|)
  }

  /** Completed by exactly one attempt, or failed in all 32 and named by the failure record. */
  ghost predicate ClosedOrReported(t: Ledger, env: Env, st: Step) {
    || (st in t.steps && t.attempts == RETRY_LIMIT && FailsThroughout(env, st, 0, RETRY_LIMIT) && LineFor(t, st) in Record(t))
    || (exists attempt: nat :: Entry(attempt, st, true) in t.log && env.step(attempt, st) == Done
          && forall other: nat | Entry(other, st, true) in t.log :: other == attempt)
  }

  /** Lifecycle and cleanup together: a peer in the ledger of an ended call is closed by exactly one cleanup attempt,
      or still pending after 32 failed attempts and named by the failure record, if and only if the terminal event
      is published or one of the attempts before the publication closes the peer. */
  lemma EveryPeerIsClosedOrReported(
      peer: L.PeerId, selection: L.Selection, events: seq<L.Event>, p: L.PeerId, env: Env, published: bool, cancel: bool,
      lease: bool, tracks: set<nat>, cleanups: set<nat>, handoffs: set<nat>)
    requires p in L.LedgerPeers(L.Run(L.Init(peer, selection), events))
    ensures var ledger := L.Run(L.Init(peer, selection), events).ledger;
            ledger.Some? &&
            var initial, st := Opened(ledger.value, cancel, lease, tracks, cleanups, handoffs), StepFor(ledger.value, p);
            ClosedOrReported(CallCleanup(initial, env, TRANSACTION_ATTEMPTS, published), env, st)
            <==> published || st !in Transaction(initial, env, TRANSACTION_ATTEMPTS).steps
  {
    var s := L.Run(L.Init(peer, selection), events);
    LedgerPeersHaveSteps(s, p);
    var initial, st := Opened(s.ledger.value, cancel, lease, tracks, cleanups, handoffs), StepFor(s.ledger.value, p);
    StepIsDoneOrReportedExactly(initial, env, TRANSACTION_ATTEMPTS, published, st);
  }

  /** In particular the old peer of a switch whose close raised: once the switch task has finished it is in that
      ledger. */
  lemma FailedSwitchCloseIsRetried(
      peer: L.PeerId, selection: L.Selection, events: seq<L.Event>, i: nat, p: L.PeerId, env: Env, published: bool,
      cancel: bool, lease: bool, tracks: set<nat>, cleanups: set<nat>, handoffs: set<nat>)
    requires PeerOwnership.RegistersOtherPeers(L.Init(peer, selection), events)
    requires i < |events|
    requires PeerClosing.SwitchCloseRaises(L.Run(L.Init(peer, selection), events[..i]), events[i], p)
    requires L.Run(L.Init(peer, selection), events).tasks.switches == map[]
    ensures var ledger := L.Run(L.Init(peer, selection), events).ledger;
            ledger.Some? &&
            var initial, st := Opened(ledger.value, cancel, lease, tracks, cleanups, handoffs), StepFor(ledger.value, p);
            ClosedOrReported(CallCleanup(initial, env, TRANSACTION_ATTEMPTS, published), env, st)
            <==> published || st !in Transaction(initial, env, TRANSACTION_ATTEMPTS).steps
  {
    hide L.Run, PeerClosing.SwitchCloseRaises, PeerOwnership.RegistersOtherPeers, CallCleanup, Transaction, Opened;
    hide ClosedOrReported, StepFor;
    PeerClosing.FailedSwitchCloseReachesLedger(peer, selection, events, i, p);
    EveryPeerIsClosedOrReported(peer, selection, events, p, env, published, cancel, lease, tracks, cleanups, handoffs);
  }

  /** The failing case: a hangup whose cleanup raises every time and whose event is never delivered leaves the active
      peer neither closed nor reported. */
  lemma UnpublishedEndForgetsPeer(peer: L.PeerId, selection: L.Selection) returns (env: Env)
    ensures var ledger := L.Run(L.Init(peer, selection), [L.ETerminate(L.Ended)]).ledger;
            ledger.Some? && peer == ledger.value.active
            && var t := CallCleanup(Opened(ledger.value, false, false, {}, {}, {}), env, TRANSACTION_ATTEMPTS, false);
               ActivePeer in t.steps && !ClosedOrReported(t, env, ActivePeer)
  {
    env := Env((_, _) => Raises, (_, _) => LeaseOutcome(false, true), (_, _) => HandoffOutcome(false, Settled));
    var s := L.Run(L.Init(peer, selection), [L.ETerminate(L.Ended)]);
    HangupOpensLedger(peer, selection);
    var initial := Opened(s.ledger.value, false, false, {}, {}, {});
    assert ActivePeer in initial.steps;
    var n := RepeatStops(initial, Attempt(env), Stops(), TRANSACTION_ATTEMPTS);
    PendingExactly(initial, env, n, ActivePeer);
    StepIsDoneOrReportedExactly(initial, env, TRANSACTION_ATTEMPTS, false, ActivePeer);
  }

  lemma HangupOpensLedger(peer: L.PeerId, selection: L.Selection)
    ensures var s := L.Run(L.Init(peer, selection), [L.ETerminate(L.Ended)]);
            s.ledger.Some? && s.ledger.value.active == peer
  {
    assert [L.ETerminate(L.Ended)][..0] == [];
    assert L.Run(L.Init(peer, selection), []) == L.Init(peer, selection);
  }

  lemma PendingIsNotClosed(initial: Ledger, env: Env, n: nat, st: Step)
    requires initial.attempts == 0 && initial.log == {} && st in AfterAttempts(initial, env, n).steps && n < RETRY_LIMIT
    ensures !ClosedOrReported(AfterAttempts(initial, env, n), env, st)
  {
    var t := AfterAttempts(initial, env, n);
    AttemptsCount(initial, env, n);
    PendingExactly(initial, env, n, st);
    forall attempt: nat ensures Entry(attempt, st, true) !in t.log {
      LogExactly(initial, env, n, Entry(attempt, st, true));
    }
  }

  lemma StepIsDoneOrReportedExactly(initial: Ledger, env: Env, budget: nat, published: bool, st: Step)
    requires initial.attempts == 0 && initial.log == {} && budget < RETRY_LIMIT && st in initial.steps
    ensures ClosedOrReported(CallCleanup(initial, env, budget, published), env, st)
            <==> published || st !in Transaction(initial, env, budget).steps
  {
    var n := RepeatStops(initial, Attempt(env), Stops(), budget);
    hide Finished, ClosedOrReported;
    if published {
      StepIsDoneOrReported(initial, env, budget, st);
    } else if st in Transaction(initial, env, budget).steps {
      PendingIsNotClosed(initial, env, n, st);
    } else {
      StepIsClosed(initial, env, n, st);
    }
  }

  lemma StepIsClosed(initial: Ledger, env: Env, n: nat, st: Step)
    requires initial.attempts == 0 && initial.log == {} && st in initial.steps && st !in AfterAttempts(initial, env, n).steps
    ensures ClosedOrReported(AfterAttempts(initial, env, n), env, st)
  {
    var attempt := CompletedWithin(initial, env, n, st);
  }

  /** Every peer taken over has a step of its own, and no step that closes a peer is for anybody else. */
  lemma EveryPeerHasItsOwnStep(peers: L.TerminalPeers, p: nat, q: nat, st: Step)
    requires peers.active !in peers.extras && (peers.candidate.Some? ==> peers.candidate.value !in peers.extras)
    requires p in peers.extras || p == peers.active || peers.candidate == Some(p)
    requires q in peers.extras || q == peers.active || peers.candidate == Some(q)
    ensures StepFor(peers, p) == StepFor(peers, q) <==> p == q
    ensures StepFor(peers, p) in PeerSteps(peers)
    ensures st in PeerSteps(peers) ==>
              exists r | r in peers.extras || r == peers.active || peers.candidate == Some(r) :: StepFor(peers, r) == st
  {
    if st in PeerSteps(peers) {
      var r :=
        if st.ExtraPeer? then st.id else if st.CandidatePeer? then peers.candidate.value else peers.active;
      assert StepFor(peers, r) == st;
    }
  }

  lemma LedgerPeersHaveSteps(s: L.Life, p: nat)
    requires p in L.LedgerPeers(s)
    ensures s.ledger.Some? && StepFor(s.ledger.value, p) in PeerSteps(s.ledger.value)
  {}

  lemma StepIsDoneOrReported(initial: Ledger, env: Env, budget: nat, st: Step)
    requires initial.attempts == 0 && initial.log == {} && budget <= RETRY_LIMIT && st in initial.steps
    ensures ClosedOrReported(Finished(initial, env, budget), env, st)
  {
    var t := Finished(initial, env, budget);
    hide Finished;
    LeftOverExactly(initial, env, budget, st);
    var n := CleanupEnds(initial, env, budget);
    if st in t.steps {
      StepIsRecorded(t, st);
    } else {
      var attempt := CompletedExactlyOnce(initial, env, budget, st);
    }
  }

  lemma FlagLines(cancel: bool, active: bool, candidate: bool, lease: bool, line: PendingStep)
    ensures line in RecordFlags(cancel, active, candidate, lease) <==>
              || (line == CancelLeft && cancel) || (line == ActivePeerLeft && active)
              || (line == CandidatePeerLeft && candidate) || (line == PromptLeaseLeft && lease)
  {}

  lemma CountLines(cleanups: nat, handoffs: nat, peers: nat, tracks: nat, line: PendingStep)
    ensures line in RecordCounts(cleanups, handoffs, peers, tracks) <==>
              || (line == OwnedLeasesLeft(cleanups) && cleanups > 0) || (line == HandoffsLeft(handoffs) && handoffs > 0)
              || (line == ExtraPeersLeft(peers) && peers > 0) || (line == ExtraTracksLeft(tracks) && tracks > 0)
  {}

  /** The failure record names each kind of work exactly when some of it is left, and says how much. */
  lemma RecordNamesExactly(t: Ledger, line: PendingStep)
    ensures line in Record(t) <==>
              match line
              case CancelLeft => Cancel in t.steps
              case ActivePeerLeft => ActivePeer in t.steps
              case CandidatePeerLeft => CandidatePeer in t.steps
              case PromptLeaseLeft => PromptLease in t.steps
              case OwnedLeasesLeft(n) => n == |t.cleanups| > 0
              case HandoffsLeft(n) => n == |t.handoffs| > 0
              case ExtraPeersLeft(n) => n == |ExtraPeers(t.steps)| > 0
              case ExtraTracksLeft(n) => n == |ExtraTracks(t.steps)| > 0
  {
    FlagLines(Cancel in t.steps, ActivePeer in t.steps, CandidatePeer in t.steps, PromptLease in t.steps, line);
    CountLines(|t.cleanups|, |t.handoffs|, |ExtraPeers(t.steps)|, |ExtraTracks(t.steps)|, line);
    hide RecordFlags, RecordCounts;
  }

  lemma StepIsRecorded(t: Ledger, st: Step)
    requires st in t.steps
    ensures LineFor(t, st) in Record(t)
  {
    match st
    case ExtraPeer(_) => assert st in ExtraPeers(t.steps);
    case ExtraTrack(_) => assert st in ExtraTracks(t.steps);
    case _ =>
  }

  function CallSteps(flags: Flags): set<Step> {
    Flagged(flags.cancel, Cancel) + Flagged(flags.activePeer, ActivePeer) + Flagged(flags.candidatePeer, CandidatePeer)
  }

  function ExtraSteps(flags: Flags, peers: seq<nat>, tracks: seq<nat>): set<Step> {
    Each(peers, Peer) + Each(tracks, Track) + Flagged(flags.promptLease, PromptLease)
  }

  function StepsOf(flags: Flags, peers: seq<nat>, tracks: seq<nat>): set<Step> {
    CallSteps(flags) + ExtraSteps(flags, peers, tracks)
  }

  lemma NextStep(pending: seq<nat>, i: nat, make: nat -> Step, env: Env, attempt: nat)
    requires i < |pending|
    ensures pending[..i + 1] == pending[..i] + [pending[i]]
    ensures Tried(Each(pending[..i + 1], make), env, attempt)
            == Tried(Each(pending[..i], make), env, attempt)
               + {Entry(attempt, make(pending[i]), !Fails(env, attempt, make(pending[i])))}
    ensures StepTimesOut(Each(pending[..i + 1], make), env, attempt)
            == (StepTimesOut(Each(pending[..i], make), env, attempt) || env.step(attempt, make(pending[i])) == TimesOut)
  {
    assert pending[..i + 1] == pending[..i] + [pending[i]];
    assert Each(pending[..i + 1], make) == Each(pending[..i], make) + {make(pending[i])};
  }

  lemma NoHandoffs(env: Env, attempt: nat)
    ensures MovedFrom(Elements([]), env, attempt) == {} && !HandoffTimesOut(Elements([]), env, attempt)
  {}

  lemma NextHandoff(handoffs: seq<nat>, i: nat, env: Env, attempt: nat)
    requires i < |handoffs|
    ensures handoffs[..i + 1] == handoffs[..i] + [handoffs[i]]
    ensures MovedFrom(Elements(handoffs[..i + 1]), env, attempt)
            == MovedFrom(Elements(handoffs[..i]), env, attempt)
               + var fate := env.handoff(attempt, handoffs[i]).fate; if fate.Moved? then {fate.cleanup} else {}
    ensures HandoffTimesOut(Elements(handoffs[..i + 1]), env, attempt)
            == (HandoffTimesOut(Elements(handoffs[..i]), env, attempt) || env.handoff(attempt, handoffs[i]).timedOut)
  {
    assert handoffs[..i + 1] == handoffs[..i] + [handoffs[i]];
    assert Elements(handoffs[..i + 1]) == Elements(handoffs[..i]) + {handoffs[i]};
    var fate := env.handoff(attempt, handoffs[i]).fate;
    assert MovedFrom(Elements(handoffs[..i + 1]), env, attempt)
        == MovedFrom(Elements(handoffs[..i]), env, attempt) + if fate.Moved? then {fate.cleanup} else {};
  }

  lemma TriedTogether(a: set<Step>, b: set<Step>, env: Env, attempt: nat)
    ensures Failing(a + b, env, attempt) == Failing(a, env, attempt) + Failing(b, env, attempt)
    ensures Tried(a + b, env, attempt) == Tried(a, env, attempt) + Tried(b, env, attempt)
    ensures StepTimesOut(a + b, env, attempt) == (StepTimesOut(a, env, attempt) || StepTimesOut(b, env, attempt))
  {}

  lemma PendingMeans(flags: Flags, peers: seq<nat>, tracks: seq<nat>)
    ensures StepsOf(flags, peers, tracks) != {} <==>
              || flags.cancel || flags.activePeer || flags.candidatePeer || flags.promptLease
              || peers != [] || tracks != []
  {
    var all := StepsOf(flags, peers, tracks);
    if flags.cancel { assert Cancel in all; }
    if flags.activePeer { assert ActivePeer in all; }
    if flags.candidatePeer { assert CandidatePeer in all; }
    if flags.promptLease { assert PromptLease in all; }
    if peers != [] { assert Peer(peers[0]) in all; }
    if tracks != [] { assert Track(tracks[0]) in all; }
  }

  lemma MembersOfSteps(flags: Flags, peers: seq<nat>, tracks: seq<nat>)
    ensures var all := StepsOf(flags, peers, tracks);
            && (Cancel in all <==> flags.cancel) && (ActivePeer in all <==> flags.activePeer)
            && (CandidatePeer in all <==> flags.candidatePeer) && (PromptLease in all <==> flags.promptLease)
    ensures ExtraPeers(StepsOf(flags, peers, tracks)) == Each(peers, Peer)
    ensures ExtraTracks(StepsOf(flags, peers, tracks)) == Each(tracks, Track)
  {}

  lemma {:induction false} CountsMade(ids: seq<nat>, make: nat -> Step)
    requires Distinct(ids) && forall a: nat, b: nat :: make(a) == make(b) ==> a == b
    ensures |Each(ids, make)| == |ids|
    decreases |ids|
  {
    if ids != [] {
      CountsMade(ids[1..], make);
      assert ids == [ids[0]] + ids[1..];
      assert Each(ids, make) == {make(ids[0])} + Each(ids[1..], make);
    }
  }
}

/** The cleanup of a peer that has a task of its own. */
module OwnedPeerCleanup {
  import opened CleanupLedger

  datatype Result = Closed(attempts: nat) | RetryExhausted(attempts: nat)

  /** `closes(j)`: whether attempt j closes the peer. The first success ends it; 32 failures are recorded. */
  method ClosePeerUntilResolved(closes: nat -> bool) returns (result: Result)
    ensures 1 <= result.attempts <= RETRY_LIMIT
    ensures forall j | 1 <= j < result.attempts :: !closes(j)
    ensures result.Closed? <==> closes(result.attempts)
    ensures result.RetryExhausted? ==> result.attempts == RETRY_LIMIT
  {
    var attempt := 1;
    while !closes(attempt)
      invariant 1 <= attempt <= RETRY_LIMIT && forall j | 1 <= j < attempt :: !closes(j)
      decreases RETRY_LIMIT - attempt
    {
      if attempt == RETRY_LIMIT {
        return RetryExhausted(attempt);
      }
      attempt := attempt + 1;
    }
    result := Closed(attempt);
  }
}
