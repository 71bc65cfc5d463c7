/**
  Which answer a commit or reject request gets: the right one, not only one that contradicts no other.
*/
module PeerAnswers {
  import opened Wrappers
  import opened PeerLifecycle
  import opened PeerDecisions

  predicate IsCommit(r: Request) {
    !r.RejectStart? && !r.RejectLock?
  }

  /** The step answers this request. */
  predicate Gives(w: World, step: Step, answer: Answered) {
    NextWorld(w, step).log == w.log + [answer]
  }

  lemma AnswersItsRequest(w: World, step: Step)
    ensures NextWorld(w, step).log == w.log
            || (step.SAdvance? && step.id in w.requests && |NextWorld(w, step).log| == |w.log| + 1
                && var answer := NextWorld(w, step).log[|w.log|];
                   Gives(w, step, answer) && answer.id == step.id && answer.generation == w.requests[step.id].generation)
  {
    hide Accept, Reject, SettleClose, GenerationOutcome, Next;
  }

  /** A request that has looked its peer up knows the candidate of its generation, if that is still pending. */
  ghost predicate KnowsPeer(s: Life, r: Request) {
    (r.CommitAccept? || r.RejectLock?) ==>
      r.generation <= s.candidateGeneration
      && (s.candidate.Some? && s.candidate.value.generation == r.generation ==> s.candidate.value.peer == r.peer)
  }

  ghost predicate PeersKnown(w: World) {
    forall id | id in w.requests :: KnowsPeer(w.life, w.requests[id])
  }

  ghost predicate AnswerInv(w: World) {
    WorldInv(w) && PeersKnown(w)
  }

  /** A candidate keeps its peer; a new one has a new generation. */
  ghost predicate SameCandidate(s: Life, t: Life) {
    && s.candidateGeneration <= t.candidateGeneration
    && (t.candidate.Some? && t.candidate.value.generation <= s.candidateGeneration ==>
          s.candidate.Some? && s.candidate.value.generation == t.candidate.value.generation
          && s.candidate.value.peer == t.candidate.value.peer)
  }

  lemma CandidateKeepsPeer(s: Life, e: Event)
    ensures SameCandidate(s, Next(s, e))
  {}

  lemma KnownStays(w: World, life: Life)
    requires PeersKnown(w) && SameCandidate(w.life, life)
    ensures PeersKnown(w.(life := life))
  {}

  /** What a step of the world leaves suspended: what was, or one request that knows its peer. */
  lemma AdvanceKnows(w: World, id: nat, connected: bool, timedOut: bool, speechActive: bool, closeFails: bool)
    requires AnswerInv(w) && id in w.requests
    ensures var after := Advance(w, id, connected, timedOut, speechActive, closeFails);
            && SameCandidate(w.life, after.life)
            && (forall k | k in after.requests && k != id :: k in w.requests && after.requests[k] == w.requests[k])
            && (id in after.requests ==> after.requests[id] == w.requests[id] || KnowsPeer(after.life, after.requests[id]))
  {
    var step := SAdvance(id, connected, timedOut, speechActive, closeFails);
    StepRunsLifeEvent(w, step);
    var e := LifeEvent(w, step);
    if e.Some? {
      CandidateKeepsPeer(w.life, e.value);
    }
    hide Next, SameCandidate;
    AdvanceLeaves(w, id, connected, timedOut, speechActive, closeFails);
    hide Advance, LifeEvent;
  }

  lemma AdvanceLeaves(w: World, id: nat, connected: bool, timedOut: bool, speechActive: bool, closeFails: bool)
    requires AnswerInv(w) && id in w.requests
    ensures var after := Advance(w, id, connected, timedOut, speechActive, closeFails);
            && (forall k | k in after.requests && k != id :: k in w.requests && after.requests[k] == w.requests[k])
            && (id in after.requests ==> after.requests[id] == w.requests[id] || KnowsPeer(after.life, after.requests[id]))
  {
    var r, after := w.requests[id], Advance(w, id, connected, timedOut, speechActive, closeFails);
    AdvanceTouches(w, id, connected, timedOut, speechActive, closeFails);
    if id in after.requests && after.requests[id] != r
       && (after.requests[id].CommitAccept? || after.requests[id].RejectLock?) {
      LifePart(w);
      CandidateIsNewest(w.life);
      StartLooksUp(w, id, connected, timedOut, speechActive, closeFails);
    }
    hide AnswerInv, LifeInv, Advance, Decided;
  }

  lemma AdvanceTouches(w: World, id: nat, connected: bool, timedOut: bool, speechActive: bool, closeFails: bool)
    requires id in w.requests
    ensures var after := Advance(w, id, connected, timedOut, speechActive, closeFails);
            forall k | k in after.requests && k != id :: k in w.requests && after.requests[k] == w.requests[k]
  {
    hide GenerationOutcome, Accept, Reject, SettleClose;
  }

  lemma StartLooksUp(w: World, id: nat, connected: bool, timedOut: bool, speechActive: bool, closeFails: bool)
    requires id in w.requests
    requires var after := Advance(w, id, connected, timedOut, speechActive, closeFails);
             id in after.requests && (after.requests[id].CommitAccept? || after.requests[id].RejectLock?)
             && after.requests[id] != w.requests[id]
    ensures var after := Advance(w, id, connected, timedOut, speechActive, closeFails);
            && after.life == w.life && w.life.candidate.Some?
            && w.life.candidate.value.generation == after.requests[id].generation
            && w.life.candidate.value.peer == after.requests[id].peer
  {
    hide GenerationOutcome, Accept, Reject, SettleClose;
  }

  lemma CandidateIsNewest(s: Life)
    requires LifeInv(s)
    ensures s.candidate.Some? ==>
              s.candidate.value.generation == s.candidateGeneration && s.candidate.value.epoch == s.epoch
              && (s.phase.Stable? || s.phase.Reconnecting?) && !s.ended && !Decided(s.decisions, s.candidateGeneration)
              && forall k | k in s.tasks.switches :: s.tasks.switches[k].switch.candidateGeneration != s.candidateGeneration
  {
    hide DecisionsInv, TasksInv, TransactionInv, RecordInv;
  }

  lemma AnswerInvNext(w: World, step: Step)
    requires AnswerInv(w)
    ensures AnswerInv(NextWorld(w, step))
  {
    WorldInvNext(w, step);
    hide WorldInv;
    match step
    case SLife(event) =>
      CandidateKeepsPeer(w.life, event);
      hide Next;
      KnownStays(w, Next(w.life, event));
    case SAdvance(id, connected, timedOut, speechActive, closeFails) =>
      if id in w.requests {
        AdvanceKnows(w, id, connected, timedOut, speechActive, closeFails);
        KnownStays(w, Advance(w, id, connected, timedOut, speechActive, closeFails).life);
        hide Advance;
      }
    case _ =>
  }

  lemma {:induction false} AnswerInvRun(peer: PeerId, selection: Selection, steps: seq<Step>)
    ensures AnswerInv(RunWorld(Start(peer, selection), steps))
    decreases |steps|
  {
    hide WorldInv, NextWorld;
    WorldInvStart(peer, selection);
    if steps != [] {
      hide AnswerInv;
      AnswerInvRun(peer, selection, steps[..|steps| - 1]);
      AnswerInvNext(RunWorld(Start(peer, selection), steps[..|steps| - 1]), steps[|steps| - 1]);
    }
  }

  // ---- one answer ----

  /** In terms of the lifecycle, what is settled about a generation. */
  lemma OutcomeExactly(s: Life, g: nat)
    requires LifeInv(s)
    ensures s.activeGeneration == g ==> GenerationOutcome(s, g) == Some(Committed)
    ensures GenerationOutcome(s, g) == Some(Committed) ==> g in s.decisions.active
    ensures g in s.decisions.active && GenerationOutcome(s, g).Some? ==> GenerationOutcome(s, g) == Some(Committed)
    ensures g in s.decisions.failed && GenerationOutcome(s, g).Some? ==> GenerationOutcome(s, g) == Some(FailedReply)
    ensures GenerationOutcome(s, g).Some? ==> GenerationOutcome(s, g).value in {Committed, FailedReply, InProgress}
    ensures GenerationOutcome(s, g) == Some(InProgress) ==> s.switching.task.Some? && InSwitch(s, g)
    ensures s.candidate.Some? && s.candidate.value.generation == g ==> GenerationOutcome(s, g).None?
  {}

  /** A switch for this generation is running. */
  ghost predicate InSwitch(s: Life, g: nat) {
    exists k | k in s.tasks.switches :: s.tasks.switches[k].switch.candidateGeneration == g
  }

  lemma ActiveIsDecided(s: Life)
    requires LifeInv(s)
    ensures s.activeGeneration in s.decisions.active
    ensures s.activeGeneration !in s.decisions.failed && s.activeGeneration !in s.decisions.rejected
    ensures !InSwitch(s, s.activeGeneration)
    ensures forall k | k in s.tasks.results :: ResultMatches(s.decisions, s.tasks.results[k])
    ensures forall g | g in s.decisions.active :: g !in s.decisions.failed && !InSwitch(s, g)
  {
    hide CandidateInv, TransactionInv, RecordInv, TerminalInv;
  }

  /** The generation is neither active, nor the pending candidate, nor being switched to. */
  ghost predicate Gone(s: Life, g: nat) {
    && s.activeGeneration != g && !(s.candidate.Some? && s.candidate.value.generation == g)
    && !(s.phase.Switching? && s.switching.transaction.Some? && s.switching.transaction.value.candidateGeneration == g)
  }

  /** What each answer says about the lifecycle after the step that gives it. */
  ghost predicate AnswerIsRight(w: World, step: Step, t: Life, answer: Answered)
    requires step.SAdvance? && step.id in w.requests
  {
    var g, r := answer.generation, w.requests[step.id];
    && (g == t.activeGeneration ==> answer.reply == if r.RejectLock? then Stale else Committed)
    && (answer.reply == Committed ==> g in t.decisions.active)
    && (answer.reply == FailedReply ==> g in t.decisions.failed)
    && (answer.reply == RejectedReply <==> r.RejectLock? && w.life.candidate.Some? && t.candidate.None?)
    && (answer.reply == InProgress ==> InSwitch(t, g) && !r.CommitStart? && (r.CommitJoin? ==> step.timedOut))
    && (answer.reply == NotConnected ==>
          r.CommitStart? && !step.connected && t.candidate.Some? && t.candidate.value.generation == g)
    && (answer.reply == Stale ==> r.RejectLock? || Gone(t, g))
  }

  lemma LifePart(w: World)
    requires AnswerInv(w)
    ensures LifeInv(w.life)
  {
    hide LifeInv;
  }

  lemma CommitStartRight(w: World, step: Step, answer: Answered)
    requires AnswerInv(w) && step.SAdvance? && step.id in w.requests && w.requests[step.id].CommitStart?
    requires Gives(w, step, answer)
    ensures AnswerIsRight(w, step, NextWorld(w, step).life, answer)
  {
    var g := w.requests[step.id].generation;
    LifePart(w);
    OutcomeExactly(w.life, g);
    ActiveIsDecided(w.life);
    OutcomeIsDecided(w.life, g);
    hide AnswerInv, LifeInv, InSwitch;
    assert NextWorld(w, step).log[|w.log|] == answer;
  }

  lemma CommitJoinRight(w: World, step: Step, answer: Answered)
    requires AnswerInv(w) && step.SAdvance? && step.id in w.requests && w.requests[step.id].CommitJoin?
    requires Gives(w, step, answer)
    ensures AnswerIsRight(w, step, NextWorld(w, step).life, answer)
  {
    var r := w.requests[step.id];
    assert RequestInv(w.life, r);
    LifePart(w);
    OutcomeExactly(w.life, r.generation);
    ActiveIsDecided(w.life);
    OutcomeIsDecided(w.life, r.generation);
    hide AnswerInv, LifeInv, GenerationOutcome;
    assert NextWorld(w, step).log[|w.log|] == answer;
  }

  lemma RefusedRight(w: World, step: Step, peer: PeerId, answer: Answered)
    requires AnswerInv(w) && step.SAdvance? && step.id in w.requests
    requires w.requests[step.id].CommitAccept? || w.requests[step.id].CommitAwait?
    requires answer.generation == w.requests[step.id].generation
    requires AnswerRefused(w, step.id, answer.generation, peer).log == w.log + [answer]
    requires !(w.life.candidate.Some? && w.life.candidate.value.generation == answer.generation)
    ensures AnswerIsRight(w, step, w.life, answer)
  {
    LifePart(w);
    OutcomeExactly(w.life, answer.generation);
    ActiveIsDecided(w.life);
    OutcomeIsDecided(w.life, answer.generation);
    hide AnswerInv, LifeInv, InSwitch;
    assert AnswerRefused(w, step.id, answer.generation, peer).log[|w.log|] == answer;
  }

  lemma CommitAcceptRight(w: World, step: Step, answer: Answered)
    requires AnswerInv(w) && step.SAdvance? && step.id in w.requests && w.requests[step.id].CommitAccept?
    requires Gives(w, step, answer)
    ensures AnswerIsRight(w, step, NextWorld(w, step).life, answer)
  {
    var r := w.requests[step.id];
    assert KnowsPeer(w.life, r);
    LifePart(w);
    CandidateIsNewest(w.life);
    AnswersItsRequest(w, step);
    assert NextWorld(w, step).log[|w.log|] == answer;
    if CanAccept(w.life, r.peer, Some(r.generation)) {
      hide AnswerInv, LifeInv, AnswerRefused;
    } else {
      hide Gone, LifeInv, AnswerRefused, Decided;
      RefusedRight(w, step, r.peer, answer);
    }
  }

  lemma CommitAwaitRight(w: World, step: Step, answer: Answered)
    requires AnswerInv(w) && step.SAdvance? && step.id in w.requests && w.requests[step.id].CommitAwait?
    requires Gives(w, step, answer)
    ensures AnswerIsRight(w, step, NextWorld(w, step).life, answer)
  {
    var r := w.requests[step.id];
    assert RequestInv(w.life, r);
    LifePart(w);
    CandidateIsNewest(w.life);
    ActiveIsDecided(w.life);
    AnswersItsRequest(w, step);
    assert NextWorld(w, step).log[|w.log|] == answer;
    AwaitedIsDecided(w.life, r);
    hide LifeInv, Gone, AnswerRefused, InSwitch;
    if w.life.tasks.results[r.task].NotAccepted? {
      RefusedRight(w, step, r.peer, answer);
    }
    hide AnswerInv;
  }

  /** A finished switch task has decided the generation of the requests that wait for it. */
  lemma AwaitedIsDecided(s: Life, r: Request)
    requires LifeInv(s) && (r.CommitJoin? || r.CommitAwait?) && RequestInv(s, r)
    ensures r.task in s.tasks.results ==>
              s.tasks.results[r.task].generation == r.generation
              && (s.tasks.results[r.task].Accepted? ==> r.generation in s.decisions.active)
              && (!s.tasks.results[r.task].Accepted? ==> r.generation in s.decisions.failed)
  {
    hide CandidateInv, TransactionInv, RecordInv, TerminalInv, DecisionsInv;
  }

  lemma OtherRight(w: World, step: Step, answer: Answered)
    requires AnswerInv(w) && step.SAdvance? && step.id in w.requests
    requires w.requests[step.id].CommitClosing? || w.requests[step.id].RejectStart?
    requires Gives(w, step, answer)
    ensures AnswerIsRight(w, step, NextWorld(w, step).life, answer)
  {
    var r := w.requests[step.id];
    assert RequestInv(w.life, r);
    LifePart(w);
    OutcomeExactly(w.life, r.generation);
    ActiveIsDecided(w.life);
    OutcomeIsDecided(w.life, r.generation);
    hide AnswerInv, LifeInv, InSwitch;
    assert NextWorld(w, step).log[|w.log|] == answer;
  }

  lemma RejectLockRight(w: World, step: Step, answer: Answered)
    requires AnswerInv(w) && step.SAdvance? && step.id in w.requests && w.requests[step.id].RejectLock?
    requires Gives(w, step, answer)
    ensures AnswerIsRight(w, step, NextWorld(w, step).life, answer)
  {
    LifePart(w);
    CandidateIsNewest(w.life);
    ActiveIsDecided(w.life);
    hide AnswerInv, LifeInv, InSwitch, Gone;
    assert NextWorld(w, step).log[|w.log|] == answer;
  }

  /** Every answer of every run is right about the lifecycle at the step that gives it: a commit of the generation
      that is active then is told "committed" and nothing else; "rejected" is said exactly by the reject whose step
      clears the candidate; "in progress" means that a switch to the generation is running, and is said to no commit
      that finds it running before it has waited for it; "not connected" means that it is the pending candidate, and
      "stale", to a commit, that it is neither active nor pending nor being switched to. Only a reject that lost the
      race against a promotion is told "stale" about the active generation. */
  lemma EveryAnswerIsRight(peer: PeerId, selection: Selection, steps: seq<Step>, step: Step, answer: Answered)
    requires Gives(RunWorld(Start(peer, selection), steps), step, answer)
    ensures var w := RunWorld(Start(peer, selection), steps);
            && step.SAdvance? && step.id in w.requests
            && answer.id == step.id && answer.generation == w.requests[step.id].generation
            && AnswerIsRight(w, step, NextWorld(w, step).life, answer)
  {
    var w := RunWorld(Start(peer, selection), steps);
    AnswerInvRun(peer, selection, steps);
    hide RunWorld, AnswerInv, AnswerIsRight;
    AnswersItsRequest(w, step);
    assert (w.log + [answer])[|w.log|] == answer;
    hide NextWorld;
    match w.requests[step.id]
    case CommitStart(_) => CommitStartRight(w, step, answer);
    case CommitJoin(_, _) => CommitJoinRight(w, step, answer);
    case CommitAccept(_, _) => CommitAcceptRight(w, step, answer);
    case CommitAwait(_, _, _) => CommitAwaitRight(w, step, answer);
    case RejectLock(_, _) => RejectLockRight(w, step, answer);
    case _ => OtherRight(w, step, answer);
  }

  // ---- what a request is told in the end ----

  /** The first answer to this request in a stretch of the log. */
  function FirstAnswer(log: seq<Answered>, id: nat): Option<Answered>
    decreases |log|
  {
    if log == [] then None else
    var before := FirstAnswer(log[..|log| - 1], id);
    if before.Some? then before else if log[|log| - 1].id == id then Some(log[|log| - 1]) else None
  }

  predicate GoesOn(step: Step, id: nat) {
    step.SAdvance? && step.id == id
  }

  ghost predicate EverGoesOn(steps: seq<Step>, id: nat) {
    exists k | 0 <= k < |steps| :: GoesOn(steps[k], id)
  }

  lemma GoesOnSnoc(steps: seq<Step>, id: nat)
    requires steps != []
    ensures EverGoesOn(steps, id) <==> EverGoesOn(steps[..|steps| - 1], id) || GoesOn(steps[|steps| - 1], id)
  {
    var before := steps[..|steps| - 1];
    if EverGoesOn(before, id) {
      var k :| 0 <= k < |before| && GoesOn(before[k], id);
      assert GoesOn(steps[k], id);
    }
    if EverGoesOn(steps, id) {
      var k :| 0 <= k < |steps| && GoesOn(steps[k], id);
      assert k < |before| ==> GoesOn(before[k], id);
    }
  }

  lemma FirstAnswerSnoc(log: seq<Answered>, answer: Answered, id: nat)
    ensures FirstAnswer(log + [answer], id)
            == if FirstAnswer(log, id).Some? then FirstAnswer(log, id) else if answer.id == id then Some(answer) else None
  {
    assert (log + [answer])[..|log|] == log;
  }

  lemma OthersLeaveRequest(w: World, step: Step, id: nat)
    requires id in w.requests && !GoesOn(step, id)
    ensures id in NextWorld(w, step).requests && NextWorld(w, step).requests[id] == w.requests[id]
    ensures NextWorld(w, step).log == w.log || exists a: Answered :: a.id != id && NextWorld(w, step).log == w.log + [a]
  {
    AnswersItsRequest(w, step);
    hide Accept, Reject, SettleClose, GenerationOutcome, Next;
  }

  /** Where a request stands once its generation has been decided for good: closing the replaced peer, or waiting for
      a switch task that has finished. */
  ghost predicate WillSay(s: Life, r: Request, reply: Reply) {
    || (r.CommitClosing? && reply == Committed)
    || ((r.CommitJoin? || r.CommitAwait?) && r.task in s.tasks.results && s.tasks.results[r.task].Accepted? && reply == Committed)
    || (r.CommitJoin? && r.task in s.tasks.results && !s.tasks.results[r.task].Accepted? && reply == FailedReply)
  }

  lemma WillSayStays(w: World, step: Step, r: Request, reply: Reply)
    requires AnswerInv(w) && WillSay(w.life, r, reply)
    ensures WillSay(NextWorld(w, step).life, r, reply)
  {
    ResultsStay(w, step);
    hide AnswerInv, NextWorld;
  }

  lemma ResultsStay(w: World, step: Step)
    requires AnswerInv(w)
    ensures forall k | k in w.life.tasks.results ::
              k in NextWorld(w, step).life.tasks.results
              && NextWorld(w, step).life.tasks.results[k] == w.life.tasks.results[k]
  {
    LifePart(w);
    StepRunsLifeEvent(w, step);
    var e := LifeEvent(w, step);
    hide AnswerInv, NextWorld, Next, LifeInv, LifeEvent;
    if e.Some? {
      NextExtends(w.life, e.value);
    }
  }

  lemma SaysSo(w: World, step: Step, reply: Reply)
    requires AnswerInv(w) && step.SAdvance? && step.id in w.requests && !step.closeFails
    requires WillSay(w.life, w.requests[step.id], reply)
    ensures Gives(w, step, Answered(step.id, w.requests[step.id].generation, reply))
  {
    var r := w.requests[step.id];
    assert RequestInv(w.life, r);
    LifePart(w);
    if r.CommitJoin? {
      OutcomeExactly(w.life, r.generation);
      ActiveIsDecided(w.life);
      AwaitedIsDecided(w.life, r);
    }
    hide AnswerInv, LifeInv, GenerationOutcome;
  }

  lemma {:induction false} Told(w: World, steps: seq<Step>, id: nat, reply: Reply, from: seq<Answered>)
    requires AnswerInv(w) && id in w.requests && WillSay(w.life, w.requests[id], reply)
    requires from <= w.log && FirstAnswer(w.log[|from|..], id).None?
    requires forall k | 0 <= k < |steps| :: GoesOn(steps[k], id) ==> !steps[k].closeFails
    ensures var u := RunWorld(w, steps);
            && AnswerInv(u) && from <= u.log
            && (EverGoesOn(steps, id) ==>
                  FirstAnswer(u.log[|from|..], id) == Some(Answered(id, w.requests[id].generation, reply)))
            && (!EverGoesOn(steps, id) ==>
                  FirstAnswer(u.log[|from|..], id).None? && id in u.requests && u.requests[id] == w.requests[id]
                  && WillSay(u.life, u.requests[id], reply))
    decreases |steps|
  {
    hide AnswerInv, NextWorld, WillSay, EverGoesOn, FirstAnswer;
    if steps == [] {
      NobodyGoesOn(id);
    } else {
      var before, step := steps[..|steps| - 1], steps[|steps| - 1];
      var u, v := RunWorld(w, before), RunWorld(w, steps);
      Told(w, before, id, reply, from);
      AnswerInvNext(u, step);
      GoesOnSnoc(steps, id);
      AnswersItsRequest(u, step);
      hide RunWorld;
      if v.log != u.log {
        var a := v.log[|u.log|];
        assert v.log[|from|..] == u.log[|from|..] + [a];
        FirstAnswerSnoc(u.log[|from|..], a, id);
      }
      if !EverGoesOn(before, id) {
        if GoesOn(step, id) {
          SaysSo(u, step, reply);
        } else {
          OthersLeaveRequest(u, step, id);
          WillSayStays(u, step, u.requests[id], reply);
        }
      }
    }
  }

  lemma NobodyGoesOn(id: nat)
    ensures !EverGoesOn([], id)
  {}

  lemma NoAnswerYet(id: nat)
    ensures FirstAnswer([], id).None?
  {}

  /** A commit or join that waits for a switch task, or for the close of the peer it replaced, is told how its
      generation was decided, however late it goes on and whatever became of the generation since: "committed" after a
      promotion, "failed" to a join after a failed switch. It is answered exactly when it goes on; only a close that
      raises keeps a commit from its answer. */
  lemma DecidedRequestIsTold(peer: PeerId, selection: Selection, before: seq<Step>, id: nat, reply: Reply, after: seq<Step>)
    requires var w := RunWorld(Start(peer, selection), before); id in w.requests && WillSay(w.life, w.requests[id], reply)
    requires forall k | 0 <= k < |after| :: GoesOn(after[k], id) ==> !after[k].closeFails
    ensures var w := RunWorld(Start(peer, selection), before);
            var log := RunWorld(w, after).log;
            && w.log <= log
            && FirstAnswer(log[|w.log|..], id)
               == if EverGoesOn(after, id) then Some(Answered(id, w.requests[id].generation, reply)) else None
  {
    hide RunWorld, AnswerInv, WillSay, EverGoesOn, FirstAnswer;
    var w := RunWorld(Start(peer, selection), before);
    AnswerInvRun(peer, selection, before);
    NoAnswerYet(id);
    assert w.log[|w.log|..] == [];
    Told(w, after, id, reply, w.log);
  }

  lemma PromotingStep(w: World, step: Step)
    requires step.SAdvance? && step.id in w.requests
    requires NextWorld(w, step).life.activeGeneration != w.life.activeGeneration
    ensures var v, g := NextWorld(w, step), w.requests[step.id].generation;
            && IsCommit(w.requests[step.id]) && v.life.activeGeneration == g
            && (Gives(w, step, Answered(step.id, g, Committed))
                || (v.log == w.log && step.id in v.requests && v.requests[step.id] == CommitClosing(g, w.life.peer)))
  {
    hide GenerationOutcome;
  }

  /** A commit request whose step promotes its generation ends with "committed", and with nothing before that, whatever
      happens in between: at once, or when it goes on after closing the replaced peer, unless that close raises. */
  lemma PromotingCommitSaysCommitted(peer: PeerId, selection: Selection, before: seq<Step>, step: Step, after: seq<Step>)
    requires var w := RunWorld(Start(peer, selection), before);
             step.SAdvance? && step.id in w.requests
             && NextWorld(w, step).life.activeGeneration != w.life.activeGeneration
    requires forall k | 0 <= k < |after| :: GoesOn(after[k], step.id) ==> !after[k].closeFails
    ensures var w := RunWorld(Start(peer, selection), before);
            var v, g := NextWorld(w, step), w.requests[step.id].generation;
            var log := RunWorld(v, after).log;
            && IsCommit(w.requests[step.id]) && v.life.activeGeneration == g && w.log <= log
            && (if v.log == w.log then
                  FirstAnswer(log[|w.log|..], step.id)
                  == if EverGoesOn(after, step.id) then Some(Answered(step.id, g, Committed)) else None
                else v.log == w.log + [Answered(step.id, g, Committed)] && v.log <= log)
  {
    hide RunWorld, AnswerInv, EverGoesOn, FirstAnswer;
    var w := RunWorld(Start(peer, selection), before);
    var v := NextWorld(w, step);
    AnswerInvRun(peer, selection, before);
    AnswerInvNext(w, step);
    PromotingStep(w, step);
    hide NextWorld;
    LogGrows(v, after);
    if v.log == w.log {
      NoAnswerYet(step.id);
      assert v.log[|w.log|..] == [];
      Told(v, after, step.id, Committed, w.log);
    }
  }

  lemma {:induction false} LogGrows(w: World, steps: seq<Step>)
    ensures w.log <= RunWorld(w, steps).log
    decreases |steps|
  {
    hide NextWorld;
    if steps != [] {
      LogGrows(w, steps[..|steps| - 1]);
      AnswersItsRequest(RunWorld(w, steps[..|steps| - 1]), steps[|steps| - 1]);
    }
  }

  // ---- an undisturbed request gets what it asks for ----

  lemma RunNone(w: World)
    ensures RunWorld(w, []) == w
  {}

  lemma LastStep(w: World, step: Step)
    ensures RunWorld(w, [step]) == NextWorld(w, step)
  {
    assert [step][..0] == [];
  }

  lemma RunThree(w: World, a: Step, b: Step, c: Step)
    ensures RunWorld(w, [a, b, c]) == NextWorld(NextWorld(NextWorld(w, a), b), c)
  {
    hide NextWorld;
    assert [a, b, c][..2] == [a, b] && [a, b][..1] == [a] && [a][..0] == [];
    assert RunWorld(w, [a]) == NextWorld(RunWorld(w, []), a);
    assert RunWorld(w, [a, b]) == NextWorld(RunWorld(w, [a]), b);
  }

  lemma {:induction false} RunAppend(w: World, steps: seq<Step>, more: seq<Step>)
    ensures RunWorld(w, steps + more) == RunWorld(RunWorld(w, steps), more)
    decreases |more|
  {
    hide NextWorld;
    if more == [] {
      assert steps + [] == steps;
    } else {
      assert (steps + more)[..|steps + more| - 1] == steps + more[..|more| - 1];
      RunAppend(w, steps, more[..|more| - 1]);
    }
  }

  lemma RaceFirst(w: World)
    requires w == Start(0, Selection(1, 1))
    ensures var asked := NextWorld(NextWorld(w, SLife(ERegister(1, None))), SReject(9, 1));
            var looked := NextWorld(asked, SAdvance(9, true, false, false, false));
            && looked.requests == map[9 := RejectLock(1, 1)] && looked.log == []
            && looked.life == Register(w.life, 1, None)
  {
    var asked := NextWorld(NextWorld(w, SLife(ERegister(1, None))), SReject(9, 1));
    assert asked.requests == map[9 := RejectStart(1)];
  }

  lemma RaceSecond(w: World)
    requires w.life == Register(Init(0, Selection(1, 1)), 1, None) && w.requests == map[9 := RejectLock(1, 1)] && w.log == []
    ensures var go := SAdvance(7, true, false, false, false);
            var promoted := NextWorld(NextWorld(NextWorld(w, SCommit(7, 1)), go), go);
            && promoted.life.activeGeneration == 1 && promoted.life.candidate.None? && promoted.log == []
            && 9 in promoted.requests && promoted.requests[9] == RejectLock(1, 1)
  {
    var go := SAdvance(7, true, false, false, false);
    var asked := NextWorld(w, SCommit(7, 1));
    assert asked.requests[7] == CommitStart(1) && asked.life == w.life;
    assert NextWorld(asked, go).requests[7] == CommitAccept(1, 1);
  }

  lemma RaceThird(w: World)
    requires w.life.activeGeneration == 1 && w.life.candidate.None? && 9 in w.requests && w.requests[9] == RejectLock(1, 1)
    ensures NextWorld(w, SAdvance(9, true, false, false, false)).log == w.log + [Answered(9, 1, Stale)]
    ensures NextWorld(w, SAdvance(9, true, false, false, false)).life == w.life
  {}

  /** The race: a reject has looked its candidate up, a commit promotes it, and the reject is told "stale" about the
      generation that is active. */
  lemma RejectCanLoseRace() returns (steps: seq<Step>)
    ensures var w := RunWorld(Start(0, Selection(1, 1)), steps);
            w.log == [Answered(9, w.life.activeGeneration, Stale)]
  {
    var w := Start(0, Selection(1, 1));
    var go, last := SAdvance(7, true, false, false, false), SAdvance(9, true, false, false, false);
    var first, second := [SLife(ERegister(1, None)), SReject(9, 1), last], [SCommit(7, 1), go, go];
    hide RunWorld, NextWorld, Register;
    RaceFirst(w);
    RunThree(w, SLife(ERegister(1, None)), SReject(9, 1), last);
    RaceSecond(RunWorld(w, first));
    RunThree(RunWorld(w, first), SCommit(7, 1), go, go);
    RunAppend(w, first, second);
    RaceThird(RunWorld(w, first + second));
    LastStep(RunWorld(w, first + second), last);
    RunAppend(w, first + second, [last]);
    steps := first + second + [last];
  }

  /** A commit request of a pending, connected candidate, up to the point where it takes the lock. */
  lemma CommitFindsCandidate(w: World, id: nat, step: Step)
    requires AnswerInv(w) && id !in w.requests && w.life.candidate.Some? && GoesOn(step, id) && step.connected
    ensures var c := w.life.candidate.value;
            NextWorld(NextWorld(w, SCommit(id, c.generation)), step)
            == w.(requests := w.requests[id := CommitAccept(c.generation, c.peer)])
  {
    var c := w.life.candidate.value;
    LifePart(w);
    CandidateIsNewest(w.life);
    OutcomeExactly(w.life, c.generation);
    hide AnswerInv, LifeInv, GenerationOutcome;
    var w1 := NextWorld(w, SCommit(id, c.generation));
    assert w1.requests == w.requests[id := CommitStart(c.generation)];
    assert w.requests[id := CommitStart(c.generation)][id := CommitAccept(c.generation, c.peer)]
        == w.requests[id := CommitAccept(c.generation, c.peer)];
  }

  lemma CandidateIsAcceptable(s: Life)
    requires LifeInv(s) && s.candidate.Some?
    ensures CanAccept(s, s.candidate.value.peer, Some(s.candidate.value.generation))
  {
    CandidateIsNewest(s);
    hide LifeInv;
  }

  /** From every reachable state with a candidate that keeps the selection, a commit request that nobody disturbs
      promotes it, closes the peer it replaced, and is told "committed". */
  lemma UndisturbedCommit(peer: PeerId, selection: Selection, before: seq<Step>, id: nat, speechActive: bool)
    requires var w := RunWorld(Start(peer, selection), before);
             id !in w.requests && w.life.candidate.Some? && !ChangesSelection(w.life)
    ensures var w := RunWorld(Start(peer, selection), before);
            var c, go := w.life.candidate.value, SAdvance(id, true, false, speechActive, false);
            var u := RunWorld(w, [SCommit(id, c.generation), go, go] + [go]);
            && u.life.activeGeneration == c.generation && u.life.peer == c.peer && u.life.phase.Stable?
            && u.log == w.log + [Answered(id, c.generation, Committed)] && id !in u.requests
            && (w.life.peer != c.peer ==> w.life.peer in u.life.peers.closed)
  {
    var w := RunWorld(Start(peer, selection), before);
    AnswerInvRun(peer, selection, before);
    hide RunWorld, AnswerInv;
    var c, go := w.life.candidate.value, SAdvance(id, true, false, speechActive, false);
    RunAppend(w, [SCommit(id, c.generation), go, go], [go]);
    RunThree(w, SCommit(id, c.generation), go, go);
    CommitFindsCandidate(w, id, go);
    LifePart(w);
    CandidateIsAcceptable(w.life);
    var at := w.(requests := w.requests[id := CommitAccept(c.generation, c.peer)]);
    LastStep(NextWorld(at, go), go);
    hide LifeInv;
    CommitAccepts(at, id, go);
    if w.life.peer != c.peer {
      ClosesReplaced(NextWorld(at, go), id, go);
    }
    hide NextWorld;
  }

  lemma CommitAccepts(w: World, id: nat, step: Step)
    requires id in w.requests && GoesOn(step, id) && w.life.candidate.Some? && !ChangesSelection(w.life)
    requires w.requests[id] == CommitAccept(w.life.candidate.value.generation, w.life.candidate.value.peer)
    requires CanAccept(w.life, w.life.candidate.value.peer, Some(w.life.candidate.value.generation))
    ensures var c, v := w.life.candidate.value, NextWorld(w, step);
            && v.life == Promote(w.life) && v.life.activeGeneration == c.generation && v.life.peer == c.peer
            && v.life.phase.Stable?
            && (w.life.peer == c.peer ==>
                  v.log == w.log + [Answered(id, c.generation, Committed)] && id !in v.requests && NextWorld(v, step) == v)
            && (w.life.peer != c.peer ==>
                  v.log == w.log && id in v.requests && v.requests[id] == CommitClosing(c.generation, w.life.peer)
                  && w.life.peer in v.life.peers.closing)
  {}

  lemma ClosesReplaced(w: World, id: nat, step: Step)
    requires id in w.requests && GoesOn(step, id) && !step.closeFails
    requires w.requests[id].CommitClosing? && w.requests[id].replaced in w.life.peers.closing
    ensures var r, v := w.requests[id], NextWorld(w, step);
            && v.life == w.life.(peers := v.life.peers) && r.replaced in v.life.peers.closed
            && v.log == w.log + [Answered(id, r.generation, Committed)] && id !in v.requests
  {}

  /** A commit request, its switch's cleanup and end without an error, and the request going on. */
  function SwitchSteps(w: World, id: nat, speechActive: bool): seq<Step>
    requires w.life.candidate.Some?
  {
    var go, task := SAdvance(id, true, false, speechActive, false), w.life.switching.generation + 1;
    [SCommit(id, w.life.candidate.value.generation), go, go]
    + [SLife(ECleanSwitch(task, false, false)), SLife(EFinishSwitch(task, false, false)), go]
  }

  /** The candidate took over with its selection, and its request was told so. */
  predicate SwitchedTo(w: World, u: World, id: nat)
    requires w.life.candidate.Some? && ChangesSelection(w.life)
  {
    var c := w.life.candidate.value;
    && u.life.activeGeneration == c.generation && u.life.peer == c.peer && u.life.phase.Stable?
    && u.life.selection == c.selection.value
    && u.log == w.log + [Answered(id, c.generation, Committed)] && id !in u.requests
    && (w.life.peer != c.peer ==> w.life.peer in u.life.peers.closed)
  }

  /** And one that brings another selection runs the switch: when its task cleans up and finishes without an error the
      candidate is active with its selection, and the request is told "committed". */
  lemma UndisturbedSwitch(peer: PeerId, selection: Selection, before: seq<Step>, id: nat, speechActive: bool)
    requires var w := RunWorld(Start(peer, selection), before);
             id !in w.requests && w.life.candidate.Some? && ChangesSelection(w.life)
    ensures var w := RunWorld(Start(peer, selection), before);
            SwitchedTo(w, RunWorld(w, SwitchSteps(w, id, speechActive)), id)
  {
    hide RunWorld, AnswerInv, SwitchedTo, SwitchSteps;
    AnswerInvRun(peer, selection, before);
    SwitchRuns(RunWorld(Start(peer, selection), before), id, speechActive);
  }

  lemma SwitchRuns(w: World, id: nat, speechActive: bool)
    requires AnswerInv(w) && id !in w.requests && w.life.candidate.Some? && ChangesSelection(w.life)
    ensures SwitchedTo(w, RunWorld(w, SwitchSteps(w, id, speechActive)), id)
  {
    hide RunWorld, AnswerInv, NextWorld, Next, ChangesSelection, StartSwitch, CanAccept, LifeInv, Decided;
    var c, go := w.life.candidate.value, SAdvance(id, true, false, speechActive, false);
    var task := w.life.switching.generation + 1;
    var clean, finish := SLife(ECleanSwitch(task, false, false)), SLife(EFinishSwitch(task, false, false));
    RunAppend(w, [SCommit(id, c.generation), go, go], [clean, finish, go]);
    RunThree(w, SCommit(id, c.generation), go, go);
    CommitFindsCandidate(w, id, go);
    LifePart(w);
    CandidateIsAcceptable(w.life);
    CandidateIsNewest(w.life);
    var at := w.(requests := w.requests[id := CommitAccept(c.generation, c.peer)]);
    RunThree(NextWorld(at, go), clean, finish, go);
    CommitStartsSwitch(at, id, go);
    SwitchSucceeds(w.life, speechActive);
    SwitchAnswers(NextWorld(at, go), id, clean, finish, go);
  }

  lemma CommitStartsSwitch(w: World, id: nat, step: Step)
    requires id in w.requests && GoesOn(step, id) && w.life.candidate.Some? && ChangesSelection(w.life)
    requires w.requests[id] == CommitAccept(w.life.candidate.value.generation, w.life.candidate.value.peer)
    requires CanAccept(w.life, w.life.candidate.value.peer, Some(w.life.candidate.value.generation))
    ensures var c, v := w.life.candidate.value, NextWorld(w, step);
            && v.life == StartSwitch(w.life, step.speechActive) && v.log == w.log && id in v.requests
            && v.requests[id] == CommitAwait(c.generation, c.peer, w.life.switching.generation + 1)
  {}

  lemma SwitchSucceeds(s: Life, speechActive: bool)
    requires s.candidate.Some? && ChangesSelection(s) && !s.ended
    ensures var c, task := s.candidate.value, s.switching.generation + 1;
            var t := Next(Next(StartSwitch(s, speechActive), ECleanSwitch(task, false, false)), EFinishSwitch(task, false, false));
            && task in t.tasks.results && t.tasks.results[task] == Accepted(c.generation)
            && t.activeGeneration == c.generation && t.peer == c.peer && t.phase.Stable? && t.selection == c.selection.value
            && (s.peer != c.peer ==> s.peer in t.peers.closed)
  {
    var task := s.switching.generation + 1;
    var cleaned := Next(StartSwitch(s, speechActive), ECleanSwitch(task, false, false));
    assert cleaned.tasks.switches[task].stage == Cleaned(false, None);
    assert OwnsSwitch(cleaned, cleaned.tasks.switches[task].switch);
  }

  lemma SwitchAnswers(w: World, id: nat, clean: Step, finish: Step, step: Step)
    requires id in w.requests && w.requests[id].CommitAwait? && GoesOn(step, id) && clean.SLife? && finish.SLife?
    requires var life := Next(Next(w.life, clean.event), finish.event);
             w.requests[id].task in life.tasks.results && life.tasks.results[w.requests[id].task].Accepted?
    ensures var u := NextWorld(NextWorld(NextWorld(w, clean), finish), step);
            && u.life == Next(Next(w.life, clean.event), finish.event) && id !in u.requests
            && u.log == w.log + [Answered(id, w.requests[id].generation, Committed)]
  {
    hide Next;
  }

  /** A reject request of a pending candidate that nobody disturbs clears it, hands its peer to a cleanup, and is told
      "rejected". */
  lemma UndisturbedReject(peer: PeerId, selection: Selection, before: seq<Step>, id: nat, go: Step)
    requires var w := RunWorld(Start(peer, selection), before);
             id !in w.requests && w.life.candidate.Some? && GoesOn(go, id)
    ensures var w := RunWorld(Start(peer, selection), before);
            var c := w.life.candidate.value;
            var u := RunWorld(w, [SReject(id, c.generation), go, go]);
            && u.life.candidate.None? && c.peer in u.life.peers.owned && u.life.peer == w.life.peer
            && u.life.activeGeneration == w.life.activeGeneration
            && u.log == w.log + [Answered(id, c.generation, RejectedReply)] && id !in u.requests
  {
    var w := RunWorld(Start(peer, selection), before);
    AnswerInvRun(peer, selection, before);
    hide RunWorld;
    var c := w.life.candidate.value;
    RunThree(w, SReject(id, c.generation), go, go);
    RejectFindsCandidate(w, id, go);
    hide AnswerInv;
    Rejects(w.(requests := w.requests[id := RejectLock(c.generation, c.peer)]), id, go);
    hide NextWorld;
  }

  lemma RejectFindsCandidate(w: World, id: nat, step: Step)
    requires AnswerInv(w) && id !in w.requests && w.life.candidate.Some? && GoesOn(step, id)
    ensures var c := w.life.candidate.value;
            NextWorld(NextWorld(w, SReject(id, c.generation)), step)
            == w.(requests := w.requests[id := RejectLock(c.generation, c.peer)])
  {
    var c := w.life.candidate.value;
    LifePart(w);
    OutcomeExactly(w.life, c.generation);
    hide AnswerInv, LifeInv, GenerationOutcome;
    assert NextWorld(w, SReject(id, c.generation)).requests == w.requests[id := RejectStart(c.generation)];
    assert w.requests[id := RejectStart(c.generation)][id := RejectLock(c.generation, c.peer)]
        == w.requests[id := RejectLock(c.generation, c.peer)];
  }

  lemma Rejects(w: World, id: nat, step: Step)
    requires id in w.requests && GoesOn(step, id) && w.life.candidate.Some?
    requires w.requests[id] == RejectLock(w.life.candidate.value.generation, w.life.candidate.value.peer)
    ensures var c, v := w.life.candidate.value, NextWorld(w, step);
            && v.life == Reject(w.life, c.peer, Some(c.generation)) && v.life.candidate.None? && c.peer in v.life.peers.owned
            && v.life.peer == w.life.peer && v.life.activeGeneration == w.life.activeGeneration
            && v.log == w.log + [Answered(id, c.generation, RejectedReply)] && id !in v.requests
  {}
}
