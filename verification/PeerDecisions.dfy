/**
  Commit and reject requests against the peer lifecycle, each split at its awaits, and the
  theorem that a peer generation never gets two different decisive answers.
*/
module PeerDecisions {
  import opened Wrappers
  import opened PeerLifecycle

  /** Where a request is suspended. */
  datatype Request =
    | CommitStart(generation: nat)
    | CommitJoin(generation: nat, task: nat)
    | CommitAccept(generation: nat, peer: PeerId)
    | CommitAwait(generation: nat, peer: PeerId, task: nat)
    | CommitClosing(generation: nat, replaced: PeerId)
    | RejectStart(generation: nat)
    | RejectLock(generation: nat, peer: PeerId)

  /** One answered request. */
  datatype Answered = Answered(id: nat, generation: nat, reply: Reply)

  /** `log` is every answer given so far, in order. */
  datatype World = World(life: Life, requests: map<nat, Request>, log: seq<Answered>)

  datatype Step =
    | SLife(event: Event)
    | SCommit(id: nat, generation: nat)
    | SReject(id: nat, generation: nat)
    | SAdvance(id: nat, connected: bool, timedOut: bool, speechActive: bool, closeFails: bool)

  function Answer(w: World, id: nat, generation: nat, reply: Reply): World {
    w.(requests := w.requests - {id}, log := w.log + [Answered(id, generation, reply)])
  }

  function Suspend(w: World, id: nat, request: Request): World {
    w.(requests := w.requests[id := request])
  }

  /** The checks commit makes when accepting the peer returned false. */
  function AnswerRefused(w: World, id: nat, generation: nat, peer: PeerId): World {
    var outcome := GenerationOutcome(w.life, generation);
    if w.life.activeGeneration == generation && w.life.peer == peer then Answer(w, id, generation, Committed)
    else if outcome.Some? then Answer(w, id, generation, outcome.value)
    else Answer(w, id, generation, Stale)
  }

  function AdvanceCommitStart(w: World, id: nat, generation: nat, connected: bool): World {
    var s := w.life;
    var outcome := GenerationOutcome(s, generation);
    if outcome == Some(InProgress) && s.switching.task.Some? then Suspend(w, id, CommitJoin(generation, s.switching.task.value))
    else if outcome.Some? then Answer(w, id, generation, outcome.value)
    else if s.candidate.None? || s.candidate.value.generation != generation then Answer(w, id, generation, Stale)
    else if !connected then Answer(w, id, generation, NotConnected)
    else
      var peer := s.candidate.value.peer;
      if s.phase.Switching? && s.switching.owner == Some(peer) && s.switching.task.Some?
      then Suspend(w, id, CommitAwait(generation, peer, s.switching.task.value))
      else Suspend(w, id, CommitAccept(generation, peer))
  }

  function AdvanceCommitJoin(w: World, id: nat, generation: nat, task: nat, timedOut: bool): World {
    if task !in w.life.tasks.results then (if timedOut then Answer(w, id, generation, InProgress) else w)
    else if w.life.tasks.results[task].Raised? then Answer(w, id, generation, FailedReply)
    else
      var durable := GenerationOutcome(w.life, generation);
      if durable.Some? then Answer(w, id, generation, durable.value)
      else Answer(w, id, generation, if w.life.tasks.results[task].Accepted? then Committed else FailedReply)
  }

  function AdvanceCommitAccept(w: World, id: nat, generation: nat, peer: PeerId, speechActive: bool): World {
    var s := w.life;
    var t := Accept(s, peer, Some(generation), speechActive);
    if !CanAccept(s, peer, Some(generation)) then AnswerRefused(w, id, generation, peer)
    else if ChangesSelection(s) then Suspend(w.(life := t), id, CommitAwait(generation, peer, t.switching.task.value))
    else if s.peer != peer then Suspend(w.(life := t), id, CommitClosing(generation, s.peer))
    else Answer(w.(life := t), id, generation, Committed)
  }

  /** The replaced peer is closed once; raising ends the request without an answer. */
  function AdvanceCommitClosing(w: World, id: nat, generation: nat, replaced: PeerId, closeFails: bool): World {
    var settled := w.(life := SettleClose(w.life, replaced, closeFails));
    if closeFails then settled.(requests := w.requests - {id}) else Answer(settled, id, generation, Committed)
  }

  function AdvanceCommitAwait(w: World, id: nat, generation: nat, peer: PeerId, task: nat): World {
    if task !in w.life.tasks.results then w
    else match w.life.tasks.results[task]
      case Raised(_) => w.(requests := w.requests - {id})
      case Accepted(_) => Answer(w, id, generation, Committed)
      case NotAccepted(_) => AnswerRefused(w, id, generation, peer)
  }

  function AdvanceRejectStart(w: World, id: nat, generation: nat): World {
    var s := w.life;
    var outcome := GenerationOutcome(s, generation);
    if outcome.Some? then Answer(w, id, generation, outcome.value)
    else if s.candidate.None? || s.candidate.value.generation != generation then Answer(w, id, generation, Stale)
    else Suspend(w, id, RejectLock(generation, s.candidate.value.peer))
  }

  function AdvanceRejectLock(w: World, id: nat, generation: nat, peer: PeerId): World {
    Answer(w.(life := Reject(w.life, peer, Some(generation))), id, generation,
           if IsPending(w.life, peer, Some(generation)) then RejectedReply else Stale)
  }

  function Advance(w: World, id: nat, connected: bool, timedOut: bool, speechActive: bool, closeFails: bool): World
    requires id in w.requests
  {
    match w.requests[id]
    case CommitStart(g) => AdvanceCommitStart(w, id, g, connected)
    case CommitJoin(g, task) => AdvanceCommitJoin(w, id, g, task, timedOut)
    case CommitAccept(g, peer) => AdvanceCommitAccept(w, id, g, peer, speechActive)
    case CommitAwait(g, peer, task) => AdvanceCommitAwait(w, id, g, peer, task)
    case CommitClosing(g, replaced) => AdvanceCommitClosing(w, id, g, replaced, closeFails)
    case RejectStart(g) => AdvanceRejectStart(w, id, g)
    case RejectLock(g, peer) => AdvanceRejectLock(w, id, g, peer)
  }

  function NextWorld(w: World, step: Step): World {
    match step
    case SLife(event) => w.(life := Next(w.life, event))
    case SCommit(id, g) => if id in w.requests then w else Suspend(w, id, CommitStart(g))
    case SReject(id, g) => if id in w.requests then w else Suspend(w, id, RejectStart(g))
    case SAdvance(id, connected, timedOut, speechActive, closeFails) =>
      if id in w.requests then Advance(w, id, connected, timedOut, speechActive, closeFails) else w
  }

  function RunWorld(w: World, steps: seq<Step>): World
    decreases |steps|
  {
    if steps == [] then w else NextWorld(RunWorld(w, steps[..|steps| - 1]), steps[|steps| - 1])
  }

  // ---- the invariant ----

  predicate Decided(d: Decisions, g: nat) {
    g in d.active || g in d.rejected || g in d.failed
  }

  /** No generation is decided twice, and none is decided before it is registered. */
  ghost predicate DecisionsInv(d: Decisions, newest: nat) {
    && d.active !! d.rejected && d.active !! d.failed && d.rejected !! d.failed
    && (forall g | g in d.active :: g <= newest)
    && (forall g | g in d.rejected :: g <= newest)
    && (forall g | g in d.failed :: g <= newest)
  }

  ghost predicate CandidateInv(s: Life) {
    s.candidate.Some? ==>
      && s.candidate.value.generation == s.candidateGeneration
      && s.candidate.value.epoch == s.epoch
      && !Decided(s.decisions, s.candidateGeneration)
      && (forall k | k in s.tasks.switches :: s.tasks.switches[k].switch.candidateGeneration != s.candidateGeneration)
      && (s.phase.Stable? || s.phase.Reconnecting?)
  }

  ghost predicate TasksInv(tasks: Tasks, d: Decisions, newest: nat, newestTask: nat) {
    && (forall k | k in tasks.switches ::
          && tasks.switches[k].switch.task == k <= newestTask && k !in tasks.results
          && tasks.switches[k].switch.candidateGeneration <= newest
          && !Decided(d, tasks.switches[k].switch.candidateGeneration))
    && (forall j, k | j in tasks.switches && k in tasks.switches && j != k ::
          tasks.switches[j].switch.candidateGeneration != tasks.switches[k].switch.candidateGeneration)
    && (forall k | k in tasks.results :: k <= newestTask && ResultMatches(d, tasks.results[k]))
  }

  /** The task and transaction fields name one unfinished switch task. */
  ghost predicate TransactionInv(f: SwitchFields, tasks: Tasks) {
    && f.task.Some? == f.transaction.Some?
    && (f.task.Some? ==>
          f.task.value in tasks.switches && tasks.switches[f.task.value].switch == f.transaction.value)
  }

  predicate ResultMatches(d: Decisions, r: Result) {
    if r.Accepted? then r.generation in d.active else r.generation in d.failed
  }

  predicate RecordInv(last: Option<SwitchRecord>, d: Decisions) {
    last.Some? ==>
      || (last.value.outcome.Committed? && last.value.generation in d.active)
      || (last.value.outcome.FailedReply? && last.value.generation in d.failed)
  }

  predicate TerminalInv(s: Life) {
    && (s.ended <==> s.phase.Terminal?)
    && (s.ended <==> s.ledger.Some?)
    && (s.state in {Ended, Failed} ==> s.ended)
    && (s.reconnect.stateBefore.Some? ==> s.reconnect.stateBefore.value !in {Ended, Failed})
  }

  ghost predicate LifeInv(s: Life) {
    && DecisionsInv(s.decisions, s.candidateGeneration) && s.activeGeneration in s.decisions.active
    && CandidateInv(s) && TasksInv(s.tasks, s.decisions, s.candidateGeneration, s.switching.generation)
    && TransactionInv(s.switching, s.tasks) && RecordInv(s.lastSwitch, s.decisions) && TerminalInv(s)
  }

  lemma LifeInvInit(peer: PeerId, selection: Selection)
    ensures LifeInv(Init(peer, selection))
  {}

  lemma LifeInvRegister(s: Life, peer: PeerId, selection: Option<Selection>)
    requires LifeInv(s)
    ensures LifeInv(Register(s, peer, selection))
  {}

  lemma LifeInvReject(s: Life, peer: PeerId, generation: Option<nat>)
    requires LifeInv(s)
    ensures LifeInv(Reject(s, peer, generation))
  {}

  lemma LifeInvPromote(s: Life)
    requires LifeInv(s) && s.candidate.Some? && !s.ended
    ensures LifeInv(Promote(s))
  {}

  lemma LifeInvStartSwitch(s: Life, speechActive: bool)
    requires LifeInv(s) && s.candidate.Some? && ChangesSelection(s) && !s.ended
    ensures LifeInv(StartSwitch(s, speechActive))
  {
    var t := StartSwitch(s, speechActive);
    assert t.tasks.switches.Keys == s.tasks.switches.Keys + {t.switching.generation};
  }

  lemma LifeInvAccept(s: Life, peer: PeerId, generation: Option<nat>, speechActive: bool)
    requires LifeInv(s)
    ensures LifeInv(Accept(s, peer, generation, speechActive))
  {
    if CanAccept(s, peer, generation) {
      if ChangesSelection(s) { LifeInvStartSwitch(s, speechActive); } else { LifeInvPromote(s); }
    }
  }

  lemma LifeInvTerminate(s: Life, target: CallState, extras: set<PeerId>)
    requires LifeInv(s) && target in {Ended, Failed}
    ensures LifeInv(TransitionTerminal(s, target, extras))
  {}

  /** A switch task's result settles its generation: `t` is the session after it, before the task ends. */
  ghost predicate Settles(s: Life, t: Life, switch: Switch, committed: bool) {
    var g := switch.candidateGeneration;
    && t.decisions == (if committed then s.decisions.(active := s.decisions.active + {g}) else FailGeneration(s.decisions, g))
    && t.candidateGeneration == s.candidateGeneration && t.tasks == s.tasks
    && t.switching.generation == s.switching.generation
    && t.activeGeneration in t.decisions.active
    && RecordInv(t.lastSwitch, t.decisions) && TerminalInv(t)
    && t.switching.task != Some(switch.task) && TransactionInv(t.switching, t.tasks)
    && (t.candidate.Some? ==> t.candidate == s.candidate && t.epoch == s.epoch && t.phase == s.phase)
  }

  lemma AbandonSettles(s: Life, task: nat)
    requires LifeInv(s) && task in s.tasks.switches
    ensures Settles(s, AbandonSwitch(s, s.tasks.switches[task].switch), s.tasks.switches[task].switch, false)
  {}

  lemma FailSettles(s: Life, task: nat, unresolved: Option<PeerId>)
    requires LifeInv(s) && task in s.tasks.switches && OwnsSwitch(s, s.tasks.switches[task].switch)
    ensures Settles(s, FailSwitch(s, s.tasks.switches[task].switch, unresolved), s.tasks.switches[task].switch, false)
  {}

  lemma CommitSettles(s: Life, task: nat)
    requires LifeInv(s) && task in s.tasks.switches && OwnsSwitch(s, s.tasks.switches[task].switch)
    ensures Settles(s, CommitSwitch(s, s.tasks.switches[task].switch), s.tasks.switches[task].switch, true)
  {}

  lemma LifeInvSettled(s: Life, t: Life, task: nat, result: Result)
    requires LifeInv(s) && task in s.tasks.switches
    requires Settles(s, t, s.tasks.switches[task].switch, result.Accepted?)
    requires result.generation == s.tasks.switches[task].switch.candidateGeneration
    ensures LifeInv(t.(tasks := t.tasks.(switches := t.tasks.switches - {task}, results := t.tasks.results[task := result])))
  {}

  lemma LifeInvFinish(s: Life, task: nat, leaseFails: bool, raises: bool)
    requires LifeInv(s)
    ensures LifeInv(FinishSwitch(s, task, leaseFails, raises))
  {
    if task in s.tasks.switches && s.tasks.switches[task].stage.Cleaned? {
      var SwitchRun(switch, stage) := s.tasks.switches[task];
      var result := FinishSwitch(s, task, leaseFails, raises).tasks.results[task];
      if !OwnsSwitch(s, switch) || s.ended {
        AbandonSettles(s, task);
        LifeInvSettled(s, AbandonSwitch(s, switch), task, result);
      } else if stage.errors || leaseFails {
        FailSettles(s, task, stage.unresolved);
        LifeInvSettled(s, FailSwitch(s, switch, stage.unresolved), task, result);
      } else {
        CommitSettles(s, task);
        LifeInvSettled(s, CommitSwitch(s, switch), task, result);
      }
    }
  }

  lemma LifeInvReconnect(s: Life, peer: PeerId, loss: Loss, generation: Option<nat>)
    requires LifeInv(s)
    ensures LifeInv(BeginReconnect(s, peer, loss, generation))
  {
    if !IgnoresLoss(s, peer, generation) {
      LifeInvEnter(s, peer);
      var t := if s.phase.Reconnecting? && s.reconnect.gracePeer == Some(peer) then s else EnterReconnect(s, peer);
      LifeInvArm(NoteLoss(t, loss), peer);
    }
  }

  lemma LifeInvEnter(s: Life, peer: PeerId)
    requires LifeInv(s) && !s.ended
    ensures LifeInv(EnterReconnect(s, peer))
  {}

  lemma LifeInvArm(s: Life, peer: PeerId)
    requires LifeInv(s)
    ensures LifeInv(ArmTimer(s, peer))
  {}

  lemma LifeInvResolve(s: Life, epoch: Option<nat>, peer: Option<PeerId>)
    requires LifeInv(s)
    ensures LifeInv(ResolveDeferred(s, epoch, peer))
  {
    LifeInvTerminate(s, Failed, {});
    LifeInvTerminate(s, Ended, {});
  }

  lemma LifeInvSettle(s: Life, peer: PeerId, fails: bool)
    requires LifeInv(s)
    ensures LifeInv(SettleClose(s, peer, fails))
  {}

  lemma LifeInvClean(s: Life, task: nat, errors: bool, closeFails: bool)
    requires LifeInv(s)
    ensures LifeInv(CleanSwitch(s, task, errors, closeFails))
  {}

  lemma LifeInvEndTimer(s: Life, timer: nat)
    requires LifeInv(s)
    ensures LifeInv(EndTimer(s, timer))
  {}

  lemma LifeInvRecover(s: Life, peer: PeerId, generation: Option<nat>)
    requires LifeInv(s)
    ensures LifeInv(Recover(s, peer, generation))
  {}

  lemma LifeInvBackfill(s: Life)
    requires LifeInv(s)
    ensures LifeInv(BeginBackfill(s)) && LifeInv(EndBackfill(s))
  {
    LifeInvEndBackfill(s);
    hide EndBackfill;
  }

  lemma LifeInvEndBackfill(s: Life)
    requires LifeInv(s)
    ensures LifeInv(EndBackfill(s))
  {
    hide DecisionsInv, ResultMatches, RecordInv;
  }

  lemma LifeInvWrite(s: Life, state: CallState)
    requires LifeInv(s)
    ensures LifeInv(WriteState(s, state))
  {}

  lemma LifeInvNext(s: Life, e: Event)
    requires LifeInv(s)
    ensures LifeInv(Next(s, e))
  {
    hide LifeInv, Register, Reject, Accept, SettleClose, CleanSwitch, FinishSwitch, BeginReconnect, ResolveDeferred;
    hide EndTimer, Recover, BeginBackfill, EndBackfill, WriteState, TransitionTerminal;
    match e
    case ERegister(peer, selection) => LifeInvRegister(s, peer, selection);
    case EReject(peer, generation) => LifeInvReject(s, peer, generation);
    case EAccept(peer, generation, speechActive) => LifeInvAccept(s, peer, generation, speechActive);
    case ESettleClose(peer, fails) => LifeInvSettle(s, peer, fails);
    case ECleanSwitch(task, errors, closeFails) => LifeInvClean(s, task, errors, closeFails);
    case EFinishSwitch(task, leaseFails, raises) => LifeInvFinish(s, task, leaseFails, raises);
    case EBeginReconnect(peer, loss, generation) => LifeInvReconnect(s, peer, loss, generation);
    case EResolve(epoch, gracePeer) => LifeInvResolve(s, epoch, gracePeer);
    case EFireTimer(timer) =>
      if timer in s.tasks.timers {
        var t := s.tasks.timers[timer];
        LifeInvResolve(s, Some(t.epoch), Some(t.peer));
        LifeInvEndTimer(ResolveDeferred(s, Some(t.epoch), Some(t.peer)), timer);
      }
    case EDropTimer(timer) => LifeInvEndTimer(s, timer);
    case ERecover(peer, generation) => LifeInvRecover(s, peer, generation);
    case EBeginBackfill => LifeInvBackfill(s);
    case EEndBackfill => LifeInvBackfill(s);
    case EWriteState(state) => LifeInvWrite(s, state);
    case ETerminate(target) => LifeInvTerminate(s, if target.Failed? then Failed else Ended, {});
  }

  // ---- one decisive answer ----

  predicate RequestInv(s: Life, r: Request) {
    && (r.CommitClosing? ==> r.generation in s.decisions.active)
    && ((r.CommitJoin? || r.CommitAwait?) ==>
      || (r.task in s.tasks.switches && s.tasks.switches[r.task].switch.candidateGeneration == r.generation)
      || (r.task in s.tasks.results && s.tasks.results[r.task].generation == r.generation))
  }

  predicate ReplyInv(d: Decisions, g: nat, reply: Reply) {
    && (reply.Committed? ==> g in d.active)
    && (reply.RejectedReply? ==> g in d.rejected)
    && (reply.FailedReply? ==> g in d.failed)
  }

  ghost predicate WorldInv(w: World) {
    && LifeInv(w.life)
    && (forall id | id in w.requests :: RequestInv(w.life, w.requests[id]))
    && (forall k | 0 <= k < |w.log| :: ReplyInv(w.life.decisions, w.log[k].generation, w.log[k].reply))
  }

  /** Decisions are never withdrawn, and a switch task keeps its generation when it ends. */
  ghost predicate Extends(s: Life, t: Life) {
    && s.decisions.active <= t.decisions.active && s.decisions.rejected <= t.decisions.rejected
    && s.decisions.failed <= t.decisions.failed
    && (forall k | k in s.tasks.results :: k in t.tasks.results && t.tasks.results[k] == s.tasks.results[k])
    && (forall k | k in s.tasks.switches ::
          var g := s.tasks.switches[k].switch.candidateGeneration;
          || (k in t.tasks.switches && t.tasks.switches[k].switch.candidateGeneration == g)
          || (k in t.tasks.results && t.tasks.results[k].generation == g))
  }

  lemma AcceptExtends(s: Life, peer: PeerId, generation: Option<nat>, speechActive: bool)
    requires LifeInv(s)
    ensures Extends(s, Accept(s, peer, generation, speechActive))
  {}

  lemma FinishExtends(s: Life, task: nat, leaseFails: bool, raises: bool)
    requires LifeInv(s)
    ensures Extends(s, FinishSwitch(s, task, leaseFails, raises))
  {}

  lemma ReconnectExtends(s: Life, peer: PeerId, loss: Loss, generation: Option<nat>)
    ensures Extends(s, BeginReconnect(s, peer, loss, generation))
  {}

  lemma NextExtends(s: Life, e: Event)
    requires LifeInv(s)
    ensures Extends(s, Next(s, e))
  {
    hide LifeInv, Accept, FinishSwitch, BeginReconnect;
    match e
    case EAccept(peer, generation, speechActive) => AcceptExtends(s, peer, generation, speechActive);
    case EFinishSwitch(task, leaseFails, raises) => FinishExtends(s, task, leaseFails, raises);
    case EBeginReconnect(peer, loss, generation) => ReconnectExtends(s, peer, loss, generation);
    case _ =>
  }

  lemma WorldInvLife(w: World, life: Life)
    requires WorldInv(w) && LifeInv(life) && Extends(w.life, life)
    ensures WorldInv(w.(life := life))
  {}

  lemma OutcomeIsDecided(s: Life, g: nat)
    requires LifeInv(s)
    ensures GenerationOutcome(s, g).Some? ==> ReplyInv(s.decisions, g, GenerationOutcome(s, g).value)
  {}

  lemma WorldInvAnswer(w: World, id: nat, g: nat, reply: Reply)
    requires WorldInv(w) && ReplyInv(w.life.decisions, g, reply)
    ensures WorldInv(Answer(w, id, g, reply))
  {}

  lemma WorldInvRefused(w: World, id: nat, g: nat, peer: PeerId)
    requires WorldInv(w)
    ensures WorldInv(AnswerRefused(w, id, g, peer))
  {
    OutcomeIsDecided(w.life, g);
    WorldInvAnswer(w, id, g, Stale);
    if w.life.activeGeneration == g { WorldInvAnswer(w, id, g, Committed); }
    if GenerationOutcome(w.life, g).Some? { WorldInvAnswer(w, id, g, GenerationOutcome(w.life, g).value); }
  }

  lemma WorldInvCommitStart(w: World, id: nat, g: nat, connected: bool)
    requires WorldInv(w) && id in w.requests
    ensures WorldInv(AdvanceCommitStart(w, id, g, connected))
  {
    OutcomeIsDecided(w.life, g);
  }

  lemma WorldInvCommitJoin(w: World, id: nat, g: nat, task: nat, timedOut: bool)
    requires WorldInv(w) && id in w.requests && w.requests[id] == CommitJoin(g, task)
    ensures WorldInv(AdvanceCommitJoin(w, id, g, task, timedOut))
  {
    OutcomeIsDecided(w.life, g);
    assert RequestInv(w.life, w.requests[id]);
  }

  lemma WorldInvCommitAccept(w: World, id: nat, g: nat, peer: PeerId, speechActive: bool)
    requires WorldInv(w) && id in w.requests
    ensures WorldInv(AdvanceCommitAccept(w, id, g, peer, speechActive))
  {
    hide WorldInv, AnswerRefused, Accept, Answer, Suspend;
    var t := Accept(w.life, peer, Some(g), speechActive);
    if !CanAccept(w.life, peer, Some(g)) {
      WorldInvRefused(w, id, g, peer);
    } else {
      WorldInvAccept(w, peer, g, speechActive);
      AcceptedRequest(w.life, peer, g, speechActive);
      if ChangesSelection(w.life) {
        WorldInvSuspend(w.(life := t), id, CommitAwait(g, peer, t.switching.task.value));
      } else if w.life.peer != peer {
        WorldInvSuspend(w.(life := t), id, CommitClosing(g, w.life.peer));
      } else {
        WorldInvAnswer(w.(life := t), id, g, Committed);
      }
    }
  }

  lemma WorldInvSuspend(w: World, id: nat, request: Request)
    requires WorldInv(w) && RequestInv(w.life, request)
    ensures WorldInv(Suspend(w, id, request))
  {}

  lemma WorldInvAccept(w: World, peer: PeerId, g: nat, speechActive: bool)
    requires WorldInv(w)
    ensures WorldInv(w.(life := Accept(w.life, peer, Some(g), speechActive)))
  {
    hide Accept;
    LifeInvAccept(w.life, peer, Some(g), speechActive);
    AcceptExtends(w.life, peer, Some(g), speechActive);
    WorldInvLife(w, Accept(w.life, peer, Some(g), speechActive));
  }

  /** What an accepted peer's request waits for, or may answer. */
  lemma AcceptedRequest(s: Life, peer: PeerId, g: nat, speechActive: bool)
    requires CanAccept(s, peer, Some(g))
    ensures var t := Accept(s, peer, Some(g), speechActive);
            if ChangesSelection(s) then
              t.switching.task.Some? && RequestInv(t, CommitAwait(g, peer, t.switching.task.value))
            else RequestInv(t, CommitClosing(g, s.peer)) && ReplyInv(t.decisions, g, Committed)
  {}

  lemma WorldInvCommitClosing(w: World, id: nat, g: nat, replaced: PeerId, closeFails: bool)
    requires WorldInv(w) && id in w.requests && w.requests[id] == CommitClosing(g, replaced)
    ensures WorldInv(AdvanceCommitClosing(w, id, g, replaced, closeFails))
  {
    assert RequestInv(w.life, w.requests[id]);
    LifeInvSettle(w.life, replaced, closeFails);
    NextExtends(w.life, ESettleClose(replaced, closeFails));
    WorldInvLife(w, SettleClose(w.life, replaced, closeFails));
    WorldInvAnswer(w.(life := SettleClose(w.life, replaced, closeFails)), id, g, Committed);
  }

  lemma WorldInvCommitAwait(w: World, id: nat, g: nat, peer: PeerId, task: nat)
    requires WorldInv(w) && id in w.requests && w.requests[id] == CommitAwait(g, peer, task)
    ensures WorldInv(AdvanceCommitAwait(w, id, g, peer, task))
  {
    assert RequestInv(w.life, w.requests[id]);
    WorldInvRefused(w, id, g, peer);
  }

  lemma WorldInvRejectLock(w: World, id: nat, g: nat, peer: PeerId)
    requires WorldInv(w) && id in w.requests
    ensures WorldInv(AdvanceRejectLock(w, id, g, peer))
  {
    var t := Reject(w.life, peer, Some(g));
    LifeInvReject(w.life, peer, Some(g));
    NextExtends(w.life, EReject(peer, Some(g)));
    WorldInvLife(w, t);
    WorldInvAnswer(w.(life := t), id, g, if IsPending(w.life, peer, Some(g)) then RejectedReply else Stale);
  }

  lemma WorldInvRejectStart(w: World, id: nat, g: nat)
    requires WorldInv(w) && id in w.requests
    ensures WorldInv(AdvanceRejectStart(w, id, g))
  {
    OutcomeIsDecided(w.life, g);
  }

  lemma WorldInvAdvance(w: World, id: nat, connected: bool, timedOut: bool, speechActive: bool, closeFails: bool)
    requires WorldInv(w) && id in w.requests
    ensures WorldInv(Advance(w, id, connected, timedOut, speechActive, closeFails))
  {
    hide WorldInv, AdvanceCommitStart, AdvanceCommitJoin, AdvanceCommitAccept, AdvanceCommitClosing, AdvanceCommitAwait;
    hide AdvanceRejectStart, AdvanceRejectLock;
    match w.requests[id]
    case CommitStart(g) => WorldInvCommitStart(w, id, g, connected);
    case CommitJoin(g, task) => WorldInvCommitJoin(w, id, g, task, timedOut);
    case CommitAccept(g, peer) => WorldInvCommitAccept(w, id, g, peer, speechActive);
    case CommitAwait(g, peer, task) => WorldInvCommitAwait(w, id, g, peer, task);
    case CommitClosing(g, replaced) => WorldInvCommitClosing(w, id, g, replaced, closeFails);
    case RejectStart(g) => WorldInvRejectStart(w, id, g);
    case RejectLock(g, peer) => WorldInvRejectLock(w, id, g, peer);
  }

  lemma WorldInvNext(w: World, step: Step)
    requires WorldInv(w)
    ensures WorldInv(NextWorld(w, step))
  {
    match step
    case SLife(event) =>
      LifeInvNext(w.life, event);
      NextExtends(w.life, event);
      WorldInvLife(w, Next(w.life, event));
    case SCommit(id, g) =>
    case SReject(id, g) =>
    case SAdvance(id, connected, timedOut, speechActive, closeFails) =>
      if id in w.requests { WorldInvAdvance(w, id, connected, timedOut, speechActive, closeFails); }
  }

  lemma {:induction false} WorldInvRun(w: World, steps: seq<Step>)
    requires WorldInv(w)
    ensures WorldInv(RunWorld(w, steps))
    decreases |steps|
  {
    if steps != [] {
      WorldInvRun(w, steps[..|steps| - 1]);
      WorldInvNext(RunWorld(w, steps[..|steps| - 1]), steps[|steps| - 1]);
    }
  }

  predicate Decisive(reply: Reply) {
    reply.Committed? || reply.RejectedReply? || reply.FailedReply?
  }

  /** Whatever the order of retries, timers, newer offers, switch completion and hangup. */
  lemma OneDecisiveAnswer(peer: PeerId, selection: Selection, steps: seq<Step>, j: nat, k: nat)
    requires var log := RunWorld(Start(peer, selection), steps).log;
             j < |log| && k < |log| && log[j].generation == log[k].generation
             && Decisive(log[j].reply) && Decisive(log[k].reply)
    ensures var log := RunWorld(Start(peer, selection), steps).log; log[j].reply == log[k].reply
  {
    WorldInvStart(peer, selection);
    WorldInvRun(Start(peer, selection), steps);
  }

  lemma WorldInvStart(peer: PeerId, selection: Selection)
    ensures WorldInv(Start(peer, selection))
  {
    hide LifeInv;
    LifeInvInit(peer, selection);
  }

  function Start(peer: PeerId, selection: Selection): World {
    World(Init(peer, selection), map[], [])
  }

  ghost predicate PromotesAtMost(s: Life, t: Life) {
    s.decisions.active <= t.decisions.active <= s.decisions.active + {t.activeGeneration}
  }

  lemma NextPromotesAtMost(s: Life, e: Event)
    ensures PromotesAtMost(s, Next(s, e))
  {}

  lemma ActiveOnlyGrows(w: World, step: Step)
    ensures PromotesAtMost(w.life, NextWorld(w, step).life)
  {
    if step.SLife? {
      hide Next;
      NextPromotesAtMost(w.life, step.event);
    } else if step.SAdvance? && step.id in w.requests {
      AdvancePromotesAtMost(w, step.id, step.connected, step.timedOut, step.speechActive, step.closeFails);
      hide Advance;
    }
  }

  lemma AdvancePromotesAtMost(
      w: World, id: nat, connected: bool, timedOut: bool, speechActive: bool, closeFails: bool)
    requires id in w.requests
    ensures PromotesAtMost(w.life, Advance(w, id, connected, timedOut, speechActive, closeFails).life)
  {
    hide Accept;
    if w.requests[id].CommitAccept? {
      NextPromotesAtMost(w.life, EAccept(w.requests[id].peer, Some(w.requests[id].generation), speechActive));
    }
  }

  lemma {:induction false} ActiveAtPrefix(w: World, steps: seq<Step>, i: nat)
    requires WorldInv(w) && i <= |steps|
    ensures RunWorld(w, steps[..i]).life.decisions.active <= RunWorld(w, steps).life.decisions.active
    decreases |steps|
  {
    if i == |steps| {
      assert steps[..i] == steps;
    } else {
      var init := steps[..|steps| - 1];
      assert init[..i] == steps[..i];
      ActiveAtPrefix(w, init, i);
      WorldInvRun(w, init);
      ActiveOnlyGrows(RunWorld(w, init), steps[|steps| - 1]);
    }
  }

  lemma {:induction false} ActiveWasPromoted(peer: PeerId, selection: Selection, steps: seq<Step>, g: nat) returns (i: nat)
    requires g in RunWorld(Start(peer, selection), steps).life.decisions.active
    ensures i <= |steps| && RunWorld(Start(peer, selection), steps[..i]).life.activeGeneration == g
    decreases |steps|
  {
    if steps == [] {
      i := 0;
    } else {
      var init := steps[..|steps| - 1];
      WorldInvRun(Start(peer, selection), init);
      ActiveOnlyGrows(RunWorld(Start(peer, selection), init), steps[|steps| - 1]);
      if g in RunWorld(Start(peer, selection), init).life.decisions.active {
        i := ActiveWasPromoted(peer, selection, init, g);
        assert init[..i] == steps[..i];
      } else {
        i := |steps|;
        assert steps[..i] == steps;
      }
    }
  }

  /** "committed" is only answered for a generation that was the active one at some point of the run. */
  lemma CommittedWasPromoted(peer: PeerId, selection: Selection, steps: seq<Step>, k: nat)
    requires var log := RunWorld(Start(peer, selection), steps).log; k < |log| && log[k].reply == Committed
    ensures var g := RunWorld(Start(peer, selection), steps).log[k].generation;
            exists i: nat :: i <= |steps| && RunWorld(Start(peer, selection), steps[..i]).life.activeGeneration == g
  {
    WorldInvRun(Start(peer, selection), steps);
    var i := ActiveWasPromoted(peer, selection, steps, RunWorld(Start(peer, selection), steps).log[k].generation);
  }

  /** A generation answered "rejected" or "failed" is not the active one at any point of the run. */
  lemma RefusedWasNeverPromoted(peer: PeerId, selection: Selection, steps: seq<Step>, k: nat, i: nat)
    requires var log := RunWorld(Start(peer, selection), steps).log;
             k < |log| && (log[k].reply.RejectedReply? || log[k].reply.FailedReply?)
    requires i <= |steps|
    ensures RunWorld(Start(peer, selection), steps[..i]).life.activeGeneration
            != RunWorld(Start(peer, selection), steps).log[k].generation
  {
    WorldInvRun(Start(peer, selection), steps);
    WorldInvRun(Start(peer, selection), steps[..i]);
    ActiveAtPrefix(Start(peer, selection), steps, i);
  }

  /** The lifecycle section a step of the world runs, if any. */
  function LifeEvent(w: World, step: Step): Option<Event> {
    if step.SLife? then Some(step.event)
    else if !step.SAdvance? || step.id !in w.requests then None
    else match w.requests[step.id]
      case CommitAccept(g, peer) => Some(EAccept(peer, Some(g), step.speechActive))
      case CommitClosing(_, replaced) => Some(ESettleClose(replaced, step.closeFails))
      case RejectLock(g, peer) => Some(EReject(peer, Some(g)))
      case _ => None
  }

  lemma StepRunsLifeEvent(w: World, step: Step)
    ensures var e := LifeEvent(w, step);
            NextWorld(w, step).life == if e.Some? then Next(w.life, e.value) else w.life
  {
    hide Reject, SettleClose, GenerationOutcome, Promote, StartSwitch;
  }

  lemma RunSnoc(s: Life, events: seq<Event>, e: Event)
    ensures Run(s, events + [e]) == Next(Run(s, events), e)
  {
    assert (events + [e])[..|events|] == events;
  }

  /** Requests only run lifecycle sections: what holds of every event sequence holds of every world run. */
  lemma {:induction false} WorldRunsLifecycle(w: World, steps: seq<Step>) returns (events: seq<Event>)
    ensures RunWorld(w, steps).life == Run(w.life, events)
    decreases |steps|
  {
    hide Next, NextWorld, LifeEvent;
    if steps == [] {
      events := [];
    } else {
      events := WorldRunsLifecycle(w, steps[..|steps| - 1]);
      var v, step := RunWorld(w, steps[..|steps| - 1]), steps[|steps| - 1];
      var e := LifeEvent(v, step);
      StepRunsLifeEvent(v, step);
      if e.Some? {
        RunSnoc(w.life, events, e.value);
        events := events + [e.value];
      }
    }
  }
}
