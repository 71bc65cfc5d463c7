/**
  Who owns what over whole runs of the peer lifecycle: no peer is dropped, generations and epochs
  only grow, an engine switch keeps its ownership, and a reconnecting call cannot get stuck.
*/
module PeerOwnership {
  import opened Wrappers
  import opened PeerLifecycle
  import opened PeerDecisions

  // ---- every run ----

  /** Where a peer can be: active, candidate, in an unfinished switch, in a cleanup of its own, being closed by the
      request that replaced it, closed, or in the ledger. A switch whose close of the old peer raised keeps it. */
  ghost predicate Tracked(s: Life, p: PeerId) {
    || p == s.peer
    || (s.candidate.Some? && s.candidate.value.peer == p)
    || (exists k :: k in s.tasks.switches && InSwitch(s.tasks.switches[k], p))
    || p in s.peers.owned || p in s.peers.closing || p in s.peers.closed
    || p in LedgerPeers(s)
  }

  predicate InSwitch(run: SwitchRun, p: PeerId) {
    || run.switch.peer == p
    || (run.stage.Cleaning? && run.switch.previous == Some(p))
    || (run.stage.Cleaned? && run.stage.unresolved == Some(p))
  }

  ghost predicate PeersInv(s: Life) {
    && (forall p | p in s.peers.registered :: Tracked(s, p) || p in s.peers.lost)
    && HandoverInv(s)
  }

  /** What a switch and the terminal ledger have taken over from the active peer. */
  ghost predicate HandoverInv(s: Life) {
    && CleanedInv(s.tasks.switches, s.peers)
    && PreviousInv(s)
    && (s.ended ==> s.ledger.Some? && s.ledger.value.active == s.peer)
    && s.activeGeneration <= s.candidateGeneration
    && (s.phase.Switching? && s.switching.transaction.Some? ==>
          var t := s.switching.transaction.value;
          && t.previous == (if s.peer != t.peer then Some(s.peer) else None)
          && s.activeGeneration < t.candidateGeneration <= s.candidateGeneration)
  }

  /** A switch that has cleaned up has closed its old peer, or keeps it as unresolved, which is an error. */
  ghost predicate CleanedInv(switches: map<nat, SwitchRun>, peers: Peers) {
    forall k | k in switches && switches[k].stage.Cleaned? ::
      var previous, stage := switches[k].switch.previous, switches[k].stage;
      if stage.unresolved.Some? then stage.unresolved == previous && stage.errors
      else previous.Some? ==> previous.value in peers.closed
  }

  /** The old peer of an unfinished switch stays the active peer of that switch, or is in the ledger. */
  ghost predicate PreviousInv(s: Life) {
    forall k | k in s.tasks.switches && s.tasks.switches[k].switch.previous.Some? ::
      var switch := s.tasks.switches[k].switch;
      if s.ended then switch.previous.value in LedgerPeers(s)
      else
        && s.phase.Switching? && s.switching.transaction == Some(switch)
        && s.switching.retiringPeer == switch.previous && s.switching.retiringGeneration == Some(s.activeGeneration)
  }

  /** What a finished switch held is the active peer, closed, in a cleanup of its own, or in the ledger. */
  lemma FinishKeepsItsPeers(s: Life, task: nat, leaseFails: bool, raises: bool, p: PeerId)
    requires LifeInv(s) && HandoverInv(s) && task in s.tasks.switches && s.tasks.switches[task].stage.Cleaned?
    requires p == s.peer || InSwitch(s.tasks.switches[task], p) || p in LedgerPeers(s)
    ensures var t := FinishSwitch(s, task, leaseFails, raises);
            p == t.peer || p in t.peers.owned || p in t.peers.closed || p in LedgerPeers(t)
  {
    var switch := s.tasks.switches[task].switch;
    hide DecisionsInv, CandidateInv, RecordInv;
    assert s.tasks.switches[task].stage.unresolved == Some(p) ==> switch.previous == Some(p);
  }

  lemma FinishTracks(s: Life, task: nat, leaseFails: bool, raises: bool, p: PeerId)
    requires LifeInv(s) && HandoverInv(s) && Tracked(s, p)
    ensures Tracked(FinishSwitch(s, task, leaseFails, raises), p)
  {
    var t := FinishSwitch(s, task, leaseFails, raises);
    if task in s.tasks.switches && s.tasks.switches[task].stage.Cleaned? {
      if p == s.peer || InSwitch(s.tasks.switches[task], p) || p in LedgerPeers(s) {
        FinishKeepsItsPeers(s, task, leaseFails, raises, p);
      } else if k :| k in s.tasks.switches && InSwitch(s.tasks.switches[k], p) {
        assert k != task && k in t.tasks.switches && InSwitch(t.tasks.switches[k], p);
      }
    }
  }

  lemma AcceptTracks(s: Life, peer: PeerId, generation: Option<nat>, speechActive: bool, p: PeerId)
    requires LifeInv(s) && HandoverInv(s) && Tracked(s, p)
    ensures Tracked(Accept(s, peer, generation, speechActive), p)
  {
    var t := Accept(s, peer, generation, speechActive);
    if CanAccept(s, peer, generation) {
      if ChangesSelection(s) { assert t.switching.generation in t.tasks.switches; }
      if k :| k in s.tasks.switches && InSwitch(s.tasks.switches[k], p) {
        assert k in t.tasks.switches && InSwitch(t.tasks.switches[k], p);
      }
    }
  }

  lemma CleanTracks(s: Life, task: nat, errors: bool, closeFails: bool, p: PeerId)
    requires Tracked(s, p)
    ensures Tracked(CleanSwitch(s, task, errors, closeFails), p)
  {
    var t := CleanSwitch(s, task, errors, closeFails);
    if k :| k in s.tasks.switches && InSwitch(s.tasks.switches[k], p) {
      assert k in t.tasks.switches;
      assert InSwitch(t.tasks.switches[k], p) || p in t.peers.closed;
    }
  }

  lemma SameSwitchesTrack(s: Life, t: Life, p: PeerId)
    requires Tracked(s, p) && t.tasks.switches == s.tasks.switches
    requires s.peers.owned <= t.peers.owned && s.peers.closing <= t.peers.closing && s.peers.closed <= t.peers.closed
    requires LedgerPeers(s) <= LedgerPeers(t)
    requires t.peer == s.peer
    requires s.candidate.Some? && (t.candidate.None? || t.candidate.value.peer != s.candidate.value.peer) ==>
      s.candidate.value.peer in t.peers.owned || s.candidate.value.peer in LedgerPeers(t)
    ensures Tracked(t, p)
  {
    if k :| k in s.tasks.switches && InSwitch(s.tasks.switches[k], p) { assert k in t.tasks.switches; }
  }

  lemma ResolveTracks(s: Life, epoch: Option<nat>, peer: Option<PeerId>, p: PeerId)
    requires LifeInv(s) && Tracked(s, p)
    ensures Tracked(ResolveDeferred(s, epoch, peer), p)
  {
    SameSwitchesTrack(s, ResolveDeferred(s, epoch, peer), p);
  }

  lemma ReconnectTracks(s: Life, peer: PeerId, loss: Loss, generation: Option<nat>, p: PeerId)
    requires Tracked(s, p)
    ensures Tracked(BeginReconnect(s, peer, loss, generation), p)
  {
    SameSwitchesTrack(s, BeginReconnect(s, peer, loss, generation), p);
  }

  lemma CandidateTracks(s: Life, e: Event, p: PeerId)
    requires LifeInv(s) && Tracked(s, p) && (e.ERegister? || e.EReject? || e.ETerminate?)
    ensures Tracked(Next(s, e), p)
  {
    SameSwitchesTrack(s, Next(s, e), p);
  }

  lemma SettleTracks(s: Life, peer: PeerId, fails: bool, p: PeerId)
    requires Tracked(s, p)
    ensures Tracked(SettleClose(s, peer, fails), p) || (fails && p == peer && p in SettleClose(s, peer, fails).peers.lost)
  {
    if k :| k in s.tasks.switches && InSwitch(s.tasks.switches[k], p) {
      assert k in SettleClose(s, peer, fails).tasks.switches;
    }
  }

  lemma NextTracks(s: Life, e: Event, p: PeerId)
    requires LifeInv(s) && HandoverInv(s) && Tracked(s, p)
    ensures Tracked(Next(s, e), p) || (e == ESettleClose(p, true) && p in Next(s, e).peers.lost)
  {
    hide LifeInv, HandoverInv, Tracked, Accept, CleanSwitch, FinishSwitch, BeginReconnect, ResolveDeferred, SettleClose;
    match e
    case ESettleClose(peer, fails) => SettleTracks(s, peer, fails, p);
    case EAccept(peer, generation, speechActive) => AcceptTracks(s, peer, generation, speechActive, p);
    case ECleanSwitch(task, errors, closeFails) => CleanTracks(s, task, errors, closeFails, p);
    case EFinishSwitch(task, leaseFails, raises) => FinishTracks(s, task, leaseFails, raises, p);
    case EBeginReconnect(peer, loss, generation) => ReconnectTracks(s, peer, loss, generation, p);
    case EResolve(epoch, gracePeer) => ResolveTracks(s, epoch, gracePeer, p);
    case EFireTimer(timer) =>
      if timer in s.tasks.timers {
        var t := s.tasks.timers[timer];
        ResolveTracks(s, Some(t.epoch), Some(t.peer), p);
        hide EndTimer;
        EndTimerTracks(ResolveDeferred(s, Some(t.epoch), Some(t.peer)), timer, p);
      }
    case ERegister(_, _) => CandidateTracks(s, e, p);
    case EReject(_, _) => CandidateTracks(s, e, p);
    case ETerminate(_) => CandidateTracks(s, e, p);
    case _ => OtherTracks(s, e, p);
  }

  lemma OtherTracks(s: Life, e: Event, p: PeerId)
    requires Tracked(s, p)
    requires e.EDropTimer? || e.ERecover? || e.EBeginBackfill? || e.EEndBackfill? || e.EWriteState?
    ensures Tracked(Next(s, e), p)
  {
    SameSwitchesTrack(s, Next(s, e), p);
  }

  lemma EndTimerTracks(s: Life, timer: nat, p: PeerId)
    requires Tracked(s, p)
    ensures Tracked(EndTimer(s, timer), p)
  {
    SameSwitchesTrack(s, EndTimer(s, timer), p);
  }

  lemma HandoverAccept(s: Life, peer: PeerId, generation: Option<nat>, speechActive: bool)
    requires LifeInv(s) && HandoverInv(s)
    ensures HandoverInv(Accept(s, peer, generation, speechActive))
  {}

  lemma HandoverFinish(s: Life, task: nat, leaseFails: bool, raises: bool)
    requires LifeInv(s) && HandoverInv(s)
    ensures HandoverInv(FinishSwitch(s, task, leaseFails, raises))
  {
    CleanedFinish(s, task, leaseFails, raises);
    hide CleanedInv;
  }

  lemma CleanedFinish(s: Life, task: nat, leaseFails: bool, raises: bool)
    requires CleanedInv(s.tasks.switches, s.peers)
    ensures var t := FinishSwitch(s, task, leaseFails, raises); CleanedInv(t.tasks.switches, t.peers)
  {}

  lemma HandoverReconnect(s: Life, peer: PeerId, loss: Loss, generation: Option<nat>)
    requires LifeInv(s) && HandoverInv(s)
    ensures HandoverInv(BeginReconnect(s, peer, loss, generation))
  {
    hide CleanedInv;
  }

  lemma HandoverResolve(s: Life, epoch: Option<nat>, peer: Option<PeerId>)
    requires LifeInv(s) && HandoverInv(s)
    ensures HandoverInv(ResolveDeferred(s, epoch, peer))
  {}

  lemma HandoverCandidate(s: Life, e: Event)
    requires LifeInv(s) && HandoverInv(s) && (e.ERegister? || e.EReject?)
    ensures HandoverInv(Next(s, e))
  {
    hide LifeInv;
  }

  lemma HandoverClean(s: Life, task: nat, errors: bool, closeFails: bool)
    requires HandoverInv(s)
    ensures HandoverInv(CleanSwitch(s, task, errors, closeFails))
  {}

  lemma HandoverSettle(s: Life, peer: PeerId, fails: bool)
    requires HandoverInv(s)
    ensures HandoverInv(SettleClose(s, peer, fails))
  {}

  lemma HandoverTerminate(s: Life, target: CallState, extras: set<PeerId>)
    requires LifeInv(s) && HandoverInv(s)
    ensures HandoverInv(TransitionTerminal(s, target, extras))
  {
    hide CleanedInv;
  }

  lemma HandoverReconnectFields(s: Life, reconnect: ReconnectFields, tasks: Tasks, state: CallState)
    requires HandoverInv(s) && tasks.switches == s.tasks.switches
    ensures HandoverInv(s.(reconnect := reconnect, tasks := tasks, state := state))
  {}

  lemma HandoverRecover(s: Life, peer: PeerId, generation: Option<nat>)
    requires HandoverInv(s)
    ensures HandoverInv(Recover(s, peer, generation))
  {}

  lemma HandoverNext(s: Life, e: Event)
    requires LifeInv(s) && HandoverInv(s)
    ensures HandoverInv(Next(s, e))
  {
    hide LifeInv, HandoverInv, Accept, SettleClose, CleanSwitch, FinishSwitch, BeginReconnect, ResolveDeferred;
    hide Recover, TransitionTerminal, Register, Reject;
    match e
    case ERegister(_, _) => HandoverCandidate(s, e);
    case EReject(_, _) => HandoverCandidate(s, e);
    case EAccept(peer, generation, speechActive) => HandoverAccept(s, peer, generation, speechActive);
    case ESettleClose(peer, fails) => HandoverSettle(s, peer, fails);
    case ECleanSwitch(task, errors, closeFails) => HandoverClean(s, task, errors, closeFails);
    case EFinishSwitch(task, leaseFails, raises) => HandoverFinish(s, task, leaseFails, raises);
    case EBeginReconnect(peer, loss, generation) => HandoverReconnect(s, peer, loss, generation);
    case EResolve(epoch, gracePeer) => HandoverResolve(s, epoch, gracePeer);
    case EFireTimer(timer) =>
      if timer in s.tasks.timers {
        var t := s.tasks.timers[timer];
        var u := ResolveDeferred(s, Some(t.epoch), Some(t.peer));
        HandoverResolve(s, Some(t.epoch), Some(t.peer));
        HandoverReconnectFields(u, u.reconnect, EndTimer(u, timer).tasks, u.state);
      }
    case ERecover(peer, generation) => HandoverRecover(s, peer, generation);
    case ETerminate(target) => HandoverTerminate(s, if target.Failed? then Failed else Ended, {});
    case _ => HandoverReconnectFields(s, Next(s, e).reconnect, Next(s, e).tasks, Next(s, e).state);
  }

  lemma PeersInvNext(s: Life, e: Event)
    requires LifeInv(s) && PeersInv(s)
    ensures PeersInv(Next(s, e))
  {
    var t := Next(s, e);
    HandoverNext(s, e);
    LostStays(s, e);
    forall p | p in t.peers.registered ensures Tracked(t, p) || p in t.peers.lost {
      if p in s.peers.registered && p !in s.peers.lost { NextTracks(s, e, p); }
    }
  }

  lemma LostStays(s: Life, e: Event)
    ensures s.peers.lost <= Next(s, e).peers.lost && s.peers.registered <= Next(s, e).peers.registered
    ensures forall p | p in Next(s, e).peers.registered - s.peers.registered :: Tracked(Next(s, e), p)
  {
  }

  lemma {:induction false} PeersInvRun(s: Life, events: seq<Event>)
    requires LifeInv(s) && PeersInv(s)
    ensures LifeInv(Run(s, events)) && PeersInv(Run(s, events))
    decreases |events|
  {
    if events != [] {
      PeersInvRun(s, events[..|events| - 1]);
      LifeInvNext(Run(s, events[..|events| - 1]), events[|events| - 1]);
      PeersInvNext(Run(s, events[..|events| - 1]), events[|events| - 1]);
    }
  }

  /** The close of a peer that a promotion replaced raises. */
  predicate ReplacedCloseRaises(s: Life, e: Event, p: PeerId) {
    e == ESettleClose(p, true) && p in s.peers.closing
  }

  ghost predicate SomeReplacedCloseRaised(s: Life, events: seq<Event>, p: PeerId) {
    exists i | 0 <= i < |events| :: ReplacedCloseRaises(Run(s, events[..i]), events[i], p)
  }

  lemma LostNext(s: Life, e: Event, p: PeerId)
    ensures p in Next(s, e).peers.lost <==> p in s.peers.lost || ReplacedCloseRaises(s, e, p)
  {}

  lemma {:induction false} LostExactly(s: Life, events: seq<Event>, p: PeerId)
    requires s.peers.lost == {}
    ensures p in Run(s, events).peers.lost <==> SomeReplacedCloseRaised(s, events, p)
    decreases |events|
  {
    hide Next, ReplacedCloseRaises;
    if events != [] {
      var init, e := events[..|events| - 1], events[|events| - 1];
      LostExactly(s, init, p);
      LostNext(Run(s, init), e, p);
      forall i | 0 <= i < |init| ensures init[..i] == events[..i] {}
      if SomeReplacedCloseRaised(s, init, p) {
        var i :| 0 <= i < |init| && ReplacedCloseRaises(Run(s, init[..i]), init[i], p);
        assert ReplacedCloseRaises(Run(s, events[..i]), events[i], p);
      }
      if SomeReplacedCloseRaised(s, events, p) {
        var i :| 0 <= i < |events| && ReplacedCloseRaises(Run(s, events[..i]), events[i], p);
        assert i < |init| ==> ReplacedCloseRaises(Run(s, init[..i]), init[i], p);
      }
    }
  }

  /** In every run a registered peer that is nowhere any more was replaced by a promotion whose close of it raised. */
  lemma NoPeerIsDropped(peer: PeerId, selection: Selection, events: seq<Event>, p: PeerId)
    requires p in Run(Init(peer, selection), events).peers.registered
    ensures Tracked(Run(Init(peer, selection), events), p) || SomeReplacedCloseRaised(Init(peer, selection), events, p)
  {
    PeersInvRun(Init(peer, selection), events);
    LostExactly(Init(peer, selection), events, p);
  }

  /** Once the call is terminal and its switch task has finished, every peer is in a cleanup of its own, being closed,
      closed, in the ledger, or was lost that way. */
  lemma TerminalCallHandsOverEveryPeer(peer: PeerId, selection: Selection, events: seq<Event>, p: PeerId)
    requires Run(Init(peer, selection), events).ended
    requires Run(Init(peer, selection), events).tasks.switches == map[]
    requires p in Run(Init(peer, selection), events).peers.registered
    ensures var s := Run(Init(peer, selection), events);
            || p in s.peers.owned || p in s.peers.closing || p in s.peers.closed || p in LedgerPeers(s)
            || SomeReplacedCloseRaised(Init(peer, selection), events, p)
  {
    PeersInvRun(Init(peer, selection), events);
    LostExactly(Init(peer, selection), events, p);
  }

  /** Epoch, active generation and newest generation never go back, in any run. */
  lemma GenerationsGrow(peer: PeerId, selection: Selection, events: seq<Event>, e: Event)
    ensures var s := Run(Init(peer, selection), events);
            && s.epoch <= Next(s, e).epoch
            && s.activeGeneration <= Next(s, e).activeGeneration <= Next(s, e).candidateGeneration
            && s.candidateGeneration <= Next(s, e).candidateGeneration
  {
    PeersInvRun(Init(peer, selection), events);
    HandoverNext(Run(Init(peer, selection), events), e);
    ActiveGrows(Run(Init(peer, selection), events), e);
  }

  lemma ActiveGrows(s: Life, e: Event)
    requires LifeInv(s) && HandoverInv(s)
    ensures s.activeGeneration <= Next(s, e).activeGeneration && s.epoch <= Next(s, e).epoch
    ensures s.candidateGeneration <= Next(s, e).candidateGeneration
  {}

  // ---- runs in which no lost transport interrupts a switch to the peer that is already active ----

  ghost predicate SwitchInv(s: Life) {
    && (s.phase.Switching? <==> s.switching.transaction.Some?)
    && (s.phase.Switching? <==> s.switching.owner.Some?)
    && (s.phase.Switching? ==>
          var t := s.switching.transaction.value;
          && s.switching.owner == Some(t.peer) && s.switching.task == Some(t.task) && t.task == s.switching.generation
          && s.tasks.switches.Keys == {t.task} && s.switching.retiringPeer == t.previous
          && s.switching.retiringGeneration == Some(s.activeGeneration))
    && (s.phase.Stable? || s.phase.Reconnecting? ==> s.tasks.switches.Keys == {} && s.switching.retiringPeer.None?)
  }

  predicate CurrentTimer(s: Life) {
    TimerArmed(s) && s.tasks.timers[s.reconnect.graceTask.value] == Timer(s.epoch, s.peer)
  }

  ghost predicate ReconnectInv(s: Life) {
    && (s.phase.Stable? ==> s.reconnect == NO_RECONNECT.(backfills := s.reconnect.backfills))
    && (s.phase.Reconnecting? ==>
          && s.reconnect.gracePeer == Some(s.peer) && s.reconnect.loss.Some?
          && (TimerArmed(s) ==> CurrentTimer(s))
          && (TimerArmed(s) || s.reconnect.backfills > 0))
    && (forall k | k in s.tasks.timers :: k < s.tasks.nextTimer)
    && (s.reconnect.graceTask.Some? ==> s.reconnect.graceTask.value < s.tasks.nextTimer)
  }

  ghost predicate OwnershipInv(s: Life) {
    SwitchInv(s) && ReconnectInv(s)
  }

  /** A switch was accepted for the peer that was already active, and that peer's transport is lost. */
  predicate InterruptsSelfSwitch(s: Life, e: Event) {
    && e.EBeginReconnect? && s.phase.Switching? && s.switching.transaction.Some?
    && s.switching.transaction.value.previous.None? && e.peer == s.peer
    && (e.generation.None? || e.generation.value == s.activeGeneration)
  }

  lemma OwnershipAccept(s: Life, peer: PeerId, generation: Option<nat>, speechActive: bool)
    requires LifeInv(s) && HandoverInv(s) && OwnershipInv(s)
    ensures OwnershipInv(Accept(s, peer, generation, speechActive))
  {
    if CanAccept(s, peer, generation) && ChangesSelection(s) {
      var t := StartSwitch(s, speechActive);
      assert t.tasks.switches.Keys == s.tasks.switches.Keys + {t.switching.generation};
    }
  }

  lemma OwnershipClean(s: Life, task: nat, errors: bool, closeFails: bool)
    requires OwnershipInv(s)
    ensures OwnershipInv(CleanSwitch(s, task, errors, closeFails))
  {
    assert CleanSwitch(s, task, errors, closeFails).tasks.switches.Keys == s.tasks.switches.Keys;
  }

  /** A switch task that finishes before the call ends still owns the switch. */
  lemma OwnershipIsNotLost(s: Life, task: nat)
    requires LifeInv(s) && OwnershipInv(s)
    requires task in s.tasks.switches && !s.ended
    ensures OwnsSwitch(s, s.tasks.switches[task].switch)
  {
    assert s.phase.Switching?;
    assert task in {s.switching.generation};
  }

  lemma OwnershipFinish(s: Life, task: nat, leaseFails: bool, raises: bool)
    requires LifeInv(s) && HandoverInv(s) && OwnershipInv(s)
    ensures OwnershipInv(FinishSwitch(s, task, leaseFails, raises))
  {
    if task in s.tasks.switches && s.tasks.switches[task].stage.Cleaned? && !s.ended {
      OwnershipIsNotLost(s, task);
      assert s.tasks.switches.Keys == {task};
      assert (s.tasks.switches - {task}).Keys == {};
    }
  }

  lemma OwnershipReconnect(s: Life, peer: PeerId, loss: Loss, generation: Option<nat>)
    requires LifeInv(s) && HandoverInv(s) && OwnershipInv(s)
    requires !InterruptsSelfSwitch(s, EBeginReconnect(peer, loss, generation))
    ensures OwnershipInv(BeginReconnect(s, peer, loss, generation))
  {
    assert s.phase.Switching? ==> IgnoresLoss(s, peer, generation);
  }

  lemma OwnershipResolve(s: Life, epoch: Option<nat>, peer: Option<PeerId>)
    requires LifeInv(s) && OwnershipInv(s)
    ensures OwnershipInv(ResolveDeferred(s, epoch, peer))
  {}

  lemma OwnershipFire(s: Life, timer: nat)
    requires LifeInv(s) && OwnershipInv(s)
    ensures OwnershipInv(FireTimer(s, timer))
  {
    if timer in s.tasks.timers {
      OwnershipResolve(s, Some(s.tasks.timers[timer].epoch), Some(s.tasks.timers[timer].peer));
    }
  }

  lemma OwnershipOther(s: Life, e: Event)
    requires LifeInv(s) && OwnershipInv(s)
    requires e.ERegister? || e.EReject? || e.ESettleClose? || e.EDropTimer? || e.ERecover? || e.EWriteState? || e.ETerminate?
    ensures OwnershipInv(Next(s, e))
  {}

  lemma OwnershipBackfill(s: Life, e: Event)
    requires LifeInv(s) && OwnershipInv(s) && (e.EBeginBackfill? || e.EEndBackfill?)
    ensures OwnershipInv(Next(s, e))
  {}

  lemma OwnershipNext(s: Life, e: Event)
    requires LifeInv(s) && HandoverInv(s) && OwnershipInv(s) && !InterruptsSelfSwitch(s, e)
    ensures OwnershipInv(Next(s, e))
  {
    match e
    case EAccept(peer, generation, speechActive) => OwnershipAccept(s, peer, generation, speechActive);
    case ECleanSwitch(task, errors, closeFails) => OwnershipClean(s, task, errors, closeFails);
    case EFinishSwitch(task, leaseFails, raises) => OwnershipFinish(s, task, leaseFails, raises);
    case EBeginReconnect(peer, loss, generation) => OwnershipReconnect(s, peer, loss, generation);
    case EResolve(epoch, gracePeer) => OwnershipResolve(s, epoch, gracePeer);
    case EFireTimer(timer) => OwnershipFire(s, timer);
    case EBeginBackfill => OwnershipBackfill(s, e);
    case EEndBackfill => OwnershipBackfill(s, e);
    case _ => OwnershipOther(s, e);
  }

  /** The exact step that breaks it: interrupting a switch to the active peer itself. */
  lemma OwnershipKeptExactly(s: Life, e: Event)
    requires LifeInv(s) && HandoverInv(s) && OwnershipInv(s)
    ensures OwnershipInv(Next(s, e)) <==> !InterruptsSelfSwitch(s, e)
  {
    if InterruptsSelfSwitch(s, e) {
      assert Next(s, e).phase.Reconnecting? && Next(s, e).switching == s.switching;
    } else {
      OwnershipNext(s, e);
    }
  }

  ghost predicate NeverInterruptsSelfSwitch(s: Life, events: seq<Event>)
    decreases |events|
  {
    events != [] ==>
      && NeverInterruptsSelfSwitch(s, events[..|events| - 1])
      && !InterruptsSelfSwitch(Run(s, events[..|events| - 1]), events[|events| - 1])
  }

  /** The lifecycle invariant, over whole runs. */
  lemma {:induction false} OwnershipRun(peer: PeerId, selection: Selection, events: seq<Event>)
    requires NeverInterruptsSelfSwitch(Init(peer, selection), events)
    ensures LifeInv(Run(Init(peer, selection), events)) && PeersInv(Run(Init(peer, selection), events))
    ensures OwnershipInv(Run(Init(peer, selection), events))
    decreases |events|
  {
    PeersInvRun(Init(peer, selection), events);
    if events != [] {
      var init := events[..|events| - 1];
      OwnershipRun(peer, selection, init);
      OwnershipNext(Run(Init(peer, selection), init), events[|events| - 1]);
    }
  }

  /** No registration passes the connection that is already active: `peer is not self.peer_connection`. */
  ghost predicate RegistersOtherPeers(s: Life, events: seq<Event>)
    decreases |events|
  {
    events != [] ==>
      && RegistersOtherPeers(s, events[..|events| - 1])
      && (events[|events| - 1].ERegister? ==> events[|events| - 1].peer != Run(s, events[..|events| - 1]).peer)
  }

  ghost predicate OtherPeersInv(s: Life) {
    && (s.candidate.Some? ==> s.candidate.value.peer != s.peer)
    && (s.phase.Switching? && s.switching.transaction.Some? ==> s.switching.transaction.value.previous.Some?)
  }

  lemma OtherPeersNext(s: Life, e: Event)
    requires LifeInv(s) && OwnershipInv(s) && OtherPeersInv(s)
    requires e.ERegister? ==> e.peer != s.peer
    ensures OtherPeersInv(Next(s, e))
  {}

  /** A caller that registers a new connection for every offer, as the signalling route does, never breaks it. */
  lemma {:induction false} NewPeersKeepOwnership(peer: PeerId, selection: Selection, events: seq<Event>)
    requires RegistersOtherPeers(Init(peer, selection), events)
    ensures NeverInterruptsSelfSwitch(Init(peer, selection), events)
    ensures OtherPeersInv(Run(Init(peer, selection), events))
    decreases |events|
  {
    if events != [] {
      var init := events[..|events| - 1];
      NewPeersKeepOwnership(peer, selection, init);
      OwnershipRun(peer, selection, init);
      OtherPeersNext(Run(Init(peer, selection), init), events[|events| - 1]);
    }
  }

  /** In such runs the branch of switch completion that finds its ownership lost is never taken. */
  lemma OwnershipLostIsUnreachable(peer: PeerId, selection: Selection, events: seq<Event>, task: nat)
    requires RegistersOtherPeers(Init(peer, selection), events)
    requires task in Run(Init(peer, selection), events).tasks.switches && !Run(Init(peer, selection), events).ended
    ensures OwnsSwitch(Run(Init(peer, selection), events), Run(Init(peer, selection), events).tasks.switches[task].switch)
  {
    NewPeersKeepOwnership(peer, selection, events);
    OwnershipRun(peer, selection, events);
    OwnershipIsNotLost(Run(Init(peer, selection), events), task);
  }

  /** A reconnecting call always has a way on: an admitted backfill, or a timer whose firing ends the call. */
  lemma ReconnectIsNeverStuck(peer: PeerId, selection: Selection, events: seq<Event>)
    requires RegistersOtherPeers(Init(peer, selection), events)
    requires Run(Init(peer, selection), events).phase.Reconnecting?
    ensures var s := Run(Init(peer, selection), events);
            || s.reconnect.backfills > 0
            || (CurrentTimer(s) && FireTimer(s, s.reconnect.graceTask.value).ended)
  {
    NewPeersKeepOwnership(peer, selection, events);
    OwnershipRun(peer, selection, events);
  }

  /** A deferred loss ends the call exactly when the call is still reconnecting, no backfill is admitted, and the
      request is about this reconnect: its epoch and its peer, as far as it names them. Otherwise it changes nothing
      but the finished timer; and how the call ends is how the transport was lost. */
  lemma ReconnectEndsExactly(
      peer: PeerId, selection: Selection, events: seq<Event>, epoch: Option<nat>, gracePeer: Option<PeerId>)
    requires RegistersOtherPeers(Init(peer, selection), events)
    ensures var s := Run(Init(peer, selection), events);
            var t := Next(s, EResolve(epoch, gracePeer));
            var ends := && s.phase.Reconnecting? && s.reconnect.backfills == 0
                        && (epoch.None? || epoch.value == s.epoch) && (gracePeer.None? || gracePeer.value == s.peer);
            && (t.ended && !s.ended <==> ends)
            && (ends ==> t.state == if s.reconnect.loss == Some(LostFailed) then Failed else Ended)
            && (!ends ==> t == s.(reconnect := s.reconnect.(graceTask := t.reconnect.graceTask)))
  {
    NewPeersKeepOwnership(peer, selection, events);
    OwnershipRun(peer, selection, events);
    hide Run, RegistersOtherPeers, NeverInterruptsSelfSwitch, PeersInv, SwitchInv;
    ResolveEnds(Run(Init(peer, selection), events), epoch, gracePeer);
  }

  /** The transport is recovered exactly by a report about the active peer, and its generation as far as it names one,
      while the call is reconnecting; then the call is stable, and otherwise nothing changes. */
  lemma RecoversExactly(
      peer: PeerId, selection: Selection, events: seq<Event>, reported: PeerId, generation: Option<nat>)
    requires RegistersOtherPeers(Init(peer, selection), events)
    ensures var s := Run(Init(peer, selection), events);
            var t := Next(s, ERecover(reported, generation));
            if s.phase.Reconnecting? && reported == s.peer && (generation.None? || generation.value == s.activeGeneration)
            then t.phase.Stable? && !TimerArmed(t) && t.peer == s.peer && !t.ended
            else t == s
  {
    NewPeersKeepOwnership(peer, selection, events);
    OwnershipRun(peer, selection, events);
    hide Run, RegistersOtherPeers, NeverInterruptsSelfSwitch, PeersInv, SwitchInv;
    RecoverEnds(Run(Init(peer, selection), events), reported, generation);
  }

  lemma RecoverEnds(s: Life, reported: PeerId, generation: Option<nat>)
    requires LifeInv(s) && ReconnectInv(s)
    ensures var t := Recover(s, reported, generation);
            if s.phase.Reconnecting? && reported == s.peer && (generation.None? || generation.value == s.activeGeneration)
            then t.phase.Stable? && !TimerArmed(t) && t.peer == s.peer && !t.ended
            else t == s
  {
    hide DecisionsInv, CandidateInv, TasksInv, RecordInv, TransactionInv;
  }

  lemma ResolveEnds(s: Life, epoch: Option<nat>, gracePeer: Option<PeerId>)
    requires LifeInv(s) && ReconnectInv(s)
    ensures var t := ResolveDeferred(s, epoch, gracePeer);
            var ends := && s.phase.Reconnecting? && s.reconnect.backfills == 0
                        && (epoch.None? || epoch.value == s.epoch) && (gracePeer.None? || gracePeer.value == s.peer);
            && (t.ended && !s.ended <==> ends)
            && (ends ==> t.state == if s.reconnect.loss == Some(LostFailed) then Failed else Ended)
            && (!ends ==> t == s.(reconnect := s.reconnect.(graceTask := t.reconnect.graceTask)))
  {
    hide DecisionsInv, CandidateInv, TasksInv, RecordInv, TransactionInv;
  }

  /** The backfills admitted while the call could admit them, and not yet ended. */
  function OpenBackfills(s: Life, events: seq<Event>): nat
    decreases |events|
  {
    if events == [] then 0 else
    var init, e := events[..|events| - 1], events[|events| - 1];
    var open, before := OpenBackfills(s, init), Run(s, init);
    if e.EBeginBackfill? && !before.ended && before.state !in {Ended, Failed} then open + 1
    else if e.EEndBackfill? && open > 0 then open - 1
    else open
  }

  lemma BackfillStep(s: Life, e: Event)
    requires LifeInv(s)
    ensures Next(s, e).reconnect.backfills
            == if e.EBeginBackfill? && !s.ended && s.state !in {Ended, Failed} then s.reconnect.backfills + 1
               else if e.EEndBackfill? && s.reconnect.backfills > 0 then s.reconnect.backfills - 1
               else s.reconnect.backfills
  {
    hide DecisionsInv, CandidateInv, TasksInv, RecordInv, TransactionInv;
  }

  /** A reconnect waits for exactly the backfills that were admitted on the live call and have not ended, through
      recoveries, switches and the end. */
  lemma {:induction false} BackfillsAreCounted(peer: PeerId, selection: Selection, events: seq<Event>)
    ensures Run(Init(peer, selection), events).reconnect.backfills == OpenBackfills(Init(peer, selection), events)
    ensures LifeInv(Run(Init(peer, selection), events))
    decreases |events|
  {
    hide LifeInv, Next;
    if events == [] {
      LifeInvInit(peer, selection);
    } else {
      BackfillsAreCounted(peer, selection, events[..|events| - 1]);
      BackfillStep(Run(Init(peer, selection), events[..|events| - 1]), events[|events| - 1]);
      LifeInvNext(Run(Init(peer, selection), events[..|events| - 1]), events[|events| - 1]);
    }
  }

  function Lose(s: Life, losses: seq<Loss>): Life
    decreases |losses|
  {
    if losses == [] then s else BeginReconnect(Lose(s, losses[..|losses| - 1]), s.peer, losses[|losses| - 1], None)
  }

  lemma {:induction false} LossesAddUp(s: Life, losses: seq<Loss>)
    requires OwnershipInv(s) && s.phase.Stable? && !s.ended && losses != []
    ensures var t := Lose(s, losses);
            && t.phase.Reconnecting? && !t.ended && t.peer == s.peer && t.reconnect.gracePeer == Some(s.peer)
            && t.reconnect.backfills == s.reconnect.backfills
            && CurrentTimer(t) && t.reconnect.loss == Some(if LostFailed in losses then LostFailed else LostClosed)
    decreases |losses|
  {
    var before, last := losses[..|losses| - 1], losses[|losses| - 1];
    assert losses == before + [last];
    assert LostFailed in losses <==> LostFailed in before || last == LostFailed;
    if before != [] {
      LossesAddUp(s, before);
      assert Lose(s, losses) == NoteLoss(Lose(s, before), last);
    } else {
      assert Lose(s, losses) == BeginReconnect(s, s.peer, last, None);
    }
  }

  /** No timer is ahead of the call. */
  ghost predicate TimerEpochs(s: Life) {
    forall k | k in s.tasks.timers :: s.tasks.timers[k].epoch <= s.epoch
  }

  lemma {:induction false} TimerEpochsRun(s: Life, events: seq<Event>)
    requires TimerEpochs(s)
    ensures TimerEpochs(Run(s, events))
    decreases |events|
  {
    hide Next, TimerEpochs;
    if events != [] {
      TimerEpochsRun(s, events[..|events| - 1]);
      TimerEpochsNext(Run(s, events[..|events| - 1]), events[|events| - 1]);
    }
  }

  lemma TimerEpochsNext(s: Life, e: Event)
    requires TimerEpochs(s)
    ensures TimerEpochs(Next(s, e))
  {}

  /** The exact step that can strand a reconnect: interrupting a switch to the active peer itself while the timer of
      an older reconnect has not ended. Every other step leaves a reconnecting call a current timer or a backfill. */
  lemma ReconnectKeptExactly(s: Life, e: Event)
    requires LifeInv(s) && HandoverInv(s) && OwnershipInv(s) && TimerEpochs(s)
    ensures ReconnectInv(Next(s, e)) <==> !(InterruptsSelfSwitch(s, e) && TimerArmed(s))
  {
    if !InterruptsSelfSwitch(s, e) {
      hide LifeInv, HandoverInv, OwnershipInv, Next;
      OwnershipNext(s, e);
      ReconnectPart(Next(s, e));
    } else {
      hide HandoverInv, DecisionsInv, TasksInv, TransactionInv;
      var t := Next(s, e);
      assert t.phase.Reconnecting? && t.epoch == s.epoch + 1 && t.reconnect.gracePeer == Some(t.peer);
    }
  }

  lemma InitIsQuiet(peer: PeerId, selection: Selection)
    ensures TimerEpochs(Init(peer, selection))
  {}

  /** So in every run up to the first such interruption a reconnecting call has its timer or backfill, and the next
      step takes it away exactly when it is that interruption with a timer armed. */
  lemma ReconnectKeptInRuns(peer: PeerId, selection: Selection, events: seq<Event>, e: Event)
    requires NeverInterruptsSelfSwitch(Init(peer, selection), events)
    ensures var s := Run(Init(peer, selection), events);
            && ReconnectInv(s)
            && (ReconnectInv(Run(Init(peer, selection), events + [e])) <==> !(InterruptsSelfSwitch(s, e) && TimerArmed(s)))
  {
    hide LifeInv, PeersInv, HandoverInv, SwitchInv, ReconnectInv, TimerEpochs, Run, Next, NeverInterruptsSelfSwitch;
    InitIsQuiet(peer, selection);
    OwnershipRun(peer, selection, events);
    TimerEpochsRun(Init(peer, selection), events);
    HandoverPart(Run(Init(peer, selection), events));
    ReconnectKeptExactly(Run(Init(peer, selection), events), e);
    RunSnoc(Init(peer, selection), events, e);
  }

  lemma HandoverPart(s: Life)
    requires PeersInv(s)
    ensures HandoverInv(s)
  {
    hide HandoverInv;
  }

  lemma ReconnectPart(s: Life)
    requires OwnershipInv(s)
    ensures ReconnectInv(s)
  {}

  // ---- the durable record of switch outcomes ----

  lemma RecordNext(s: Life, e: Event)
    requires s.lastSwitch.Some?
    ensures Next(s, e).lastSwitch.Some? && s.lastSwitch.value.generation <= Next(s, e).lastSwitch.value.generation
  {}

  /** The generation of the recorded outcome never goes back: an older switch that finishes late is not recorded over
      a newer one. */
  lemma {:induction false} RecordedGenerationGrows(s: Life, events: seq<Event>)
    requires s.lastSwitch.Some?
    ensures Run(s, events).lastSwitch.Some?
    ensures s.lastSwitch.value.generation <= Run(s, events).lastSwitch.value.generation
    decreases |events|
  {
    hide Next;
    if events != [] {
      RecordedGenerationGrows(s, events[..|events| - 1]);
      RecordNext(Run(s, events[..|events| - 1]), events[|events| - 1]);
    }
  }

  /** However often and in whatever order the transport is reported lost, the timer ends the call as failed exactly
      when one report said failed. */
  lemma WorstLossDecides(s: Life, losses: seq<Loss>)
    requires OwnershipInv(s) && s.phase.Stable? && !s.ended && s.reconnect.backfills == 0 && losses != []
    ensures var t := Lose(s, losses);
            && TimerArmed(t)
            && var after := FireTimer(t, t.reconnect.graceTask.value);
               after.ended && after.state == if LostFailed in losses then Failed else Ended
  {
    LossesAddUp(s, losses);
    hide Lose, OwnershipInv;
  }

  /** When the last backfill ends, the timer is there again. */
  lemma BackfillRearmsTimer(s: Life)
    requires OwnershipInv(s) && s.phase.Reconnecting? && s.reconnect.backfills == 1
    ensures CurrentTimer(EndBackfill(s))
  {}

  // ---- timers, in every run ----

  lemma EpochNamesReconnect(s: Life, e: Event)
    requires LifeInv(s) && Next(s, e).epoch == s.epoch && Next(s, e).phase.Reconnecting?
    ensures s.phase.Reconnecting?
  {}

  lemma TimersKeepTheirEpoch(s: Life, e: Event, timer: nat)
    requires timer in Next(s, e).tasks.timers && timer < s.tasks.nextTimer
    ensures timer in s.tasks.timers && s.tasks.timers[timer] == Next(s, e).tasks.timers[timer]
    ensures timer < Next(s, e).tasks.nextTimer
  {}

  lemma {:induction false} SameEpochSameReconnect(s: Life, events: seq<Event>, i: nat)
    requires LifeInv(s) && PeersInv(s) && i <= |events|
    requires Run(s, events[..i]).epoch == Run(s, events).epoch && Run(s, events).phase.Reconnecting?
    ensures Run(s, events[..i]).phase.Reconnecting?
    decreases |events|
  {
    if i == |events| {
      assert events[..i] == events;
    } else {
      var init, e := events[..|events| - 1], events[|events| - 1];
      assert init[..i] == events[..i];
      PeersInvRun(s, init);
      EpochGrows(s, init, i);
      ActiveGrows(Run(s, init), e);
      EpochNamesReconnect(Run(s, init), e);
      SameEpochSameReconnect(s, init, i);
    }
  }

  lemma {:induction false} EpochGrows(s: Life, events: seq<Event>, i: nat)
    requires LifeInv(s) && PeersInv(s) && i <= |events|
    ensures Run(s, events[..i]).epoch <= Run(s, events).epoch
    decreases |events|
  {
    if i == |events| {
      assert events[..i] == events;
    } else {
      var init := events[..|events| - 1];
      assert init[..i] == events[..i];
      PeersInvRun(s, init);
      EpochGrows(s, init, i);
      ActiveGrows(Run(s, init), events[|events| - 1]);
    }
  }

  lemma {:induction false} TimerIsTheSame(s: Life, events: seq<Event>, i: nat, timer: nat)
    requires i <= |events| && timer < Run(s, events[..i]).tasks.nextTimer && timer in Run(s, events).tasks.timers
    ensures timer in Run(s, events[..i]).tasks.timers
    ensures Run(s, events[..i]).tasks.timers[timer] == Run(s, events).tasks.timers[timer]
    ensures timer < Run(s, events).tasks.nextTimer
    decreases |events|
  {
    if i == |events| {
      assert events[..i] == events;
    } else {
      var init, e := events[..|events| - 1], events[|events| - 1];
      assert init[..i] == events[..i];
      NextTimerGrows(s, init, i);
      TimersKeepTheirEpoch(Run(s, init), e, timer);
      TimerIsTheSame(s, init, i, timer);
    }
  }

  lemma {:induction false} NextTimerGrows(s: Life, events: seq<Event>, i: nat)
    requires i <= |events|
    ensures Run(s, events[..i]).tasks.nextTimer <= Run(s, events).tasks.nextTimer
    decreases |events|
  {
    if i == |events| {
      assert events[..i] == events;
    } else {
      var init := events[..|events| - 1];
      assert init[..i] == events[..i];
      NextTimerGrows(s, init, i);
      TimerNumbersGrow(Run(s, init), events[|events| - 1]);
    }
  }

  lemma TimerNumbersGrow(s: Life, e: Event)
    ensures s.tasks.nextTimer <= Next(s, e).tasks.nextTimer
  {}

  lemma FiresInItsEpoch(s: Life, timer: nat)
    requires !s.ended && FireTimer(s, timer).ended
    ensures timer in s.tasks.timers && s.phase.Reconnecting? && s.tasks.timers[timer].epoch == s.epoch
  {}

  /** A timer armed before point `i` that ends the call does so within the reconnect it was armed for:
      the call was reconnecting, with the timer's own epoch, at every point from then on. */
  lemma TimerEndsOnlyItsOwnReconnect(peer: PeerId, selection: Selection, events: seq<Event>, i: nat, timer: nat)
    requires i <= |events|
    requires timer in Run(Init(peer, selection), events[..i]).tasks.timers
    requires timer < Run(Init(peer, selection), events[..i]).tasks.nextTimer
    requires Run(Init(peer, selection), events[..i]).tasks.timers[timer].epoch == Run(Init(peer, selection), events[..i]).epoch
    requires !Run(Init(peer, selection), events).ended && FireTimer(Run(Init(peer, selection), events), timer).ended
    ensures forall k: nat :: i <= k <= |events| ==>
              && Run(Init(peer, selection), events[..k]).phase.Reconnecting?
              && Run(Init(peer, selection), events[..k]).epoch == Run(Init(peer, selection), events).epoch
  {
    var s := Init(peer, selection);
    TimerIsTheSame(s, events, i, timer);
    FiresInItsEpoch(Run(s, events), timer);
    hide Run, FireTimer;
    forall k: nat | i <= k <= |events|
      ensures Run(s, events[..k]).phase.Reconnecting? && Run(s, events[..k]).epoch == Run(s, events).epoch
    {
      assert events[..k][..i] == events[..i];
      EpochGrows(s, events[..k], i);
      EpochGrows(s, events, k);
      SameEpochSameReconnect(s, events, k);
    }
  }

  /** Recovering at once undoes a lost transport, up to a new epoch and a timer left to expire. */
  lemma RecoverUndoesLoss(s: Life, loss: Loss)
    requires LifeInv(s) && OwnershipInv(s) && s.phase.Stable?
    ensures var t := Recover(BeginReconnect(s, s.peer, loss, None), s.peer, None);
            && t.epoch == s.epoch + 1
            && t == s.(epoch := t.epoch, tasks := t.tasks, state := t.state, candidate := t.candidate)
            && (s.state != ReconnectingState ==> t.state == s.state)
            && t.candidate.Some? == s.candidate.Some?
            && !TimerArmed(t)
  {}

  // ---- what goes wrong when the active peer is registered again ----

  lemma RunNone(s: Life)
    ensures Run(s, []) == s
  {}

  /** The first two steps of both examples: the active peer is registered again and its switch begins. */
  lemma SelfSwitchStarts(s: Life)
    requires s.peer == 0 && s.candidate.None? && s.candidateGeneration == 0 && !s.ended
    requires (s.phase.Stable? || s.phase.Reconnecting?) && s.state !in {Ended, Failed}
    requires s.selection == Selection(1, 1) && s.switching.generation == 0
    ensures var t := Accept(Register(s, 0, Some(Selection(2, 2))), 0, Some(1), false);
            && t.phase.Switching? && t.peer == 0 && t.reconnect == s.reconnect && !t.ended
            && t.switching.retiringPeer.None? && 1 in t.tasks.switches
            && t.epoch == s.epoch && t.activeGeneration == s.activeGeneration
            && t.tasks.timers == s.tasks.timers && t.tasks.nextTimer == s.tasks.nextTimer
  {}

  /** Three steps after which a switch task finds its ownership lost on a live call. */
  lemma SelfSwitchLosesOwnership() returns (events: seq<Event>)
    ensures var s := Run(Init(0, Selection(1, 1)), events);
            && !s.ended && 1 in s.tasks.switches
            && !OwnsSwitch(s, s.tasks.switches[1].switch)
  {
    var s := Init(0, Selection(1, 1));
    var e1 := ERegister(0, Some(Selection(2, 2)));
    var e2 := EAccept(0, Some(1), false);
    var e3 := EBeginReconnect(0, LostFailed, None);
    SelfSwitchStarts(s);
    RunSnoc(s, [], e1);
    RunSnoc(s, [] + [e1], e2);
    RunSnoc(s, [] + [e1] + [e2], e3);
    events := [] + [e1] + [e2] + [e3];
    assert Run(s, events).phase.Reconnecting?;
  }

  lemma LateTimerIsIgnored(s: Life)
    requires s.peer == 0 && s.phase.Switching? && s.switching.retiringPeer.None? && !s.ended
    requires s.reconnect.graceTask == Some(0) && s.reconnect.backfills == 0 && s.epoch == 1
    requires s.tasks.timers == map[0 := Timer(1, 0)]
    ensures var t := FireTimer(BeginReconnect(s, 0, LostFailed, None), 0);
            t.phase.Reconnecting? && t.reconnect.backfills == 0 && t.tasks.timers == map[]
  {}

  lemma StrandingSteps(s: Life)
    requires s == Init(0, Selection(1, 1))
    ensures var lost := BeginReconnect(s, 0, LostFailed, None);
            var switching := Accept(Register(lost, 0, Some(Selection(2, 2))), 0, Some(1), false);
            var t := FireTimer(BeginReconnect(switching, 0, LostFailed, None), 0);
            t.phase.Reconnecting? && t.reconnect.backfills == 0 && t.tasks.timers == map[]
  {
    var lost := BeginReconnect(s, 0, LostFailed, None);
    assert lost.phase.Reconnecting? && lost.reconnect.graceTask == Some(0) && lost.tasks.timers == map[0 := Timer(1, 0)];
    SelfSwitchStarts(lost);
    hide BeginReconnect, Register, Accept, FireTimer;
    LateTimerIsIgnored(Accept(Register(lost, 0, Some(Selection(2, 2))), 0, Some(1), false));
  }

  /** And a reconnect that no timer will ever end. */
  lemma SelfSwitchCanStrandReconnect() returns (events: seq<Event>)
    ensures var s := Run(Init(0, Selection(1, 1)), events);
            && s.phase.Reconnecting? && s.reconnect.backfills == 0
            && s.tasks.timers == map[]
  {
    var s := Init(0, Selection(1, 1));
    StrandingSteps(s);
    RunNone(s);
    hide Run, BeginReconnect, Register, Accept, FireTimer;
    var e1 := EBeginReconnect(0, LostFailed, None);
    var e2 := ERegister(0, Some(Selection(2, 2)));
    var e3 := EAccept(0, Some(1), false);
    var e5 := EFireTimer(0);
    RunSnoc(s, [], e1);
    RunSnoc(s, [] + [e1], e2);
    RunSnoc(s, [] + [e1] + [e2], e3);
    RunSnoc(s, [] + [e1] + [e2] + [e3], e1);
    RunSnoc(s, [] + [e1] + [e2] + [e3] + [e1], e5);
    events := [] + [e1] + [e2] + [e3] + [e1] + [e5];
  }
}
