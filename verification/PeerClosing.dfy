/**
  Where the old peers go: which closes are retried, which are tried once, and exactly when a peer is lost.

  The first part needs only that no offer registers the connection that is already active. The second part is about
  runs in which every offer brings a new connection, as the signalling route makes them.
*/
module PeerClosing {
  import opened Wrappers
  import opened PeerLifecycle
  import opened PeerDecisions
  import opened PeerOwnership

  /** What holds in the runs of the first part. */
  ghost predicate SteadyInv(s: Life) {
    LifeInv(s) && HandoverInv(s) && OwnershipInv(s) && OtherPeersInv(s)
  }

  lemma SteadyRun(peer: PeerId, selection: Selection, events: seq<Event>)
    requires RegistersOtherPeers(Init(peer, selection), events)
    ensures SteadyInv(Run(Init(peer, selection), events))
  {
    hide LifeInv, HandoverInv, OwnershipInv, OtherPeersInv, Run;
    NewPeersKeepOwnership(peer, selection, events);
    OwnershipRun(peer, selection, events);
    hide RegistersOtherPeers, NeverInterruptsSelfSwitch;
    HandoverPart(Run(Init(peer, selection), events));
  }

  // ---- switches ----

  function Sides(switch: Switch): set<PeerId> {
    {switch.peer} + OptionSet(switch.previous)
  }

  /** A switch that a terminal transition overtook has both its peers in the ledger. */
  ghost predicate TakenInv(s: Life) {
    s.ended ==> forall k | k in s.tasks.switches :: Sides(s.tasks.switches[k].switch) <= LedgerPeers(s)
  }

  /** A peer whose close by a switch raised is still with that switch, or in the ledger. */
  ghost predicate UnclosedInv(s: Life) {
    forall p | p in s.peers.unclosed :: p in LedgerPeers(s) || Unresolved(s, p)
  }

  ghost predicate Unresolved(s: Life, p: PeerId) {
    exists k :: k in s.tasks.switches && s.tasks.switches[k].stage == Cleaned(true, Some(p))
  }

  lemma TakenTerminate(s: Life, target: CallState, extras: set<PeerId>)
    requires SteadyInv(s) && TakenInv(s)
    ensures TakenInv(TransitionTerminal(s, target, extras))
  {
    hide ReconnectInv, CleanedInv;
    if !s.ended {
      assert forall k | k in s.tasks.switches :: k in {s.switching.transaction.value.task};
    }
  }

  lemma TakenFinish(s: Life, task: nat, leaseFails: bool, raises: bool)
    requires SteadyInv(s) && TakenInv(s)
    ensures TakenInv(FinishSwitch(s, task, leaseFails, raises))
  {
    hide ReconnectInv, CleanedInv;
    if task in s.tasks.switches && !s.ended {
      assert forall k | k in s.tasks.switches :: k in {s.switching.transaction.value.task};
    }
  }

  lemma TakenNext(s: Life, e: Event)
    requires SteadyInv(s) && TakenInv(s)
    ensures TakenInv(Next(s, e))
  {
    hide SteadyInv, FinishSwitch, TransitionTerminal;
    match e
    case EFinishSwitch(task, leaseFails, raises) => TakenFinish(s, task, leaseFails, raises);
    case ETerminate(target) => TakenTerminate(s, if target.Failed? then Failed else Ended, {});
    case EResolve(_, _) => TakenTerminate(s, Failed, {}); TakenTerminate(s, Ended, {});
    case EFireTimer(_) => TakenTerminate(s, Failed, {}); TakenTerminate(s, Ended, {});
    case EAccept(_, _, _) => AcceptIsLive(s, e);
    case _ =>
  }

  lemma AcceptIsLive(s: Life, e: Event)
    requires e.EAccept?
    ensures Next(s, e).ended == s.ended && (s.ended ==> Next(s, e) == s)
  {}

  lemma UnclosedFinish(s: Life, task: nat, leaseFails: bool, raises: bool)
    requires SteadyInv(s) && UnclosedInv(s)
    ensures UnclosedInv(FinishSwitch(s, task, leaseFails, raises))
  {
    hide ReconnectInv, DecisionsInv, CandidateInv;
    var t := FinishSwitch(s, task, leaseFails, raises);
    if task in s.tasks.switches && s.tasks.switches[task].stage.Cleaned? {
      if !s.ended { OwnershipIsNotLost(s, task); }
      forall p | p in t.peers.unclosed ensures p in LedgerPeers(t) || Unresolved(t, p) {
        if k :| k in s.tasks.switches && s.tasks.switches[k].stage == Cleaned(true, Some(p)) {
          if k == task {
            assert s.tasks.switches[k].switch.previous == Some(p);
          } else {
            assert k in t.tasks.switches;
          }
        }
      }
    }
  }

  lemma UnclosedClean(s: Life, task: nat, errors: bool, closeFails: bool)
    requires UnclosedInv(s)
    ensures UnclosedInv(CleanSwitch(s, task, errors, closeFails))
  {
    var t := CleanSwitch(s, task, errors, closeFails);
    forall p | p in t.peers.unclosed ensures p in LedgerPeers(t) || Unresolved(t, p) {
      if p !in s.peers.unclosed {
        assert task in t.tasks.switches;
      } else if k :| k in s.tasks.switches && s.tasks.switches[k].stage == Cleaned(true, Some(p)) {
        assert k in t.tasks.switches;
      }
    }
  }

  /** Steps that end no switch and change no ledger keep it. */
  lemma UnclosedSame(s: Life, t: Life)
    requires UnclosedInv(s) && t.peers.unclosed == s.peers.unclosed && LedgerPeers(s) <= LedgerPeers(t)
    requires forall k | k in s.tasks.switches :: k in t.tasks.switches && t.tasks.switches[k] == s.tasks.switches[k]
    ensures UnclosedInv(t)
  {}

  lemma UnclosedNext(s: Life, e: Event)
    requires SteadyInv(s) && UnclosedInv(s)
    ensures UnclosedInv(Next(s, e))
  {
    match e
    case EFinishSwitch(task, leaseFails, raises) => UnclosedFinish(s, task, leaseFails, raises);
    case ECleanSwitch(task, errors, closeFails) => UnclosedClean(s, task, errors, closeFails);
    case _ =>
      OtherStepsKeepSwitches(s, e);
      UnclosedSame(s, Next(s, e));
  }

  lemma OtherStepsKeepSwitches(s: Life, e: Event)
    requires LifeInv(s) && !e.EFinishSwitch? && !e.ECleanSwitch?
    ensures var t := Next(s, e);
            && t.peers.unclosed == s.peers.unclosed && LedgerPeers(s) <= LedgerPeers(t)
            && forall k | k in s.tasks.switches :: k in t.tasks.switches && t.tasks.switches[k] == s.tasks.switches[k]
  {
    hide DecisionsInv, CandidateInv, RecordInv, TransactionInv;
  }

  lemma {:induction false} SwitchPeersRun(peer: PeerId, selection: Selection, events: seq<Event>)
    requires RegistersOtherPeers(Init(peer, selection), events)
    ensures TakenInv(Run(Init(peer, selection), events)) && UnclosedInv(Run(Init(peer, selection), events))
    decreases |events|
  {
    hide Next, SteadyInv, TakenInv, UnclosedInv;
    if events == [] {
      NothingUnclosed(peer, selection);
    } else {
      var before := Run(Init(peer, selection), events[..|events| - 1]);
      SwitchPeersRun(peer, selection, events[..|events| - 1]);
      SteadyRun(peer, selection, events[..|events| - 1]);
      TakenNext(before, events[|events| - 1]);
      UnclosedNext(before, events[|events| - 1]);
    }
  }

  lemma NothingUnclosed(peer: PeerId, selection: Selection)
    ensures TakenInv(Init(peer, selection)) && UnclosedInv(Init(peer, selection))
  {}

  /** A switch's close of the old peer raises. */
  predicate SwitchCloseRaises(s: Life, e: Event, p: PeerId) {
    && e.ECleanSwitch? && e.closeFails && e.task in s.tasks.switches
    && s.tasks.switches[e.task].stage.Cleaning? && s.tasks.switches[e.task].switch.previous == Some(p)
  }

  lemma UnclosedStays(s: Life, e: Event, p: PeerId)
    ensures p in Next(s, e).peers.unclosed <==> p in s.peers.unclosed || SwitchCloseRaises(s, e, p)
  {}

  lemma {:induction false} RaisedIsUnclosed(s: Life, events: seq<Event>, i: nat, p: PeerId)
    requires i < |events| && SwitchCloseRaises(Run(s, events[..i]), events[i], p)
    ensures p in Run(s, events).peers.unclosed
    decreases |events|
  {
    hide Next, SwitchCloseRaises;
    var init, e := events[..|events| - 1], events[|events| - 1];
    UnclosedStays(Run(s, init), e, p);
    if i == |init| {
      assert events[..i] == init;
    } else {
      assert init[..i] == events[..i];
      RaisedIsUnclosed(s, init, i, p);
    }
  }

  /** When a switch's close of the old peer raises, that peer is in the terminal ledger once the switch task has
      finished, in every run. */
  lemma FailedSwitchCloseReachesLedger(peer: PeerId, selection: Selection, events: seq<Event>, i: nat, p: PeerId)
    requires RegistersOtherPeers(Init(peer, selection), events)
    requires i < |events| && SwitchCloseRaises(Run(Init(peer, selection), events[..i]), events[i], p)
    requires Run(Init(peer, selection), events).tasks.switches == map[]
    ensures p in LedgerPeers(Run(Init(peer, selection), events))
  {
    hide Next, SwitchCloseRaises;
    RaisedIsUnclosed(Init(peer, selection), events, i, p);
    SwitchPeersRun(peer, selection, events);
  }

  /** When the call ends during a switch, the ledger takes over both peers of the switch. */
  lemma TerminalTakesWholeSwitch(peer: PeerId, selection: Selection, events: seq<Event>, task: nat)
    requires RegistersOtherPeers(Init(peer, selection), events)
    requires Run(Init(peer, selection), events).ended && task in Run(Init(peer, selection), events).tasks.switches
    ensures var s := Run(Init(peer, selection), events);
            Sides(s.tasks.switches[task].switch) <= LedgerPeers(s)
  {
    SwitchPeersRun(peer, selection, events);
  }

  // ---- every offer brings a new connection ----

  ghost predicate RegistersNewPeers(s: Life, events: seq<Event>)
    decreases |events|
  {
    events != [] ==>
      && RegistersNewPeers(s, events[..|events| - 1])
      && (events[|events| - 1].ERegister? ==>
            events[|events| - 1].peer !in Run(s, events[..|events| - 1]).peers.registered)
  }

  function CandidatePeer(s: Life): set<PeerId> {
    if s.candidate.Some? then {s.candidate.value.peer} else {}
  }

  /** Every peer the call knows was registered. */
  ghost predicate KnownInv(s: Life) {
    && s.peer in s.peers.registered && CandidatePeer(s) <= s.peers.registered
    && s.peers.owned <= s.peers.registered && s.peers.closing <= s.peers.registered
    && s.peers.closed <= s.peers.registered && s.peers.lost <= s.peers.registered
    && LedgerPeers(s) <= s.peers.registered
    && (forall k | k in s.tasks.switches :: Sides(s.tasks.switches[k].switch) <= s.peers.registered)
  }

  /** A peer that is being closed, or was lost, is nowhere else; no peer has two cleanups. */
  ghost predicate ApartInv(s: Life) {
    && s.peers.closing !! s.peers.lost && s.peers.closing + s.peers.lost !! s.peers.owned + s.peers.closed
    && s.peers.closing + s.peers.lost + s.peers.owned !! LedgerPeers(s)
    && s.peer !in s.peers.closing + s.peers.lost + s.peers.owned
    && CandidatePeer(s) !! s.peers.closing + s.peers.lost + s.peers.owned + s.peers.closed + {s.peer}
    && (s.phase.Stable? || s.phase.Reconnecting? ==> s.peer !in s.peers.closed)
  }

  ghost predicate ApartSwitches(s: Life) {
    forall k | k in s.tasks.switches ::
      var switch := s.tasks.switches[k].switch;
      && Sides(switch) !! s.peers.closing + s.peers.lost + s.peers.owned
      && (!s.ended ==> switch.peer !in s.peers.closed && switch.peer != s.peer)
  }

  ghost predicate FreshInv(s: Life) {
    KnownInv(s) && ApartInv(s) && ApartSwitches(s)
  }

  lemma FreshRegister(s: Life, peer: PeerId, selection: Option<Selection>)
    requires SteadyInv(s) && FreshInv(s) && peer !in s.peers.registered
    ensures FreshInv(Register(s, peer, selection))
  {
    hide DecisionsInv, TasksInv, TransactionInv, HandoverInv, ReconnectInv;
  }

  lemma FreshReject(s: Life, peer: PeerId, generation: Option<nat>)
    requires SteadyInv(s) && FreshInv(s)
    ensures FreshInv(Reject(s, peer, generation))
  {}

  lemma FreshPromote(s: Life)
    requires SteadyInv(s) && FreshInv(s) && s.candidate.Some? && !s.ended
    ensures FreshInv(Promote(s))
  {}

  lemma FreshStartSwitch(s: Life, speechActive: bool)
    requires SteadyInv(s) && FreshInv(s) && s.candidate.Some? && ChangesSelection(s) && !s.ended
    ensures FreshInv(StartSwitch(s, speechActive))
  {}

  lemma FreshSettle(s: Life, peer: PeerId, fails: bool)
    requires FreshInv(s)
    ensures FreshInv(SettleClose(s, peer, fails))
  {}

  lemma FreshClean(s: Life, task: nat, errors: bool, closeFails: bool)
    requires SteadyInv(s) && FreshInv(s)
    ensures FreshInv(CleanSwitch(s, task, errors, closeFails))
  {}

  lemma FreshTerminate(s: Life, target: CallState)
    requires SteadyInv(s) && FreshInv(s)
    ensures FreshInv(TransitionTerminal(s, target, {}))
  {}

  lemma FreshFinish(s: Life, task: nat, leaseFails: bool, raises: bool)
    requires SteadyInv(s) && FreshInv(s) && TakenInv(s)
    ensures FreshInv(FinishSwitch(s, task, leaseFails, raises))
  {
    hide DecisionsInv, ReconnectInv, RecordInv;
  }

  lemma FreshReconnect(s: Life, peer: PeerId, loss: Loss, generation: Option<nat>)
    requires SteadyInv(s) && FreshInv(s)
    ensures FreshInv(BeginReconnect(s, peer, loss, generation))
  {
    hide DecisionsInv, TasksInv, CleanedInv, ReconnectInv, Sides;
  }

  lemma FreshOther(s: Life, e: Event)
    requires FreshInv(s)
    requires e.EDropTimer? || e.ERecover? || e.EBeginBackfill? || e.EEndBackfill? || e.EWriteState?
    ensures FreshInv(Next(s, e))
  {
    hide Sides;
  }

  lemma FreshNext(s: Life, e: Event)
    requires SteadyInv(s) && FreshInv(s) && TakenInv(s) && (e.ERegister? ==> e.peer !in s.peers.registered)
    ensures FreshInv(Next(s, e))
  {
    hide SteadyInv, FreshInv, TakenInv;
    match e
    case ERegister(peer, selection) => FreshRegister(s, peer, selection);
    case EReject(peer, generation) => FreshReject(s, peer, generation);
    case EAccept(peer, generation, speechActive) => FreshAccept(s, peer, generation, speechActive);
    case ESettleClose(peer, fails) => FreshSettle(s, peer, fails);
    case ECleanSwitch(task, errors, closeFails) => FreshClean(s, task, errors, closeFails);
    case EFinishSwitch(task, leaseFails, raises) => FreshFinish(s, task, leaseFails, raises);
    case EBeginReconnect(peer, loss, generation) => FreshReconnect(s, peer, loss, generation);
    case EResolve(epoch, gracePeer) => FreshResolve(s, epoch, gracePeer);
    case EFireTimer(timer) =>
      if timer in s.tasks.timers {
        var t := s.tasks.timers[timer];
        FreshResolve(s, Some(t.epoch), Some(t.peer));
        FreshEndTimer(ResolveDeferred(s, Some(t.epoch), Some(t.peer)), timer);
      }
    case ETerminate(target) => FreshTerminate(s, if target.Failed? then Failed else Ended);
    case _ => FreshOther(s, e);
  }

  lemma FreshAccept(s: Life, peer: PeerId, generation: Option<nat>, speechActive: bool)
    requires SteadyInv(s) && FreshInv(s)
    ensures FreshInv(Accept(s, peer, generation, speechActive))
  {
    hide SteadyInv, FreshInv, Promote, StartSwitch;
    if CanAccept(s, peer, generation) {
      if ChangesSelection(s) { FreshStartSwitch(s, speechActive); } else { FreshPromote(s); }
    }
  }

  lemma FreshResolve(s: Life, epoch: Option<nat>, peer: Option<PeerId>)
    requires SteadyInv(s) && FreshInv(s)
    ensures FreshInv(ResolveDeferred(s, epoch, peer))
  {
    FreshTerminate(s, Failed);
    FreshTerminate(s, Ended);
    hide SteadyInv, Sides, TransitionTerminal;
  }

  lemma FreshEndTimer(s: Life, timer: nat)
    requires FreshInv(s)
    ensures FreshInv(EndTimer(s, timer))
  {
    hide Sides;
  }

  lemma NewPeersAreOther(s: Life, e: Event)
    requires FreshInv(s) && (e.ERegister? ==> e.peer !in s.peers.registered)
    ensures e.ERegister? ==> e.peer != s.peer
  {}

  lemma {:induction false} FreshRun(peer: PeerId, selection: Selection, events: seq<Event>)
    requires RegistersNewPeers(Init(peer, selection), events)
    ensures RegistersOtherPeers(Init(peer, selection), events)
    ensures FreshInv(Run(Init(peer, selection), events))
    decreases |events|
  {
    hide Next, SteadyInv, FreshInv, TakenInv, UnclosedInv;
    if events == [] {
      FreshStart(peer, selection);
    } else {
      var init, e := events[..|events| - 1], events[|events| - 1];
      var before := Run(Init(peer, selection), init);
      FreshRun(peer, selection, init);
      SteadyRun(peer, selection, init);
      SwitchPeersRun(peer, selection, init);
      FreshNext(before, e);
      NewPeersAreOther(before, e);
    }
  }

  lemma FreshStart(peer: PeerId, selection: Selection)
    ensures FreshInv(Init(peer, selection))
  {}

  lemma LostIsNowhere(s: Life, p: PeerId)
    requires HandoverInv(s) && FreshInv(s) && p in s.peers.lost
    ensures !Tracked(s, p)
  {
    assert forall k | k in s.tasks.switches :: !InSwitch(s.tasks.switches[k], p);
  }

  /** A peer is lost exactly when a promotion replaced it and its one close raised: it is not active, candidate, in a
      switch, in a cleanup, closed or in the ledger if and only if that happened at some step of the run. */
  lemma PeerIsLostExactly(peer: PeerId, selection: Selection, events: seq<Event>, p: PeerId)
    requires RegistersNewPeers(Init(peer, selection), events)
    requires p in Run(Init(peer, selection), events).peers.registered
    ensures !Tracked(Run(Init(peer, selection), events), p) <==> SomeReplacedCloseRaised(Init(peer, selection), events, p)
  {
    NoPeerIsDropped(peer, selection, events, p);
    LostExactly(Init(peer, selection), events, p);
    FreshRun(peer, selection, events);
    var s := Run(Init(peer, selection), events);
    hide Run, FreshInv, Tracked, SomeReplacedCloseRaised, HandoverInv;
    SteadyRun(peer, selection, events);
    if p in s.peers.lost {
      LostIsNowhere(s, p);
    }
  }

  /** No peer is given to a cleanup of its own and to the terminal ledger. */
  lemma NoPeerHasTwoCleanups(peer: PeerId, selection: Selection, events: seq<Event>)
    requires RegistersNewPeers(Init(peer, selection), events)
    ensures var s := Run(Init(peer, selection), events); s.peers.owned !! LedgerPeers(s)
  {
    FreshRun(peer, selection, events);
    hide Run, KnownInv, ApartSwitches;
  }

  lemma LosingSteps(s: Life)
    requires s == Init(0, Selection(1, 1))
    ensures var promoted := Accept(Register(s, 1, None), 1, Some(1), false);
            var t := SettleClose(promoted, 0, true);
            0 in t.peers.registered && !Tracked(t, 0) && t.phase.Stable? && !t.ended
  {}

  /** The run: a new connection is registered and committed, and closing the old one raises. */
  lemma PromotionCanLosePeer() returns (events: seq<Event>)
    ensures RegistersNewPeers(Init(0, Selection(1, 1)), events)
    ensures var s := Run(Init(0, Selection(1, 1)), events);
            0 in s.peers.registered && !Tracked(s, 0) && !s.ended
  {
    var s := Init(0, Selection(1, 1));
    var e1, e2, e3 := ERegister(1, None), EAccept(1, Some(1), false), ESettleClose(0, true);
    LosingSteps(s);
    RunNone(s);
    RegistersOne(s, [], e1);
    RegistersOne(s, [] + [e1], e2);
    RegistersOne(s, [] + [e1] + [e2], e3);
    hide Run, Register, Accept, SettleClose, Tracked;
    RunSnoc(s, [], e1);
    RunSnoc(s, [] + [e1], e2);
    RunSnoc(s, [] + [e1] + [e2], e3);
    events := [] + [e1] + [e2] + [e3];
  }

  lemma RegistersOne(s: Life, events: seq<Event>, e: Event)
    requires RegistersNewPeers(s, events) && (e.ERegister? ==> e.peer !in Run(s, events).peers.registered)
    ensures RegistersNewPeers(s, events + [e])
  {
    assert (events + [e])[..|events + [e]| - 1] == events;
  }
}
