/**
  Who a call talks to and with which voice and engine: the connection and the selection that its active generation
  was offered with.
*/
module PeerSelection {
  import opened Wrappers
  import opened PeerLifecycle
  import opened PeerDecisions
  import PeerOwnership

  /** What a peer connection was registered with. */
  datatype Offer = Offer(peer: PeerId, selection: Option<Selection>)

  /** Every generation that was handed out, with its offer. */
  function Offers(s: Life, events: seq<Event>): map<nat, Offer>
    decreases |events|
  {
    if events == [] then map[] else
    var init, e := events[..|events| - 1], events[|events| - 1];
    var newest := Run(s, events).candidateGeneration;
    if e.ERegister? && newest > Run(s, init).candidateGeneration
    then Offers(s, init)[newest := Offer(e.peer, e.selection)] else Offers(s, init)
  }

  /** The selection of the last generation that became active and had one, or the call's first. */
  function Chosen(s: Life, events: seq<Event>): Selection
    decreases |events|
  {
    if events == [] then s.selection else
    var init := events[..|events| - 1];
    var active := Run(s, events).activeGeneration;
    if active != Run(s, init).activeGeneration && active in Offers(s, events) && Offers(s, events)[active].selection.Some?
    then Offers(s, events)[active].selection.value else Chosen(s, init)
  }

  /** What was offered is what waits as a candidate, what a switch is about, and who is active. */
  ghost predicate OfferInv(s: Life, offers: map<nat, Offer>, first: PeerId) {
    && (forall g | g in offers :: 0 < g <= s.candidateGeneration)
    && (s.candidate.Some? ==>
          s.candidate.value.generation in offers
          && offers[s.candidate.value.generation] == Offer(s.candidate.value.peer, s.candidate.value.selection))
    && (forall k | k in s.tasks.switches :: OfferedSwitch(s.tasks.switches[k].switch, offers))
    && (if s.activeGeneration == 0 then !s.ended ==> s.peer == first
        else s.activeGeneration in offers && (!s.ended ==> s.peer == offers[s.activeGeneration].peer))
  }

  predicate OfferedSwitch(switch: Switch, offers: map<nat, Offer>) {
    && switch.candidateGeneration in offers
    && offers[switch.candidateGeneration] == Offer(switch.peer, Some(switch.selection))
  }

  lemma RegisterOffers(s: Life, peer: PeerId, selection: Option<Selection>, offers: map<nat, Offer>, first: PeerId)
    requires LifeInv(s) && OfferInv(s, offers, first)
    ensures var t := Register(s, peer, selection);
            && OfferInv(t, if t.candidateGeneration > s.candidateGeneration
                           then offers[t.candidateGeneration := Offer(peer, selection)] else offers, first)
            && t.activeGeneration == s.activeGeneration && t.selection == s.selection
  {
    hide LifeInv;
  }

  /** A step that makes no generation active and hands none out. */
  ghost predicate Keeps(s: Life, t: Life) {
    && t.candidateGeneration == s.candidateGeneration && t.activeGeneration == s.activeGeneration && t.selection == s.selection
    && (t.candidate.Some? ==>
          s.candidate.Some? && t.candidate.value.generation == s.candidate.value.generation
          && t.candidate.value.peer == s.candidate.value.peer && t.candidate.value.selection == s.candidate.value.selection)
    && (forall k | k in t.tasks.switches ::
          k in s.tasks.switches && t.tasks.switches[k].switch == s.tasks.switches[k].switch)
    && (!t.ended ==> !s.ended && t.peer == s.peer)
  }

  lemma KeepsOffers(s: Life, t: Life, offers: map<nat, Offer>, first: PeerId)
    requires OfferInv(s, offers, first) && Keeps(s, t)
    ensures OfferInv(t, offers, first)
  {}

  lemma AcceptOffers(s: Life, peer: PeerId, generation: Option<nat>, speechActive: bool, offers: map<nat, Offer>, first: PeerId)
    requires LifeInv(s) && OfferInv(s, offers, first)
    ensures var t := Accept(s, peer, generation, speechActive);
            && OfferInv(t, offers, first) && t.candidateGeneration == s.candidateGeneration && SelectionFollows(s, t, offers)
  {
    hide DecisionsInv, TasksInv, TransactionInv, RecordInv;
  }

  /** The selection changes exactly with a promotion that brings one. */
  ghost predicate SelectionFollows(s: Life, t: Life, offers: map<nat, Offer>) {
    t.selection
    == if t.activeGeneration != s.activeGeneration && t.activeGeneration in offers && offers[t.activeGeneration].selection.Some?
       then offers[t.activeGeneration].selection.value else s.selection
  }

  lemma FinishOffers(s: Life, task: nat, leaseFails: bool, raises: bool, offers: map<nat, Offer>, first: PeerId)
    requires LifeInv(s) && OfferInv(s, offers, first)
    ensures var t := FinishSwitch(s, task, leaseFails, raises);
            && OfferInv(t, offers, first) && t.candidateGeneration == s.candidateGeneration && SelectionFollows(s, t, offers)
  {
    if task in s.tasks.switches && !s.tasks.switches[task].stage.Cleaning? {
      SwitchIsNew(s, task);
      hide LifeInv;
    }
  }

  lemma SwitchIsNew(s: Life, task: nat)
    requires LifeInv(s) && task in s.tasks.switches
    ensures s.tasks.switches[task].switch.candidateGeneration != s.activeGeneration
    ensures s.candidate.Some? ==> s.candidate.value.generation != s.activeGeneration
  {
    hide TransactionInv, RecordInv, TerminalInv;
  }

  lemma OtherStepsKeep(s: Life, e: Event)
    requires !e.ERegister? && !e.EAccept? && !e.EFinishSwitch?
    ensures Keeps(s, Next(s, e))
  {}

  lemma OffersNext(s: Life, e: Event, offers: map<nat, Offer>, first: PeerId)
    requires LifeInv(s) && OfferInv(s, offers, first)
    ensures var t := Next(s, e);
            var later := if e.ERegister? && t.candidateGeneration > s.candidateGeneration
                         then offers[t.candidateGeneration := Offer(e.peer, e.selection)] else offers;
            OfferInv(t, later, first) && SelectionFollows(s, t, later)
  {
    hide LifeInv, OfferInv;
    match e
    case ERegister(peer, selection) => RegisterOffers(s, peer, selection, offers, first);
    case EAccept(peer, generation, speechActive) => AcceptOffers(s, peer, generation, speechActive, offers, first);
    case EFinishSwitch(task, leaseFails, raises) => FinishOffers(s, task, leaseFails, raises, offers, first);
    case _ =>
      OtherStepsKeep(s, e);
      hide Next;
      KeepsOffers(s, Next(s, e), offers, first);
  }

  /** Over every run: the call's selection is that of the last generation that became active and brought one, however
      many offers were superseded, rejected, or failed to switch; and while the call goes on, its peer is the
      connection that its active generation was registered with. */
  lemma {:induction false} SelectionFollowsPromotions(peer: PeerId, selection: Selection, events: seq<Event>)
    ensures var s := Run(Init(peer, selection), events);
            && LifeInv(s) && OfferInv(s, Offers(Init(peer, selection), events), peer)
            && s.selection == Chosen(Init(peer, selection), events)
    decreases |events|
  {
    hide LifeInv, OfferInv, Next;
    var start := Init(peer, selection);
    if events == [] {
      LifeInvInit(peer, selection);
      NothingOffered(peer, selection);
    } else {
      var init, e := events[..|events| - 1], events[|events| - 1];
      SelectionFollowsPromotions(peer, selection, init);
      LifeInvNext(Run(start, init), e);
      OffersNext(Run(start, init), e, Offers(start, init), peer);
    }
  }

  lemma NothingOffered(peer: PeerId, selection: Selection)
    ensures OfferInv(Init(peer, selection), map[], peer)
  {}

  /** In particular who is spoken to: the first connection until a generation becomes active, then that generation's. */
  lemma ActivePeerWasOffered(peer: PeerId, selection: Selection, events: seq<Event>)
    requires !Run(Init(peer, selection), events).ended
    ensures var s, offers := Run(Init(peer, selection), events), Offers(Init(peer, selection), events);
            if s.activeGeneration == 0 then s.peer == peer
            else s.activeGeneration in offers && s.peer == offers[s.activeGeneration].peer
  {
    SelectionFollowsPromotions(peer, selection, events);
    hide LifeInv, Run, Offers;
  }

  // ---- how a switch and a call end ----

  /** How a switch task's last section leaves a live call whose switch it owns. */
  ghost predicate SwitchEnded(s: Life, t: Life, run: SwitchRun, leaseFails: bool)
    requires run.stage.Cleaned?
  {
    var switch := run.switch;
    if !run.stage.errors && !leaseFails then
      && !t.ended && t.phase.Stable? && t.peer == switch.peer && t.activeGeneration == switch.candidateGeneration
      && t.selection == switch.selection && GenerationOutcome(t, switch.candidateGeneration) == Some(Committed)
      && t.state !in {Ended, Failed}
      && (switch.cancels ==> t.state == Listening)
      && (!switch.cancels && s.state != ReconnectingState ==> t.state == s.state)
    else
      && t.ended && t.phase.Terminal? && t.state == Failed && t.activeGeneration == s.activeGeneration
      && t.selection == s.selection && switch.candidateGeneration in t.decisions.failed
      && t.ledger.Some? && t.ledger.value.active == switch.peer
      && (run.stage.unresolved.Some? ==> run.stage.unresolved.value in LedgerPeers(t))
  }

  lemma OwnedSwitchEnds(s: Life, task: nat, leaseFails: bool, raises: bool)
    requires LifeInv(s) && !s.ended && task in s.tasks.switches && s.tasks.switches[task].stage.Cleaned?
    requires OwnsSwitch(s, s.tasks.switches[task].switch)
    ensures SwitchEnded(s, Next(s, EFinishSwitch(task, leaseFails, raises)), s.tasks.switches[task], leaseFails)
  {
    hide DecisionsInv, CandidateInv, TasksInv, RecordInv;
  }

  /** In every run that registers a new connection for every offer, the end of a switch task decides the switch of a live
      call: without a cleanup error the candidate takes over, selection and all, in the conversational state the call
      is in, or listening if it interrupted a turn; with one the call fails, and its ledger has the candidate as the
      active peer and the old one if it could not be closed. */
  lemma SwitchDecidesTheCall(
      peer: PeerId, selection: Selection, events: seq<Event>, task: nat, leaseFails: bool, raises: bool)
    requires PeerOwnership.RegistersOtherPeers(Init(peer, selection), events)
    requires var s := Run(Init(peer, selection), events);
             !s.ended && task in s.tasks.switches && s.tasks.switches[task].stage.Cleaned?
    ensures var s := Run(Init(peer, selection), events);
            SwitchEnded(s, Next(s, EFinishSwitch(task, leaseFails, raises)), s.tasks.switches[task], leaseFails)
  {
    hide LifeInv, Run, Next, SwitchEnded, PeerOwnership.OwnershipInv, PeerOwnership.PeersInv;
    PeerOwnership.OwnershipLostIsUnreachable(peer, selection, events, task);
    PeerOwnership.NewPeersKeepOwnership(peer, selection, events);
    PeerOwnership.OwnershipRun(peer, selection, events);
    OwnedSwitchEnds(Run(Init(peer, selection), events), task, leaseFails, raises);
  }

  /** What a call that is over keeps: its end, the peers its cleanup took over, its generation and its selection. */
  ghost predicate StaysOver(s: Life, t: Life) {
    && t.ended && t.phase.Terminal? && t.ledger == s.ledger && t.candidate.None?
    && t.activeGeneration == s.activeGeneration && t.candidateGeneration == s.candidateGeneration
    && t.selection == s.selection && t.peer == s.peer && t.epoch == s.epoch
  }

  lemma OverNext(s: Life, e: Event)
    requires LifeInv(s) && s.ended && s.phase.Terminal? && s.candidate.None?
    ensures StaysOver(s, Next(s, e))
  {
    hide DecisionsInv, CandidateInv, TasksInv, RecordInv;
  }

  lemma {:induction false} OverRun(s: Life, events: seq<Event>)
    requires LifeInv(s) && s.ended && s.phase.Terminal? && s.candidate.None?
    ensures LifeInv(Run(s, events)) && StaysOver(s, Run(s, events))
    decreases |events|
  {
    hide LifeInv, Next;
    if events != [] {
      OverRun(s, events[..|events| - 1]);
      LifeInvNext(Run(s, events[..|events| - 1]), events[|events| - 1]);
      OverNext(Run(s, events[..|events| - 1]), events[|events| - 1]);
    }
  }

  /** Ending a live call leaves it in the state asked for and hands over its peer, its candidate and both peers of a
      running switch; after that nothing registers, commits, switches or reconnects any more, and the hand-over is
      final. */
  lemma EndIsForGood(peer: PeerId, selection: Selection, before: seq<Event>, target: CallState, after: seq<Event>)
    requires !Run(Init(peer, selection), before).ended
    ensures var s := Run(Init(peer, selection), before);
            var over := Next(s, ETerminate(target));
            && over.ended && over.state == (if target.Failed? then Failed else Ended) && over.phase.Terminal?
            && over.ledger.Some? && over.ledger.value.active == s.peer
            && over.ledger.value.candidate == (if s.candidate.Some? then Some(s.candidate.value.peer) else None)
            && SwitchPeers(s.switching) <= LedgerPeers(over)
            && StaysOver(over, Run(over, after))
  {
    SelectionFollowsPromotions(peer, selection, before);
    var s := Run(Init(peer, selection), before);
    hide Run, OfferInv;
    LifeInvNext(s, ETerminate(target));
    TerminateHandsOver(s, target);
    hide LifeInv, StaysOver, Next;
    OverRun(Next(s, ETerminate(target)), after);
  }

  lemma TerminateHandsOver(s: Life, target: CallState)
    requires LifeInv(s) && !s.ended
    ensures var over := Next(s, ETerminate(target));
            && over.ended && over.state == (if target.Failed? then Failed else Ended) && over.phase.Terminal?
            && over.candidate.None?
            && over.ledger.Some? && over.ledger.value.active == s.peer
            && over.ledger.value.candidate == (if s.candidate.Some? then Some(s.candidate.value.peer) else None)
            && SwitchPeers(s.switching) <= LedgerPeers(over)
  {
    hide DecisionsInv, CandidateInv, TasksInv, RecordInv;
  }
}
