/**
  The call session's lifecycle fields and the methods that update them in place, one lock-guarded
  section at a time, in the order the source writes them. Each method is proved to take exactly
  the step PeerLifecycle describes, so every theorem about runs of steps is one about runs of calls.
*/
module CallSessionLifecycle {
  import opened Wrappers
  import opened PeerLifecycle
  import opened PeerDecisions

  datatype MarkResult = Marked(generation: nat) | SwitchInProgress | TerminalCall

  datatype AcceptResult = Refused | Promoted(previous: Option<PeerId>) | SwitchStarted(task: nat)

  class CallSession {
    var ended: bool
    var state: CallState
    var peer: PeerId
    var selection: Selection
    var epoch: nat
    var phase: Phase
    var candidateGeneration: nat
    var candidate: Option<Candidate>
    var activeGeneration: nat
    var lastSwitch: Option<SwitchRecord>
    var switching: SwitchFields
    var reconnect: ReconnectFields
    var ledger: Option<TerminalPeers>
    var tasks: Tasks
    var peers: Peers
    ghost var decisions: Decisions

    ghost function View(): Life
      reads this
    {
      Life(ended, state, peer, selection, epoch, phase, candidateGeneration, candidate, activeGeneration, lastSwitch,
           switching, reconnect, ledger, tasks, decisions, peers)
    }

    constructor (peer: PeerId, selection: Selection)
      ensures View() == Init(peer, selection)
    {
      ended, state, this.peer, this.selection := false, Listening, peer, selection;
      epoch, phase, candidateGeneration, candidate, activeGeneration, lastSwitch := 0, Stable, 0, None, 0, None;
      switching, reconnect, ledger := NO_SWITCH, NO_RECONNECT, None;
      tasks, peers, decisions := Tasks(map[], 0, map[], map[]), Peers({peer}, {}, {}, {}, {}, {}), Decisions({0}, {}, {});
    }

    method MarkPeerConnectionPending(peer: PeerId, selection: Option<Selection>) returns (r: MarkResult)
      modifies this
      ensures View() == Register(old(View()), peer, selection)
      ensures r.Marked? ==> IsPending(View(), peer, Some(r.generation)) && r.generation == old(candidateGeneration) + 1
      ensures !r.Marked? ==> candidate == old(candidate) && phase == old(phase)
    {
      if ended || state in {Ended, Failed} || phase.Terminal? {
        return TerminalCall;
      }
      peers := peers.(registered := peers.registered + {peer});
      if phase.Switching? {
        peers := Own(peers, {peer});
        return SwitchInProgress;
      }
      if candidate.Some? && candidate.value.peer != peer {
        peers := Own(peers, {candidate.value.peer});
      }
      candidateGeneration := candidateGeneration + 1;
      candidate := Some(Candidate(peer, candidateGeneration, epoch, selection));
      r := Marked(candidateGeneration);
    }

    method RejectPendingPeerConnection(peer: PeerId, generation: Option<nat>) returns (rejected: bool)
      modifies this
      ensures View() == Reject(old(View()), peer, generation)
      ensures rejected == IsPending(old(View()), peer, generation)
    {
      if candidate.None? || candidate.value.peer != peer
         || (generation.Some? && generation.value != candidate.value.generation) {
        return false;
      }
      decisions := decisions.(rejected := decisions.rejected + {candidate.value.generation});
      candidate := None;
      peers := Own(peers, {peer});
      rejected := true;
    }

    method CompleteTransportReconnectLocked()
      modifies this
      ensures View() == CompleteReconnect(old(View()))
    {
      var restored := reconnect.stateBefore;
      reconnect := reconnect.(loss := None, stateBefore := None, gracePeer := None);
      reconnect := reconnect.(graceTask := None);
      phase := Stable;
      if state == ReconnectingState {
        state := if restored.Some? then restored.value else Listening;
      }
    }

    method StartPeerSwitchLocked(speechActive: bool) returns (task: nat)
      requires candidate.Some? && ChangesSelection(View())
      modifies this
      ensures View() == StartSwitch(old(View()), speechActive)
      ensures switching.task == Some(task)
    {
      var accepted := candidate.value;
      var previous := if peer != accepted.peer then Some(peer) else None;
      candidate := None;
      phase := Switching;
      task := switching.generation + 1;
      var switch := Switch(task, accepted.generation, accepted.peer, previous, accepted.selection.value, speechActive, state);
      tasks := tasks.(switches := tasks.switches[task := SwitchRun(switch, Cleaning)]);
      switching := SwitchFields(task, Some(accepted.peer), Some(task), Some(switch), previous, Some(activeGeneration));
    }

    method InstallCandidateLocked() returns (previous: Option<PeerId>)
      requires candidate.Some?
      modifies this
      ensures View() == InstallCandidate(old(View()))
      ensures previous == if old(peer) != old(candidate).value.peer then Some(old(peer)) else None
    {
      var accepted := candidate.value;
      previous := if peer != accepted.peer then Some(peer) else None;
      candidate := None;
      peer := accepted.peer;
      activeGeneration := accepted.generation;
      decisions := decisions.(active := decisions.active + {accepted.generation});
      selection := if accepted.selection.Some? then accepted.selection.value else selection;
      peers := peers.(closing := peers.closing + OptionSet(previous));
    }

    method AcceptPendingPeerConnection(peer: PeerId, generation: Option<nat>, speechActive: bool)
      returns (r: AcceptResult)
      modifies this
      ensures View() == Accept(old(View()), peer, generation, speechActive)
      ensures r.Refused? <==> !CanAccept(old(View()), peer, generation)
      ensures r.Promoted? ==> this.peer == peer && activeGeneration == old(candidate).value.generation && phase.Stable?
      ensures r.SwitchStarted? ==>
                phase.Switching? && switching.task == Some(r.task) && activeGeneration == old(activeGeneration)
    {
      if candidate.None? || candidate.value.peer != peer
         || (generation.Some? && generation.value != candidate.value.generation)
         || candidate.value.epoch != epoch || phase.Terminal? || ended {
        return Refused;
      }
      if candidate.value.selection.Some? && candidate.value.selection.value != selection {
        var task := StartPeerSwitchLocked(speechActive);
        return SwitchStarted(task);
      }
      var previous := InstallCandidateLocked();
      CompleteTransportReconnectLocked();
      r := Promoted(previous);
    }

    /** `accept_pending_peer_connection` after its lock: one close of the replaced peer, with nobody to retry it. */
    method CloseReplacedPeer(replaced: PeerId, fails: bool)
      requires replaced in peers.closing
      modifies `peers
      ensures View() == SettleClose(old(View()), replaced, fails)
    {
      peers := peers.(closing := peers.closing - {replaced});
      if fails {
        peers := peers.(lost := peers.lost + {replaced});
      } else {
        peers := peers.(closed := peers.closed + {replaced});
      }
    }

    method RecordPeerSwitchOutcomeLocked(generation: nat, outcome: Reply)
      modifies `lastSwitch
      ensures lastSwitch == RecordOutcome(old(lastSwitch), generation, outcome)
    {
      if lastSwitch.None? || generation >= lastSwitch.value.generation {
        lastSwitch := Some(SwitchRecord(generation, outcome));
      }
    }

    method CollectTerminalPeers(extraPeers: set<PeerId>) returns (r: TerminalPeers)
      ensures r == TerminalLedger(View(), extraPeers)
    {
      var extras := extraPeers;
      if switching.retiringPeer.Some? {
        extras := extras + {switching.retiringPeer.value};
      }
      if switching.transaction.Some? {
        if switching.transaction.value.previous.Some? {
          extras := extras + {switching.transaction.value.previous.value};
        }
        extras := extras + {switching.transaction.value.peer};
      }
      var candidatePeer := if candidate.Some? then Some(candidate.value.peer) else None;
      extras := set p | p in extras && p != peer && Some(p) != candidatePeer;
      r := TerminalPeers(peer, candidatePeer, extras);
    }

    method TransitionTerminalLocked(target: CallState, extraPeers: set<PeerId>)
      modifies this
      ensures View() == TransitionTerminal(old(View()), target, extraPeers)
    {
      if ended || phase.Terminal? {
        return;
      }
      var taken := CollectTerminalPeers(extraPeers);
      ledger := Some(taken);
      epoch, phase := epoch + 1, Terminal;
      switching := NO_SWITCH.(generation := switching.generation);
      reconnect := NO_RECONNECT.(backfills := reconnect.backfills);
      candidate, ended, state := None, true, target;
    }

    /** The part of the switch task that runs without the lock. */
    method RunPeerSwitchCleanup(task: nat, errors: bool, closeFails: bool)
      requires task in tasks.switches && tasks.switches[task].stage.Cleaning?
      modifies this
      ensures View() == CleanSwitch(old(View()), task, errors, closeFails)
      ensures tasks.switches[task].stage.Cleaned?
    {
      var switch := tasks.switches[task].switch;
      var failed, unresolved := errors, None;
      if switch.previous.Some? {
        if closeFails {
          failed, unresolved := true, switch.previous;
          peers := peers.(unclosed := peers.unclosed + {switch.previous.value});
        } else {
          peers := peers.(closed := peers.closed + {switch.previous.value});
        }
      }
      assert peers == if closeFails then old(peers).(unclosed := old(peers).unclosed + OptionSet(switch.previous))
                      else old(peers).(closed := old(peers).closed + OptionSet(switch.previous));
      tasks := tasks.(switches := tasks.switches[task := SwitchRun(switch, Cleaned(failed, unresolved))]);
    }

    method DisownSwitchLocked(switch: Switch)
      modifies `switching
      ensures switching == Disown(old(switching), switch)
    {
      if switching.task == Some(switch.task) {
        switching := switching.(task := None);
      }
      if switching.owner == Some(switch.peer) {
        switching := switching.(owner := None);
      }
      if switching.transaction == Some(switch) {
        switching := switching.(transaction := None);
      }
      if switching.retiringPeer == switch.previous {
        switching := switching.(retiringPeer := None, retiringGeneration := None);
      }
    }

    method AbandonPeerSwitch(switch: Switch)
      modifies this
      ensures View() == AbandonSwitch(old(View()), switch)
    {
      RecordPeerSwitchOutcomeLocked(switch.candidateGeneration, FailedReply);
      DisownSwitchLocked(switch);
      var ledgerOwns := ledger.Some? &&
        (switch.peer == ledger.value.active || ledger.value.candidate == Some(switch.peer) || switch.peer in ledger.value.extras);
      if switch.peer != peer && !ledgerOwns {
        peers := Own(peers, {switch.peer});
      }
      decisions := FailGeneration(decisions, switch.candidateGeneration);
    }

    method FailPeerSwitch(switch: Switch, unresolved: Option<PeerId>)
      modifies this
      ensures View() == FailSwitch(old(View()), switch, unresolved)
    {
      RecordPeerSwitchOutcomeLocked(switch.candidateGeneration, FailedReply);
      peer := switch.peer;
      switching := switching.(owner := None, task := None, retiringPeer := None, retiringGeneration := None);
      decisions := FailGeneration(decisions, switch.candidateGeneration);
      TransitionTerminalLocked(Failed, OptionSet(unresolved));
    }

    method CommitPeerSwitch(switch: Switch)
      modifies this
      ensures View() == CommitSwitch(old(View()), switch)
    {
      var preserved := if switch.stateBefore in {Understanding, Thinking} && state in {Understanding, Thinking}
                       then Some(state) else None;
      InstallSwitchedPeer(switch);
      CompleteTransportReconnectLocked();
      switching := NO_SWITCH.(generation := switching.generation);
      if switch.cancels && state !in {Ended, Failed} {
        state := Listening;
      } else if preserved.Some? {
        state := preserved.value;
      }
    }

    method InstallSwitchedPeer(switch: Switch)
      modifies this
      ensures View() == old(View()).(
                peer := switch.peer, activeGeneration := switch.candidateGeneration, selection := switch.selection,
                lastSwitch := RecordOutcome(old(lastSwitch), switch.candidateGeneration, Committed),
                decisions := old(decisions).(active := old(decisions).active + {switch.candidateGeneration}))
    {
      peer := switch.peer;
      activeGeneration := switch.candidateGeneration;
      decisions := decisions.(active := decisions.active + {switch.candidateGeneration});
      RecordPeerSwitchOutcomeLocked(switch.candidateGeneration, Committed);
      selection := switch.selection;
    }

    method FinishPeerSwitch(task: nat, leaseFails: bool, raises: bool) returns (accepted: bool)
      requires task in tasks.switches && tasks.switches[task].stage.Cleaned?
      modifies this
      ensures View() == FinishSwitch(old(View()), task, leaseFails, raises)
      ensures accepted ==> peer == old(tasks).switches[task].switch.peer
                           && activeGeneration == old(tasks).switches[task].switch.candidateGeneration
      ensures !accepted ==> activeGeneration == old(activeGeneration)
    {
      var SwitchRun(switch, stage) := tasks.switches[task];
      var owns := !ended && phase.Switching? && switching.generation == switch.task
                  && switching.owner == Some(switch.peer) && switching.task == Some(switch.task)
                  && switching.transaction == Some(switch);
      accepted := owns && !stage.errors && !leaseFails;
      if !owns {
        AbandonPeerSwitch(switch);
      } else if stage.errors || leaseFails {
        FailPeerSwitch(switch, stage.unresolved);
      } else {
        CommitPeerSwitch(switch);
      }
      var result := if accepted then Accepted(switch.candidateGeneration)
                    else if raises then Raised(switch.candidateGeneration)
                    else NotAccepted(switch.candidateGeneration);
      tasks := tasks.(switches := tasks.switches - {task}, results := tasks.results[task := result]);
    }

    method StartGraceTimer(gracePeer: PeerId)
      modifies `tasks, `reconnect
      ensures View() == ArmTimer(old(View()), gracePeer)
    {
      var timer := tasks.nextTimer;
      tasks := tasks.(timers := tasks.timers[timer := Timer(epoch, gracePeer)], nextTimer := timer + 1);
      reconnect := reconnect.(graceTask := Some(timer));
    }

    method EnterReconnectLocked(lost: PeerId)
      modifies this
      ensures View() == EnterReconnect(old(View()), lost)
    {
      epoch := epoch + 1;
      phase := Reconnecting;
      reconnect := reconnect.(stateBefore := Some(state), gracePeer := Some(lost));
      if candidate.Some? {
        candidate := Some(candidate.value.(epoch := epoch));
      }
    }

    method NoteLossLocked(how: Loss)
      modifies this
      ensures View() == NoteLoss(old(View()), how)
    {
      if how.LostFailed? || reconnect.loss.None? {
        reconnect := reconnect.(loss := Some(how));
      }
      state := ReconnectingState;
    }

    method BeginTransportReconnect(lost: PeerId, how: Loss, generation: Option<nat>)
      modifies this
      ensures View() == BeginReconnect(old(View()), lost, how, generation)
      ensures !IgnoresLoss(old(View()), lost, generation) ==> phase.Reconnecting? && TimerArmed(View())
    {
      if phase.Switching? && switching.retiringPeer == Some(lost)
         && (generation.None? || generation == switching.retiringGeneration) {
        return;
      }
      if ended || phase.Terminal? || lost != peer || (generation.Some? && generation.value != activeGeneration) {
        return;
      }
      if !phase.Reconnecting? || reconnect.gracePeer != Some(lost) {
        EnterReconnectLocked(lost);
      }
      NoteLossLocked(how);
      if reconnect.graceTask.None? || reconnect.graceTask.value !in tasks.timers {
        StartGraceTimer(lost);
      }
    }

    method ResolveDeferredConnectionState(timerEpoch: Option<nat>, timerPeer: Option<PeerId>) returns (terminated: bool)
      modifies this
      ensures View() == ResolveDeferred(old(View()), timerEpoch, timerPeer)
      ensures terminated == (ended && !old(ended))
      ensures terminated ==> old(phase).Reconnecting? && (timerEpoch.Some? ==> timerEpoch.value == old(epoch))
    {
      if !phase.Reconnecting? || reconnect.loss.None? || ended
         || (timerEpoch.Some? && timerEpoch.value != epoch)
         || (timerPeer.Some? && reconnect.gracePeer != timerPeer) {
        return false;
      }
      if reconnect.backfills > 0 {
        reconnect := reconnect.(graceTask := None);
        return false;
      }
      TransitionTerminalLocked(if reconnect.loss.value.LostFailed? then Failed else Ended, {});
      terminated := true;
    }

    method ExpirePeerReconnectGrace(timer: nat) returns (terminated: bool)
      requires timer in tasks.timers
      modifies this
      ensures View() == FireTimer(old(View()), timer)
      ensures terminated == (ended && !old(ended))
      ensures terminated ==> old(tasks).timers[timer].epoch == old(epoch)
    {
      terminated := ResolveDeferredConnectionState(Some(tasks.timers[timer].epoch), Some(tasks.timers[timer].peer));
      tasks := tasks.(timers := tasks.timers - {timer});
    }

    method RecoverActiveTransport(recovered: PeerId, generation: Option<nat>) returns (done: bool)
      modifies this
      ensures View() == Recover(old(View()), recovered, generation)
      ensures done ==> old(phase).Reconnecting? && phase.Stable? && reconnect.graceTask.None?
    {
      if !phase.Reconnecting? || reconnect.gracePeer != Some(recovered) || recovered != peer
         || (generation.Some? && generation.value != activeGeneration) {
        return false;
      }
      CompleteTransportReconnectLocked();
      done := true;
    }

    method AdmitReconnectBackfill() returns (admitted: bool)
      modifies this
      ensures View() == BeginBackfill(old(View()))
      ensures admitted ==> reconnect.backfills == old(reconnect.backfills) + 1
    {
      if ended || phase.Terminal? || state in {Ended, Failed} {
        return false;
      }
      reconnect := reconnect.(backfills := reconnect.backfills + 1);
      admitted := true;
    }

    method FinishReconnectBackfill()
      modifies this
      ensures View() == EndBackfill(old(View()))
    {
      reconnect := reconnect.(backfills := if reconnect.backfills > 0 then reconnect.backfills - 1 else 0);
      if reconnect.backfills == 0 && phase.Reconnecting? && reconnect.gracePeer.Some?
         && (reconnect.graceTask.None? || reconnect.graceTask.value !in tasks.timers) {
        StartGraceTimer(reconnect.gracePeer.value);
      }
    }

    method PeerSwitchGenerationOutcome(generation: nat) returns (outcome: Option<Reply>)
      ensures outcome == GenerationOutcome(View(), generation)
      ensures LifeInv(View()) && outcome.Some? ==> ReplyInv(decisions, generation, outcome.value)
    {
      if activeGeneration == generation {
        outcome := Some(Committed);
      } else if lastSwitch.Some? && lastSwitch.value.generation == generation {
        outcome := Some(lastSwitch.value.outcome);
      } else if phase.Switching? && switching.transaction.Some?
                && switching.transaction.value.candidateGeneration == generation {
        outcome := Some(InProgress);
      } else {
        outcome := None;
      }
    }
  }
}
