/**
  The peer lifecycle of one call: candidate registration, commit, reject, engine switch,
  transport reconnect with its grace timer, and the terminal transition.

  One function below is one lock-guarded section of the source, or the code between two awaits
  of a section that takes no lock. `Life` holds the session's own fields, the asyncio tasks it
  has started, and (last block) history that only the proofs read.
*/
module PeerLifecycle {
  import opened Wrappers

  type PeerId = nat

  datatype Phase = Stable | Reconnecting | Switching | Terminal

  datatype CallState =
    | Listening | Understanding | Thinking | Rehearsing | Speaking | Interrupted
    | ReconnectingState | Ended | Failed

  datatype Selection = Selection(voice: nat, engine: nat)

  /** How the active transport was lost: `connectionState` "closed" or "failed". */
  datatype Loss = LostClosed | LostFailed

  datatype Candidate = Candidate(peer: PeerId, generation: nat, epoch: nat, selection: Option<Selection>)

  /** An engine switch; `task` numbers both the transaction and the asyncio task that finishes it. */
  datatype Switch = Switch(
    task: nat, candidateGeneration: nat, peer: PeerId, previous: Option<PeerId>,
    selection: Selection, cancels: bool, stateBefore: CallState)

  /** `unresolved` is the old peer when closing it failed. */
  datatype Stage = Cleaning | Cleaned(errors: bool, unresolved: Option<PeerId>)

  datatype SwitchRun = SwitchRun(switch: Switch, stage: Stage)

  datatype Result = Accepted(generation: nat) | NotAccepted(generation: nat) | Raised(generation: nat)

  datatype Timer = Timer(epoch: nat, peer: PeerId)

  /** Replies of commit and reject. The first three are decisive. */
  datatype Reply = Committed | RejectedReply | FailedReply | Stale | InProgress | NotConnected

  datatype SwitchRecord = SwitchRecord(generation: nat, outcome: Reply)

  /** Peers a terminal transition takes over for cleanup. */
  datatype TerminalPeers = TerminalPeers(active: PeerId, candidate: Option<PeerId>, extras: set<PeerId>)

  /** The fields an engine switch owns. */
  datatype SwitchFields = SwitchFields(
    generation: nat, owner: Option<PeerId>, task: Option<nat>, transaction: Option<Switch>,
    retiringPeer: Option<PeerId>, retiringGeneration: Option<nat>)

  /** The fields a transport reconnect owns, and the number of admitted audio backfills. */
  datatype ReconnectFields = ReconnectFields(
    loss: Option<Loss>, stateBefore: Option<CallState>, gracePeer: Option<PeerId>, graceTask: Option<nat>,
    backfills: nat)

  /** asyncio tasks started and not yet finished, and the results of finished switch tasks. */
  datatype Tasks = Tasks(timers: map<nat, Timer>, nextTimer: nat, switches: map<nat, SwitchRun>, results: map<nat, Result>)

  /** Which generations were ever active, rejected, or failed: the proofs' history of decisions. */
  datatype Decisions = Decisions(active: set<nat>, rejected: set<nat>, failed: set<nat>)

  /** `registered`: every peer the call ever had. `owned`: handed to a cleanup task of their own, which retries.
      `closing`: replaced by a promotion whose request is closing them, once. `closed`: closed by one such close or
      by a switch. The last two are history: closes that raised, by a switch and by a promotion. */
  datatype Peers = Peers(
    registered: set<PeerId>, owned: set<PeerId>, closing: set<PeerId>, closed: set<PeerId>,
    unclosed: set<PeerId>, lost: set<PeerId>)

  datatype Life = Life(
    ended: bool, state: CallState, peer: PeerId, selection: Selection,
    epoch: nat, phase: Phase,
    candidateGeneration: nat, candidate: Option<Candidate>, activeGeneration: nat,
    lastSwitch: Option<SwitchRecord>,
    switching: SwitchFields, reconnect: ReconnectFields, ledger: Option<TerminalPeers>,
    tasks: Tasks, decisions: Decisions, peers: Peers)

  const NO_SWITCH := SwitchFields(0, None, None, None, None, None)
  const NO_RECONNECT := ReconnectFields(None, None, None, None, 0)

  function Init(peer: PeerId, selection: Selection): Life {
    Life(false, Listening, peer, selection, 0, Stable, 0, None, 0, None, NO_SWITCH, NO_RECONNECT, None,
         Tasks(map[], 0, map[], map[]), Decisions({0}, {}, {}), Peers({peer}, {}, {}, {}, {}, {}))
  }

  // ---- helpers that run with the lifecycle lock held ----

  function OptionSet<T>(o: Option<T>): set<T> {
    if o.Some? then {o.value} else {}
  }

  function LedgerPeers(s: Life): set<PeerId> {
    if s.ledger.None? then {}
    else {s.ledger.value.active} + OptionSet(s.ledger.value.candidate) + s.ledger.value.extras
  }

  function GenerationOutcome(s: Life, generation: nat): Option<Reply> {
    if s.activeGeneration == generation then Some(Committed)
    else if s.lastSwitch.Some? && s.lastSwitch.value.generation == generation then Some(s.lastSwitch.value.outcome)
    else if s.phase.Switching? && s.switching.transaction.Some?
            && s.switching.transaction.value.candidateGeneration == generation then Some(InProgress)
    else None
  }

  function RecordOutcome(last: Option<SwitchRecord>, generation: nat, outcome: Reply): Option<SwitchRecord> {
    if last.None? || generation >= last.value.generation then Some(SwitchRecord(generation, outcome)) else last
  }

  predicate IsPending(s: Life, peer: PeerId, generation: Option<nat>) {
    && s.candidate.Some? && s.candidate.value.peer == peer
    && (generation.None? || generation.value == s.candidate.value.generation)
  }

  function Own(peers: Peers, taken: set<PeerId>): Peers {
    peers.(owned := peers.owned + taken)
  }

  predicate TimerArmed(s: Life) {
    s.reconnect.graceTask.Some? && s.reconnect.graceTask.value in s.tasks.timers
  }

  function ArmTimer(s: Life, peer: PeerId): Life {
    var timer := s.tasks.nextTimer;
    s.(tasks := s.tasks.(timers := s.tasks.timers[timer := Timer(s.epoch, peer)], nextTimer := timer + 1),
       reconnect := s.reconnect.(graceTask := Some(timer)))
  }

  function CompleteReconnect(s: Life): Life {
    s.(reconnect := NO_RECONNECT.(backfills := s.reconnect.backfills), phase := Stable,
       state := if s.state != ReconnectingState then s.state
                else if s.reconnect.stateBefore.Some? then s.reconnect.stateBefore.value
                else Listening)
  }

  /** Peers of an unfinished switch that a terminal transition takes over. */
  function SwitchPeers(f: SwitchFields): set<PeerId> {
    OptionSet(f.retiringPeer)
    + (if f.transaction.None? then {} else OptionSet(f.transaction.value.previous) + {f.transaction.value.peer})
  }

  function TerminalLedger(s: Life, extraPeers: set<PeerId>): TerminalPeers {
    var candidatePeer := if s.candidate.Some? then Some(s.candidate.value.peer) else None;
    TerminalPeers(s.peer, candidatePeer, extraPeers + SwitchPeers(s.switching) - {s.peer} - OptionSet(candidatePeer))
  }

  function TransitionTerminal(s: Life, target: CallState, extraPeers: set<PeerId>): Life {
    if s.ended || s.phase.Terminal? then s
    else
      s.(epoch := s.epoch + 1, phase := Terminal, ended := true, state := target, candidate := None,
         switching := NO_SWITCH.(generation := s.switching.generation),
         reconnect := NO_RECONNECT.(backfills := s.reconnect.backfills),
         ledger := Some(TerminalLedger(s, extraPeers)))
  }

  // ---- entry points ----

  /** Registering a candidate peer. On a terminal call it raises and the caller keeps the peer. */
  function Register(s: Life, peer: PeerId, selection: Option<Selection>): Life {
    if s.ended || s.state in {Ended, Failed} || s.phase.Terminal? then s
    else if s.phase.Switching? then
      s.(peers := Own(s.peers, {peer}).(registered := s.peers.registered + {peer}))
    else
      var superseded := if s.candidate.Some? && s.candidate.value.peer != peer then {s.candidate.value.peer} else {};
      var generation := s.candidateGeneration + 1;
      s.(candidateGeneration := generation,
         candidate := Some(Candidate(peer, generation, s.epoch, selection)),
         peers := Own(s.peers, superseded).(registered := s.peers.registered + {peer}))
  }

  /** Reject, an expired candidate timer, and a failed offer all take this section. */
  function Reject(s: Life, peer: PeerId, generation: Option<nat>): Life {
    if !IsPending(s, peer, generation) then s
    else s.(candidate := None, peers := Own(s.peers, {peer}),
            decisions := s.decisions.(rejected := s.decisions.rejected + {s.candidate.value.generation}))
  }

  predicate CanAccept(s: Life, peer: PeerId, generation: Option<nat>) {
    && IsPending(s, peer, generation)
    && s.candidate.value.epoch == s.epoch && !s.phase.Terminal? && !s.ended
  }

  predicate ChangesSelection(s: Life)
    requires s.candidate.Some?
  {
    s.candidate.value.selection.Some? && s.candidate.value.selection.value != s.selection
  }

  function StartSwitch(s: Life, speechActive: bool): Life
    requires s.candidate.Some? && ChangesSelection(s)
  {
    var candidate := s.candidate.value;
    var previous := if s.peer != candidate.peer then Some(s.peer) else None;
    var task := s.switching.generation + 1;
    var switch := Switch(task, candidate.generation, candidate.peer, previous, candidate.selection.value,
                         speechActive, s.state);
    s.(candidate := None, phase := Switching,
       switching := SwitchFields(task, Some(candidate.peer), Some(task), Some(switch), previous, Some(s.activeGeneration)),
       tasks := s.tasks.(switches := s.tasks.switches[task := SwitchRun(switch, Cleaning)]))
  }

  function InstallCandidate(s: Life): Life
    requires s.candidate.Some?
  {
    var candidate := s.candidate.value;
    s.(candidate := None, peer := candidate.peer, activeGeneration := candidate.generation,
       selection := if candidate.selection.Some? then candidate.selection.value else s.selection,
       peers := s.peers.(closing := s.peers.closing + if s.peer != candidate.peer then {s.peer} else {}),
       decisions := s.decisions.(active := s.decisions.active + {candidate.generation}))
  }

  function Promote(s: Life): Life
    requires s.candidate.Some?
  {
    CompleteReconnect(InstallCandidate(s))
  }

  function Accept(s: Life, peer: PeerId, generation: Option<nat>, speechActive: bool): Life {
    if !CanAccept(s, peer, generation) then s
    else if ChangesSelection(s) then StartSwitch(s, speechActive)
    else Promote(s)
  }

  /** The request that promoted a peer has closed the one it replaced, without a retry: raising loses it. */
  function SettleClose(s: Life, peer: PeerId, fails: bool): Life {
    if peer !in s.peers.closing then s
    else if fails then s.(peers := s.peers.(closing := s.peers.closing - {peer}, lost := s.peers.lost + {peer}))
    else s.(peers := s.peers.(closing := s.peers.closing - {peer}, closed := s.peers.closed + {peer}))
  }

  /** The fallible cleanup a switch task runs before it takes the lock; it tries to close the old peer. */
  function CleanSwitch(s: Life, task: nat, errors: bool, closeFails: bool): Life {
    if task !in s.tasks.switches || !s.tasks.switches[task].stage.Cleaning? then s
    else
      var switch := s.tasks.switches[task].switch;
      var unresolved := if closeFails then switch.previous else None;
      s.(tasks := s.tasks.(switches := s.tasks.switches[task :=
                             SwitchRun(switch, Cleaned(errors || unresolved.Some?, unresolved))]),
         peers := if closeFails then s.peers.(unclosed := s.peers.unclosed + OptionSet(switch.previous))
                  else s.peers.(closed := s.peers.closed + OptionSet(switch.previous)))
  }

  predicate OwnsSwitch(s: Life, switch: Switch) {
    && s.phase.Switching? && s.switching.generation == switch.task && s.switching.owner == Some(switch.peer)
    && s.switching.task == Some(switch.task) && s.switching.transaction == Some(switch)
  }

  /** Clears every switch field that still belongs to `switch`. */
  function Disown(f: SwitchFields, switch: Switch): SwitchFields {
    var retires := f.retiringPeer == switch.previous;
    f.(task := if f.task == Some(switch.task) then None else f.task,
       owner := if f.owner == Some(switch.peer) then None else f.owner,
       transaction := if f.transaction == Some(switch) then None else f.transaction,
       retiringPeer := if retires then None else f.retiringPeer,
       retiringGeneration := if retires then None else f.retiringGeneration)
  }

  function FailGeneration(d: Decisions, generation: nat): Decisions {
    d.(failed := d.failed + {generation})
  }

  function AbandonSwitch(s: Life, switch: Switch): Life {
    s.(lastSwitch := RecordOutcome(s.lastSwitch, switch.candidateGeneration, FailedReply),
       switching := Disown(s.switching, switch),
       peers := if switch.peer != s.peer && switch.peer !in LedgerPeers(s) then Own(s.peers, {switch.peer}) else s.peers,
       decisions := FailGeneration(s.decisions, switch.candidateGeneration))
  }

  function FailSwitch(s: Life, switch: Switch, unresolved: Option<PeerId>): Life {
    TransitionTerminal(
      s.(lastSwitch := RecordOutcome(s.lastSwitch, switch.candidateGeneration, FailedReply),
         peer := switch.peer,
         switching := s.switching.(owner := None, task := None, retiringPeer := None, retiringGeneration := None),
         decisions := FailGeneration(s.decisions, switch.candidateGeneration)),
      Failed, OptionSet(unresolved))
  }

  function CommitSwitch(s: Life, switch: Switch): Life {
    var conversational := {Understanding, Thinking};
    var t := CompleteReconnect(
      s.(peer := switch.peer, activeGeneration := switch.candidateGeneration, selection := switch.selection,
         lastSwitch := RecordOutcome(s.lastSwitch, switch.candidateGeneration, Committed),
         decisions := s.decisions.(active := s.decisions.active + {switch.candidateGeneration})));
    t.(switching := NO_SWITCH.(generation := s.switching.generation),
       state := if switch.cancels && t.state !in {Ended, Failed} then Listening
                else if switch.stateBefore in conversational && s.state in conversational then s.state
                else t.state)
  }

  /** A switch task's final section. `leaseFails`: releasing the old prompt lease raised.
      `raises`: waiting for the terminal transaction raised, which can only follow a failed switch. */
  function FinishSwitch(s: Life, task: nat, leaseFails: bool, raises: bool): Life {
    if task !in s.tasks.switches || s.tasks.switches[task].stage.Cleaning? then s
    else
      var SwitchRun(switch, stage) := s.tasks.switches[task];
      var owns := OwnsSwitch(s, switch) && !s.ended;
      var commits := owns && !stage.errors && !leaseFails;
      var t := if commits then CommitSwitch(s, switch)
               else if owns then FailSwitch(s, switch, stage.unresolved)
               else AbandonSwitch(s, switch);
      var result := if commits then Accepted(switch.candidateGeneration)
                    else if raises then Raised(switch.candidateGeneration)
                    else NotAccepted(switch.candidateGeneration);
      t.(tasks := t.tasks.(switches := t.tasks.switches - {task}, results := t.tasks.results[task := result]))
  }

  function EnterReconnect(s: Life, peer: PeerId): Life {
    s.(epoch := s.epoch + 1, phase := Reconnecting,
       reconnect := s.reconnect.(stateBefore := Some(s.state), gracePeer := Some(peer)),
       candidate := if s.candidate.Some? then Some(s.candidate.value.(epoch := s.epoch + 1)) else None)
  }

  /** "failed" overrides "closed", not the other way round. */
  function NoteLoss(s: Life, loss: Loss): Life {
    var kept := if loss.LostFailed? || s.reconnect.loss.None? then Some(loss) else s.reconnect.loss;
    s.(reconnect := s.reconnect.(loss := kept), state := ReconnectingState)
  }

  /** The guards under which a lost transport is not the active one's. */
  predicate IgnoresLoss(s: Life, peer: PeerId, generation: Option<nat>) {
    || (s.phase.Switching? && s.switching.retiringPeer == Some(peer)
        && (generation.None? || generation == s.switching.retiringGeneration))
    || s.ended || s.phase.Terminal? || peer != s.peer
    || (generation.Some? && generation.value != s.activeGeneration)
  }

  function BeginReconnect(s: Life, peer: PeerId, loss: Loss, generation: Option<nat>): Life {
    if IgnoresLoss(s, peer, generation) then s
    else
      var t := if s.phase.Reconnecting? && s.reconnect.gracePeer == Some(peer) then s else EnterReconnect(s, peer);
      var u := NoteLoss(t, loss);
      if TimerArmed(u) then u else ArmTimer(u, peer)
  }

  function ResolveDeferred(s: Life, epoch: Option<nat>, peer: Option<PeerId>): Life {
    if !s.phase.Reconnecting? || s.reconnect.loss.None? || s.ended
       || (epoch.Some? && epoch.value != s.epoch)
       || (peer.Some? && s.reconnect.gracePeer != peer) then s
    else if s.reconnect.backfills > 0 then s.(reconnect := s.reconnect.(graceTask := None))
    else TransitionTerminal(s, if s.reconnect.loss.value.LostFailed? then Failed else Ended, {})
  }

  function EndTimer(s: Life, timer: nat): Life {
    s.(tasks := s.tasks.(timers := s.tasks.timers - {timer}))
  }

  /** A grace timer's sleep is over. Cancelling it may come too late, so any unfinished timer can fire. */
  function FireTimer(s: Life, timer: nat): Life {
    if timer !in s.tasks.timers then s
    else EndTimer(ResolveDeferred(s, Some(s.tasks.timers[timer].epoch), Some(s.tasks.timers[timer].peer)), timer)
  }

  /** A cancelled timer ends without firing. */
  function DropTimer(s: Life, timer: nat): Life {
    if s.reconnect.graceTask == Some(timer) then s else EndTimer(s, timer)
  }

  function Recover(s: Life, peer: PeerId, generation: Option<nat>): Life {
    if !s.phase.Reconnecting? || s.reconnect.gracePeer != Some(peer) || peer != s.peer
       || (generation.Some? && generation.value != s.activeGeneration) then s
    else CompleteReconnect(s)
  }

  function BeginBackfill(s: Life): Life {
    if s.ended || s.phase.Terminal? || s.state in {Ended, Failed} then s
    else s.(reconnect := s.reconnect.(backfills := s.reconnect.backfills + 1))
  }

  function EndBackfill(s: Life): Life {
    var left := if s.reconnect.backfills > 0 then s.reconnect.backfills - 1 else 0;
    var t := s.(reconnect := s.reconnect.(backfills := left));
    if left == 0 && t.phase.Reconnecting? && t.reconnect.gracePeer.Some? && !TimerArmed(t)
    then ArmTimer(t, t.reconnect.gracePeer.value)
    else t
  }

  /** Speech and microphone code writes the conversational state, some of it without the lock. */
  function WriteState(s: Life, state: CallState): Life {
    if state in {Ended, Failed} || (state == ReconnectingState && !s.phase.Reconnecting?) then s else s.(state := state)
  }

  datatype Event =
    | ERegister(peer: PeerId, selection: Option<Selection>)
    | EReject(peer: PeerId, generation: Option<nat>)
    | EAccept(peer: PeerId, generation: Option<nat>, speechActive: bool)
    | ESettleClose(peer: PeerId, fails: bool)
    | ECleanSwitch(task: nat, errors: bool, closeFails: bool)
    | EFinishSwitch(task: nat, leaseFails: bool, raises: bool)
    | EBeginReconnect(peer: PeerId, loss: Loss, generation: Option<nat>)
    | EResolve(epoch: Option<nat>, gracePeer: Option<PeerId>)
    | EFireTimer(timer: nat)
    | EDropTimer(timer: nat)
    | ERecover(peer: PeerId, generation: Option<nat>)
    | EBeginBackfill
    | EEndBackfill
    | EWriteState(state: CallState)
    | ETerminate(target: CallState)

  function Next(s: Life, e: Event): Life {
    match e
    case ERegister(peer, selection) => Register(s, peer, selection)
    case EReject(peer, generation) => Reject(s, peer, generation)
    case EAccept(peer, generation, speechActive) => Accept(s, peer, generation, speechActive)
    case ESettleClose(peer, fails) => SettleClose(s, peer, fails)
    case ECleanSwitch(task, errors, closeFails) => CleanSwitch(s, task, errors, closeFails)
    case EFinishSwitch(task, leaseFails, raises) => FinishSwitch(s, task, leaseFails, raises)
    case EBeginReconnect(peer, loss, generation) => BeginReconnect(s, peer, loss, generation)
    case EResolve(epoch, peer) => ResolveDeferred(s, epoch, peer)
    case EFireTimer(timer) => FireTimer(s, timer)
    case EDropTimer(timer) => DropTimer(s, timer)
    case ERecover(peer, generation) => Recover(s, peer, generation)
    case EBeginBackfill => BeginBackfill(s)
    case EEndBackfill => EndBackfill(s)
    case EWriteState(state) => WriteState(s, state)
    case ETerminate(target) => TransitionTerminal(s, if target.Failed? then Failed else Ended, {})
  }

  function Run(s: Life, events: seq<Event>): (r: Life)
    decreases |events|
  {
    if events == [] then s else Next(Run(s, events[..|events| - 1]), events[|events| - 1])
  }
}
