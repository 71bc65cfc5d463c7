/**
  Microphone turns on top of the peer lifecycle: frames are buffered, a finalization claims the whole buffer,
  and its transcript or failure takes a place in the event outbox unless the call moved on meanwhile.
*/
module MicrophoneTurns {
  import opened Wrappers
  import opened PeerLifecycle

  type Frame = nat

  /** `backfill`: claimed by a reconnect backfill, which outlives a transport reconnect. */
  datatype Admission = Admission(token: nat, epoch: nat, backfill: bool)

  /** `answered`: the finalization has placed its one event. */
  datatype Finalization = Finalization(token: nat, frames: seq<Frame>, answered: bool)

  /** Places in the event outbox this model cares about. */
  datatype Slot = SttSlot(token: nat, failed: bool) | TerminalSlot

  datatype Microphone = Microphone(
    life: Life, frames: seq<Frame>, nextFrame: Frame, active: Option<Finalization>,
    admissions: map<nat, Admission>, generation: nat, switchTokens: set<nat>,
    claimed: seq<Frame>, slots: seq<Slot>)

  datatype Step =
    | LifeStep(event: Event)
    | Append
    | Clear
    | Claim(backfill: bool)
    | Answer(failed: bool)
    | Release

  datatype ClaimReply = Joins(token: nat) | Starts(token: nat) | NothingToSay | CallOver

  predicate Over(life: Life) {
    life.ended || life.phase.Terminal? || life.state in {Ended, Failed}
  }

  /** A lost transport that starts a new reconnect: the one that moves the epoch of a live call. */
  predicate EntersReconnect(life: Life, e: Event) {
    && e.EBeginReconnect? && !IgnoresLoss(life, e.peer, e.generation)
    && !(life.phase.Reconnecting? && life.reconnect.gracePeer == Some(e.peer))
  }

  predicate StartsSwitch(life: Life, e: Event) {
    e.EAccept? && CanAccept(life, e.peer, e.generation) && ChangesSelection(life)
  }

  function MoveBackfills(admissions: map<nat, Admission>, epoch: nat): map<nat, Admission> {
    map t | t in admissions :: if admissions[t].backfill then admissions[t].(epoch := epoch) else admissions[t]
  }

  function StepLife(m: Microphone, e: Event): Microphone {
    var life := Next(m.life, e);
    m.(life := life,
       admissions := if EntersReconnect(m.life, e) then MoveBackfills(m.admissions, life.epoch) else m.admissions,
       switchTokens := if StartsSwitch(m.life, e) then m.admissions.Keys else m.switchTokens,
       slots := if life.ended && !m.life.ended then m.slots + [TerminalSlot] else m.slots)
  }

  function ReplyToClaim(m: Microphone): ClaimReply {
    if m.active.Some? then Joins(m.active.value.token)
    else if Over(m.life) then CallOver
    else if m.frames == [] then NothingToSay
    else Starts(m.generation + 1)
  }

  function StepClaim(m: Microphone, backfill: bool): Microphone {
    if !ReplyToClaim(m).Starts? then m else
    var token := m.generation + 1;
    m.(generation := token, frames := [], claimed := m.claimed + m.frames,
       active := Some(Finalization(token, m.frames, false)),
       admissions := m.admissions[token := Admission(token, m.life.epoch, backfill)],
       life := m.life.(state := Understanding))
  }

  /** The admission is no longer current. `m.active` is the running finalization, so its task is not done. */
  predicate StaleTurn(m: Microphone, token: nat) {
    || token !in m.admissions
    || Over(m.life)
    || m.admissions[token].epoch != m.life.epoch
    || (m.life.phase.Switching? && !(m.life.switching.transaction.Some? && token in m.switchTokens))
  }

  predicate Answers(m: Microphone) {
    m.active.Some? && !m.active.value.answered && !StaleTurn(m, m.active.value.token)
  }

  function StepAnswer(m: Microphone, failed: bool): Microphone {
    if !Answers(m) then m else
    m.(slots := m.slots + [SttSlot(m.active.value.token, failed)], active := Some(m.active.value.(answered := true)))
  }

  function StepRelease(m: Microphone): Microphone {
    if m.active.None? then m else
    m.(active := None, admissions := m.admissions - {m.active.value.token})
  }

  function NextMic(m: Microphone, step: Step): Microphone {
    match step
    case LifeStep(e) => StepLife(m, e)
    case Append => m.(frames := m.frames + [m.nextFrame], nextFrame := m.nextFrame + 1)
    case Clear => m.(frames := [])
    case Claim(backfill) => StepClaim(m, backfill)
    case Answer(failed) => StepAnswer(m, failed)
    case Release => StepRelease(m)
  }

  function Start(peer: PeerId, selection: Selection): Microphone {
    Microphone(Init(peer, selection), [], 0, None, map[], 0, {}, [], [])
  }

  function RunMic(m: Microphone, steps: seq<Step>): Microphone
    decreases |steps|
  {
    if steps == [] then m else NextMic(RunMic(m, steps[..|steps| - 1]), steps[|steps| - 1])
  }

  // ---- invariants ----

  ghost predicate Increasing(s: seq<nat>) {
    forall i, j :: 0 <= i < j < |s| ==> s[i] < s[j]
  }

  /** Frames are claimed in the order they were buffered, each at most once. */
  ghost predicate FramesInv(m: Microphone) {
    && Increasing(m.claimed + m.frames)
    && (forall f | f in m.claimed + m.frames :: f < m.nextFrame)
  }

  /** At most one finalization runs, and it alone is admitted. */
  ghost predicate ActiveInv(m: Microphone) {
    && m.admissions.Keys == (if m.active.Some? then {m.active.value.token} else {})
    && (m.active.Some? ==> m.active.value.token <= m.generation)
    && (forall t | t in m.admissions ::
          m.admissions[t].token == t && m.admissions[t].epoch <= m.life.epoch
          && (m.admissions[t].backfill && !m.life.ended ==> m.admissions[t].epoch == m.life.epoch))
  }

  /** The terminal slot comes last and once; a turn has at most one slot. */
  ghost predicate SlotsInv(m: Microphone) {
    && (m.life.ended <==> TerminalSlot in m.slots)
    && (forall i | 0 <= i < |m.slots| && m.slots[i].TerminalSlot? :: i == |m.slots| - 1)
    && (forall i, j | 0 <= i < j < |m.slots| && m.slots[i].SttSlot? && m.slots[j].SttSlot? ::
          m.slots[i].token != m.slots[j].token)
    && (forall i | 0 <= i < |m.slots| && m.slots[i].SttSlot? :: m.slots[i].token <= m.generation)
    && (m.active.Some? && !m.active.value.answered ==>
          forall i | 0 <= i < |m.slots| && m.slots[i].SttSlot? :: m.slots[i].token != m.active.value.token)
  }

  ghost predicate MicInv(m: Microphone) {
    FramesInv(m) && ActiveInv(m) && SlotsInv(m)
  }

  // ---- what the lifecycle gives ----

  lemma EndedStays(life: Life, e: Event)
    requires life.ended
    ensures Next(life, e).ended
  {}

  lemma EpochMoves(life: Life, e: Event)
    ensures life.epoch <= Next(life, e).epoch
    ensures !Next(life, e).ended ==> Next(life, e).epoch == life.epoch + if EntersReconnect(life, e) then 1 else 0
  {}

  lemma LifeKeeps(m: Microphone, e: Event)
    requires MicInv(m)
    ensures MicInv(StepLife(m, e))
  {
    hide Next, EntersReconnect, StartsSwitch;
    EpochMoves(m.life, e);
    if m.life.ended {
      EndedStays(m.life, e);
    }
  }

  lemma ClaimKeeps(m: Microphone, backfill: bool)
    requires MicInv(m)
    ensures MicInv(StepClaim(m, backfill))
  {
    assert m.claimed + m.frames + [] == m.claimed + m.frames;
  }

  lemma AnswerKeeps(m: Microphone, failed: bool)
    requires MicInv(m)
    ensures MicInv(StepAnswer(m, failed))
  {
    hide Increasing;
  }

  lemma IncreasingSnoc(s: seq<nat>, x: nat)
    requires Increasing(s) && forall y | y in s :: y < x
    ensures Increasing(s + [x])
  {
    assert forall i | 0 <= i < |s| :: s[i] in s;
  }

  lemma BufferKeeps(m: Microphone)
    requires FramesInv(m)
    ensures FramesInv(NextMic(m, Append)) && FramesInv(NextMic(m, Clear))
  {
    AppendKeeps(m);
    ClearKeeps(m);
  }

  lemma AppendKeeps(m: Microphone)
    requires FramesInv(m)
    ensures FramesInv(m.(frames := m.frames + [m.nextFrame], nextFrame := m.nextFrame + 1))
  {
    IncreasingSnoc(m.claimed + m.frames, m.nextFrame);
    hide Increasing;
    assert m.claimed + (m.frames + [m.nextFrame]) == m.claimed + m.frames + [m.nextFrame];
  }

  lemma ClearKeeps(m: Microphone)
    requires FramesInv(m)
    ensures FramesInv(m.(frames := []))
  {
    IncreasingPrefix(m.claimed, m.frames);
    assert forall f | f in m.claimed :: f in m.claimed + m.frames;
    hide Increasing;
    assert m.claimed + [] == m.claimed;
  }

  lemma IncreasingPrefix(s: seq<nat>, t: seq<nat>)
    requires Increasing(s + t)
    ensures Increasing(s)
  {
    assert forall i | 0 <= i < |s| :: (s + t)[i] == s[i];
  }

  lemma ReleaseKeeps(m: Microphone)
    requires MicInv(m)
    ensures MicInv(StepRelease(m))
  {
    hide Increasing;
  }

  lemma NextKeeps(m: Microphone, step: Step)
    requires MicInv(m)
    ensures MicInv(NextMic(m, step))
  {
    hide StepLife, StepClaim, StepAnswer, StepRelease, FramesInv;
    match step
    case LifeStep(e) => LifeKeeps(m, e);
    case Claim(backfill) => ClaimKeeps(m, backfill);
    case Answer(failed) => AnswerKeeps(m, failed);
    case Append => BufferKeeps(m);
    case Clear => BufferKeeps(m);
    case Release => ReleaseKeeps(m);
  }

  /** Every run keeps them. */
  lemma {:induction false} MicInvRun(peer: PeerId, selection: Selection, steps: seq<Step>)
    ensures MicInv(RunMic(Start(peer, selection), steps))
    decreases |steps|
  {
    hide MicInv, NextMic;
    var m := Start(peer, selection);
    if steps == [] {
      StartInv(peer, selection);
    } else {
      MicInvRun(peer, selection, steps[..|steps| - 1]);
      NextKeeps(RunMic(m, steps[..|steps| - 1]), steps[|steps| - 1]);
    }
  }

  lemma StartInv(peer: PeerId, selection: Selection)
    ensures MicInv(Start(peer, selection))
  {}

  // ---- what it means ----

  /** No frame is claimed twice, and none that is still buffered was claimed. */
  lemma EachFrameClaimedOnce(peer: PeerId, selection: Selection, steps: seq<Step>, i: nat, j: nat)
    requires var m := RunMic(Start(peer, selection), steps); i < j < |m.claimed + m.frames|
    ensures var m := RunMic(Start(peer, selection), steps); (m.claimed + m.frames)[i] < (m.claimed + m.frames)[j]
  {
    MicInvRun(peer, selection, steps);
  }

  /** A claim while a finalization runs joins it, whatever was buffered since. */
  lemma OneFinalizationAtATime(peer: PeerId, selection: Selection, steps: seq<Step>, backfill: bool)
    requires RunMic(Start(peer, selection), steps).active.Some?
    ensures var m := RunMic(Start(peer, selection), steps);
            && m.admissions.Keys == {m.active.value.token}
            && ReplyToClaim(m) == Joins(m.active.value.token) && StepClaim(m, backfill) == m
  {
    MicInvRun(peer, selection, steps);
  }

  /** Nothing of a microphone turn takes a place after the terminal event's, and each turn takes at most one. */
  lemma NothingAfterTerminalSlot(peer: PeerId, selection: Selection, steps: seq<Step>, i: nat, j: nat)
    requires i < j < |RunMic(Start(peer, selection), steps).slots|
    ensures var slots := RunMic(Start(peer, selection), steps).slots;
            slots[i].SttSlot? && (slots[j].SttSlot? ==> slots[i].token != slots[j].token)
  {
    MicInvRun(peer, selection, steps);
  }

  /** Whether a finalization's event gets a place, as its caller could tell beforehand: the call goes on, no new
      reconnect began since the claim unless a backfill claimed it, and a running switch has noted it. */
  lemma AnswersExactly(peer: PeerId, selection: Selection, steps: seq<Step>)
    requires var m := RunMic(Start(peer, selection), steps); m.active.Some? && !m.active.value.answered
    ensures var m := RunMic(Start(peer, selection), steps);
            var token := m.active.value.token;
            token in m.admissions &&
            (Answers(m) <==>
              && !Over(m.life)
              && (m.admissions[token].backfill || m.admissions[token].epoch == m.life.epoch)
              && (m.life.phase.Switching? ==> m.life.switching.transaction.Some? && token in m.switchTokens))
  {
    MicInvRun(peer, selection, steps);
  }

  predicate Outdated(m: Microphone, token: nat) {
    && token <= m.generation
    && (token in m.admissions ==> !m.admissions[token].backfill && m.admissions[token].epoch < m.life.epoch)
  }

  lemma OutdatedNext(m: Microphone, step: Step, token: nat)
    requires MicInv(m) && Outdated(m, token)
    ensures Outdated(NextMic(m, step), token)
    ensures forall failed: bool | SttSlot(token, failed) in NextMic(m, step).slots :: SttSlot(token, failed) in m.slots
  {
    hide FramesInv, SlotsInv, EntersReconnect, StartsSwitch, Next;
    if step.LifeStep? {
      EpochMoves(m.life, step.event);
    }
  }

  /** A live turn that a transport reconnect interrupted never gets a place, however the call goes on. */
  lemma {:induction false} InterruptedTurnIsSilent(m: Microphone, steps: seq<Step>, token: nat, failed: bool)
    requires MicInv(m) && Outdated(m, token)
    ensures MicInv(RunMic(m, steps)) && Outdated(RunMic(m, steps), token)
    ensures SttSlot(token, failed) in RunMic(m, steps).slots ==> SttSlot(token, failed) in m.slots
    decreases |steps|
  {
    hide MicInv, NextMic, Outdated;
    if steps != [] {
      var before := RunMic(m, steps[..|steps| - 1]);
      InterruptedTurnIsSilent(m, steps[..|steps| - 1], token, failed);
      NextKeeps(before, steps[|steps| - 1]);
      OutdatedNext(before, steps[|steps| - 1], token);
    }
  }

  // ---- what a finalization hears, and what becomes of it ----

  /** The frames appended since the buffer was last cleared or claimed, numbered as they came. */
  function Buffered(m: Microphone, steps: seq<Step>): seq<Frame>
    decreases |steps|
  {
    if steps == [] then [] else
    var before, step := steps[..|steps| - 1], steps[|steps| - 1];
    match step
    case Append => Buffered(m, before) + [Appends(before)]
    case Clear => []
    case Claim(_) => if ReplyToClaim(RunMic(m, before)).Starts? then [] else Buffered(m, before)
    case _ => Buffered(m, before)
  }

  function Appends(steps: seq<Step>): nat
    decreases |steps|
  {
    if steps == [] then 0 else Appends(steps[..|steps| - 1]) + if steps[|steps| - 1].Append? then 1 else 0
  }

  lemma BufferStep(m: Microphone, step: Step)
    ensures var after := NextMic(m, step);
            && after.frames == (match step
                                case Append => m.frames + [m.nextFrame]
                                case Clear => []
                                case Claim(_) => if ReplyToClaim(m).Starts? then [] else m.frames
                                case _ => m.frames)
            && after.nextFrame == m.nextFrame + (if step.Append? then 1 else 0)
  {
    hide Next, EntersReconnect, StartsSwitch, Answers;
  }

  /** The buffer is exactly what was appended since it was last cleared or claimed. */
  lemma {:induction false} BufferedExactly(peer: PeerId, selection: Selection, steps: seq<Step>)
    ensures var m := RunMic(Start(peer, selection), steps);
            m.frames == Buffered(Start(peer, selection), steps) && m.nextFrame == Appends(steps)
    decreases |steps|
  {
    hide NextMic, ReplyToClaim;
    if steps != [] {
      BufferedExactly(peer, selection, steps[..|steps| - 1]);
      BufferStep(RunMic(Start(peer, selection), steps[..|steps| - 1]), steps[|steps| - 1]);
    }
  }

  lemma ActiveStep(m: Microphone, step: Step)
    ensures var after := NextMic(m, step);
            if step.Claim? && ReplyToClaim(m).Starts? then
              && after.active == Some(Finalization(m.generation + 1, m.frames, false)) && m.active.None? && m.frames != []
              && after.claimed == m.claimed + m.frames && after.generation == m.generation + 1
              && after.life == m.life.(state := Understanding)
            else
              && after.claimed == m.claimed && after.generation == m.generation
              && (after.active.Some? ==>
                    !step.Release? && m.active.Some?
                    && after.active.value.token == m.active.value.token && after.active.value.frames == m.active.value.frames)
              && (!step.Release? && m.active.Some? ==> after.active.Some?)
  {
    hide Next, EntersReconnect, StartsSwitch, StaleTurn;
  }

  /** A finalization runs from the claim that started it until it is released, and hears exactly what was buffered when
      it was claimed: at least one frame. */
  lemma {:induction false} FinalizationHears(peer: PeerId, selection: Selection, steps: seq<Step>) returns (i: nat)
    requires RunMic(Start(peer, selection), steps).active.Some?
    ensures i < |steps| && steps[i].Claim?
    ensures var m, at := RunMic(Start(peer, selection), steps), RunMic(Start(peer, selection), steps[..i]);
            && ReplyToClaim(at) == Starts(m.active.value.token)
            && m.active.value.frames == Buffered(Start(peer, selection), steps[..i]) != []
            && forall k | i < k < |steps| :: !steps[k].Release?
    decreases |steps|
  {
    hide NextMic, Buffered;
    if steps == [] {
      assert false;
    } else {
      var before, step := steps[..|steps| - 1], steps[|steps| - 1];
      var m := RunMic(Start(peer, selection), before);
      ActiveStep(m, step);
      if step.Claim? && ReplyToClaim(m).Starts? {
        BufferedExactly(peer, selection, before);
        i := |before|;
      } else {
        i := FinalizationHears(peer, selection, before);
        assert before[..i] == steps[..i];
      }
    }
  }

  /** What a claim is told, from what came before: it joins a running finalization; with none running it is told that
      the call is over, that nothing was said since the last claim, or to start. */
  lemma ClaimIsTold(peer: PeerId, selection: Selection, steps: seq<Step>)
    ensures var m := RunMic(Start(peer, selection), steps);
            var reply := ReplyToClaim(m);
            && (reply.Joins? <==> m.active.Some?)
            && (reply.CallOver? <==> m.active.None? && (m.life.ended || m.life.phase.Terminal? || m.life.state in {Ended, Failed}))
            && (reply.NothingToSay? ==> Buffered(Start(peer, selection), steps) == [])
            && (reply.Starts? ==> Buffered(Start(peer, selection), steps) != [] && reply.token == m.generation + 1)
  {
    BufferedExactly(peer, selection, steps);
    hide RunMic, Buffered;
  }

  /** The tokens a switch noted were given out before it. */
  ghost predicate NotedInv(m: Microphone) {
    forall t | t in m.switchTokens :: t <= m.generation
  }

  lemma NotedNext(m: Microphone, step: Step)
    requires MicInv(m) && NotedInv(m)
    ensures NotedInv(NextMic(m, step))
  {
    hide FramesInv, SlotsInv, Next, EntersReconnect, StartsSwitch, StaleTurn;
  }

  lemma {:induction false} NotedRun(peer: PeerId, selection: Selection, steps: seq<Step>)
    ensures NotedInv(RunMic(Start(peer, selection), steps)) && MicInv(RunMic(Start(peer, selection), steps))
    decreases |steps|
  {
    hide NextMic, MicInv;
    MicInvRun(peer, selection, steps);
    if steps != [] {
      NotedRun(peer, selection, steps[..|steps| - 1]);
      NotedNext(RunMic(Start(peer, selection), steps[..|steps| - 1]), steps[|steps| - 1]);
    }
  }

  /** A turn that could take its place when an engine switch starts still can while the switch runs; a turn claimed
      during the switch cannot. */
  lemma SwitchKeepsEarlierTurns(peer: PeerId, selection: Selection, steps: seq<Step>, e: Event, backfill: bool)
    ensures var m := RunMic(Start(peer, selection), steps);
            && (Answers(m) && StartsSwitch(m.life, e) ==> Answers(NextMic(m, LifeStep(e))))
            && (m.life.phase.Switching? && ReplyToClaim(m).Starts? ==> !Answers(NextMic(m, Claim(backfill))))
  {
    NotedRun(peer, selection, steps);
    var m := RunMic(Start(peer, selection), steps);
    hide RunMic, FramesInv, SlotsInv;
    if StartsSwitch(m.life, e) {
      SwitchStarts(m.life, e);
    }
  }

  lemma SwitchStarts(life: Life, e: Event)
    requires StartsSwitch(life, e)
    ensures var after := Next(life, e);
            && after.phase.Switching? && after.switching.transaction.Some? && after.epoch == life.epoch
            && after.ended == life.ended && after.state == life.state && !EntersReconnect(life, e)
  {}

  /** On a live call that is not switching, with nothing running, a turn that nobody disturbs is heard in full: its
      claim takes the buffer, its answer takes the next place as what it is, and the next turn can follow. */
  lemma UndisturbedTurnIsPlaced(peer: PeerId, selection: Selection, steps: seq<Step>, backfill: bool, failed: bool)
    requires var m := RunMic(Start(peer, selection), steps);
             m.active.None? && !Over(m.life) && !m.life.phase.Switching?
    ensures var m := RunMic(Start(peer, selection), steps);
            var heard := NextMic(NextMic(m, Append), Claim(backfill));
            var done := NextMic(NextMic(heard, Answer(failed)), Release);
            && heard.active == Some(Finalization(m.generation + 1, m.frames + [m.nextFrame], false))
            && done.slots == m.slots + [SttSlot(m.generation + 1, failed)]
            && done.active.None? && done.frames == [] && done.admissions == map[] && !Over(done.life)
  {
    MicInvRun(peer, selection, steps);
    var m := RunMic(Start(peer, selection), steps);
    hide RunMic, FramesInv, SlotsInv;
    assert m.admissions == map[];
    var heard := NextMic(NextMic(m, Append), Claim(backfill));
    assert heard.admissions == map[m.generation + 1 := Admission(m.generation + 1, m.life.epoch, backfill)];
    assert Answers(heard);
  }
}

/** The microphone side of the session in the source's form; the lifecycle fields it reads are one record. */
module SessionMicrophone {
  import opened Wrappers
  import opened PeerLifecycle
  import opened MicrophoneTurns

  class SessionMicrophone {
    var life: Life
    var turnFrames: seq<Frame>
    var activeSttFinalization: Option<Finalization>
    var sttAdmissions: map<nat, Admission>
    var sttAdmissionGeneration: nat
    var switchSttTokens: set<nat>
    var outboxSlots: seq<Slot>
    ghost var nextFrame: Frame
    ghost var claimed: seq<Frame>

    ghost function View(): Microphone
      reads this
    {
      Microphone(life, turnFrames, nextFrame, activeSttFinalization, sttAdmissions, sttAdmissionGeneration, switchSttTokens,
                 claimed, outboxSlots)
    }

    constructor (peer: PeerId, selection: Selection)
      ensures View() == Start(peer, selection)
    {
      life, turnFrames, activeSttFinalization, sttAdmissions := Init(peer, selection), [], None, map[];
      sttAdmissionGeneration, switchSttTokens, outboxSlots, nextFrame, claimed := 0, {}, [], 0, [];
    }

    method AppendTurnFrame(frame: Frame)
      requires frame == nextFrame
      modifies `turnFrames, `nextFrame
      ensures View() == NextMic(old(View()), Append)
    {
      turnFrames := turnFrames + [frame];
      nextFrame := nextFrame + 1;
    }

    /** Joins the running finalization, or claims every buffered frame for a new one. */
    method ClaimSttFinalization(backfill: bool) returns (reply: ClaimReply)
      modifies `life, `turnFrames, `activeSttFinalization, `sttAdmissions, `sttAdmissionGeneration, `claimed
      ensures View() == StepClaim(old(View()), backfill)
      ensures reply == ReplyToClaim(old(View()))
    {
      if activeSttFinalization.Some? {
        return Joins(activeSttFinalization.value.token);
      }
      if life.ended || life.phase.Terminal? || life.state == Ended || life.state == Failed {
        return CallOver;
      }
      if turnFrames == [] {
        return NothingToSay;
      }
      sttAdmissionGeneration := sttAdmissionGeneration + 1;
      var token := sttAdmissionGeneration;
      activeSttFinalization := Some(Finalization(token, turnFrames, false));
      claimed := claimed + turnFrames;
      turnFrames := [];
      life := life.(state := Understanding);
      sttAdmissions := sttAdmissions[token := Admission(token, life.epoch, backfill)];
      return Starts(token);
    }

    predicate StaleSttTurn(token: nat)
      reads this
    {
      || token !in sttAdmissions
      || life.ended || life.phase.Terminal? || life.state == Ended || life.state == Failed
      || sttAdmissions[token].epoch != life.epoch
      || (life.phase.Switching? && !(life.switching.transaction.Some? && token in switchSttTokens))
    }

    /** Orders the transcript or failure of the running finalization against the terminal transition. */
    method CommitSttEvent(failed: bool) returns (committed: bool)
      requires activeSttFinalization.Some? && !activeSttFinalization.value.answered
      modifies `activeSttFinalization, `outboxSlots
      ensures View() == StepAnswer(old(View()), failed)
      ensures committed == Answers(old(View()))
    {
      var finalization := activeSttFinalization.value;
      committed := !StaleSttTurn(finalization.token);
      if committed {
        outboxSlots := outboxSlots + [SttSlot(finalization.token, failed)];
        activeSttFinalization := Some(finalization.(answered := true));
      }
    }

    method ReleaseSttAdmission()
      requires activeSttFinalization.Some?
      modifies `activeSttFinalization, `sttAdmissions
      ensures View() == StepRelease(old(View()))
    {
      sttAdmissions := sttAdmissions - {activeSttFinalization.value.token};
      activeSttFinalization := None;
    }
  }
}
