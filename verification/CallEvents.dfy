/**
  Microphone turns, the end of the call and the event outbox together: what takes a place is committed to the outbox
  in the same lock-guarded section, and the terminal event's place is reserved until its cleanup has run.
*/
module CallEvents {
  import opened Wrappers
  import PeerLifecycle
  import M = MicrophoneTurns
  import O = EventOutbox

  /** `places` are the sequence numbers the microphone's slots got in the outbox. */
  datatype Call = Call(mic: M.Microphone, session: O.Session, places: seq<nat>)

  /** `Other` is any other event the session emits, before or after the end: state, speech, failed speech, controls. */
  datatype Step =
    | Mic(step: M.Step)
    | PublishEnd(event: O.CallEvent)
    | Other(event: O.CallEvent)
    | Deliver(delivery: O.Step)

  function EventOf(slot: M.Slot): Option<O.CallEvent> {
    match slot
    case SttSlot(token, failed) => Some(O.CallEvent(if failed then O.Failed else O.UserFinal, Some(token)))
    case TerminalSlot => None
  }

  predicate TerminalEvent(event: O.CallEvent) {
    (event.kind == O.Ended || event.kind == O.Failed) && event.turn == None
  }

  /** The sequence number of the terminal event's place: the last one, once the call is over. */
  function EndPlace(c: Call): Option<nat> {
    if c.mic.life.ended && c.places != [] then Some(c.places[|c.places| - 1]) else None
  }

  function StepMic(c: Call, step: M.Step): Call {
    var mic := M.NextMic(c.mic, step);
    if |mic.slots| <= |c.mic.slots| then c.(mic := mic)
    else Call(mic, O.Next(c.session, O.Commit(EventOf(mic.slots[|mic.slots| - 1]))),
              c.places + [c.session.outbox.committed + 1])
  }

  function Next(c: Call, step: Step): Call {
    match step
    case Mic(micStep) => StepMic(c, micStep)
    case PublishEnd(event) =>
      if EndPlace(c).Some? && TerminalEvent(event)
      then c.(session := O.Next(c.session, O.Resolve(EndPlace(c).value, event))) else c
    case Other(event) =>
      if event.kind == O.UserFinal || event.kind == O.Ended then c
      else c.(session := O.Next(c.session, O.Commit(Some(event))))
    case Deliver(delivery) =>
      if delivery.Commit? || delivery.Resolve? then c else c.(session := O.Next(c.session, delivery))
  }

  function Start(peer: PeerLifecycle.PeerId, selection: PeerLifecycle.Selection): Call {
    Call(M.Start(peer, selection), O.Start(), [])
  }

  function Run(c: Call, steps: seq<Step>): Call
    decreases |steps|
  {
    if steps == [] then c else Next(Run(c, steps[..|steps| - 1]), steps[|steps| - 1])
  }

  // ---- everything committed so far ----

  function All(s: O.Session): seq<O.Entry> {
    s.history.finished + s.outbox.queue
  }

  lemma AllAfterCommit(s: O.Session, event: Option<O.CallEvent>)
    ensures All(O.Next(s, O.Commit(event))) == All(s) + [O.Entry(s.outbox.committed + 1, event)]
  {}

  lemma AllAfterDelivery(s: O.Session, delivery: O.Step)
    requires O.SessionInv(s) && !delivery.Commit? && !delivery.Resolve?
    ensures All(O.Next(s, delivery)) == All(s)
  {
    hide O.FatesInv, O.OrderInv;
    if s.outbox.queue != [] {
      assert s.outbox.queue == [s.outbox.queue[0]] + s.outbox.queue[1..];
    }
  }

  lemma AllAfterResolve(s: O.Session, sequence: nat, event: O.CallEvent)
    requires O.SessionInv(s)
    ensures var after := All(O.Next(s, O.Resolve(sequence, event)));
            && |after| == |All(s)|
            && forall i | 0 <= i < |after| ::
                 after[i] == if All(s)[i].sequence == sequence && All(s)[i].event.None?
                             then All(s)[i].(event := Some(event)) else All(s)[i]
  {
    hide O.FatesInv, O.TasksInv;
  }

  lemma Numbered(s: O.Session)
    requires O.SessionInv(s)
    ensures |All(s)| == s.outbox.committed && forall i | 0 <= i < |All(s)| :: All(s)[i].sequence == i + 1
  {
    hide O.FatesInv, O.TasksInv;
  }

  // ---- the invariant ----

  /** The entry at a place holds what its slot says; the terminal one is reserved or holds the terminal event. */
  predicate Holds(entry: O.Entry, slot: M.Slot) {
    if slot.SttSlot? then entry.event == EventOf(slot) else entry.event.None? || TerminalEvent(entry.event.value)
  }

  ghost predicate PlacesInv(c: Call) {
    && |c.places| == |c.mic.slots|
    && (forall i, j | 0 <= i < j < |c.places| :: c.places[i] < c.places[j])
    && (forall i | 0 <= i < |c.places| :: 1 <= c.places[i] <= |All(c.session)|)
    && (forall i | 0 <= i < |c.places| :: Holds(All(c.session)[c.places[i] - 1], c.mic.slots[i]))
  }

  /** Every transcript in the outbox is at a place. */
  ghost predicate TranscriptsInv(c: Call) {
    forall k | 0 <= k < |All(c.session)| && All(c.session)[k].event.Some? && All(c.session)[k].event.value.kind == O.UserFinal ::
      k + 1 in c.places
  }

  ghost predicate CallInv(c: Call) {
    M.MicInv(c.mic) && O.SessionInv(c.session) && PlacesInv(c) && TranscriptsInv(c)
  }

  lemma SlotsGrow(m: M.Microphone, step: M.Step)
    ensures var after := M.NextMic(m, step);
            after.slots == m.slots || (|after.slots| == |m.slots| + 1 && m.slots <= after.slots)
  {
    hide PeerLifecycle.Next, M.Answers;
  }

  lemma PlacesGrow(c: Call, mic: M.Microphone, slot: M.Slot, s: O.Session)
    requires PlacesInv(c) && TranscriptsInv(c) && mic.slots == c.mic.slots + [slot]
    requires |All(c.session)| == c.session.outbox.committed
    requires All(s) == All(c.session) + [O.Entry(c.session.outbox.committed + 1, EventOf(slot))]
    ensures var after := Call(mic, s, c.places + [c.session.outbox.committed + 1]);
            PlacesInv(after) && TranscriptsInv(after)
  {
    hide All;
  }

  lemma MicKeeps(c: Call, step: M.Step)
    requires CallInv(c)
    ensures CallInv(StepMic(c, step))
  {
    hide M.MicInv, O.SessionInv, PlacesInv, TranscriptsInv, M.NextMic, O.Next, All;
    var mic := M.NextMic(c.mic, step);
    M.NextKeeps(c.mic, step);
    SlotsGrow(c.mic, step);
    if mic.slots == c.mic.slots {
      SameSlots(c, mic);
    } else {
      var slot := mic.slots[|mic.slots| - 1];
      assert mic.slots == c.mic.slots + [slot];
      O.NextKeeps(c.session, O.Commit(EventOf(slot)));
      AllAfterCommit(c.session, EventOf(slot));
      Numbered(c.session);
      PlacesGrow(c, mic, slot, O.Next(c.session, O.Commit(EventOf(slot))));
    }
  }

  lemma SameSlots(c: Call, mic: M.Microphone)
    requires PlacesInv(c) && TranscriptsInv(c) && mic.slots == c.mic.slots
    ensures PlacesInv(c.(mic := mic)) && TranscriptsInv(c.(mic := mic))
  {
    hide All;
  }

  lemma OtherGrows(c: Call, s: O.Session, entry: O.Entry)
    requires PlacesInv(c) && TranscriptsInv(c) && All(s) == All(c.session) + [entry]
    requires entry.event.Some? && entry.event.value.kind != O.UserFinal
    ensures PlacesInv(c.(session := s)) && TranscriptsInv(c.(session := s))
  {
    hide All;
  }

  lemma SameAll(c: Call, s: O.Session)
    requires PlacesInv(c) && TranscriptsInv(c) && All(s) == All(c.session)
    ensures PlacesInv(c.(session := s)) && TranscriptsInv(c.(session := s))
  {
    hide All;
  }

  lemma EndIsLast(c: Call)
    requires M.MicInv(c.mic) && PlacesInv(c)
    ensures EndPlace(c).Some? <==> c.mic.life.ended
    ensures EndPlace(c).Some? ==> c.mic.slots[|c.places| - 1].TerminalSlot?
    ensures !c.mic.life.ended ==> forall i | 0 <= i < |c.places| :: c.mic.slots[i].SttSlot?
    ensures forall i | 0 <= i < |c.places| - 1 :: c.mic.slots[i].SttSlot?
  {
    hide M.FramesInv, M.ActiveInv, All, Holds;
    assert c.mic.life.ended ==> M.TerminalSlot in c.mic.slots;
  }

  lemma PublishHolds(c: Call, s: O.Session, event: O.CallEvent)
    requires PlacesInv(c) && EndPlace(c).Some? && TerminalEvent(event) && c.mic.slots[|c.places| - 1].TerminalSlot?
    requires |All(s)| == |All(c.session)| && forall i | 0 <= i < |All(s)| ::
               All(s)[i] == if i + 1 == EndPlace(c).value && All(c.session)[i].event.None?
                            then All(c.session)[i].(event := Some(event)) else All(c.session)[i]
    ensures PlacesInv(c.(session := s))
    ensures TranscriptsInv(c) ==> TranscriptsInv(c.(session := s))
  {
    hide All;
  }

  lemma PublishKeeps(c: Call, event: O.CallEvent)
    requires CallInv(c) && EndPlace(c).Some? && TerminalEvent(event)
    ensures CallInv(Next(c, PublishEnd(event)))
  {
    hide M.MicInv, O.SessionInv, PlacesInv, TranscriptsInv, O.Next, All, EndPlace;
    EndIsLast(c);
    Numbered(c.session);
    AllAfterResolve(c.session, EndPlace(c).value, event);
    O.NextKeeps(c.session, O.Resolve(EndPlace(c).value, event));
    PublishHolds(c, O.Next(c.session, O.Resolve(EndPlace(c).value, event)), event);
  }

  lemma NextKeeps(c: Call, step: Step)
    requires CallInv(c)
    ensures CallInv(Next(c, step))
  {
    hide M.MicInv, O.SessionInv, PlacesInv, TranscriptsInv, StepMic, O.Next, All;
    match step
    case Mic(micStep) => MicKeeps(c, micStep);
    case PublishEnd(event) =>
      if EndPlace(c).Some? && TerminalEvent(event) {
        PublishKeeps(c, event);
      }
    case Other(event) =>
      if event.kind != O.UserFinal && event.kind != O.Ended {
        O.NextKeeps(c.session, O.Commit(Some(event)));
        AllAfterCommit(c.session, Some(event));
        OtherGrows(c, O.Next(c.session, O.Commit(Some(event))), O.Entry(c.session.outbox.committed + 1, Some(event)));
      }
    case Deliver(delivery) =>
      if !delivery.Commit? && !delivery.Resolve? {
        O.NextKeeps(c.session, delivery);
        AllAfterDelivery(c.session, delivery);
        SameAll(c, O.Next(c.session, delivery));
      }
  }

  lemma StartInv(peer: PeerLifecycle.PeerId, selection: PeerLifecycle.Selection)
    ensures CallInv(Start(peer, selection))
  {
    M.StartInv(peer, selection);
    O.StartInv();
    hide M.MicInv, O.SessionInv;
  }

  /** Every run keeps the invariants of both sides and their connection. */
  lemma {:induction false} CallInvRun(peer: PeerLifecycle.PeerId, selection: PeerLifecycle.Selection, steps: seq<Step>)
    ensures CallInv(Run(Start(peer, selection), steps))
    decreases |steps|
  {
    hide CallInv, Next;
    if steps == [] {
      StartInv(peer, selection);
    } else {
      CallInvRun(peer, selection, steps[..|steps| - 1]);
      NextKeeps(Run(Start(peer, selection), steps[..|steps| - 1]), steps[|steps| - 1]);
    }
  }

  // ---- what it means ----

  /** No transcript is ever in the outbox, let alone finished, behind the terminal event: each has a smaller sequence
      number, so it is finished before the terminal event is. */
  lemma NoTranscriptAfterTheEnd(
      peer: PeerLifecycle.PeerId, selection: PeerLifecycle.Selection, steps: seq<Step>, k: nat)
    requires var c := Run(Start(peer, selection), steps);
             && c.mic.life.ended && k < |All(c.session)|
             && All(c.session)[k].event.Some? && All(c.session)[k].event.value.kind == O.UserFinal
    ensures var c := Run(Start(peer, selection), steps);
            EndPlace(c).Some? && All(c.session)[k].sequence == k + 1 < EndPlace(c).value
  {
    CallInvRun(peer, selection, steps);
    hide Run;
    TranscriptIsEarlier(Run(Start(peer, selection), steps), k);
  }

  lemma TranscriptIsEarlier(c: Call, k: nat)
    requires CallInv(c) && c.mic.life.ended && k < |All(c.session)|
    requires All(c.session)[k].event.Some? && All(c.session)[k].event.value.kind == O.UserFinal
    ensures EndPlace(c).Some? && All(c.session)[k].sequence == k + 1 < EndPlace(c).value
  {
    EndIsLast(c);
    Numbered(c.session);
    hide M.MicInv, O.SessionInv, All;
    var i :| 0 <= i < |c.places| && c.places[i] == k + 1;
    assert Holds(All(c.session)[k], c.mic.slots[i]);
  }

  /** And what got a place before the end comes out before it: when the terminal event is finished, so is every
      transcript and transcription failure that had been ordered before it, as what it was and under its own turn;
      each was sent or is kept for recovery, once. */
  lemma PlacedTurnsComeOutFirst(
      peer: PeerLifecycle.PeerId, selection: PeerLifecycle.Selection, steps: seq<Step>, i: nat)
    requires var c := Run(Start(peer, selection), steps);
             && EndPlace(c).Some? && EndPlace(c).value <= |c.session.history.finished|
             && i < |c.mic.slots| && c.mic.slots[i].SttSlot?
    ensures var c := Run(Start(peer, selection), steps);
            var h := c.session.history;
            && i < |c.places| && 1 <= c.places[i] < EndPlace(c).value
            && var entry := h.finished[c.places[i] - 1];
               var all := h.sent + (h.recovered + h.undelivered);
               && entry.event == EventOf(c.mic.slots[i])
               && entry in all && forall j, k | 0 <= j <= k < |all| && all[j] == entry == all[k] :: j == k
  {
    CallInvRun(peer, selection, steps);
    hide Run;
    PlacedIsFinished(Run(Start(peer, selection), steps), i);
  }

  lemma PlacedIsFinished(c: Call, i: nat)
    requires CallInv(c) && EndPlace(c).Some? && EndPlace(c).value <= |c.session.history.finished|
    requires i < |c.mic.slots| && c.mic.slots[i].SttSlot?
    ensures i < |c.places| && 1 <= c.places[i] < EndPlace(c).value
    ensures var h := c.session.history;
            var entry := h.finished[c.places[i] - 1];
            var all := h.sent + (h.recovered + h.undelivered);
            && entry.event == EventOf(c.mic.slots[i])
            && entry in all && forall j, k | 0 <= j <= k < |all| && all[j] == entry == all[k] :: j == k
  {
    EndIsLast(c);
    var entry := c.session.history.finished[c.places[i] - 1];
    assert Holds(All(c.session)[c.places[i] - 1], c.mic.slots[i]);
    assert All(c.session)[c.places[i] - 1] == entry;
    FatesOf(c.session);
    hide M.MicInv, O.SessionInv, PlacesInv, TranscriptsInv;
    O.OnlyOnce(c.session.history, entry);
  }

  lemma FatesOf(s: O.Session)
    requires O.SessionInv(s)
    ensures O.FatesInv(s.history)
  {
    hide O.FatesInv;
  }

  /** Finished entries and the terminal place stay as they are. */
  lemma FinishedStays(c: Call, step: Step)
    requires CallInv(c)
    ensures c.session.history.finished <= Next(c, step).session.history.finished
    ensures EndPlace(c).Some? ==> EndPlace(Next(c, step)) == EndPlace(c)
  {
    hide CallInv, PlacesInv, TranscriptsInv, O.SessionInv, M.MicInv;
    OnlyLifeEnds(c, step);
    hide M.NextMic;
  }

  lemma OnlyLifeEnds(c: Call, step: Step)
    requires CallInv(c)
    ensures c.mic.life.ended ==> Next(c, step).mic.life.ended && Next(c, step).places == c.places
  {
    if c.mic.life.ended && step.Mic? {
      EndedTakesNoPlace(c.mic, step.step);
      hide M.NextMic;
    }
  }

  lemma EndedTakesNoPlace(m: M.Microphone, step: M.Step)
    requires m.life.ended
    ensures M.NextMic(m, step).life.ended && M.NextMic(m, step).slots == m.slots
  {
    if step.LifeStep? {
      M.EndedStays(m.life, step.event);
    }
    hide PeerLifecycle.Next;
  }

  lemma {:induction false} FinishedStaysRun(c: Call, steps: seq<Step>)
    requires CallInv(c)
    ensures CallInv(Run(c, steps)) && c.session.history.finished <= Run(c, steps).session.history.finished
    ensures EndPlace(c).Some? ==> EndPlace(Run(c, steps)) == EndPlace(c)
    decreases |steps|
  {
    hide CallInv, Next, EndPlace;
    if steps != [] {
      FinishedStaysRun(c, steps[..|steps| - 1]);
      NextKeeps(Run(c, steps[..|steps| - 1]), steps[|steps| - 1]);
      FinishedStays(Run(c, steps[..|steps| - 1]), steps[|steps| - 1]);
    }
  }

  /** After the terminal event is finished no transcript is finished any more, however the session goes on. */
  lemma NothingIsHeardAfterTheEnd(
      peer: PeerLifecycle.PeerId, selection: PeerLifecycle.Selection, before: seq<Step>, after: seq<Step>, k: nat)
    requires var c := Run(Start(peer, selection), before);
             EndPlace(c).Some? && EndPlace(c).value <= |c.session.history.finished|
    requires var finished := Run(Run(Start(peer, selection), before), after).session.history.finished;
             k < |finished| && finished[k].event.Some? && finished[k].event.value.kind == O.UserFinal
    ensures var c := Run(Start(peer, selection), before);
            var finished := Run(c, after).session.history.finished;
            k < |c.session.history.finished| && finished[k] == c.session.history.finished[k]
  {
    CallInvRun(peer, selection, before);
    var c := Run(Start(peer, selection), before);
    FinishedStaysRun(c, after);
    var d := Run(c, after);
    assert All(d.session)[k] == d.session.history.finished[k];
    hide Run, CallInv;
    TranscriptIsEarlier(d, k);
  }

  lemma AnswerPlaces(m: M.Microphone, failed: bool)
    requires M.Answers(m)
    ensures M.NextMic(m, M.Answer(failed)).slots == m.slots + [M.SttSlot(m.active.value.token, failed)]
  {}

  /** A turn that may answer is committed to the outbox in that very step, as the transcript or the failure it is, behind
      everything committed before. */
  lemma AnswerIsCommitted(
      peer: PeerLifecycle.PeerId, selection: PeerLifecycle.Selection, steps: seq<Step>, failed: bool)
    requires M.Answers(Run(Start(peer, selection), steps).mic)
    ensures var c := Run(Start(peer, selection), steps);
            var after := Next(c, Mic(M.Answer(failed)));
            && All(after.session)
               == All(c.session)
                  + [O.Entry(|All(c.session)| + 1,
                             Some(O.CallEvent(if failed then O.Failed else O.UserFinal, Some(c.mic.active.value.token))))]
            && after.places == c.places + [|All(c.session)| + 1]
  {
    CallInvRun(peer, selection, steps);
    hide Run;
    AnswerEntry(Run(Start(peer, selection), steps), failed);
  }

  lemma AnswerEntry(c: Call, failed: bool)
    requires CallInv(c) && M.Answers(c.mic)
    ensures var after := Next(c, Mic(M.Answer(failed)));
            && All(after.session)
               == All(c.session)
                  + [O.Entry(|All(c.session)| + 1,
                             Some(O.CallEvent(if failed then O.Failed else O.UserFinal, Some(c.mic.active.value.token))))]
            && after.places == c.places + [|All(c.session)| + 1]
  {
    Numbered(c.session);
    AnswerPlaces(c.mic, failed);
    var slot := M.SttSlot(c.mic.active.value.token, failed);
    AllAfterCommit(c.session, EventOf(slot));
    hide CallInv, All, O.Next, M.NextMic, M.Answers;
    assert (c.mic.slots + [slot])[|c.mic.slots|] == slot;
  }

  /** The first terminal event published after the end fills its place, and no other event does. */
  lemma EndIsPublished(
      peer: PeerLifecycle.PeerId, selection: PeerLifecycle.Selection, steps: seq<Step>, event: O.CallEvent)
    requires var c := Run(Start(peer, selection), steps);
             EndPlace(c).Some? && O.Unresolved(c.session, EndPlace(c).value)
    ensures var c := Run(Start(peer, selection), steps);
            var after := Next(c, PublishEnd(event));
            if (event.kind == O.Ended || event.kind == O.Failed) && event.turn == None
            then O.HasEvent(after.session, EndPlace(c).value, event) else after == c
  {
    CallInvRun(peer, selection, steps);
    hide Run, O.Next, O.Unresolved, O.HasEvent, EndPlace, M.MicInv, PlacesInv, TranscriptsInv, O.SessionInv;
    var c := Run(Start(peer, selection), steps);
    O.ResolveFills(c.session, EndPlace(c).value, event);
  }

  // ---- the terminal event reaches the channel ----

  /** The outbox step a step of the call takes, if any. */
  function OutboxStep(c: Call, step: Step): Option<O.Step> {
    match step
    case Mic(micStep) =>
      var slots := M.NextMic(c.mic, micStep).slots;
      if |slots| <= |c.mic.slots| then None else Some(O.Commit(EventOf(slots[|slots| - 1])))
    case PublishEnd(event) =>
      if EndPlace(c).Some? && TerminalEvent(event) then Some(O.Resolve(EndPlace(c).value, event)) else None
    case Other(event) => if event.kind == O.UserFinal || event.kind == O.Ended then None else Some(O.Commit(Some(event)))
    case Deliver(delivery) => if delivery.Commit? || delivery.Resolve? then None else Some(delivery)
  }

  /** The session of a call is a run of the outbox. */
  lemma {:induction false} CallRunsOutbox(
      peer: PeerLifecycle.PeerId, selection: PeerLifecycle.Selection, steps: seq<Step>) returns (outbox: seq<O.Step>)
    ensures Run(Start(peer, selection), steps).session == O.Run(O.Start(), outbox)
    decreases |steps|
  {
    hide O.Next, M.NextMic, EndPlace;
    if steps == [] {
      outbox := [];
      O.RunNone(O.Start());
    } else {
      outbox := CallRunsOutbox(peer, selection, steps[..|steps| - 1]);
      var e := OutboxStep(Run(Start(peer, selection), steps[..|steps| - 1]), steps[|steps| - 1]);
      if e.Some? {
        O.RunSnoc(O.Start(), outbox, e.value);
        outbox := outbox + [e.value];
      }
      hide O.Run;
    }
  }

  /** The finished terminal event was offered to the channel at step `i`, and sent exactly when the channel took it
      there; a failed call's event is kept if it did not. */
  ghost predicate EndOffered(c: Call, outbox: seq<O.Step>, i: nat) {
    var h := c.session.history;
    && EndPlace(c).Some? && 1 <= EndPlace(c).value <= |h.finished|
    && var entry := h.finished[EndPlace(c).value - 1];
       && entry.event.Some? && TerminalEvent(entry.event.value)
       && O.OfferedAt(outbox, i, entry, entry in h.sent)
       && (entry.event.value.kind == O.Failed && entry !in h.sent ==> entry in h.recovered + h.undelivered)
  }

  /** Once the terminal event is finished it has been offered to the channel, whatever was cancelled or over by then. */
  lemma TerminalEventIsOffered(
      peer: PeerLifecycle.PeerId, selection: PeerLifecycle.Selection, steps: seq<Step>)
      returns (outbox: seq<O.Step>, i: nat)
    requires var c := Run(Start(peer, selection), steps);
             EndPlace(c).Some? && EndPlace(c).value <= |c.session.history.finished|
    ensures Run(Start(peer, selection), steps).session == O.Run(O.Start(), outbox)
    ensures EndOffered(Run(Start(peer, selection), steps), outbox, i)
  {
    hide Run, CallInv, EndOffered, EndPlace, O.Run;
    CallInvRun(peer, selection, steps);
    outbox := CallRunsOutbox(peer, selection, steps);
    i := FinishedEndIsOffered(Run(Start(peer, selection), steps), outbox);
  }

  lemma FinishedEndIsOffered(c: Call, outbox: seq<O.Step>) returns (i: nat)
    requires CallInv(c) && EndPlace(c).Some? && EndPlace(c).value <= |c.session.history.finished|
    requires c.session == O.Run(O.Start(), outbox)
    ensures EndOffered(c, outbox, i)
  {
    hide CallInv, O.Run, EndPlace, O.OfferedAt;
    EndIsFinished(c);
    i := O.OtherEventsReachTheChannel(outbox, EndPlace(c).value - 1);
    OfferedOnlyIf(outbox, i, c.session.history.finished[EndPlace(c).value - 1], c.session.history);
  }

  lemma OfferedOnlyIf(outbox: seq<O.Step>, i: nat, entry: O.Entry, h: O.History)
    requires O.OfferedAt(outbox, i, entry, entry in h.sent)
    ensures i < |outbox| && outbox[i].End? && (entry in h.sent <==> outbox[i].delivered)
  {
    hide O.Run;
  }

  lemma EndIsFinished(c: Call)
    requires CallInv(c) && EndPlace(c).Some? && EndPlace(c).value <= |c.session.history.finished|
    ensures 1 <= EndPlace(c).value
    ensures var event := c.session.history.finished[EndPlace(c).value - 1].event; event.Some? && TerminalEvent(event.value)
  {
    EndIsLast(c);
    hide M.MicInv, O.TasksInv, O.FatesInv;
    assert Holds(All(c.session)[EndPlace(c).value - 1], c.mic.slots[|c.places| - 1]);
    assert All(c.session)[EndPlace(c).value - 1] == c.session.history.finished[EndPlace(c).value - 1];
  }
}
