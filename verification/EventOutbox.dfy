/**
  The ordered event outbox of a call session: entries are committed in order, possibly before their event is
  known, and delivered in that order by one background task at a time.

  Delivery of an event is two steps, with the sink awaited in between: the guard that discards late speech
  events, then the send.
*/
module EventOutbox {
  import opened Wrappers

  datatype Kind = AiAudioStarted | AiDone | UserFinal | Failed | Ended | Other

  datatype CallEvent = CallEvent(kind: Kind, turn: Option<nat>)

  /** `event` is unset while the slot is only reserved. */
  datatype Entry = Entry(sequence: nat, event: Option<CallEvent>)

  datatype Phase = Waiting | Sending(entry: Entry)

  /** `tasks` are the live delivery tasks, `current` the one the session knows of. */
  datatype Outbox = Outbox(queue: seq<Entry>, committed: nat, tasks: map<nat, Phase>, current: Option<nat>, nextTask: nat)

  /** What happened: entries completed, sent, kept for recovery, and handed to a client that asked. */
  datatype History = History(finished: seq<Entry>, sent: seq<Entry>, undelivered: seq<Entry>, recovered: seq<Entry>)

  datatype Guard = Guard(cancelling: set<nat>, cancelled: set<nat>, over: bool)

  datatype Session = Session(outbox: Outbox, history: History, guard: Guard)

  datatype Step =
    | Commit(event: Option<CallEvent>)
    | Resolve(sequence: nat, resolved: CallEvent)
    | Begin(task: nat)
    | End(task: nat, delivered: bool)
    | KillWaiting(task: nat)
    | Drain
    | StartCancel(turn: nat)
    | EndCancel(turn: nat)
    | MarkCancelled(turn: nat)
    | SetOver(over: bool)

  predicate Recoverable(event: CallEvent) {
    event.kind == UserFinal || event.kind == Failed
  }

  predicate Speech(event: CallEvent) {
    event.kind == AiAudioStarted || event.kind == AiDone
  }

  predicate Stopped(guard: Guard, turn: nat) {
    turn in guard.cancelled || turn in guard.cancelling
  }

  predicate Discards(guard: Guard, event: CallEvent) {
    Speech(event) && event.turn.Some? && (Stopped(guard, event.turn.value) || guard.over)
  }

  // ---- steps ----

  function StartTask(outbox: Outbox): Outbox {
    var task := outbox.nextTask;
    outbox.(tasks := outbox.tasks[task := Waiting], current := Some(task), nextTask := task + 1)
  }

  function StepCommit(outbox: Outbox, event: Option<CallEvent>): Outbox {
    var queued := outbox.(
      queue := outbox.queue + [Entry(outbox.committed + 1, event)], committed := outbox.committed + 1);
    if queued.current.None? then StartTask(queued) else queued
  }

  function ResolveIn(queue: seq<Entry>, sequence: nat, event: CallEvent): seq<Entry> {
    seq(|queue|, i requires 0 <= i < |queue| =>
      if queue[i].sequence == sequence && queue[i].event.None? then queue[i].(event := Some(event)) else queue[i])
  }

  /** The end of a delivery: the head leaves, and the task goes on or ends. */
  function Complete(outbox: Outbox, task: nat): Outbox {
    if outbox.queue == [] then outbox else
    var rest := outbox.queue[1..];
    if rest == [] then outbox.(queue := rest, tasks := outbox.tasks - {task}, current := None)
    else outbox.(queue := rest, tasks := outbox.tasks[task := Waiting])
  }

  predicate CanBegin(outbox: Outbox, task: nat) {
    task in outbox.tasks && outbox.tasks[task].Waiting? && outbox.queue != [] && outbox.queue[0].event.Some?
  }

  function StepBegin(s: Session, task: nat): Session {
    if !CanBegin(s.outbox, task) then s else
    var head := s.outbox.queue[0];
    if Discards(s.guard, head.event.value) then
      s.(outbox := Complete(s.outbox, task), history := s.history.(finished := s.history.finished + [head]))
    else s.(outbox := s.outbox.(tasks := s.outbox.tasks[task := Sending(head)]))
  }

  predicate CanEnd(outbox: Outbox, task: nat) {
    task in outbox.tasks && outbox.tasks[task].Sending?
  }

  function Sent(history: History, entry: Entry, delivered: bool): History {
    var done := history.(finished := history.finished + [entry]);
    if delivered then done.(sent := history.sent + [entry])
    else if entry.event.Some? && Recoverable(entry.event.value) then done.(undelivered := history.undelivered + [entry])
    else done
  }

  function StepEnd(s: Session, task: nat, delivered: bool): Session {
    if !CanEnd(s.outbox, task) then s else
    s.(outbox := Complete(s.outbox, task), history := Sent(s.history, s.outbox.tasks[task].entry, delivered))
  }

  /** The task is cancelled while it waits for a reserved slot; its last act is to start a successor. */
  function StepKill(outbox: Outbox, task: nat): Outbox {
    if task !in outbox.tasks || !outbox.tasks[task].Waiting? then outbox else
    var gone := outbox.(tasks := outbox.tasks - {task}, current := None);
    if outbox.queue != [] then StartTask(gone) else gone
  }

  function Next(s: Session, e: Step): Session {
    match e
    case Commit(event) => s.(outbox := StepCommit(s.outbox, event))
    case Resolve(sequence, event) => s.(outbox := s.outbox.(queue := ResolveIn(s.outbox.queue, sequence, event)))
    case Begin(task) => StepBegin(s, task)
    case End(task, delivered) => StepEnd(s, task, delivered)
    case KillWaiting(task) => s.(outbox := StepKill(s.outbox, task))
    case Drain => s.(history := s.history.(recovered := s.history.recovered + s.history.undelivered, undelivered := []))
    case StartCancel(turn) => s.(guard := s.guard.(cancelling := s.guard.cancelling + {turn}))
    case EndCancel(turn) =>
      s.(guard := s.guard.(cancelled := s.guard.cancelled + {turn}, cancelling := s.guard.cancelling - {turn}))
    case MarkCancelled(turn) => s.(guard := s.guard.(cancelled := s.guard.cancelled + {turn}))
    case SetOver(over) => s.(guard := s.guard.(over := over))
  }

  function Start(): Session {
    Session(Outbox([], 0, map[], None, 0), History([], [], [], []), Guard({}, {}, false))
  }

  function Run(s: Session, steps: seq<Step>): Session
    decreases |steps|
  {
    if steps == [] then s else Next(Run(s, steps[..|steps| - 1]), steps[|steps| - 1])
  }

  // ---- the invariant ----

  /** There is a delivery task exactly while something is queued, and never a second one. */
  ghost predicate TasksInv(outbox: Outbox) {
    && outbox.tasks.Keys == (if outbox.current.Some? then {outbox.current.value} else {})
    && (outbox.current.Some? <==> outbox.queue != [])
    && (forall t | t in outbox.tasks :: t < outbox.nextTask)
    && (forall t | t in outbox.tasks && outbox.tasks[t].Sending? ::
          outbox.queue != [] && outbox.tasks[t].entry == outbox.queue[0] && outbox.queue[0].event.Some?)
  }

  /** Finished entries, then queued ones, are everything committed, in commit order. */
  ghost predicate OrderInv(s: Session) {
    && (forall i | 0 <= i < |s.history.finished| ::
          s.history.finished[i].sequence == i + 1 && s.history.finished[i].event.Some?)
    && (forall i | 0 <= i < |s.outbox.queue| :: s.outbox.queue[i].sequence == |s.history.finished| + i + 1)
    && s.outbox.committed == |s.history.finished| + |s.outbox.queue|
  }

  /** Entries in increasing sequence order, all among the finished ones. */
  ghost predicate Ordered(entries: seq<Entry>, finished: seq<Entry>) {
    && (forall i, j | 0 <= i < j < |entries| :: entries[i].sequence < entries[j].sequence)
    && (forall i | 0 <= i < |entries| ::
          0 < entries[i].sequence <= |finished| && entries[i] == finished[entries[i].sequence - 1])
  }

  ghost predicate FatesInv(history: History) {
    var kept := history.recovered + history.undelivered;
    && Ordered(history.sent, history.finished)
    && Ordered(kept, history.finished)
    && (forall e | e in kept :: e.event.Some? && Recoverable(e.event.value))
    && (forall e | e in history.finished && e.event.Some? && Recoverable(e.event.value) :: e in history.sent <==> e !in kept)
  }

  ghost predicate SessionInv(s: Session) {
    TasksInv(s.outbox) && OrderInv(s) && FatesInv(s.history)
  }

  lemma CommitKeeps(s: Session, event: Option<CallEvent>)
    requires SessionInv(s)
    ensures SessionInv(Next(s, Commit(event)))
  {
    hide FatesInv;
  }

  lemma ResolveKeeps(s: Session, sequence: nat, event: CallEvent)
    requires SessionInv(s)
    ensures SessionInv(Next(s, Resolve(sequence, event)))
  {
    hide FatesInv;
  }

  lemma KillKeeps(s: Session, task: nat)
    requires SessionInv(s)
    ensures SessionInv(Next(s, KillWaiting(task)))
  {
    hide FatesInv;
  }

  lemma CompleteKeeps(s: Session, task: nat, history: History)
    requires TasksInv(s.outbox) && OrderInv(s) && task in s.outbox.tasks
    requires s.outbox.queue != [] && s.outbox.queue[0].event.Some?
    requires history.finished == s.history.finished + [s.outbox.queue[0]]
    ensures TasksInv(Complete(s.outbox, task)) && OrderInv(s.(outbox := Complete(s.outbox, task), history := history))
  {}

  lemma OrderedStill(entries: seq<Entry>, finished: seq<Entry>, entry: Entry)
    requires Ordered(entries, finished)
    ensures Ordered(entries, finished + [entry])
    ensures forall e | e in entries :: e.sequence <= |finished|
    ensures entry.sequence == |finished| + 1 ==> Ordered(entries + [entry], finished + [entry])
  {}

  lemma SentKeeps(history: History, entry: Entry, delivered: bool)
    requires FatesInv(history) && entry.sequence == |history.finished| + 1 && entry.event.Some?
    ensures FatesInv(Sent(history, entry, delivered))
  {
    var kept := history.recovered + history.undelivered;
    OrderedStill(history.sent, history.finished, entry);
    OrderedStill(kept, history.finished, entry);
    assert history.recovered + (history.undelivered + [entry]) == kept + [entry];
    hide Ordered;
  }

  lemma DiscardKeeps(history: History, entry: Entry)
    requires FatesInv(history) && entry.event.Some? && !Recoverable(entry.event.value)
    ensures FatesInv(history.(finished := history.finished + [entry]))
  {
    OrderedStill(history.sent, history.finished, entry);
    OrderedStill(history.recovered + history.undelivered, history.finished, entry);
    hide Ordered;
  }

  lemma BeginKeeps(s: Session, task: nat)
    requires SessionInv(s)
    ensures SessionInv(StepBegin(s, task))
  {
    if CanBegin(s.outbox, task) && Discards(s.guard, s.outbox.queue[0].event.value) {
      DiscardKeeps(s.history, s.outbox.queue[0]);
      CompleteKeeps(s, task, s.history.(finished := s.history.finished + [s.outbox.queue[0]]));
      hide TasksInv, OrderInv, FatesInv, Complete;
    }
  }

  lemma EndKeeps(s: Session, task: nat, delivered: bool)
    requires SessionInv(s)
    ensures SessionInv(StepEnd(s, task, delivered))
  {
    if CanEnd(s.outbox, task) {
      SentKeeps(s.history, s.outbox.tasks[task].entry, delivered);
      CompleteKeeps(s, task, Sent(s.history, s.outbox.tasks[task].entry, delivered));
      hide TasksInv, OrderInv, FatesInv, Complete;
    }
  }

  lemma DrainKeeps(s: Session)
    requires SessionInv(s)
    ensures SessionInv(Next(s, Drain))
  {
    assert s.history.recovered + s.history.undelivered + [] == s.history.recovered + s.history.undelivered;
    hide TasksInv, Ordered;
  }

  lemma NextKeeps(s: Session, e: Step)
    requires SessionInv(s)
    ensures SessionInv(Next(s, e))
  {
    match e
    case Commit(event) => CommitKeeps(s, event);
    case Resolve(sequence, event) => ResolveKeeps(s, sequence, event);
    case Begin(task) => BeginKeeps(s, task);
    case End(task, delivered) => EndKeeps(s, task, delivered);
    case KillWaiting(task) => KillKeeps(s, task);
    case Drain => DrainKeeps(s);
    case _ => GuardKeeps(s, Next(s, e).guard);
  }

  lemma GuardKeeps(s: Session, guard: Guard)
    requires SessionInv(s)
    ensures SessionInv(s.(guard := guard))
  {
    hide TasksInv, FatesInv;
  }

  lemma {:induction false} InvRun(steps: seq<Step>)
    ensures SessionInv(Run(Start(), steps))
    decreases |steps|
  {
    hide SessionInv, Next;
    if steps == [] {
      StartInv();
    } else {
      InvRun(steps[..|steps| - 1]);
      NextKeeps(Run(Start(), steps[..|steps| - 1]), steps[|steps| - 1]);
    }
  }

  lemma StartInv()
    ensures SessionInv(Start())
  {}

  // ---- what it means ----

  /** Every committed event is finished at most once and in commit order, with one delivery task whenever
      something waits. */
  lemma FinishedInCommitOrder(steps: seq<Step>)
    ensures var s := Run(Start(), steps);
            && (forall i | 0 <= i < |s.history.finished| :: s.history.finished[i].sequence == i + 1)
            && (forall i | 0 <= i < |s.outbox.queue| :: s.outbox.queue[i].sequence == |s.history.finished| + i + 1)
            && s.outbox.committed == |s.history.finished| + |s.outbox.queue|
            && |s.outbox.tasks.Keys| == if s.outbox.queue == [] then 0 else 1
  {
    InvRun(steps);
  }

  /** What reaches the channel is in commit order and nothing is sent twice. */
  lemma SentInCommitOrder(steps: seq<Step>, i: nat, j: nat)
    requires i < j < |Run(Start(), steps).history.sent|
    ensures Run(Start(), steps).history.sent[i].sequence < Run(Start(), steps).history.sent[j].sequence
  {
    InvRun(steps);
  }

  /** Every finished user transcript or failure was sent or kept for recovery, exactly one of the two, once. */
  lemma RecoverableExactlyOnce(steps: seq<Step>, i: nat)
    requires i < |Run(Start(), steps).history.finished|
    requires var event := Run(Start(), steps).history.finished[i].event;
             event.Some? && (event.value.kind == UserFinal || event.value.kind == Failed)
    ensures var h := Run(Start(), steps).history;
            var all := h.sent + (h.recovered + h.undelivered);
            && h.finished[i] in all
            && forall j, k | 0 <= j <= k < |all| && all[j] == h.finished[i] == all[k] :: j == k
  {
    InvRun(steps);
    var h := Run(Start(), steps).history;
    hide Run, TasksInv, OrderInv;
    OnlyOnce(h, h.finished[i]);
  }

  lemma OnlyOnce(h: History, e: Entry)
    requires FatesInv(h) && e in h.finished && e.event.Some? && Recoverable(e.event.value)
    ensures var all := h.sent + (h.recovered + h.undelivered);
            e in all && forall j, k | 0 <= j <= k < |all| && all[j] == e == all[k] :: j == k
  {
    var kept := h.recovered + h.undelivered;
    var all := h.sent + kept;
    if e in h.sent {
      assert e !in kept;
    } else {
      assert e in kept;
    }
  }

  // ---- which entries reach the channel ----

  /** The guard as the source states it: late means a speech event of a turn that is being cancelled or was, or of
      any turn once the call is over. */
  predicate Late(guard: Guard, entry: Entry) {
    && entry.event.Some? && (entry.event.value.kind == AiAudioStarted || entry.event.value.kind == AiDone)
    && entry.event.value.turn.Some?
    && (entry.event.value.turn.value in guard.cancelling || entry.event.value.turn.value in guard.cancelled || guard.over)
  }

  /** At step `b` of the run the delivery of this entry, then the head of the outbox, begins. */
  ghost predicate BeginsAt(steps: seq<Step>, b: nat, entry: Entry) {
    && b < |steps| && steps[b].Begin?
    && var s := Run(Start(), steps[..b]);
       CanBegin(s.outbox, steps[b].task) && s.outbox.queue[0] == entry && |s.history.finished| + 1 == entry.sequence
  }

  lemma BeginsInPrefix(steps: seq<Step>, b: nat, entry: Entry)
    requires steps != [] && BeginsAt(steps[..|steps| - 1], b, entry)
    ensures BeginsAt(steps, b, entry)
    ensures steps[..|steps| - 1][..b] == steps[..b]
  {
    hide CanBegin, Run;
    assert steps[..|steps| - 1][..b] == steps[..b];
  }

  lemma SendingStep(s: Session, e: Step, task: nat)
    requires SessionInv(s) && task in Next(s, e).outbox.tasks && Next(s, e).outbox.tasks[task].Sending?
    ensures var entry := Next(s, e).outbox.tasks[task].entry;
            || (task in s.outbox.tasks && s.outbox.tasks[task] == Sending(entry)
                && Next(s, e).history.finished == s.history.finished)
            || (e == Begin(task) && CanBegin(s.outbox, task) && s.outbox.queue[0] == entry && !Late(s.guard, entry)
                && Next(s, e).history.finished == s.history.finished && |s.history.finished| + 1 == entry.sequence)
  {
    hide FatesInv;
  }

  /** What is being sent began its delivery at some step, and was not late then. */
  lemma {:induction false} SendingBegan(steps: seq<Step>, task: nat) returns (b: nat)
    requires task in Run(Start(), steps).outbox.tasks && Run(Start(), steps).outbox.tasks[task].Sending?
    ensures var entry := Run(Start(), steps).outbox.tasks[task].entry;
            BeginsAt(steps, b, entry) && !Late(Run(Start(), steps[..b]).guard, entry)
    decreases |steps|
  {
    hide SessionInv, Next, Late, CanBegin;
    RunNone(Start());
    if steps == [] {
      NothingYet();
      assert false;
    } else {
      var before, e := steps[..|steps| - 1], steps[|steps| - 1];
      var s := Run(Start(), before);
      InvRun(before);
      SendingStep(s, e, task);
      if task in s.outbox.tasks && s.outbox.tasks[task] == Run(Start(), steps).outbox.tasks[task] {
        b := SendingBegan(before, task);
        BeginsInPrefix(steps, b, s.outbox.tasks[task].entry);
      } else {
        b := |before|;
      }
      hide BeginsAt, Run;
    }
  }

  lemma NothingYet()
    ensures Start().outbox.tasks == map[] && Start().history.finished == []
  {}

  /** At step `i` of the run the channel is offered this entry, and takes it or not. */
  ghost predicate OfferedAt(steps: seq<Step>, i: nat, entry: Entry, taken: bool) {
    && i < |steps| && steps[i].End? && taken == steps[i].delivered
    && var tasks := Run(Start(), steps[..i]).outbox.tasks; steps[i].task in tasks && tasks[steps[i].task] == Sending(entry)
  }

  /** How an entry left the outbox: offered to the channel, or discarded. */
  ghost predicate LeavesAt(steps: seq<Step>, i: nat, entry: Entry, taken: bool) {
    && i < |steps|
    && var s := Run(Start(), steps[..i]);
       && |s.history.finished| + 1 == entry.sequence
       && if steps[i].End? then OfferedAt(steps, i, entry, taken)
          else BeginsAt(steps, i, entry) && Late(s.guard, entry) && !taken
  }

  lemma LeavesInPrefix(steps: seq<Step>, i: nat, entry: Entry, taken: bool)
    requires steps != [] && LeavesAt(steps[..|steps| - 1], i, entry, taken)
    ensures LeavesAt(steps, i, entry, taken)
  {
    hide Late, CanBegin, Run;
    assert steps[..|steps| - 1][..i] == steps[..i];
  }

  lemma FinishedStep(s: Session, e: Step)
    requires SessionInv(s)
    ensures var f, g := s.history.finished, Next(s, e).history.finished;
            || (g == f && Next(s, e).history.sent == s.history.sent)
            || (s.outbox.queue != [] && g == f + [s.outbox.queue[0]] && s.outbox.queue[0].sequence == |f| + 1
                && if e.End? then
                     e.task in s.outbox.tasks && s.outbox.tasks[e.task] == Sending(s.outbox.queue[0])
                     && Next(s, e).history.sent == s.history.sent + if e.delivered then [s.outbox.queue[0]] else []
                   else e.Begin? && CanBegin(s.outbox, e.task) && Late(s.guard, s.outbox.queue[0])
                        && Next(s, e).history.sent == s.history.sent)
  {
    hide FatesInv;
  }

  lemma SentIsFinished(s: Session, entry: Entry)
    requires SessionInv(s) && entry in s.history.sent
    ensures entry.sequence <= |s.history.finished|
  {}

  lemma FinishedNumbered(s: Session, k: nat)
    requires SessionInv(s) && k < |s.history.finished|
    ensures s.history.finished[k].sequence == k + 1
  {}

  /** Every finished entry left at one step of the run, and was sent exactly when the channel took it there. */
  lemma {:induction false} FinishedLeft(steps: seq<Step>, k: nat) returns (i: nat)
    requires k < |Run(Start(), steps).history.finished|
    ensures var h := Run(Start(), steps).history; LeavesAt(steps, i, h.finished[k], h.finished[k] in h.sent)
    decreases |steps|
  {
    hide SessionInv, Next, Late, CanBegin;
    if steps == [] {
      NothingYet();
      RunNone(Start());
      assert false;
    } else {
      var before, e := steps[..|steps| - 1], steps[|steps| - 1];
      var s, t := Run(Start(), before), Run(Start(), steps);
      InvRun(before);
      InvRun(steps);
      FinishedStep(s, e);
      if k < |s.history.finished| {
        i := FinishedLeft(before, k);
        LeavesInPrefix(steps, i, s.history.finished[k], s.history.finished[k] in s.history.sent);
        FinishedNumbered(s, k);
        assert s.history.finished[k] in t.history.sent <==> s.history.finished[k] in s.history.sent;
      } else {
        i := |before|;
        if t.history.finished[k] in s.history.sent {
          SentIsFinished(s, t.history.finished[k]);
        }
      }
      hide Run, LeavesAt;
    }
  }

  /** What happens to a finished entry is decided when its delivery begins: if it is a late speech event then, it is
      discarded at that step and never sent; anything else, speech or not, is handed to the channel, and is sent
      exactly when the channel takes it. */
  lemma DeliveredExactly(steps: seq<Step>, k: nat) returns (b: nat, i: nat)
    requires k < |Run(Start(), steps).history.finished|
    ensures var h := Run(Start(), steps).history;
            var entry := h.finished[k];
            && BeginsAt(steps, b, entry) && b <= i < |steps|
            && if Late(Run(Start(), steps[..b]).guard, entry) then i == b && entry !in h.sent
               else OfferedAt(steps, i, entry, entry in h.sent)
  {
    hide Late, CanBegin;
    var h := Run(Start(), steps).history;
    i := FinishedLeft(steps, k);
    if steps[i].End? {
      b := SendingBegan(steps[..i], steps[i].task);
      assert steps[..i][..b] == steps[..b];
    } else {
      b := i;
    }
    hide Run;
  }

  /** In particular an event that is not about speech is never lost on the way: it is handed to the channel. */
  lemma OtherEventsReachTheChannel(steps: seq<Step>, k: nat) returns (i: nat)
    requires k < |Run(Start(), steps).history.finished|
    requires var event := Run(Start(), steps).history.finished[k].event; event.Some? && !Speech(event.value)
    ensures var h := Run(Start(), steps).history;
            && OfferedAt(steps, i, h.finished[k], h.finished[k] in h.sent)
            && var kind := h.finished[k].event.value.kind;
               (h.finished[k] !in h.sent ==>
                  (h.finished[k] in h.recovered + h.undelivered <==> kind == UserFinal || kind == Failed))
  {
    var b: nat;
    b, i := DeliveredExactly(steps, k);
    InvRun(steps);
    hide Run, TasksInv, OrderInv, BeginsAt, Ordered;
  }

  predicate Unresolved(s: Session, sequence: nat) {
    |s.history.finished| < sequence <= s.outbox.committed
    && sequence - |s.history.finished| - 1 < |s.outbox.queue|
    && s.outbox.queue[sequence - |s.history.finished| - 1].event.None?
  }

  lemma UnresolvedNext(s: Session, e: Step, sequence: nat)
    requires SessionInv(s) && Unresolved(s, sequence)
    requires !(e.Resolve? && e.sequence == sequence)
    ensures Unresolved(Next(s, e), sequence)
  {
    hide FatesInv;
  }

  /** A reserved slot holds its place: until it is resolved, no event committed after it is finished. */
  lemma {:induction false} ReservedSlotHoldsItsPlace(before: seq<Step>, after: seq<Step>, sequence: nat)
    requires Unresolved(Run(Start(), before), sequence)
    requires forall i | 0 <= i < |after| && after[i].Resolve? :: after[i].sequence != sequence
    ensures var s := Run(Run(Start(), before), after); SessionInv(s) && Unresolved(s, sequence)
    decreases |after|
  {
    hide SessionInv, Next, Unresolved;
    InvRun(before);
    if after != [] {
      var earlier := after[..|after| - 1];
      ReservedSlotHoldsItsPlace(before, earlier, sequence);
      NextKeeps(Run(Run(Start(), before), earlier), after[|after| - 1]);
      UnresolvedNext(Run(Run(Start(), before), earlier), after[|after| - 1], sequence);
    }
  }

  /** What the delivery task does next; `takes` is what the channel answers to an entry. */
  function DeliveryStep(s: Session, takes: Entry -> bool): Step
    requires s.outbox.queue != []
  {
    var task := if s.outbox.current.Some? then s.outbox.current.value else 0;
    if task in s.outbox.tasks && s.outbox.tasks[task].Sending? then End(task, takes(s.outbox.queue[0])) else Begin(task)
  }

  lemma DeliveryMoves(s: Session, takes: Entry -> bool)
    requires SessionInv(s) && s.outbox.queue != [] && s.outbox.queue[0].event.Some?
    ensures var e, head := DeliveryStep(s, takes), s.outbox.queue[0];
            var one := Next(s, e);
            var after := if one.outbox.queue == s.outbox.queue then Next(one, DeliveryStep(one, takes)) else one;
            && after.outbox.queue == s.outbox.queue[1..]
            && after.history.finished == s.history.finished + [head]
  {
    hide FatesInv, OrderInv;
    assert s.outbox.queue[1..] != s.outbox.queue;
  }

  /** The delivery task is never stuck on a resolved head: its next step finishes the head, or passes the guard
      so that the step after it does. */
  lemma HeadCanFinish(s: Session, takes: Entry -> bool) returns (steps: seq<Step>)
    requires SessionInv(s) && s.outbox.queue != [] && s.outbox.queue[0].event.Some?
    ensures SessionInv(Run(s, steps)) && Run(s, steps).outbox.queue == s.outbox.queue[1..]
    ensures Run(s, steps).history.finished == s.history.finished + [s.outbox.queue[0]]
    ensures |steps| <= 2 && forall i | 0 <= i < |steps| :: steps[i].Begin? || steps[i].End?
  {
    hide Run, SessionInv, Next;
    DeliveryMoves(s, takes);
    var e := DeliveryStep(s, takes);
    var one := Next(s, e);
    NextKeeps(s, e);
    RunNone(s);
    RunSnoc(s, [], e);
    steps := [] + [e];
    if one.outbox.queue == s.outbox.queue {
      var again := DeliveryStep(one, takes);
      NextKeeps(one, again);
      RunSnoc(s, steps, again);
      steps := steps + [again];
    }
  }

  lemma IdleWhenEmpty(s: Session)
    requires SessionInv(s) && s.outbox.queue == []
    ensures s.outbox.tasks == map[]
  {
    assert s.outbox.tasks.Keys == {};
  }

  /** Once every slot is resolved the delivery task by itself can finish everything, in order, whatever the
      channel answers. */
  lemma {:induction false} EverythingCanFinish(s: Session, takes: Entry -> bool) returns (steps: seq<Step>)
    requires SessionInv(s) && forall i | 0 <= i < |s.outbox.queue| :: s.outbox.queue[i].event.Some?
    ensures Run(s, steps).outbox.queue == [] && Run(s, steps).outbox.tasks == map[]
    ensures Run(s, steps).history.finished == s.history.finished + s.outbox.queue
    ensures |steps| <= 2 * |s.outbox.queue| && forall i | 0 <= i < |steps| :: steps[i].Begin? || steps[i].End?
    decreases |s.outbox.queue|
  {
    hide Run, SessionInv, Next;
    if s.outbox.queue == [] {
      IdleWhenEmpty(s);
      RunNone(s);
      steps := [];
    } else {
      var first := HeadCanFinish(s, takes);
      var rest := EverythingCanFinish(Run(s, first), takes);
      RunAppend(s, first, rest);
      steps := first + rest;
      assert s.outbox.queue == [s.outbox.queue[0]] + s.outbox.queue[1..];
    }
  }

  lemma {:induction false} RunAppend(s: Session, steps: seq<Step>, more: seq<Step>)
    ensures Run(s, steps + more) == Run(Run(s, steps), more)
    decreases |more|
  {
    hide Next;
    if more == [] {
      assert steps + [] == steps;
    } else {
      assert (steps + more)[..|steps + more| - 1] == steps + more[..|more| - 1];
      RunAppend(s, steps, more[..|more| - 1]);
    }
  }

  /** The entry with this sequence number, finished or queued. */
  ghost predicate HasEvent(s: Session, sequence: nat, event: CallEvent) {
    && 1 <= sequence <= |s.history.finished| + |s.outbox.queue|
    && (s.history.finished + s.outbox.queue)[sequence - 1] == Entry(sequence, Some(event))
  }

  lemma HasEventNext(s: Session, e: Step, sequence: nat, event: CallEvent)
    requires SessionInv(s) && HasEvent(s, sequence, event)
    ensures HasEvent(Next(s, e), sequence, event)
  {
    hide FatesInv;
    var all, after := s.history.finished + s.outbox.queue, Next(s, e).history.finished + Next(s, e).outbox.queue;
    assert |after| >= |all| && after[sequence - 1] == all[sequence - 1];
  }

  lemma ResolveFills(s: Session, sequence: nat, event: CallEvent)
    requires SessionInv(s) && Unresolved(s, sequence)
    ensures HasEvent(Next(s, Resolve(sequence, event)), sequence, event)
  {
    hide FatesInv, TasksInv;
  }

  /** A reserved slot gets the event it is resolved with, and keeps it for good, whoever tries to resolve it again. */
  lemma {:induction false} ResolvedForGood(before: seq<Step>, sequence: nat, event: CallEvent, after: seq<Step>)
    requires Unresolved(Run(Start(), before), sequence)
    ensures var s := Run(Next(Run(Start(), before), Resolve(sequence, event)), after);
            SessionInv(s) && HasEvent(s, sequence, event)
    decreases |after|
  {
    hide SessionInv, Next, Unresolved, HasEvent;
    InvRun(before);
    var s := Next(Run(Start(), before), Resolve(sequence, event));
    if after == [] {
      NextKeeps(Run(Start(), before), Resolve(sequence, event));
      ResolveFills(Run(Start(), before), sequence, event);
    } else {
      var earlier := after[..|after| - 1];
      ResolvedForGood(before, sequence, event, earlier);
      NextKeeps(Run(s, earlier), after[|after| - 1]);
      HasEventNext(Run(s, earlier), after[|after| - 1], sequence, event);
    }
  }

  lemma KeptNext(s: Session, e: Step, entry: Entry)
    ensures entry in s.history.recovered ==> entry in Next(s, e).history.recovered
    ensures entry in s.history.undelivered ==>
              if e.Drain? then entry in Next(s, e).history.recovered && Next(s, e).history.undelivered == []
              else entry in Next(s, e).history.undelivered
  {}

  /** What is kept for recovery stays until the next drain, which hands out everything kept and leaves nothing. */
  lemma {:induction false} KeptUntilDrained(s: Session, steps: seq<Step>, entry: Entry)
    requires entry in s.history.undelivered
    ensures if Drain in steps then entry in Run(s, steps).history.recovered else entry in Run(s, steps).history.undelivered
    decreases |steps|
  {
    hide Next;
    if steps != [] {
      var before, e := steps[..|steps| - 1], steps[|steps| - 1];
      assert steps == before + [e];
      KeptUntilDrained(s, before, entry);
      KeptNext(Run(s, before), e, entry);
    }
  }

  /** In every run: while no queued slot is unresolved, everything committed can still be finished. */
  lemma ResolvedOutboxCanFinish(before: seq<Step>, takes: Entry -> bool) returns (steps: seq<Step>)
    requires var s := Run(Start(), before); forall i | 0 <= i < |s.outbox.queue| :: s.outbox.queue[i].event.Some?
    ensures var s := Run(Start(), before);
            && Run(s, steps).history.finished == s.history.finished + s.outbox.queue
            && Run(s, steps).outbox.tasks == map[] && |Run(s, steps).history.finished| == s.outbox.committed
            && |steps| <= 2 * |s.outbox.queue| && forall i | 0 <= i < |steps| :: steps[i].Begin? || steps[i].End?
  {
    InvRun(before);
    hide Run, TasksInv, FatesInv;
    steps := EverythingCanFinish(Run(Start(), before), takes);
  }

  // ---- cancelled turns ----

  /** A turn that is being cancelled or was cancelled stays one of the two. */
  lemma {:induction false} CancelledIsForGood(s: Session, steps: seq<Step>, turn: nat)
    requires Stopped(s.guard, turn)
    ensures Stopped(Run(s, steps).guard, turn)
    decreases |steps|
  {
    if steps != [] {
      CancelledIsForGood(s, steps[..|steps| - 1], turn);
    }
  }

  /** What the last report said about whether the call is over. */
  function SaidOver(steps: seq<Step>): bool
    decreases |steps|
  {
    if steps == [] then false else
    var last := steps[|steps| - 1];
    if last.SetOver? then last.over else SaidOver(steps[..|steps| - 1])
  }

  /** The guard is exactly what the steps so far said: a turn is cancelled once its cancellation ended or it was marked,
      stopped from the moment its cancellation began. */
  lemma {:induction false} GuardExactly(steps: seq<Step>, turn: nat)
    ensures var guard := Run(Start(), steps).guard;
            && (turn in guard.cancelled <==> EndCancel(turn) in steps || MarkCancelled(turn) in steps)
            && (Stopped(guard, turn) <==>
                  StartCancel(turn) in steps || EndCancel(turn) in steps || MarkCancelled(turn) in steps)
            && guard.over == SaidOver(steps)
    decreases |steps|
  {
    hide StepBegin, StepEnd, StepCommit, StepKill, ResolveIn;
    if steps != [] {
      var before, e := steps[..|steps| - 1], steps[|steps| - 1];
      assert steps == before + [e];
      GuardExactly(before, turn);
      GuardNext(Run(Start(), before), e);
      hide Next, Run;
    }
  }

  lemma GuardNext(s: Session, e: Step)
    ensures var after := Next(s, e).guard;
            after == match e
                     case StartCancel(turn) => s.guard.(cancelling := s.guard.cancelling + {turn})
                     case EndCancel(turn) =>
                       s.guard.(cancelled := s.guard.cancelled + {turn}, cancelling := s.guard.cancelling - {turn})
                     case MarkCancelled(turn) => s.guard.(cancelled := s.guard.cancelled + {turn})
                     case SetOver(over) => s.guard.(over := over)
                     case _ => s.guard
  {}

  predicate SpeechOf(entry: Entry, turn: nat) {
    entry.event.Some? && Speech(entry.event.value) && entry.event.value.turn == Some(turn)
  }

  /** The one entry of the turn whose delivery has passed the guard. */
  ghost predicate InDelivery(s: Session, entry: Entry) {
    exists t | t in s.outbox.tasks :: s.outbox.tasks[t] == Sending(entry)
  }

  lemma StoppedNext(s: Session, e: Step, turn: nat, entry: Entry)
    requires Stopped(s.guard, turn) && SpeechOf(entry, turn)
    ensures InDelivery(Next(s, e), entry) ==> InDelivery(s, entry)
    ensures entry in Next(s, e).history.sent ==> entry in s.history.sent || InDelivery(s, entry)
  {}

  /** After a turn is stopped, of its speech events only one whose delivery had already passed the guard can
      still be sent; with none in delivery, none is ever sent again. */
  lemma {:induction false} NoLateSpeech(s: Session, steps: seq<Step>, turn: nat, entry: Entry)
    requires Stopped(s.guard, turn) && SpeechOf(entry, turn)
    ensures InDelivery(Run(s, steps), entry) ==> InDelivery(s, entry)
    ensures entry in Run(s, steps).history.sent ==> entry in s.history.sent || InDelivery(s, entry)
    decreases |steps|
  {
    hide Next, SpeechOf, InDelivery;
    if steps != [] {
      var before := steps[..|steps| - 1];
      NoLateSpeech(s, before, turn, entry);
      CancelledIsForGood(s, before, turn);
      StoppedNext(Run(s, before), steps[|steps| - 1], turn, entry);
    }
  }

  /** How the delivery under way by this task ends, if it ends: the first answer of the channel to it. */
  function Answer(steps: seq<Step>, task: nat): Option<bool>
    decreases |steps|
  {
    if steps == [] then None else
    var before, e := Answer(steps[..|steps| - 1], task), steps[|steps| - 1];
    if before.None? && e.End? && e.task == task then Some(e.delivered) else before
  }

  /** The entry is still in this task's hands, or it left them the way the channel answered and is gone. */
  ghost predicate LateFate(s: Session, steps: seq<Step>, task: nat, entry: Entry) {
    match Answer(steps, task)
    case None => task in s.outbox.tasks && s.outbox.tasks[task] == Sending(entry) && entry !in s.history.sent
    case Some(delivered) => !InDelivery(s, entry) && (entry in s.history.sent <==> delivered)
  }

  lemma SendingNext(s: Session, e: Step, task: nat, entry: Entry)
    requires SessionInv(s) && task in s.outbox.tasks && s.outbox.tasks[task] == Sending(entry) && entry !in s.history.sent
    ensures var after := Next(s, e);
            if e.End? && e.task == task then !InDelivery(after, entry) && (entry in after.history.sent <==> e.delivered)
            else task in after.outbox.tasks && after.outbox.tasks[task] == Sending(entry) && entry !in after.history.sent
  {
    hide FatesInv, OrderInv;
  }

  lemma {:induction false} LateFateRun(before: seq<Step>, steps: seq<Step>, turn: nat, task: nat, entry: Entry)
    requires var s := Run(Start(), before);
             && Stopped(s.guard, turn) && SpeechOf(entry, turn) && entry !in s.history.sent
             && task in s.outbox.tasks && s.outbox.tasks[task] == Sending(entry)
    ensures SessionInv(Run(Run(Start(), before), steps)) && LateFate(Run(Run(Start(), before), steps), steps, task, entry)
    decreases |steps|
  {
    hide SessionInv, Next, Stopped, SpeechOf, InDelivery;
    InvRun(before);
    if steps != [] {
      var s, earlier, e := Run(Start(), before), steps[..|steps| - 1], steps[|steps| - 1];
      LateFateRun(before, earlier, turn, task, entry);
      NextKeeps(Run(s, earlier), e);
      if Answer(earlier, task).None? {
        SendingNext(Run(s, earlier), e, task, entry);
      } else {
        CancelledIsForGood(s, earlier, turn);
        StoppedNext(Run(s, earlier), e, turn, entry);
        SentStays(Run(s, earlier), e, entry);
      }
    }
  }

  lemma SentStays(s: Session, e: Step, entry: Entry)
    ensures entry in s.history.sent ==> entry in Next(s, e).history.sent
  {}

  /** However the session goes on after a turn was stopped, a speech event of it that was not sent yet is sent if
      and only if its delivery had already passed the guard and the channel then takes it. */
  lemma LateSpeechExactly(before: seq<Step>, steps: seq<Step>, turn: nat, entry: Entry)
    requires var s := Run(Start(), before); Stopped(s.guard, turn) && SpeechOf(entry, turn) && entry !in s.history.sent
    ensures var s := Run(Start(), before);
            entry in Run(s, steps).history.sent
            <==> exists t | t in s.outbox.tasks :: s.outbox.tasks[t] == Sending(entry) && Answer(steps, t) == Some(true)
  {
    hide Run, Next, Stopped, SpeechOf;
    var s := Run(Start(), before);
    NoLateSpeech(s, steps, turn, entry);
    forall t | t in s.outbox.tasks && s.outbox.tasks[t] == Sending(entry)
      ensures entry in Run(s, steps).history.sent <==> Answer(steps, t) == Some(true)
    {
      LateFateRun(before, steps, turn, t, entry);
    }
  }

  /** So after a stop some continuation still sends it if and only if it is in delivery. */
  lemma LateSpeechPossible(before: seq<Step>, turn: nat, entry: Entry)
    requires var s := Run(Start(), before); Stopped(s.guard, turn) && SpeechOf(entry, turn) && entry !in s.history.sent
    ensures var s := Run(Start(), before);
            (exists steps: seq<Step> :: entry in Run(s, steps).history.sent) <==> InDelivery(s, entry)
  {
    hide Run, Next, Stopped, SpeechOf;
    var s := Run(Start(), before);
    forall steps: seq<Step> ensures entry in Run(s, steps).history.sent ==> InDelivery(s, entry) {
      NoLateSpeech(s, steps, turn, entry);
    }
    if InDelivery(s, entry) {
      var t :| t in s.outbox.tasks && s.outbox.tasks[t] == Sending(entry);
      LateSpeechExactly(before, [End(t, true)], turn, entry);
      assert Answer([], t) == None;
      assert Answer([End(t, true)], t) == Some(true);
    }
  }

  lemma LateDelivery(turn: nat)
    ensures var event := CallEvent(AiDone, Some(turn));
            var sending := Next(Next(Start(), Commit(Some(event))), Begin(0));
            var after := Next(Next(Next(sending, StartCancel(turn)), EndCancel(turn)), End(0, true));
            Stopped(after.guard, turn) && after.history.sent == [Entry(1, Some(event))]
  {
    var event := CallEvent(AiDone, Some(turn));
    var one := Next(Start(), Commit(Some(event)));
    assert one.outbox.queue == [Entry(1, Some(event))] && one.outbox.tasks == map[0 := Waiting];
    assert Next(one, Begin(0)).outbox.tasks[0] == Sending(Entry(1, Some(event)));
  }

  /** Such a delivery exists: the guard is passed, the sink is awaited, the turn is cancelled, the event is sent. */
  lemma SpeechCanBeSentAfterCancel(turn: nat) returns (steps: seq<Step>)
    ensures var s := Run(Start(), steps);
            Stopped(s.guard, turn) && s.history.sent == [Entry(1, Some(CallEvent(AiDone, Some(turn))))]
  {
    LateDelivery(turn);
    RunNone(Start());
    hide Run, Next;
    var e1, e2, e3, e4, e5 :=
      Commit(Some(CallEvent(AiDone, Some(turn)))), Begin(0), StartCancel(turn), EndCancel(turn), End(0, true);
    RunSnoc(Start(), [], e1);
    RunSnoc(Start(), [] + [e1], e2);
    RunSnoc(Start(), [] + [e1] + [e2], e3);
    RunSnoc(Start(), [] + [e1] + [e2] + [e3], e4);
    RunSnoc(Start(), [] + [e1] + [e2] + [e3] + [e4], e5);
    steps := [] + [e1] + [e2] + [e3] + [e4] + [e5];
  }

  lemma RunNone(s: Session)
    ensures Run(s, []) == s
  {}

  lemma RunSnoc(s: Session, steps: seq<Step>, e: Step)
    ensures Run(s, steps + [e]) == Next(Run(s, steps), e)
  {
    assert (steps + [e])[..|steps + [e]| - 1] == steps;
  }
}

/** The outbox in the source's form. Live tasks and the finished, sent and recovered entries are ghost. */
module SessionOutbox {
  import opened Wrappers
  import opened EventOutbox

  class SessionOutbox {
    var eventOutbox: seq<Entry>
    var eventCommitSequence: nat
    var deliveryTask: Option<nat>
    var nextTask: nat
    var undeliveredEvents: seq<Entry>
    var cancellingAiTurns: set<nat>
    var cancelledAiTurns: set<nat>
    var over: bool
    var lateDiscardCount: nat
    ghost var tasks: map<nat, Phase>
    ghost var finished: seq<Entry>
    ghost var sent: seq<Entry>
    ghost var recovered: seq<Entry>

    ghost function View(): Session
      reads this
    {
      Session(Outbox(eventOutbox, eventCommitSequence, tasks, deliveryTask, nextTask),
              History(finished, sent, undeliveredEvents, recovered),
              Guard(cancellingAiTurns, cancelledAiTurns, over))
    }

    constructor ()
      ensures View() == Start()
    {
      eventOutbox, eventCommitSequence, deliveryTask, nextTask, undeliveredEvents := [], 0, None, 0, [];
      cancellingAiTurns, cancelledAiTurns, over, lateDiscardCount := {}, {}, false, 0;
      tasks, finished, sent, recovered := map[], [], [], [];
    }

    method CommitEvent(event: Option<CallEvent>) returns (entry: Entry)
      modifies `eventOutbox, `eventCommitSequence, `deliveryTask, `nextTask, `tasks
      ensures View() == Next(old(View()), Commit(event))
      ensures entry == Entry(eventCommitSequence, event) && eventOutbox == old(eventOutbox) + [entry]
    {
      eventCommitSequence := eventCommitSequence + 1;
      entry := Entry(eventCommitSequence, event);
      eventOutbox := eventOutbox + [entry];
      if deliveryTask.None? {
        tasks := tasks[nextTask := Waiting];
        deliveryTask := Some(nextTask);
        nextTask := nextTask + 1;
      }
    }

    /** Fills a reserved slot; a slot that has an event keeps it. */
    method ResolveEventCommit(sequence: nat, event: CallEvent)
      modifies `eventOutbox
      ensures View() == Next(old(View()), Resolve(sequence, event))
    {
      var i := 0;
      while i < |eventOutbox|
        invariant i <= |eventOutbox| == |old(eventOutbox)|
        invariant forall k | 0 <= k < i :: eventOutbox[k] == ResolveIn(old(eventOutbox), sequence, event)[k]
        invariant forall k | i <= k < |eventOutbox| :: eventOutbox[k] == old(eventOutbox)[k]
      {
        if eventOutbox[i].sequence == sequence && eventOutbox[i].event.None? {
          eventOutbox := eventOutbox[i := eventOutbox[i].(event := Some(event))];
        }
        i := i + 1;
      }
      assert eventOutbox == ResolveIn(old(eventOutbox), sequence, event);
    }

    /** The entry is done: it leaves the outbox, and the task ends when nothing is left. */
    method CompleteHead(ghost task: nat, entry: Entry)
      requires eventOutbox != [] && eventOutbox[0] == entry
      modifies `eventOutbox, `deliveryTask, `tasks, `finished
      ensures Outbox(eventOutbox, eventCommitSequence, tasks, deliveryTask, nextTask) == Complete(old(View()).outbox, task)
      ensures finished == old(finished) + [entry]
    {
      eventOutbox := eventOutbox[1..];
      finished := finished + [entry];
      if eventOutbox == [] {
        deliveryTask := None;
        tasks := tasks - {task};
      } else {
        tasks := tasks[task := Waiting];
      }
    }

    /** First half of delivering the head: the guard against late speech events. */
    method BeginDelivery(ghost task: nat) returns (discarded: bool)
      requires CanBegin(View().outbox, task)
      modifies `eventOutbox, `deliveryTask, `tasks, `finished, `lateDiscardCount
      ensures View() == StepBegin(old(View()), task)
      ensures discarded == Discards(old(View()).guard, old(eventOutbox)[0].event.value)
      ensures lateDiscardCount == old(lateDiscardCount) + if discarded then 1 else 0
    {
      var entry := eventOutbox[0];
      var event := entry.event.value;
      discarded := (event.kind == AiAudioStarted || event.kind == AiDone) && event.turn.Some?
        && (event.turn.value in cancelledAiTurns || event.turn.value in cancellingAiTurns || over);
      if discarded {
        lateDiscardCount := lateDiscardCount + 1;
        CompleteHead(task, entry);
      } else {
        tasks := tasks[task := Sending(entry)];
      }
    }

    /** Second half, after the sink: the channel takes the event, or it is kept if it can be recovered. */
    method EndDelivery(ghost task: nat, entry: Entry, delivered: bool)
      requires CanEnd(View().outbox, task) && tasks[task].entry == entry
      requires eventOutbox != [] && eventOutbox[0] == entry && entry.event.Some?
      modifies `eventOutbox, `deliveryTask, `tasks, `finished, `sent, `undeliveredEvents
      ensures View() == StepEnd(old(View()), task, delivered)
    {
      if delivered {
        sent := sent + [entry];
      } else if entry.event.value.kind == UserFinal || entry.event.value.kind == Failed {
        undeliveredEvents := undeliveredEvents + [entry];
      }
      CompleteHead(task, entry);
    }

    method DrainUndeliveredEvents() returns (events: seq<Entry>)
      modifies `undeliveredEvents, `recovered
      ensures View() == Next(old(View()), Drain) && events == old(undeliveredEvents)
    {
      events := undeliveredEvents;
      recovered := recovered + undeliveredEvents;
      undeliveredEvents := [];
    }

    method BeginCancelTurn(turn: nat)
      modifies `cancellingAiTurns
      ensures View() == Next(old(View()), StartCancel(turn))
    {
      cancellingAiTurns := cancellingAiTurns + {turn};
    }

    method EndCancelTurn(turn: nat)
      modifies `cancellingAiTurns, `cancelledAiTurns
      ensures View() == Next(old(View()), EndCancel(turn))
    {
      cancelledAiTurns := cancelledAiTurns + {turn};
      cancellingAiTurns := cancellingAiTurns - {turn};
    }
  }
}
