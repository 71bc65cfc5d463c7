/**
  The client of the segment ledger: a speech turn that queues at most two numbered segments and sends them
  one at a time, and the system it forms with the ledger behind the speak endpoint.
*/
module SpeechTurns {
  import opened Wrappers
  import L = SegmentLedger

  const QUEUE_CAPACITY: nat := 2

  datatype Submission = Submission(ordinal: nat, digest: nat, final: bool)

  datatype Status = Normal | Cancelled | Error

  datatype Worker = Idle | Calling(item: Submission) | Stopped

  /** `offered` is numbered but still waits for room in the queue. `entered` is every segment that got in,
      `taken` how many of them the worker has taken, `acknowledged` how many were answered as normal. */
  datatype Client = Client(
    queue: seq<Submission>, offered: Option<Submission>, nextOrdinal: nat, closed: bool,
    terminal: Option<Status>, worker: Worker, entered: seq<Submission>, taken: nat, acknowledged: nat)

  /** What the speak endpoint answers; `Played` is the final event with its playout flag. */
  datatype Response = Queued | Played(completed: bool) | SaysCancelled | SaysFailed | Refused

  datatype Wire = Quiet | Request(item: Submission) | Working(item: Submission) | Answer(item: Submission, response: Response)

  /** `claims` is what the ledger told each request, `answers` what the worker observed for each segment. */
  datatype System = System(client: Client, wire: Wire, turn: L.Turn, claims: seq<L.Reply>, answers: seq<Response>)

  datatype Event =
    | Offer(digest: nat, final: bool)
    | Enter
    | AbortOffer
    | Take
    | CancelClient
    | CancelDone
    | ClientTimeout
    | Observe
    | ServerClaim
    | ServerCommit(playedOut: bool)
    | ServerRelease
    | ServerGiveUp
    | ServerCancel

  // ---- the client ----

  predicate Open(c: Client) {
    !c.closed && c.terminal.None?
  }

  /** Only one caller submits, so nothing is offered while an offer waits. */
  function StepOffer(c: Client, digest: nat, final: bool): Client {
    if !Open(c) || c.offered.Some? then c else
    c.(offered := Some(Submission(c.nextOrdinal, digest, final)), nextOrdinal := c.nextOrdinal + 1)
  }

  function StepEnter(c: Client): Client {
    if c.offered.None? || |c.queue| >= QUEUE_CAPACITY then c else
    var item := c.offered.value;
    c.(queue := c.queue + [item], entered := c.entered + [item], offered := None,
       closed := c.closed || item.final)
  }

  function StepTake(c: Client): Client {
    if !c.worker.Idle? || c.queue == [] then c else
    if c.terminal.Some? then c.(worker := Stopped, queue := []) else
    c.(worker := Calling(c.queue[0]), queue := c.queue[1..], taken := c.taken + 1)
  }

  function Observed(response: Response, final: bool): Status {
    match response
    case Queued => if final then Error else Normal
    case Played(completed) => if completed then Normal else Error
    case SaysCancelled => Cancelled
    case SaysFailed => Error
    case Refused => Error
  }

  function StepObserve(c: Client, response: Response): Client {
    if !c.worker.Calling? then c else
    var item := c.worker.item;
    var status := Observed(response, item.final);
    var acknowledged := c.acknowledged + if status == Normal then 1 else 0;
    if status != Normal || item.final
    then c.(worker := Stopped, queue := [], terminal := Some(status), acknowledged := acknowledged)
    else c.(worker := Idle, acknowledged := acknowledged)
  }

  /** The worker's call fails on the client's side: the turn ends in an error and what is queued is discarded. */
  function StepTimeout(c: Client): Client {
    if !c.worker.Calling? then c else c.(worker := Stopped, queue := [], terminal := Some(Error))
  }

  function StepCancelClient(c: Client): Client {
    c.(closed := true, worker := Stopped, queue := [],
       terminal := if c.worker.Calling? then Some(Cancelled) else c.terminal)
  }

  /** The end of a cancellation overrides a normal end. */
  function StepCancelDone(c: Client): Client {
    if !c.closed || !c.worker.Stopped? then c else
    c.(queue := [], terminal := if c.terminal.None? || c.terminal == Some(Normal) then Some(Cancelled) else c.terminal)
  }

  // ---- the system ----

  function RequestOf(item: Submission): L.Request {
    L.Request(Some(item.ordinal), Some(item.ordinal), item.digest, item.final)
  }

  function StepServerClaim(s: System): System {
    if !s.wire.Request? then s else
    var item := s.wire.item;
    var reply := L.ReplyTo(s.turn.ledger, RequestOf(item));
    s.(turn := L.Next(s.turn, L.Claim(RequestOf(item))),
       claims := s.claims + [reply],
       wire := if reply.Generate? then Working(item) else if reply.Wait? then s.wire else Answer(item, Refused))
  }

  function StepServerCommit(s: System, playedOut: bool): System {
    if !s.wire.Working? then s else
    var item := s.wire.item;
    s.(turn := L.Next(s.turn, L.Commit(item.digest)),
       wire := Answer(item, if item.final then Played(playedOut) else Queued))
  }

  function Next(s: System, e: Event): System {
    match e
    case Offer(digest, final) => s.(client := StepOffer(s.client, digest, final))
    case Enter => s.(client := StepEnter(s.client))
    case AbortOffer => s.(client := s.client.(offered := None))
    case Take =>
      var c := StepTake(s.client);
      s.(client := c, wire := if c.worker.Calling? && !s.client.worker.Calling? then Request(c.worker.item) else s.wire)
    case CancelClient => s.(client := StepCancelClient(s.client))
    case CancelDone => s.(client := StepCancelDone(s.client))
    case ClientTimeout => s.(client := StepTimeout(s.client))
    case Observe =>
      if !s.wire.Answer? then s else
      s.(client := StepObserve(s.client, s.wire.response), wire := Quiet,
         answers := s.answers + if s.client.worker.Calling? then [s.wire.response] else [])
    case ServerClaim => StepServerClaim(s)
    case ServerCommit(playedOut) => StepServerCommit(s, playedOut)
    case ServerRelease =>
      if s.wire.Working? then s.(turn := L.Next(s.turn, L.Release), wire := Answer(s.wire.item, SaysFailed)) else s
    case ServerGiveUp =>
      if !s.wire.Working? then s else
      s.(turn := L.Next(L.Next(s.turn, L.Cancel), L.GiveUp), wire := Answer(s.wire.item, SaysCancelled))
    case ServerCancel => s.(turn := L.Next(s.turn, L.Cancel))
  }

  function Start(): System {
    System(Client([], None, 0, false, None, Idle, [], 0, 0), Quiet, L.Start(), [], [])
  }

  function Run(s: System, events: seq<Event>): System
    decreases |events|
  {
    if events == [] then s else Next(Run(s, events[..|events| - 1]), events[|events| - 1])
  }

  // ---- invariants ----

  /** A segment's number is at least the number of segments that entered before it, and numbers only grow. */
  ghost predicate Numbered(c: Client) {
    && (forall i | 0 <= i < |c.entered| :: i <= c.entered[i].ordinal < c.nextOrdinal)
    && (c.offered.Some? ==> |c.entered| <= c.offered.value.ordinal < c.nextOrdinal)
    && |c.entered| <= c.nextOrdinal
  }

  /** The final segment is the last one in, and nothing is offered after it. */
  ghost predicate FinalIsLast(c: Client) {
    && (forall i | 0 <= i < |c.entered| && c.entered[i].final :: i + 1 == |c.entered| && c.closed && c.offered.None?)
  }

  /** While the worker lives, the queue is what has entered and not been taken. */
  ghost predicate QueueInv(c: Client) {
    && c.taken <= |c.entered|
    && |c.queue| <= QUEUE_CAPACITY
    && (!c.worker.Stopped? ==> c.queue == c.entered[c.taken..] && c.terminal.None?)
    && (c.worker.Calling? ==> 0 < c.taken && c.worker.item == c.entered[c.taken - 1])
  }

  ghost predicate ClientInv(c: Client) {
    Numbered(c) && FinalIsLast(c) && QueueInv(c)
  }

  /** One request at a time, always the last one taken. */
  ghost predicate WireInv(s: System) {
    && (!s.wire.Quiet? ==>
          0 < s.client.taken <= |s.client.entered| && s.wire.item == s.client.entered[s.client.taken - 1])
    && (s.wire.Quiet? ==> !s.client.worker.Calling?)
    && (s.client.worker.Idle? ==> s.wire.Quiet?)
  }

  /** How many of the taken segments the ledger has committed. */
  ghost predicate ProgressInv(s: System) {
    var next, c := s.turn.ledger.next, s.client;
    && c.acknowledged <= next <= c.acknowledged + 1
    && next <= c.taken <= next + 1
    && (!s.wire.Quiet? ==> c.acknowledged + 1 == c.taken)
    && (s.wire.Request? || s.wire.Working? ==> next + 1 == c.taken)
    && (s.wire.Answer? ==> (next == c.taken <==> s.wire.response.Queued? || s.wire.response.Played?))
    && (c.worker.Idle? ==> next == c.taken == c.acknowledged)
  }

  /** What the ledger holds is what the client sent: segment k is the k-th segment in, under its own number. */
  ghost predicate ContentInv(s: System) {
    forall i | i in s.turn.ledger.segments ::
      var segment := s.turn.ledger.segments[i];
      && i == L.Named(segment.ordinal) && segment.ordinal < s.client.taken <= |s.client.entered|
      && var item := s.client.entered[segment.ordinal];
         item.ordinal == segment.ordinal && item.digest == segment.digest && item.final == segment.final
  }

  /** Who holds the ledger: the request being worked on, for the next segment. */
  ghost predicate HoldInv(s: System) {
    && (s.turn.holder == if s.wire.Working? then Some(L.Named(s.turn.ledger.next)) else None)
    && (s.wire.Working? ==> s.wire.item.ordinal == s.turn.ledger.next)
    && (s.wire.Request? || s.client.worker.Idle? || (s.wire.Answer? && s.turn.ledger.next == s.client.taken) ==>
          L.Named(s.turn.ledger.next) !in s.turn.ledger.segments)
  }

  /** The claims so far: the j-th is told to generate segment j, except that the last one may be refused. */
  ghost predicate ClaimsInv(s: System) {
    && |s.claims| == s.client.taken - (if s.wire.Request? then 1 else 0)
    && s.turn.ledger.next <= |s.claims|
    && (forall j | 0 <= j < |s.claims| && s.claims[j].Generate? ::
          j < |s.client.entered| && s.claims[j].work == L.WorkerRequest(L.Named(j), j, s.client.entered[j].digest, 1))
    && (forall j | 0 <= j < s.turn.ledger.next :: s.claims[j].Generate?)
    && (s.wire.Working? ==> 0 < |s.claims| && s.claims[|s.claims| - 1].Generate?)
    && (forall j | 0 <= j < |s.claims| :: !s.claims[j].Wait? && !s.claims[j].Cached?)
  }

  /** A normal end means that everything was acknowledged and the last segment was the final one. */
  ghost predicate NormalInv(s: System) {
    s.client.terminal == Some(Normal) ==>
      && s.wire.Quiet? && s.client.taken == |s.client.entered| == s.client.acknowledged
      && 0 < |s.client.entered| && s.client.entered[|s.client.entered| - 1].final
  }

  ghost predicate SystemInv(s: System) {
    && ClientInv(s.client) && L.TurnInv(s.turn) && WireInv(s) && ProgressInv(s) && ContentInv(s) && HoldInv(s)
    && ClaimsInv(s) && NormalInv(s)
  }

  lemma OfferKeeps(c: Client, digest: nat, final: bool)
    requires ClientInv(c)
    ensures ClientInv(StepOffer(c, digest, final))
  {}

  lemma EnterKeeps(c: Client)
    requires ClientInv(c)
    ensures ClientInv(StepEnter(c))
  {}

  lemma TakeKeeps(c: Client)
    requires ClientInv(c)
    ensures ClientInv(StepTake(c))
  {}

  lemma ObserveKeeps(c: Client, response: Response)
    requires ClientInv(c)
    ensures ClientInv(StepObserve(c, response))
  {}

  lemma StopKeeps(c: Client)
    requires ClientInv(c)
    ensures ClientInv(StepTimeout(c)) && ClientInv(StepCancelClient(c)) && ClientInv(StepCancelDone(c))
    ensures ClientInv(c.(offered := None))
  {}

  // ---- every step of the system keeps them ----

  /** Steps that only touch the client's side before the wire. */
  lemma ClientStepKeeps(s: System, c: Client)
    requires SystemInv(s) && ClientInv(c)
    requires c.taken == s.client.taken && c.acknowledged == s.client.acknowledged
    requires s.client.entered <= c.entered
    requires c.worker == s.client.worker || c.worker == Stopped
    requires c.terminal == Some(Normal) ==> s.client.terminal == Some(Normal) && c.entered == s.client.entered
    ensures SystemInv(s.(client := c))
  {
    hide ClientInv, L.TurnInv;
  }

  lemma ServerClaimReply(s: System)
    requires SystemInv(s) && s.wire.Request?
    ensures var item, ledger, k := s.wire.item, s.turn.ledger, s.client.taken - 1;
            k >= 0 && L.ReplyTo(ledger, RequestOf(item))
            == if ledger.state != L.Active then L.TurnOver
               else if item.ordinal != k then L.Conflict
               else L.Generate(L.WorkerRequest(L.Named(k), k, item.digest, 1))
  {}

  lemma TakeKeepsSystem(s: System)
    requires SystemInv(s)
    ensures SystemInv(Next(s, Take))
  {
    TakeKeeps(s.client);
    hide L.TurnInv;
  }

  lemma ServerClaimKeeps(s: System)
    requires SystemInv(s)
    ensures SystemInv(StepServerClaim(s))
  {
    if s.wire.Request? {
      ServerClaimReply(s);
      L.ClaimKeepsInv(s.turn, RequestOf(s.wire.item));
      hide L.TurnInv, L.ReplyTo;
    }
  }

  /** The segments keep their numbers and contents. */
  ghost predicate SameContents(segments: map<L.Identity, L.Segment>, after: map<L.Identity, L.Segment>) {
    && after.Keys == segments.Keys
    && forall i | i in segments ::
         after[i].ordinal == segments[i].ordinal && after[i].digest == segments[i].digest && after[i].final == segments[i].final
  }

  lemma ContentsKeep(s: System, after: System)
    requires ContentInv(s) && after.client.taken == s.client.taken && after.client.entered == s.client.entered
    requires SameContents(s.turn.ledger.segments, after.turn.ledger.segments)
    ensures ContentInv(after)
    ensures L.Named(s.client.taken) !in after.turn.ledger.segments
  {}

  lemma WireStepKeeps(s: System, turn: L.Turn, wire: Wire)
    requires WireInv(s) && ProgressInv(s) && ClaimsInv(s) && HoldInv(s)
    requires L.Named(s.client.taken) !in turn.ledger.segments && turn.ledger.segments.Keys == s.turn.ledger.segments.Keys
    requires
      || (wire == s.wire && turn.ledger.next == s.turn.ledger.next && turn.holder == s.turn.holder)
      || (s.wire.Working? && wire.Answer? && wire.item == s.wire.item && turn.holder.None?
          && turn.ledger.next == s.turn.ledger.next + if wire.response.Queued? || wire.response.Played? then 1 else 0)
    ensures var after := s.(turn := turn, wire := wire);
            WireInv(after) && ProgressInv(after) && ClaimsInv(after) && HoldInv(after)
  {}

  /** A step of the ledger that adds no segment: either nothing is answered, or the request being worked on is. */
  lemma LedgerStepKeeps(s: System, turn: L.Turn, wire: Wire)
    requires SystemInv(s) && L.TurnInv(turn) && SameContents(s.turn.ledger.segments, turn.ledger.segments)
    requires
      || (wire == s.wire && turn.ledger.next == s.turn.ledger.next && turn.holder == s.turn.holder)
      || (s.wire.Working? && wire.Answer? && wire.item == s.wire.item && turn.holder.None?
          && turn.ledger.next == s.turn.ledger.next + if wire.response.Queued? || wire.response.Played? then 1 else 0)
    ensures SystemInv(s.(turn := turn, wire := wire))
  {
    hide L.TurnInv, ClientInv, ContentInv, WireInv, ProgressInv, ClaimsInv, HoldInv;
    ContentsKeep(s, s.(turn := turn, wire := wire));
    WireStepKeeps(s, turn, wire);
  }

  lemma Parts(s: System)
    requires SystemInv(s)
    ensures L.TurnInv(s.turn) && HoldInv(s)
  {
    hide L.TurnInv, HoldInv;
  }

  lemma CommitShape(turn: L.Turn, response: nat)
    requires L.TurnInv(turn) && turn.holder.Some?
    ensures var after := L.StepCommit(turn, response);
            && after.ledger.next == turn.ledger.next + 1 && after.holder.None?
            && SameContents(turn.ledger.segments, after.ledger.segments)
  {
    hide L.Bijective, L.FinalLast, L.SegmentsInv, L.IssuedInv;
  }

  lemma ReleaseShape(turn: L.Turn)
    ensures var after := L.StepRelease(turn);
            && after.ledger.next == turn.ledger.next && after.holder == (if after == turn then turn.holder else None)
            && SameContents(turn.ledger.segments, after.ledger.segments)
  {}

  lemma CancelShape(turn: L.Turn)
    ensures var after := L.StepCancel(turn);
            && after.ledger.next == turn.ledger.next && after.holder == turn.holder
            && SameContents(turn.ledger.segments, after.ledger.segments)
  {}

  lemma ServerCommitKeeps(s: System, playedOut: bool)
    requires SystemInv(s)
    ensures SystemInv(StepServerCommit(s, playedOut))
  {
    hide SystemInv, SameContents, L.TurnInv, L.StepCommit;
    if s.wire.Working? {
      Parts(s);
      CommitShape(s.turn, s.wire.item.digest);
      L.CommitKeepsInv(s.turn, s.wire.item.digest);
      LedgerStepKeeps(s, L.StepCommit(s.turn, s.wire.item.digest), StepServerCommit(s, playedOut).wire);
    }
  }

  lemma ServerReleaseKeeps(s: System)
    requires SystemInv(s)
    ensures SystemInv(Next(s, ServerRelease))
  {
    hide SystemInv, SameContents, L.TurnInv;
    if s.wire.Working? {
      Parts(s);
      HolderExists(s.turn);
      ReleaseShape(s.turn);
      L.ReleaseKeepsInv(s.turn);
      hide L.StepRelease;
      LedgerStepKeeps(s, L.StepRelease(s.turn), Answer(s.wire.item, SaysFailed));
    }
  }

  lemma HolderExists(turn: L.Turn)
    requires L.TurnInv(turn) && turn.holder.Some?
    ensures turn.holder.value in turn.ledger.segments && L.StepRelease(turn).holder.None?
  {
    hide L.LedgerInv, L.IssuedInv;
  }

  lemma ServerCancelKeeps(s: System)
    requires SystemInv(s)
    ensures SystemInv(Next(s, ServerCancel))
  {
    hide SystemInv, SameContents, L.TurnInv, L.StepCancel;
    Parts(s);
    CancelShape(s.turn);
    L.CancelKeepsInv(s.turn);
    LedgerStepKeeps(s, L.StepCancel(s.turn), s.wire);
  }

  lemma ServerGiveUpKeeps(s: System)
    requires SystemInv(s)
    ensures SystemInv(Next(s, ServerGiveUp))
  {
    hide SystemInv, L.TurnInv, L.StepCancel;
    if s.wire.Working? {
      var cancelled := Next(s, ServerCancel);
      ServerCancelKeeps(s);
      Parts(cancelled);
      L.GiveUpKeepsInv(cancelled.turn);
      LedgerStepKeeps(cancelled, cancelled.turn.(holder := None), Answer(s.wire.item, SaysCancelled));
    }
  }

  lemma ObserveKeepsSystem(s: System)
    requires SystemInv(s)
    ensures SystemInv(Next(s, Observe))
  {
    hide L.TurnInv, ContentInv, Numbered;
    if s.wire.Answer? {
      ObserveKeeps(s.client, s.wire.response);
      ContentsKeep(s, Next(s, Observe));
    }
  }

  lemma NextKeeps(s: System, e: Event)
    requires SystemInv(s)
    ensures SystemInv(Next(s, e))
  {
    match e
    case Offer(digest, final) => OfferKeeps(s.client, digest, final); ClientNextKeeps(s, e);
    case Enter => EnterKeeps(s.client); ClientNextKeeps(s, e);
    case AbortOffer => StopKeeps(s.client); ClientNextKeeps(s, e);
    case CancelClient => StopKeeps(s.client); ClientNextKeeps(s, e);
    case CancelDone => StopKeeps(s.client); ClientNextKeeps(s, e);
    case ClientTimeout => StopKeeps(s.client); ClientNextKeeps(s, e);
    case Take => TakeKeepsSystem(s);
    case Observe => ObserveKeepsSystem(s);
    case ServerClaim => ServerClaimKeeps(s);
    case ServerCommit(playedOut) => ServerCommitKeeps(s, playedOut);
    case ServerRelease => ServerReleaseKeeps(s);
    case ServerGiveUp => ServerGiveUpKeeps(s);
    case ServerCancel => ServerCancelKeeps(s);
  }

  lemma ClientNextKeeps(s: System, e: Event)
    requires SystemInv(s) && ClientInv(Next(s, e).client)
    requires e.Offer? || e.Enter? || e.AbortOffer? || e.CancelClient? || e.CancelDone? || e.ClientTimeout?
    ensures SystemInv(Next(s, e))
  {
    ClientStepKeeps(s, Next(s, e).client) by { hide SystemInv; NormalIsFull(s); }
  }

  lemma NormalIsFull(s: System)
    requires SystemInv(s)
    ensures s.client.terminal == Some(Normal) ==> s.client.offered.None?
  {}

  /** Every reachable state of client and ledger together. */
  lemma {:induction false} InvRun(events: seq<Event>)
    ensures SystemInv(Run(Start(), events))
    decreases |events|
  {
    hide SystemInv, Next;
    if events == [] {
      StartInv();
    } else {
      InvRun(events[..|events| - 1]);
      NextKeeps(Run(Start(), events[..|events| - 1]), events[|events| - 1]);
    }
  }

  lemma StartInv()
    ensures SystemInv(Start())
  {}

  // ---- what it means ----

  function Expected(item: Submission): Response {
    if item.final then Played(true) else Queued
  }

  /** The final segment went in, and every segment was answered: queued, the final one with completed playout. */
  ghost predicate PlayedOut(s: System) {
    && |s.answers| == |s.client.entered| > 0
    && (forall k | 0 <= k < |s.answers| :: s.answers[k] == Expected(s.client.entered[k]))
    && s.client.entered[|s.client.entered| - 1].final
  }

  /** Acknowledged segments got the answer they need; at most one further segment got another one, the last. */
  ghost predicate AnswersInv(s: System) {
    var c := s.client;
    && c.acknowledged <= |s.answers| <= c.acknowledged + 1 && |s.answers| <= c.taken <= |c.entered|
    && (forall k | 0 <= k < c.acknowledged :: s.answers[k] == Expected(c.entered[k]))
    && (|s.answers| > c.acknowledged ==> s.answers[c.acknowledged] != Expected(c.entered[c.acknowledged]))
    && (!c.worker.Stopped? || c.terminal == Some(Normal) ==> |s.answers| == c.acknowledged)
    && (s.wire.Answer? ==>
          (s.wire.response.Queued? ==> !s.wire.item.final) && (s.wire.response.Played? ==> s.wire.item.final))
  }

  lemma AnswersNext(s: System, e: Event)
    requires SystemInv(s) && AnswersInv(s)
    ensures AnswersInv(Next(s, e))
  {
    hide L.TurnInv, ContentInv, HoldInv, ClaimsInv, Numbered, FinalIsLast, L.Next, L.ReplyTo, NormalInv;
  }

  /** Once everything is played out the turn has ended normally, unless a cancellation completes. */
  lemma PlayedOutNext(s: System, e: Event)
    requires SystemInv(s) && AnswersInv(s) && e != CancelDone
    requires PlayedOut(s) ==> s.client.terminal == Some(Normal)
    ensures PlayedOut(Next(s, e)) ==> Next(s, e).client.terminal == Some(Normal)
  {
    hide L.TurnInv, ContentInv, HoldInv, ClaimsInv, Numbered, L.Next, L.ReplyTo;
  }

  lemma {:induction false} AnswersRun(events: seq<Event>)
    ensures AnswersInv(Run(Start(), events))
    ensures CancelDone !in events && PlayedOut(Run(Start(), events)) ==> Run(Start(), events).client.terminal == Some(Normal)
    decreases |events|
  {
    hide SystemInv, AnswersInv, Next, PlayedOut;
    if events == [] {
      AnswersStart();
    } else {
      var before, e := events[..|events| - 1], events[|events| - 1];
      assert events == before + [e];
      AnswersRun(before);
      InvRun(before);
      AnswersNext(Run(Start(), before), e);
      if CancelDone !in events {
        PlayedOutNext(Run(Start(), before), e);
      }
    }
  }

  lemma AnswersStart()
    ensures AnswersInv(Start()) && !PlayedOut(Start())
  {}

  /** A turn that ended normally got, in order, a queued answer for every segment and completed playout for the
      final one; and until a cancellation completes, a turn that got those answers has ended normally. */
  lemma NormalNeedsPlayout(events: seq<Event>)
    ensures var s := Run(Start(), events);
            && (s.client.terminal == Some(Normal) ==> PlayedOut(s))
            && (CancelDone !in events ==> (s.client.terminal == Some(Normal) <==> PlayedOut(s)))
  {
    InvRun(events);
    AnswersRun(events);
    hide Run, L.TurnInv, ContentInv, HoldInv, ClaimsInv, WireInv, ProgressInv;
  }

  /** At most two segments wait in the client. */
  lemma QueueIsBounded(events: seq<Event>)
    ensures |Run(Start(), events).client.queue| <= 2
  {
    InvRun(events);
    hide Run, L.TurnInv, ContentInv, HoldInv, ClaimsInv, ProgressInv, NormalInv, WireInv;
  }

  /** A cancellation always ends the turn: at once if the worker's call was under way, and otherwise when it completes,
      also after a normal end; only an error stays what it was. */
  lemma CancellationEnds(events: seq<Event>)
    ensures var c := Run(Start(), events).client;
            var begun := Next(Run(Start(), events), CancelClient).client;
            var done := Next(Next(Run(Start(), events), CancelClient), CancelDone).client;
            && begun.closed && begun.worker.Stopped? && begun.queue == []
            && begun.terminal == (if c.worker.Calling? then Some(Cancelled) else c.terminal)
            && done.terminal == (if c.terminal == Some(Error) then Some(Error) else Some(Cancelled))
  {
    InvRun(events);
    CallingIsOpen(Run(Start(), events));
    hide Run, SystemInv, Next;
    CancellationSteps(Run(Start(), events));
  }

  lemma CancellationSteps(s: System)
    requires s.client.worker.Calling? ==> s.client.terminal.None?
    ensures var c, begun := s.client, Next(s, CancelClient).client;
            var done := Next(Next(s, CancelClient), CancelDone).client;
            && begun.closed && begun.worker.Stopped? && begun.queue == []
            && begun.terminal == (if c.worker.Calling? then Some(Cancelled) else c.terminal)
            && done.terminal == (if c.terminal == Some(Error) then Some(Error) else Some(Cancelled))
  {
    if s.client.terminal.Some? {
      match s.client.terminal.value
      case Normal =>
      case Cancelled =>
      case Error =>
    }
  }

  lemma CallingIsOpen(s: System)
    requires SystemInv(s)
    ensures s.client.worker.Calling? ==> s.client.terminal.None?
  {
    hide L.TurnInv, ContentInv, HoldInv, ClaimsInv, ProgressInv, NormalInv, WireInv, Numbered, FinalIsLast;
  }

  /** A call that fails on the client's side ends the turn in an error, whatever the ledger does with the segment. */
  lemma FailedCallEnds(events: seq<Event>)
    requires Run(Start(), events).client.worker.Calling?
    ensures var s := Run(Start(), events);
            var after := Next(s, ClientTimeout);
            && after.client.terminal == Some(Error) && after.client.worker.Stopped? && after.client.queue == []
            && after.turn == s.turn && after.wire == s.wire
  {
    hide Run;
  }

  /** An abandoned put skips a number, and then the next segment meets a conflict. */
  lemma AbandonedPutConflicts(digest: nat, final: bool)
    ensures var skipped := Next(Next(Start(), Offer(digest, final)), AbortOffer);
            var sent := Next(Next(Next(skipped, Offer(digest, final)), Enter), Take);
            var refused := Next(sent, ServerClaim);
            refused.claims == [L.Conflict] && Next(refused, Observe).client.terminal == Some(Error)
  {
    var skipped := Next(Next(Start(), Offer(digest, final)), AbortOffer);
    var sent := Next(Next(Next(skipped, Offer(digest, final)), Enter), Take);
    assert sent.wire == Request(Submission(1, digest, final));
    assert L.ReplyTo(sent.turn.ledger, RequestOf(sent.wire.item)) == L.Conflict;
  }

  /** Nothing is under way, no number was skipped, and the turn goes on. */
  ghost predicate Idling(s: System) {
    && Open(s.client) && s.client.worker.Idle? && s.client.queue == [] && s.client.offered.None?
    && s.client.nextOrdinal == |s.client.entered| && s.turn.ledger.state == L.Active
  }

  lemma IdleSides(s: System)
    requires SystemInv(s) && Idling(s)
    ensures s.wire.Quiet? && |s.client.entered| == s.client.taken == s.client.acknowledged == s.turn.ledger.next
    ensures L.Named(s.turn.ledger.next) !in s.turn.ledger.segments && s.turn.ledger.next !in s.turn.ledger.owners
  {
    hide L.FinalLast, L.SegmentsInv, L.IssuedInv, L.HolderInv, ContentInv, ClaimsInv, NormalInv;
    if s.turn.ledger.next in s.turn.ledger.owners {
      OwnerIsNamed(s, s.turn.ledger.owners[s.turn.ledger.next]);
    }
  }

  lemma OwnerIsNamed(s: System, i: L.Identity)
    requires SystemInv(s) && i in s.turn.ledger.segments
    ensures i == L.Named(s.turn.ledger.segments[i].ordinal)
  {
    hide L.TurnInv, ClaimsInv, NormalInv, HoldInv, ProgressInv, WireInv, ClientInv;
  }

  /** The request reaches the wire. */
  lemma SubmitAndTake(s: System, digest: nat, final: bool)
    requires Idling(s) && s.wire.Quiet? && |s.client.entered| == s.client.taken
    ensures var item := Submission(|s.client.entered|, digest, final);
            var u := Next(Next(Next(s, Offer(digest, final)), Enter), Take);
            && u.wire == Request(item) && u.turn == s.turn && u.answers == s.answers
            && u.client.worker == Calling(item) && u.client.queue == [] && u.client.entered == s.client.entered + [item]
            && u.client.taken == s.client.taken + 1 && u.client.acknowledged == s.client.acknowledged
            && u.client.terminal.None? && u.client.offered.None? && u.client.nextOrdinal == |u.client.entered|
            && u.client.closed == final
  {}

  /** The ledger takes it, and the answer comes back. */
  lemma SpeakAndObserve(s: System, item: Submission)
    requires s.wire == Request(item) && s.client.worker == Calling(item) && s.client.terminal.None?
    requires s.turn.ledger.state == L.Active && item.ordinal == s.turn.ledger.next
    requires L.Named(item.ordinal) !in s.turn.ledger.segments && item.ordinal !in s.turn.ledger.owners
    ensures var u := Next(Next(Next(s, ServerClaim), ServerCommit(true)), Observe);
            && u.wire.Quiet? && u.turn.ledger.next == s.turn.ledger.next + 1
            && u.answers == s.answers + [Expected(item)]
            && L.Named(item.ordinal) in u.turn.ledger.segments
            && u.turn.ledger.segments[L.Named(item.ordinal)].state == L.Committed
            && u.turn.ledger.state == (if item.final then L.Completed else L.Active)
            && u.client.acknowledged == s.client.acknowledged + 1 && u.client.entered == s.client.entered
            && u.client.terminal == (if item.final then Some(Normal) else None)
            && (!item.final ==> u.client == s.client.(worker := Idle, acknowledged := s.client.acknowledged + 1))
  {
    var claimed := Next(s, ServerClaim);
    assert claimed.wire == Working(item) && claimed.turn.holder == Some(L.Named(item.ordinal));
    hide L.ReplyTo;
  }

  /** From every reachable state in which nothing is under way, a segment that nobody disturbs is submitted, taken,
      generated, committed and acknowledged; the final one completes the ledger and ends the turn normally, and after
      any other the next one can follow. */
  lemma UndisturbedSegmentIsSpoken(events: seq<Event>, digest: nat, final: bool)
    requires Idling(Run(Start(), events))
    ensures var s := Run(Start(), events);
            var sent := Next(Next(Next(s, Offer(digest, final)), Enter), Take);
            var u := Next(Next(Next(sent, ServerClaim), ServerCommit(true)), Observe);
            && u.turn.ledger.next == s.turn.ledger.next + 1 && u.client.acknowledged == s.client.acknowledged + 1
            && u.answers == s.answers + [if final then Played(true) else Queued]
            && (if final then u.client.terminal == Some(Normal) && u.turn.ledger.state == L.Completed else Idling(u))
  {
    InvRun(events);
    var s := Run(Start(), events);
    IdleSides(s);
    hide Run, SystemInv;
    SubmitAndTake(s, digest, final);
    SpeakAndObserve(Next(Next(Next(s, Offer(digest, final)), Enter), Take), Submission(|s.client.entered|, digest, final));
    hide Next;
  }

  /** How a step ends a turn: by the answer the worker observes, by a call that fails on the client's side, or by a
      cancellation. */
  predicate EndsTurn(s: System, e: Event, status: Status) {
    match e
    case Observe =>
      s.wire.Answer? && s.client.worker.Calling?
      && (match s.wire.response
          case Queued => s.client.worker.item.final && status == Error
          case Played(true) => s.client.worker.item.final && status == Normal
          case Played(false) => status == Error
          case SaysCancelled => status == Cancelled
          case SaysFailed => status == Error
          case Refused => status == Error)
    case ClientTimeout => status == Error
    case CancelClient => status == Cancelled
    case CancelDone => status == Cancelled
    case _ => false
  }

  lemma TerminalStep(s: System, e: Event)
    requires SystemInv(s)
    ensures var was, now := s.client.terminal, Next(s, e).client.terminal;
            && (now != was ==> now.Some? && (was.None? || (was == Some(Normal) && now == Some(Cancelled))) && EndsTurn(s, e, now.value))
  {
    hide L.TurnInv, ContentInv, HoldInv, ClaimsInv, ProgressInv, NormalInv, L.Next, L.ReplyTo, Numbered, FinalIsLast;
  }

  /** The status a turn has ended with says why: the step that set it was an answer that means it, a failed call, or a
      cancellation, and nothing but a cancellation that completes after a normal end changes it later. */
  lemma {:induction false} StatusSaysWhy(events: seq<Event>) returns (i: nat)
    requires Run(Start(), events).client.terminal.Some?
    ensures i < |events|
    ensures var s, status := Run(Start(), events[..i]), Run(Start(), events).client.terminal.value;
            && EndsTurn(s, events[i], status) && s.client.terminal != Some(status)
            && (s.client.terminal.None? || (s.client.terminal == Some(Normal) && status == Cancelled))
    decreases |events|
  {
    hide SystemInv, Next, EndsTurn;
    if events == [] {
      assert false;
    } else {
      var before, e := events[..|events| - 1], events[|events| - 1];
      var s := Run(Start(), before);
      InvRun(before);
      TerminalStep(s, e);
      if s.client.terminal == Run(Start(), events).client.terminal {
        i := StatusSaysWhy(before);
        assert before[..i] == events[..i];
      } else {
        i := |before|;
      }
    }
  }

  /** In every run, a request that reaches the ledger is told to generate the next segment, unless the turn is
      over, or its number is not its place among the segments sent: only then there is a conflict. */
  lemma ClaimReplyExactly(events: seq<Event>)
    requires Run(Start(), events).wire.Request?
    ensures var s := Run(Start(), events);
            var item, ledger, k := s.wire.item, s.turn.ledger, s.client.taken - 1;
            k >= 0 && L.ReplyTo(ledger, RequestOf(item))
            == if ledger.state != L.Active then L.TurnOver
               else if item.ordinal != k then L.Conflict
               else L.Generate(L.WorkerRequest(L.Named(k), k, item.digest, 1))
  {
    InvRun(events);
    ServerClaimReply(Run(Start(), events));
  }

  /** No number is skipped while no offer is abandoned. */
  ghost predicate NoGap(c: Client) {
    && (forall i | 0 <= i < |c.entered| :: c.entered[i].ordinal == i)
    && (c.offered.Some? ==> c.offered.value.ordinal == |c.entered|)
    && c.nextOrdinal == |c.entered| + if c.offered.Some? then 1 else 0
  }

  lemma {:induction false} NoAbortNoGap(events: seq<Event>)
    requires AbortOffer !in events
    ensures NoGap(Run(Start(), events).client)
    decreases |events|
  {
    if events != [] {
      assert events == events[..|events| - 1] + [events[|events| - 1]];
      NoAbortNoGap(events[..|events| - 1]);
    }
  }

  /** A client that never abandons an offer never meets a conflict, and no claim waits or replays. */
  lemma SingleProducerNeverConflicts(events: seq<Event>, j: nat)
    requires AbortOffer !in events && j < |Run(Start(), events).claims|
    ensures Run(Start(), events).claims[j].Generate? || Run(Start(), events).claims[j] == L.TurnOver
    decreases |events|
  {
    hide SystemInv, L.ReplyTo;
    var before, e := events[..|events| - 1], events[|events| - 1];
    assert events == before + [e];
    if j < |Run(Start(), before).claims| {
      SingleProducerNeverConflicts(before, j);
    } else {
      ClaimReplyExactly(before);
      NoAbortNoGap(before);
      LastTaken(before);
    }
  }

  lemma LastTaken(events: seq<Event>)
    requires Run(Start(), events).wire.Request?
    ensures var s := Run(Start(), events);
            0 < s.client.taken <= |s.client.entered| && s.wire.item == s.client.entered[s.client.taken - 1]
  {
    InvRun(events);
    hide Run, L.TurnInv, ContentInv, ProgressInv, ClaimsInv, HoldInv;
  }

  /** Segments reach the ledger in order without a gap, each once: the j-th accepted claim is for segment j. */
  lemma ArrivalsAreContiguous(events: seq<Event>, j: nat)
    requires j < |Run(Start(), events).claims| && Run(Start(), events).claims[j].Generate?
    ensures var s := Run(Start(), events);
            j < |s.client.entered|
            && s.claims[j].work == L.WorkerRequest(L.Named(j), j, s.client.entered[j].digest, 1)
  {
    InvRun(events);
    hide Run, L.TurnInv, ContentInv, ProgressInv, ClientInv, HoldInv;
  }

  /** The ledger's next ordinal is the number of segments the client saw acknowledged, or one more. */
  lemma NextIsAcknowledgedOrOneMore(events: seq<Event>)
    ensures var s := Run(Start(), events);
            s.client.acknowledged <= s.turn.ledger.next <= s.client.acknowledged + 1
  {
    InvRun(events);
    hide Run, L.TurnInv, ContentInv, ClaimsInv, ClientInv, HoldInv;
  }

  /** A turn that ended normally was spoken in full: the ledger is completed and holds exactly the segments the
      client put in, committed in order, of which the last and only the last is the final one. */
  lemma NormalMeansSpokenInFull(events: seq<Event>)
    requires Run(Start(), events).client.terminal == Some(Normal)
    ensures var s := Run(Start(), events);
            var items, ledger := s.client.entered, s.turn.ledger;
            && ledger.state == L.Completed && ledger.next == |items| > 0
            && (forall i | i in ledger.segments :: i.Named? && i.id < |items|)
            && (forall k | 0 <= k < |items| ::
                  && L.Named(k) in ledger.segments
                  && ledger.segments[L.Named(k)].state == L.Committed && ledger.segments[L.Named(k)].ordinal == k
                  && ledger.segments[L.Named(k)].digest == items[k].digest && items[k].ordinal == k
                  && (items[k].final <==> k == |items| - 1))
  {
    var s := Run(Start(), events);
    InvRun(events);
    hide Run;
    FullyCommitted(s);
  }

  lemma FullyCommitted(s: System)
    requires SystemInv(s) && s.client.terminal == Some(Normal)
    ensures var items, ledger := s.client.entered, s.turn.ledger;
            && ledger.state == L.Completed && ledger.next == |items| > 0
            && (forall i | i in ledger.segments :: i.Named? && i.id < |items|)
            && (forall k | 0 <= k < |items| ::
                  && L.Named(k) in ledger.segments
                  && ledger.segments[L.Named(k)].state == L.Committed && ledger.segments[L.Named(k)].ordinal == k
                  && ledger.segments[L.Named(k)].digest == items[k].digest && items[k].ordinal == k
                  && (items[k].final <==> k == |items| - 1))
  {
    hide HoldInv, ClaimsInv, WireInv, L.HolderInv, L.IssuedInv;
    var items, ledger := s.client.entered, s.turn.ledger;
    forall k | 0 <= k < |items|
      ensures L.Named(k) in ledger.segments && ledger.segments[L.Named(k)].ordinal == k
    {
      assert ledger.owners[k] in ledger.segments;
    }
    assert ledger.segments[L.Named(|items| - 1)].final;
  }
}

/** The client in the source's form. Ghost fields are the history the client itself does not keep. */
module SpeechTurnClient {
  import opened Wrappers
  import opened SpeechTurns

  class SpeechTurn {
    var queue: seq<Submission>
    var offered: Option<Submission>
    var nextSegmentOrdinal: nat
    var closed: bool
    var terminal: Option<Status>
    var worker: Worker
    ghost var entered: seq<Submission>
    ghost var taken: nat
    ghost var acknowledged: nat

    ghost function View(): Client
      reads this
    {
      Client(queue, offered, nextSegmentOrdinal, closed, terminal, worker, entered, taken, acknowledged)
    }

    constructor ()
      ensures View() == Start().client
    {
      queue, offered, nextSegmentOrdinal, closed, terminal, worker := [], None, 0, false, None, Idle;
      entered, taken, acknowledged := [], 0, 0;
    }

    /** Numbers a segment for `submit` or `finalize`; false when the turn is closed. */
    method NewSubmission(digest: nat, final: bool) returns (accepted: bool)
      requires offered.None?
      modifies `offered, `nextSegmentOrdinal
      ensures View() == StepOffer(old(View()), digest, final)
      ensures accepted == Open(View())
    {
      accepted := !closed && terminal.None?;
      if accepted {
        offered := Some(Submission(nextSegmentOrdinal, digest, final));
        nextSegmentOrdinal := nextSegmentOrdinal + 1;
      }
    }

    /** The put completes once there is room; the final segment closes the turn; an ended turn refuses afterwards. */
    method PutOffered() returns (raises: bool)
      requires offered.Some? && |queue| < QUEUE_CAPACITY
      modifies `queue, `offered, `closed, `entered
      ensures View() == StepEnter(old(View()))
      ensures raises == (terminal.Some? && !old(offered).value.final)
    {
      var item := offered.value;
      queue := queue + [item];
      entered := entered + [item];
      offered := None;
      if item.final {
        closed := true;
      }
      raises := terminal.Some? && !item.final;
    }

    method DiscardPending()
      modifies `queue
      ensures queue == []
    {
      while queue != []
        decreases |queue|
      {
        queue := queue[1..];
      }
    }

    /** The worker takes the next segment, or stops because the turn has ended. */
    method TakeNext()
      requires worker.Idle? && queue != []
      modifies `queue, `worker, `taken
      ensures View() == StepTake(old(View()))
    {
      if terminal.Some? {
        worker := Stopped;
        DiscardPending();
      } else {
        worker := Calling(queue[0]);
        queue := queue[1..];
        taken := taken + 1;
      }
    }

    /** The answer to the worker's call. */
    method ObserveResponse(response: Response)
      requires worker.Calling?
      modifies `queue, `worker, `terminal, `acknowledged
      ensures View() == StepObserve(old(View()), response)
    {
      var item := worker.item;
      var status := Observed(response, item.final);
      if status == Normal {
        acknowledged := acknowledged + 1;
      }
      if status != Normal || item.final {
        terminal := Some(status);
        worker := Stopped;
        DiscardPending();
      } else {
        worker := Idle;
      }
    }

    method CallFailed()
      requires worker.Calling?
      modifies `queue, `worker, `terminal
      ensures View() == StepTimeout(old(View()))
    {
      terminal := Some(Error);
      worker := Stopped;
      DiscardPending();
    }

    /** `cancel` up to its wait for the backend. */
    method BeginCancel()
      modifies `queue, `worker, `terminal, `closed
      ensures View() == StepCancelClient(old(View()))
    {
      closed := true;
      if worker.Calling? {
        terminal := Some(Cancelled);
      }
      worker := Stopped;
      DiscardPending();
    }

    /** `cancel` after its wait. */
    method EndCancel()
      requires closed && worker.Stopped?
      modifies `queue, `terminal
      ensures View() == StepCancelDone(old(View()))
    {
      if terminal.None? || terminal == Some(Normal) {
        terminal := Some(Cancelled);
      }
      DiscardPending();
    }
  }
}
