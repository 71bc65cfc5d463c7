/**
  The speech segment ledger of one turn: idempotent claims of numbered segments, commits with a cached
  response, releases for a retry, and cancellation.

  `holder` is the request that was told to generate and has neither committed nor given up yet;
  `issued` records the worker request of every attempt.
*/
module SegmentLedger {
  import opened Wrappers

  /** Sent by the client, made from the requested ordinal, or made from the content of an unidentified request. */
  datatype Identity = Named(id: nat) | ByOrdinal(ordinal: nat) | Legacy(ordinal: nat, digest: nat, final: bool)

  datatype TurnState = Active | Cancelled | Completed
  datatype SegmentState = Reserved | InFlight | Committed | Dropped

  datatype Segment = Segment(
    ordinal: nat, digest: nat, final: bool, generation: nat, state: SegmentState, response: nat)

  /** What the worker is asked to do; the hash of it is taken to be injective. */
  datatype WorkerRequest = WorkerRequest(identity: Identity, ordinal: nat, digest: nat, generation: nat)

  datatype Ledger = Ledger(
    state: TurnState, next: nat, segments: map<Identity, Segment>, owners: map<nat, Identity>)

  datatype Turn = Turn(ledger: Ledger, holder: Option<Identity>, issued: seq<WorkerRequest>)

  datatype Request = Request(id: Option<nat>, ordinal: Option<nat>, digest: nat, final: bool)

  datatype Reply = Cached(response: nat) | Wait | Generate(work: WorkerRequest) | Conflict | TurnOver

  datatype Event = Claim(request: Request) | Commit(response: nat) | Release | GiveUp | Cancel

  function IdentityOf(ledger: Ledger, request: Request): Identity {
    if request.id.Some? then Named(request.id.value)
    else if request.ordinal.Some? then ByOrdinal(request.ordinal.value)
    else Legacy(ledger.next, request.digest, request.final)
  }

  predicate Identified(request: Request) {
    request.id.Some? || request.ordinal.Some?
  }

  predicate Matches(segment: Segment, request: Request) {
    && (request.ordinal.Some? ==> request.ordinal.value == segment.ordinal)
    && segment.digest == request.digest && segment.final == request.final
  }

  function WorkOf(identity: Identity, segment: Segment): WorkerRequest {
    WorkerRequest(identity, segment.ordinal, segment.digest, segment.generation)
  }

  // ---- steps ----

  function ReplyTo(ledger: Ledger, request: Request): Reply {
    var identity := IdentityOf(ledger, request);
    if identity in ledger.segments then
      var segment := ledger.segments[identity];
      if !Matches(segment, request) then Conflict
      else if segment.state == Committed then Cached(segment.response)
      else if ledger.state != Active then TurnOver
      else match segment.state
        case InFlight => Wait
        case Reserved => Generate(WorkOf(identity, segment.(generation := segment.generation + 1)))
        case _ => TurnOver
    else if ledger.state != Active then TurnOver
    else
      var ordinal := if request.ordinal.Some? then request.ordinal.value else ledger.next;
      if ordinal != ledger.next || (ordinal in ledger.owners && ledger.owners[ordinal] != identity) then Conflict
      else Generate(WorkerRequest(identity, ordinal, request.digest, 1))
  }

  /** The ledger after a claim that is told to generate: a new segment, or a new attempt on a reserved one. */
  function StepClaim(turn: Turn, request: Request): Turn {
    var reply := ReplyTo(turn.ledger, request);
    if !reply.Generate? then turn else
    var work := reply.work;
    var segment := Segment(work.ordinal, work.digest, request.final, work.generation, InFlight, 0);
    turn.(
      ledger := turn.ledger.(
        segments := turn.ledger.segments[work.identity := segment],
        owners := turn.ledger.owners[work.ordinal := work.identity]),
      holder := Some(work.identity),
      issued := turn.issued + [work])
  }

  /** Commits whatever the turn's state is: a commit that raced a cancellation still counts. */
  function StepCommit(turn: Turn, response: nat): Turn {
    if turn.holder.None? || turn.holder.value !in turn.ledger.segments then turn else
    var identity := turn.holder.value;
    var segment := turn.ledger.segments[identity];
    turn.(
      ledger := turn.ledger.(
        segments := turn.ledger.segments[identity := segment.(state := Committed, response := response)],
        next := segment.ordinal + 1,
        state := if segment.final then Completed else turn.ledger.state),
      holder := None)
  }

  function StepRelease(turn: Turn): Turn {
    if turn.holder.None? || turn.holder.value !in turn.ledger.segments then turn else
    var identity := turn.holder.value;
    var segment := turn.ledger.segments[identity];
    if turn.ledger.state == Active && segment.state == InFlight
    then
      var segments := turn.ledger.segments[identity := segment.(state := Reserved)];
      turn.(ledger := turn.ledger.(segments := segments), holder := None)
    else turn.(holder := None)
  }

  function DropUncommitted(segments: map<Identity, Segment>): map<Identity, Segment> {
    map i | i in segments :: if segments[i].state == Committed then segments[i] else segments[i].(state := Dropped)
  }

  function StepCancel(turn: Turn): Turn {
    if turn.ledger.state == Completed then turn else
    turn.(ledger := turn.ledger.(state := Cancelled, segments := DropUncommitted(turn.ledger.segments)))
  }

  function Next(turn: Turn, e: Event): Turn {
    match e
    case Claim(request) => StepClaim(turn, request)
    case Commit(response) => StepCommit(turn, response)
    case Release => StepRelease(turn)
    case GiveUp => turn.(holder := None)
    case Cancel => StepCancel(turn)
  }

  function Start(): Turn {
    Turn(Ledger(Active, 0, map[], map[]), None, [])
  }

  function Run(turn: Turn, events: seq<Event>): Turn
    decreases |events|
  {
    if events == [] then turn else Next(Run(turn, events[..|events| - 1]), events[|events| - 1])
  }

  // ---- the invariant ----

  /** Ordinals and identities are in bijection. */
  ghost predicate Bijective(ledger: Ledger) {
    && (forall i | i in ledger.segments ::
          ledger.segments[i].ordinal in ledger.owners && ledger.owners[ledger.segments[i].ordinal] == i)
    && (forall k | k in ledger.owners :: ledger.owners[k] in ledger.segments && ledger.segments[ledger.owners[k]].ordinal == k)
  }

  /** The committed ordinals are exactly those below `next`; nothing lies beyond it. */
  ghost predicate Contiguous(ledger: Ledger) {
    && (forall k: nat | k < ledger.next :: k in ledger.owners)
    && (forall i | i in ledger.segments ::
          ledger.segments[i].ordinal <= ledger.next
          && (ledger.segments[i].state == Committed <==> ledger.segments[i].ordinal < ledger.next))
  }

  /** A committed final segment is the last one and completes the turn, and only it does. */
  ghost predicate FinalLast(ledger: Ledger) {
    && (forall i | i in ledger.segments && ledger.segments[i].state == Committed && ledger.segments[i].final ::
          ledger.state == Completed && ledger.segments[i].ordinal + 1 == ledger.next)
    && (ledger.state == Completed ==>
          && 0 < ledger.next
          && forall i | i in ledger.segments && ledger.segments[i].ordinal + 1 == ledger.next :: ledger.segments[i].final)
    && (ledger.state == Completed ==> forall i | i in ledger.segments :: ledger.segments[i].state == Committed)
  }

  /** Generated identities name their own ordinal, and only an active turn waits for a retry. */
  ghost predicate SegmentsInv(ledger: Ledger) {
    && (forall i | i in ledger.segments && !i.Named? :: i.ordinal == ledger.segments[i].ordinal)
    && (forall i | i in ledger.segments && i.Legacy? ::
          i.digest == ledger.segments[i].digest && i.final == ledger.segments[i].final)
    && (forall i | i in ledger.segments :: ledger.segments[i].state in {Reserved, InFlight} ==> ledger.state == Active)
    && (forall i | i in ledger.segments :: ledger.segments[i].state == Dropped ==> ledger.state != Active)
  }

  /** The holder's segment is the one uncommitted segment, generating or dropped by a cancellation. */
  ghost predicate HolderInv(turn: Turn) {
    turn.holder.Some? ==>
      && turn.holder.value in turn.ledger.segments
      && turn.ledger.segments[turn.holder.value].state in {InFlight, Dropped}
  }

  /** Every attempt issued is at or below its segment's generation, and no two are equal. */
  ghost predicate IssuedInv(turn: Turn) {
    && (forall k | 0 <= k < |turn.issued| ::
          turn.issued[k].identity in turn.ledger.segments
          && turn.issued[k].generation <= turn.ledger.segments[turn.issued[k].identity].generation)
    && (forall j, k | 0 <= j < k < |turn.issued| :: turn.issued[j] != turn.issued[k])
  }

  ghost predicate LedgerInv(ledger: Ledger) {
    Bijective(ledger) && Contiguous(ledger) && FinalLast(ledger) && SegmentsInv(ledger)
  }

  ghost predicate TurnInv(turn: Turn) {
    LedgerInv(turn.ledger) && HolderInv(turn) && IssuedInv(turn)
  }

  lemma ClaimKeepsLedger(turn: Turn, request: Request)
    requires LedgerInv(turn.ledger) && HolderInv(turn)
    ensures LedgerInv(StepClaim(turn, request).ledger) && HolderInv(StepClaim(turn, request))
  {
    hide IssuedInv;
  }

  lemma ClaimKeepsIssued(turn: Turn, request: Request)
    requires IssuedInv(turn)
    ensures IssuedInv(StepClaim(turn, request))
  {
    hide LedgerInv, HolderInv;
  }

  lemma ClaimKeepsInv(turn: Turn, request: Request)
    requires TurnInv(turn)
    ensures TurnInv(StepClaim(turn, request))
  {
    hide LedgerInv, HolderInv, IssuedInv, StepClaim;
    ClaimKeepsLedger(turn, request);
    ClaimKeepsIssued(turn, request);
  }

  lemma CommitKeepsLedger(turn: Turn, response: nat)
    requires LedgerInv(turn.ledger) && HolderInv(turn)
    ensures LedgerInv(StepCommit(turn, response).ledger)
  {}

  lemma CommitKeepsInv(turn: Turn, response: nat)
    requires TurnInv(turn)
    ensures TurnInv(StepCommit(turn, response))
  {
    CommitKeepsLedger(turn, response);
    hide LedgerInv, IssuedInv;
    SameGenerationsKeepIssued(turn, StepCommit(turn, response));
  }

  lemma ReleaseKeepsInv(turn: Turn)
    requires TurnInv(turn)
    ensures TurnInv(StepRelease(turn))
  {
    hide IssuedInv;
    SameGenerationsKeepIssued(turn, StepRelease(turn));
  }

  lemma CancelKeepsOrder(ledger: Ledger)
    requires Bijective(ledger) && Contiguous(ledger)
    ensures var after := ledger.(state := Cancelled, segments := DropUncommitted(ledger.segments));
            Bijective(after) && Contiguous(after)
  {}

  lemma CancelKeepsSegments(ledger: Ledger)
    requires FinalLast(ledger) && SegmentsInv(ledger) && ledger.state != Completed
    ensures var after := ledger.(state := Cancelled, segments := DropUncommitted(ledger.segments));
            FinalLast(after) && SegmentsInv(after)
  {}

  lemma CancelKeepsHolder(turn: Turn)
    requires HolderInv(turn)
    ensures HolderInv(StepCancel(turn))
  {}

  lemma CancelKeepsInv(turn: Turn)
    requires TurnInv(turn)
    ensures TurnInv(StepCancel(turn))
  {
    hide Bijective, Contiguous, FinalLast, SegmentsInv, HolderInv, IssuedInv;
    if turn.ledger.state != Completed {
      CancelKeepsOrder(turn.ledger);
      CancelKeepsSegments(turn.ledger);
      CancelKeepsHolder(turn);
      SameGenerationsKeepIssued(turn, StepCancel(turn));
    }
  }

  lemma SameGenerationsKeepIssued(turn: Turn, after: Turn)
    requires IssuedInv(turn) && after.issued == turn.issued
    requires forall i | i in turn.ledger.segments ::
               i in after.ledger.segments && after.ledger.segments[i].generation == turn.ledger.segments[i].generation
    ensures IssuedInv(after)
  {}

  lemma NextKeepsInv(turn: Turn, e: Event)
    requires TurnInv(turn)
    ensures TurnInv(Next(turn, e))
  {
    hide TurnInv, StepClaim, StepCommit, StepRelease, StepCancel;
    match e
    case Claim(request) => ClaimKeepsInv(turn, request);
    case Commit(response) => CommitKeepsInv(turn, response);
    case Release => ReleaseKeepsInv(turn);
    case GiveUp => GiveUpKeepsInv(turn);
    case Cancel => CancelKeepsInv(turn);
  }

  lemma GiveUpKeepsInv(turn: Turn)
    requires TurnInv(turn)
    ensures TurnInv(turn.(holder := None))
  {}

  /** Every reachable ledger: committed ordinals are exactly those below `next`, ordinals and identities are in
      bijection, at most one segment is uncommitted and it sits at `next`, no attempt is issued twice. */
  lemma {:induction false} InvRun(events: seq<Event>)
    ensures TurnInv(Run(Start(), events))
    decreases |events|
  {
    hide TurnInv, Next;
    if events == [] {
      StartInv();
    } else {
      InvRun(events[..|events| - 1]);
      NextKeepsInv(Run(Start(), events[..|events| - 1]), events[|events| - 1]);
    }
  }

  lemma StartInv()
    ensures TurnInv(Start())
  {}

  /** The ordinal of an uncommitted segment is `next`, so there is at most one. */
  lemma OneUncommitted(events: seq<Event>, i: Identity, j: Identity)
    requires var segments := Run(Start(), events).ledger.segments;
             i in segments && j in segments && segments[i].state != Committed && segments[j].state != Committed
    ensures i == j && Run(Start(), events).ledger.segments[i].ordinal == Run(Start(), events).ledger.next
  {
    InvRun(events);
  }

  // ---- a committed segment is for good ----

  ghost predicate IsCommitted(turn: Turn, i: Identity) {
    i in turn.ledger.segments && turn.ledger.segments[i].state == Committed
  }

  lemma CommittedNext(turn: Turn, e: Event, i: Identity)
    requires TurnInv(turn) && IsCommitted(turn, i)
    ensures IsCommitted(Next(turn, e), i) && Next(turn, e).ledger.segments[i] == turn.ledger.segments[i]
  {
    hide Bijective, Contiguous, FinalLast, IssuedInv;
  }

  /** A segment commits at most once: its entry, with the response, never changes afterwards. */
  lemma {:induction false} CommittedForever(turn: Turn, events: seq<Event>, i: Identity)
    requires TurnInv(turn) && IsCommitted(turn, i)
    ensures TurnInv(Run(turn, events)) && IsCommitted(Run(turn, events), i)
    ensures Run(turn, events).ledger.segments[i] == turn.ledger.segments[i]
    decreases |events|
  {
    hide TurnInv, Next, IsCommitted;
    if events != [] {
      var before := Run(turn, events[..|events| - 1]);
      CommittedForever(turn, events[..|events| - 1], i);
      NextKeepsInv(before, events[|events| - 1]);
      CommittedNext(before, events[|events| - 1], i);
    }
  }

  /** However long after the commit, an identified retry with the same content gets the response of that
      commit, and one with other content gets a conflict. */
  lemma IdentifiedRetryExactly(before: seq<Event>, after: seq<Event>, request: Request)
    requires var turn := Run(Start(), before); Identified(request) && IsCommitted(turn, IdentityOf(turn.ledger, request))
    ensures var turn := Run(Start(), before);
            var segment := turn.ledger.segments[IdentityOf(turn.ledger, request)];
            ReplyTo(Run(turn, after).ledger, request)
            == if (request.ordinal.None? || request.ordinal.value == segment.ordinal)
                  && request.digest == segment.digest && request.final == segment.final
               then Cached(segment.response) else Conflict
  {
    var turn := Run(Start(), before);
    InvRun(before);
    CommittedForever(turn, after, IdentityOf(turn.ledger, request));
  }

  lemma CommitCaches(turn: Turn, response: nat)
    requires HolderInv(turn) && turn.holder.Some?
    ensures var after := Next(turn, Commit(response));
            && IsCommitted(after, turn.holder.value)
            && after.ledger.segments[turn.holder.value]
               == turn.ledger.segments[turn.holder.value].(state := Committed, response := response)
  {}

  /** The response given with the commit is the one every matching retry gets, whatever happens in between. */
  lemma RetryGetsItsResponse(before: seq<Event>, response: nat, after: seq<Event>, request: Request)
    requires var turn := Run(Start(), before);
             Identified(request) && turn.holder == Some(IdentityOf(turn.ledger, request))
             && turn.holder.value in turn.ledger.segments && Matches(turn.ledger.segments[turn.holder.value], request)
    ensures ReplyTo(Run(Next(Run(Start(), before), Commit(response)), after).ledger, request) == Cached(response)
  {
    var turn := Run(Start(), before);
    InvRun(before);
    CommitCaches(turn, response);
    NextKeepsInv(turn, Commit(response));
    CommittedForever(Next(turn, Commit(response)), after, turn.holder.value);
    hide Run, LedgerInv, IssuedInv, Next;
  }

  /** A request for a segment the ledger does not know is told to generate it, as attempt 1 at the next ordinal,
      exactly when the turn is active, it names no other ordinal, and everything before it is committed. */
  lemma NewSegmentExactly(events: seq<Event>, request: Request)
    requires var ledger := Run(Start(), events).ledger; IdentityOf(ledger, request) !in ledger.segments
    ensures var ledger := Run(Start(), events).ledger;
            var reply, identity := ReplyTo(ledger, request), IdentityOf(ledger, request);
            && (reply == Generate(WorkerRequest(identity, ledger.next, request.digest, 1)) <==>
                  && ledger.state == Active && (request.ordinal.None? || request.ordinal.value == ledger.next)
                  && forall i | i in ledger.segments :: ledger.segments[i].state == Committed)
            && (!reply.Generate? ==> reply == if ledger.state == Active then Conflict else TurnOver)
  {
    InvRun(events);
    var ledger := Run(Start(), events).ledger;
    hide Run, FinalLast, SegmentsInv, HolderInv, IssuedInv;
    if ledger.next in ledger.owners {
      assert ledger.segments[ledger.owners[ledger.next]].state != Committed;
    }
  }

  /** An unidentified request never gets a cached response: after its segment committed, the same content is a
      new segment while the turn is active, and refused afterwards. */
  lemma UnidentifiedRetryIsNew(events: seq<Event>, request: Request)
    requires !Identified(request)
    ensures var turn := Run(Start(), events);
            var reply := ReplyTo(turn.ledger, request);
            && !reply.Cached?
            && (turn.ledger.state != Active ==> reply == TurnOver)
            && (turn.ledger.state == Active && turn.ledger.next !in turn.ledger.owners ==>
                  reply == Generate(WorkerRequest(Legacy(turn.ledger.next, request.digest, request.final),
                                                  turn.ledger.next, request.digest, 1)))
            && (reply == Conflict ==>
                  (turn.ledger.next in turn.ledger.owners
                   && turn.ledger.owners[turn.ledger.next] != IdentityOf(turn.ledger, request)))
  {
    InvRun(events);
    var ledger := Run(Start(), events).ledger;
    var identity := IdentityOf(ledger, request);
    hide Run;
    if identity in ledger.segments {
      assert ledger.segments[identity].ordinal == ledger.next;
    }
  }

  /** No attempt is issued twice. */
  lemma AttemptsNeverRepeat(events: seq<Event>, j: nat, k: nat)
    requires j < k < |Run(Start(), events).issued|
    ensures Run(Start(), events).issued[j] != Run(Start(), events).issued[k]
  {
    InvRun(events);
  }

  // ---- one attempt at a time ----

  /** Attempt `g` on segment `i` was issued and has not been given back for a retry. */
  ghost predicate Out(turn: Turn, i: Identity, g: nat) {
    && i in turn.ledger.segments && turn.ledger.segments[i].generation == g
    && turn.ledger.segments[i].state != Reserved
  }

  /** The step gives attempt `g` on segment `i` back: a release by its holder while the turn is active. */
  ghost predicate GivesBack(turn: Turn, e: Event, i: Identity, g: nat) {
    && e.Release? && turn.holder == Some(i) && turn.ledger.state == Active
    && i in turn.ledger.segments && turn.ledger.segments[i].state == InFlight && turn.ledger.segments[i].generation == g
  }

  lemma OutNext(turn: Turn, e: Event, i: Identity, g: nat)
    requires TurnInv(turn) && Out(turn, i, g) && !GivesBack(turn, e, i, g)
    ensures Out(Next(turn, e), i, g)
    ensures turn.issued <= Next(turn, e).issued && |Next(turn, e).issued| <= |turn.issued| + 1
    ensures forall k | |turn.issued| <= k < |Next(turn, e).issued| :: Next(turn, e).issued[k].identity != i
  {
    hide Contiguous, FinalLast, SegmentsInv, IssuedInv;
  }

  lemma IssuedNext(turn: Turn, e: Event)
    ensures turn.issued <= Next(turn, e).issued && |Next(turn, e).issued| <= |turn.issued| + 1
    ensures |Next(turn, e).issued| > |turn.issued| ==>
              e.Claim? && ReplyTo(turn.ledger, e.request) == Generate(Next(turn, e).issued[|turn.issued|])
              && Out(Next(turn, e), Next(turn, e).issued[|turn.issued|].identity, Next(turn, e).issued[|turn.issued|].generation)
  {}

  /** Attempt number j of the run, if it is still out when the run ends, was not followed by another one on its
      segment; if another one was, the run gave this one back in between. */
  lemma {:induction false} OutOrGivenBack(events: seq<Event>, j: nat) returns (q: Option<nat>)
    requires j < |Run(Start(), events).issued|
    ensures var turn := Run(Start(), events);
            var work := turn.issued[j];
            if q.None? then Out(turn, work.identity, work.generation)
                            && forall k | j < k < |turn.issued| :: turn.issued[k].identity != work.identity
            else && q.value < |events|
                 && GivesBack(Run(Start(), events[..q.value]), events[q.value], work.identity, work.generation)
                 && j < |Run(Start(), events[..q.value]).issued|
                 && forall k | j < k < |Run(Start(), events[..q.value]).issued| ::
                      Run(Start(), events[..q.value]).issued[k].identity != work.identity
    decreases |events|
  {
    hide TurnInv, Next, Out, GivesBack;
    NothingIssued();
    if events == [] {
      assert false;
    } else {
      var before, e := events[..|events| - 1], events[|events| - 1];
      var turn, after := Run(Start(), before), Run(Start(), events);
      InvRun(before);
      IssuedNext(turn, e);
      hide ReplyTo;
      if j < |turn.issued| {
        q := OutOrGivenBack(before, j);
        var work := turn.issued[j];
        if q.Some? {
          assert before[..q.value] == events[..q.value];
          IssuedGrows(before, q.value);
        } else if GivesBack(turn, e, work.identity, work.generation) {
          q := Some(|before|);
        } else {
          OutNext(turn, e, work.identity, work.generation);
        }
      } else {
        q := None;
      }
    }
  }

  lemma NothingIssued()
    ensures Run(Start(), []).issued == []
  {}

  lemma {:induction false} IssuedGrows(events: seq<Event>, q: nat)
    requires q <= |events|
    ensures Run(Start(), events[..q]).issued <= Run(Start(), events).issued
    decreases |events|
  {
    hide Next;
    if q == |events| {
      assert events[..q] == events;
    } else {
      assert events[..|events| - 1][..q] == events[..q];
      IssuedGrows(events[..|events| - 1], q);
      IssuedNext(Run(Start(), events[..|events| - 1]), events[|events| - 1]);
    }
  }

  /** A segment is never generated twice at once: between two attempts on it the earlier one was released by its
      holder, on an active turn. */
  lemma ReissueNeedsRelease(events: seq<Event>, j: nat, k: nat) returns (q: nat)
    requires j < k < |Run(Start(), events).issued|
    requires Run(Start(), events).issued[j].identity == Run(Start(), events).issued[k].identity
    ensures q < |events|
    ensures var work := Run(Start(), events).issued[j];
            var turn := Run(Start(), events[..q]);
            GivesBack(turn, events[q], work.identity, work.generation) && j < |turn.issued| <= k
  {
    hide Run, Out, GivesBack;
    var given := OutOrGivenBack(events, j);
    q := given.value;
    IssuedGrows(events, q);
  }

  /** While the holder of a segment works on an active turn, every claim that matches it waits and every other one
      with its identity conflicts; nobody else is told to generate it. */
  lemma HeldSegmentWaits(events: seq<Event>, request: Request)
    requires var turn := Run(Start(), events);
             turn.ledger.state == Active && turn.holder == Some(IdentityOf(turn.ledger, request))
    ensures var ledger := Run(Start(), events).ledger;
            var identity := IdentityOf(ledger, request);
            identity in ledger.segments
            && var segment := ledger.segments[identity];
               ReplyTo(ledger, request)
               == if (request.ordinal.None? || request.ordinal.value == segment.ordinal)
                     && request.digest == segment.digest && request.final == segment.final
                  then Wait else Conflict
  {
    InvRun(events);
    hide Run, Bijective, Contiguous, FinalLast, IssuedInv;
  }

  /** Without a release, a commit or a cancellation since an attempt was issued, whoever claims its segment waits. */
  ghost predicate Undisturbed(events: seq<Event>) {
    forall k | 0 <= k < |events| :: events[k].Claim? || events[k].GiveUp?
  }

  lemma InFlightNext(turn: Turn, e: Event, i: Identity, g: nat)
    requires TurnInv(turn) && Out(turn, i, g) && turn.ledger.segments[i].state == InFlight && (e.Claim? || e.GiveUp?)
    ensures var after := Next(turn, e);
            && Out(after, i, g) && after.ledger.segments[i] == turn.ledger.segments[i]
            && after.ledger.state == turn.ledger.state
  {
    hide Contiguous, FinalLast, IssuedInv;
  }

  lemma {:induction false} InFlightRun(turn: Turn, events: seq<Event>, i: Identity, g: nat)
    requires TurnInv(turn) && Out(turn, i, g) && turn.ledger.segments[i].state == InFlight && Undisturbed(events)
    ensures var after := Run(turn, events);
            && TurnInv(after) && Out(after, i, g) && after.ledger.segments[i] == turn.ledger.segments[i]
            && after.ledger.state == turn.ledger.state
    decreases |events|
  {
    hide TurnInv, Next;
    if events != [] {
      var before, e := events[..|events| - 1], events[|events| - 1];
      InFlightRun(turn, before, i, g);
      NextKeepsInv(Run(turn, before), e);
      InFlightNext(Run(turn, before), e, i, g);
    }
  }

  /** A duplicate of a segment that is being generated waits for it, however many claims and disconnects come in
      between. */
  lemma DuplicateWaits(before: seq<Event>, first: Request, between: seq<Event>, second: Request)
    requires ReplyTo(Run(Start(), before).ledger, first).Generate? && Undisturbed(between)
    requires IdentityOf(Run(Next(Run(Start(), before), Claim(first)), between).ledger, second)
             == ReplyTo(Run(Start(), before).ledger, first).work.identity
    requires first.digest == second.digest && first.final == second.final
             && (second.ordinal.None? || second.ordinal == Some(ReplyTo(Run(Start(), before).ledger, first).work.ordinal))
    ensures ReplyTo(Run(Next(Run(Start(), before), Claim(first)), between).ledger, second) == Wait
  {
    var turn := Run(Start(), before);
    var work := ReplyTo(turn.ledger, first).work;
    InvRun(before);
    NextKeepsInv(turn, Claim(first));
    GeneratingIsInFlight(turn, first);
    InFlightRun(Next(turn, Claim(first)), between, work.identity, work.generation);
    hide Run, TurnInv, Next;
  }

  lemma GeneratingIsInFlight(turn: Turn, request: Request)
    requires LedgerInv(turn.ledger) && ReplyTo(turn.ledger, request).Generate?
    ensures var work, after := ReplyTo(turn.ledger, request).work, Next(turn, Claim(request));
            && Out(after, work.identity, work.generation) && after.ledger.state == Active
            && after.ledger.segments[work.identity]
               == Segment(work.ordinal, request.digest, request.final, work.generation, InFlight, 0)
  {}

  ghost predicate IsReserved(turn: Turn, i: Identity, segment: Segment) {
    && turn.ledger.state == Active && i in turn.ledger.segments && turn.ledger.segments[i] == segment && segment.state == Reserved
  }

  lemma ReservedNext(turn: Turn, e: Event, i: Identity, segment: Segment)
    requires TurnInv(turn) && IsReserved(turn, i, segment)
    ensures var after := Next(turn, e);
            || IsReserved(after, i, segment) || e == Cancel
            || (|after.issued| > |turn.issued| && after.issued[|turn.issued|].identity == i)
  {
    hide FinalLast, SegmentsInv, IssuedInv;
  }

  lemma {:induction false} ReservedRun(turn: Turn, events: seq<Event>, i: Identity, segment: Segment)
    requires TurnInv(turn) && IsReserved(turn, i, segment) && Cancel !in events
    requires forall k | |turn.issued| <= k < |Run(turn, events).issued| :: Run(turn, events).issued[k].identity != i
    ensures IsReserved(Run(turn, events), i, segment) && TurnInv(Run(turn, events))
    ensures turn.issued <= Run(turn, events).issued
    decreases |events|
  {
    hide TurnInv, Next, IsReserved;
    if events != [] {
      var before, e := events[..|events| - 1], events[|events| - 1];
      assert events == before + [e];
      IssuedNext(Run(turn, before), e);
      hide ReplyTo, Out;
      forall k | |turn.issued| <= k < |Run(turn, before).issued| ensures Run(turn, before).issued[k].identity != i {
        assert Run(turn, before).issued[k] == Run(turn, events).issued[k];
      }
      ReservedRun(turn, before, i, segment);
      NextKeepsInv(Run(turn, before), e);
      ReservedNext(Run(turn, before), e, i, segment);
    }
  }

  /** A released segment is generated again for whoever claims it first: until the turn is cancelled or an attempt on
      it is issued, a matching claim is told to generate it with the next generation. */
  lemma ReleasedSegmentRetries(before: seq<Event>, i: Identity, after: seq<Event>, request: Request)
    requires var turn := Run(Start(), before);
             i in turn.ledger.segments && GivesBack(turn, Release, i, turn.ledger.segments[i].generation)
    requires Cancel !in after
    requires var released := Next(Run(Start(), before), Release);
             forall k | |released.issued| <= k < |Run(released, after).issued| :: Run(released, after).issued[k].identity != i
    requires IdentityOf(Run(Next(Run(Start(), before), Release), after).ledger, request) == i
    requires Matches(Run(Start(), before).ledger.segments[i], request)
    ensures var segment := Run(Start(), before).ledger.segments[i];
            ReplyTo(Run(Next(Run(Start(), before), Release), after).ledger, request)
            == Generate(WorkerRequest(i, segment.ordinal, segment.digest, segment.generation + 1))
  {
    var turn := Run(Start(), before);
    InvRun(before);
    NextKeepsInv(turn, Release);
    ReservedRun(Next(turn, Release), after, i, turn.ledger.segments[i].(state := Reserved));
    hide Run, TurnInv;
  }

  // ---- the state of a turn ----

  lemma CompletedNext(turn: Turn, e: Event)
    requires TurnInv(turn) && turn.ledger.state == Completed
    ensures Next(turn, e).ledger == turn.ledger
  {
    hide Bijective, Contiguous, IssuedInv;
  }

  /** A completed turn's ledger never changes again. */
  lemma {:induction false} CompletedIsAbsorbing(turn: Turn, events: seq<Event>)
    requires TurnInv(turn) && turn.ledger.state == Completed
    ensures Run(turn, events).ledger == turn.ledger && TurnInv(Run(turn, events))
    decreases |events|
  {
    hide TurnInv, Next;
    if events != [] {
      CompletedIsAbsorbing(turn, events[..|events| - 1]);
      NextKeepsInv(Run(turn, events[..|events| - 1]), events[|events| - 1]);
      CompletedNext(Run(turn, events[..|events| - 1]), events[|events| - 1]);
    }
  }

  /** A cancelled turn stays cancelled exactly until its final segment, already generating, commits anyway. */
  lemma CancelledLeavesExactly(turn: Turn, e: Event)
    requires TurnInv(turn) && turn.ledger.state == Cancelled
    ensures Next(turn, e).ledger.state
            == if e.Commit? && turn.holder.Some? && turn.ledger.segments[turn.holder.value].final then Completed else Cancelled
  {
    hide Bijective, Contiguous, FinalLast, IssuedInv;
  }

  lemma CancelledTurnCanComplete(digest: nat, response: nat)
    ensures var claimed := Next(Start(), Claim(Request(Some(0), Some(0), digest, true)));
            && Next(claimed, Cancel).ledger.state == Cancelled
            && Next(Next(claimed, Cancel), Commit(response)).ledger.state == Completed
  {
    var claimed := Next(Start(), Claim(Request(Some(0), Some(0), digest, true)));
    assert claimed.holder == Some(Named(0));
    assert Next(claimed, Cancel).ledger.segments[Named(0)].final;
  }
}

/** The ledger in the source's form. The ghost fields are the caller that was told to generate and the attempts issued. */
module TtsTurnLedger {
  import opened Wrappers
  import opened SegmentLedger

  lemma OneMoreDropped(segments: map<Identity, Segment>, dropped: set<Identity>, i: Identity)
    requires i in segments
    ensures DropIn(segments, dropped)[i := DropIn(segments, {i})[i]] == DropIn(segments, dropped + {i})
  {}

  lemma DropsAll(segments: map<Identity, Segment>)
    ensures DropIn(segments, segments.Keys) == DropUncommitted(segments)
    ensures DropIn(segments, {}) == segments
  {}

  /** `segments` with the uncommitted ones among `which` dropped. */
  function DropIn(segments: map<Identity, Segment>, which: set<Identity>): map<Identity, Segment> {
    map i | i in segments ::
      if i in which && segments[i].state != Committed then segments[i].(state := Dropped) else segments[i]
  }

  class TtsTurnLedger {
    var state: TurnState
    var nextOrdinal: nat
    var segments: map<Identity, Segment>
    var ordinalOwners: map<nat, Identity>
    ghost var holder: Option<Identity>
    ghost var issued: seq<WorkerRequest>

    ghost function View(): Turn
      reads this
    {
      Turn(Ledger(state, nextOrdinal, segments, ordinalOwners), holder, issued)
    }

    constructor ()
      ensures View() == Start()
    {
      state, nextOrdinal, segments, ordinalOwners, holder, issued := Active, 0, map[], map[], None, [];
    }

    /** A request for an identity the ledger knows. */
    method ClaimExisting(identity: Identity, request: Request) returns (reply: Reply)
      requires identity == IdentityOf(View().ledger, request) && identity in segments
      requires segments[identity].ordinal in ordinalOwners && ordinalOwners[segments[identity].ordinal] == identity
      modifies `segments, `holder, `issued
      ensures View() == StepClaim(old(View()), request)
      ensures reply == ReplyTo(old(View()).ledger, request)
    {
      var existing := segments[identity];
      if (request.ordinal.Some? && request.ordinal.value != existing.ordinal)
         || existing.digest != request.digest || existing.final != request.final {
        return Conflict;
      }
      if existing.state == Committed {
        return Cached(existing.response);
      }
      if state == Cancelled || state == Completed {
        return TurnOver;
      }
      if existing.state == InFlight {
        return Wait;
      }
      if existing.state != Reserved {
        return TurnOver;
      }
      var again := existing.(state := InFlight, generation := existing.generation + 1, response := 0);
      segments := segments[identity := again];
      var work := WorkOf(identity, again);
      holder, issued := Some(identity), issued + [work];
      assert ordinalOwners == ordinalOwners[again.ordinal := identity];
      return Generate(work);
    }

    method ClaimTtsSegmentLocked(request: Request) returns (reply: Reply)
      requires TurnInv(View())
      modifies `segments, `ordinalOwners, `holder, `issued
      ensures View() == StepClaim(old(View()), request) && TurnInv(View())
      ensures reply == ReplyTo(old(View()).ledger, request)
    {
      ClaimKeepsInv(View(), request);
      hide Contiguous, FinalLast, SegmentsInv, HolderInv, IssuedInv;
      var identity :=
        if request.id.Some? then Named(request.id.value)
        else if request.ordinal.Some? then ByOrdinal(request.ordinal.value)
        else Legacy(nextOrdinal, request.digest, request.final);
      if identity in segments {
        reply := ClaimExisting(identity, request);
        return;
      }
      if state != Active {
        return TurnOver;
      }
      var ordinal := if request.ordinal.Some? then request.ordinal.value else nextOrdinal;
      if ordinal != nextOrdinal {
        return Conflict;
      }
      if ordinal in ordinalOwners && ordinalOwners[ordinal] != identity {
        return Conflict;
      }
      var entry := Segment(ordinal, request.digest, request.final, 1, InFlight, 0);
      segments := segments[identity := entry];
      ordinalOwners := ordinalOwners[ordinal := identity];
      var work := WorkOf(identity, entry);
      holder, issued := Some(identity), issued + [work];
      return Generate(work);
    }

    method CommitTtsSegment(identity: Identity, response: nat)
      requires TurnInv(View()) && holder == Some(identity)
      modifies `segments, `nextOrdinal, `state, `holder
      ensures View() == StepCommit(old(View()), response) && TurnInv(View())
    {
      CommitKeepsInv(View(), response);
      hide Bijective, Contiguous, FinalLast, SegmentsInv, IssuedInv;
      var segment := segments[identity];
      segments := segments[identity := segment.(state := Committed, response := response)];
      nextOrdinal := segment.ordinal + 1;
      if segment.final {
        state := Completed;
      }
      holder := None;
    }

    method ReleaseTtsSegmentAttempt(identity: Identity)
      requires TurnInv(View()) && holder == Some(identity)
      modifies `segments, `holder
      ensures View() == StepRelease(old(View())) && TurnInv(View())
    {
      ReleaseKeepsInv(View());
      hide Bijective, Contiguous, FinalLast, SegmentsInv, IssuedInv;
      if state == Active && identity in segments && segments[identity].state == InFlight {
        segments := segments[identity := segments[identity].(state := Reserved)];
      }
      holder := None;
    }

    method CancelTtsTurnLocked()
      requires TurnInv(View())
      modifies `state, `segments
      ensures View() == StepCancel(old(View())) && TurnInv(View())
    {
      CancelKeepsInv(View());
      hide TurnInv, DropIn, DropUncommitted;
      if state != Completed {
        state := Cancelled;
        DropSegments();
      }
    }

    method DropSegments()
      modifies `segments
      ensures segments == DropUncommitted(old(segments))
    {
      hide DropIn, DropUncommitted;
      ghost var before := segments;
      var left := segments.Keys;
      DropsAll(before);
      assert before.Keys - left == {};
      while left != {}
        invariant left <= before.Keys && segments == DropIn(before, before.Keys - left)
        decreases |left|
      {
        var i :| i in left;
        ghost var dropped := before.Keys - left;
        DropOneIn(before, dropped, i);
        OneMoreDropped(before, dropped, i);
        left := left - {i};
        assert before.Keys - left == dropped + {i};
        if segments[i].state != Committed {
          segments := segments[i := segments[i].(state := Dropped)];
        } else {
          assert segments == segments[i := segments[i]];
        }
      }
      assert before.Keys - left == before.Keys;
    }
  }

  lemma DropOneIn(segments: map<Identity, Segment>, dropped: set<Identity>, i: Identity)
    requires i in segments && i !in dropped
    ensures DropIn(segments, dropped).Keys == segments.Keys && DropIn(segments, dropped)[i] == segments[i]
    ensures DropIn(segments, {i}).Keys == segments.Keys
    ensures DropIn(segments, {i})[i]
            == if segments[i].state != Committed then segments[i].(state := Dropped) else segments[i]
  {}
}
