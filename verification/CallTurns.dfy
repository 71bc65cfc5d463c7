/**
  The durable call-turn protocol of one call: rows owned by fencing tokens and leases, the message
  log of the thread, and the in-memory call that requests share.

  One event is one section under the call's lifecycle lock together with its database transaction.
  `Commit` says what a transaction's commit did: applied, lost, or applied although it raised.
*/
module CallTurns {
  import opened Wrappers

  type Turn = nat
  type Token = nat

  const LEASE_SECONDS: nat := 300

  datatype TurnState = Reserved | Running | Completed | Failed | Cancelled

  predicate Active(state: TurnState) {
    state == Reserved || state == Running
  }

  type TerminalState = state: TurnState | !Active(state) witness Failed

  /** A row of the turns table; message ids are positions in the log. */
  datatype Row = Row(
    state: TurnState, owner: Option<Token>, lease: Option<nat>, request: nat,
    userMessage: Option<nat>, assistantMessage: Option<nat>)

  datatype Message = UserSpeech(turn: Turn) | AiSpeech(turn: Turn) | CallEnd

  datatype Db = Db(rows: map<Turn, Row>, log: seq<Message>)

  /** The shared in-memory call. `pending` keeps, per turn being committed, the owner that claimed it. */
  datatype Memory = Memory(
    ended: bool, states: map<Turn, TurnState>, owners: map<Turn, Token>,
    pending: map<Turn, Token>, completed: set<Turn>, endRecorded: bool)

  datatype World = World(db: Db, call: Memory, clock: nat, nextToken: Token)

  datatype Commit = Applied | Lost | AppliedButRaised

  datatype Event =
    | Reserve(turn: Turn, request: nat, commit: Commit, cancelled: bool, recovered: bool, ownerTaskDone: bool)
    | RecordUser(turn: Turn, token: Option<Token>, commit: Commit)
    | ClaimAi(turn: Turn, token: Option<Token>, played: bool)
    | CheckAi(turn: Turn)
    | CommitAi(turn: Turn, commit: Commit)
    | AbortAi(turn: Turn)
    | Finish(turn: Turn, token: Option<Token>, state: TerminalState, commit: Commit)
    | StaleCheck(turn: Turn, snapshot: Row, ownerTaskDone: bool, publish: bool)
    | ForeignReconcile(turn: Turn, now: nat)
    | BeginEnd
    | DropOwners
    | EndRows
    | Unregister(turn: Turn, owner: Token)
    | Tick(seconds: nat)

  // ---- small pieces ----

  function Get<T>(m: map<Turn, T>, t: Turn): Option<T> {
    if t in m then Some(m[t]) else None
  }

  predicate Expired(lease: Option<nat>, now: nat) {
    lease.None? || lease.value <= now
  }

  function Ended(row: Row, state: TurnState): Row {
    row.(state := state, owner := None, lease := None)
  }

  function SetRow(db: Db, t: Turn, row: Row): Db {
    db.(rows := db.rows[t := row])
  }

  function DropOwner(call: Memory, t: Turn): Memory {
    call.(owners := call.owners - {t})
  }

  /** The owner a call argues for: the given token, or the one in memory. */
  function Resolved(call: Memory, t: Turn, token: Option<Token>): Option<Token> {
    if token.Some? then token else Get(call.owners, t)
  }

  predicate OwnsInMemory(call: Memory, t: Turn, token: Option<Token>) {
    Resolved(call, t, token).Some? && Get(call.owners, t) == Resolved(call, t, token)
  }

  predicate OwnsRow(db: Db, t: Turn, token: Option<Token>) {
    t in db.rows && token.Some? && db.rows[t].owner == token
  }

  // ---- a stale owner ----

  predicate OwnerLive(call: Memory, t: Turn, snapshot: Row, ownerTaskDone: bool) {
    snapshot.owner.Some? && Get(call.owners, t) == snapshot.owner && !ownerTaskDone
  }

  predicate OwnerKnownDead(call: Memory, t: Turn, snapshot: Row) {
    snapshot.owner.Some? && Get(call.owners, t) == snapshot.owner
  }

  predicate LooksStale(call: Memory, t: Turn, snapshot: Row, ownerTaskDone: bool, now: nat) {
    && Active(snapshot.state)
    && !OwnerLive(call, t, snapshot, ownerTaskDone)
    && (OwnerKnownDead(call, t, snapshot) || Expired(snapshot.lease, now))
  }

  /** The guarded update finds the row still active, with the snapshot's owner, and expired unless its owner is dead. */
  predicate StaleUpdateMatches(db: Db, call: Memory, t: Turn, snapshot: Row, now: nat) {
    && t in db.rows && Active(db.rows[t].state)
    && db.rows[t].owner == snapshot.owner
    && (OwnerKnownDead(call, t, snapshot) || Expired(db.rows[t].lease, now))
  }

  predicate Stales(w: World, t: Turn, snapshot: Row, ownerTaskDone: bool) {
    && LooksStale(w.call, t, snapshot, ownerTaskDone, w.clock)
    && StaleUpdateMatches(w.db, w.call, t, snapshot, w.clock)
  }

  function TerminalizeStale(w: World, t: Turn, snapshot: Row, ownerTaskDone: bool): World {
    if !Stales(w, t, snapshot, ownerTaskDone) || t !in w.db.rows then w else
    w.(db := SetRow(w.db, t, Ended(w.db.rows[t], Failed)),
       call := DropOwner(w.call.(states := w.call.states[t := Failed]), t))
  }

  /** The row object the caller holds afterwards: refreshed when the update did not match. */
  function SnapshotAfter(w: World, t: Turn, snapshot: Row, ownerTaskDone: bool): Row {
    if Stales(w, t, snapshot, ownerTaskDone) then Ended(snapshot, Failed)
    else if LooksStale(w.call, t, snapshot, ownerTaskDone, w.clock) && t in w.db.rows then w.db.rows[t]
    else snapshot
  }

  function StepStaleCheck(w: World, t: Turn, snapshot: Row, ownerTaskDone: bool, publish: bool): World {
    var after := TerminalizeStale(w, t, snapshot, ownerTaskDone);
    if !publish then after else
    after.(call := after.call.(states := after.call.states[t := SnapshotAfter(w, t, snapshot, ownerTaskDone).state]))
  }

  // ---- the owner's steps ----

  function NewRow(w: World, request: nat): Row {
    Row(Reserved, Some(w.nextToken), Some(w.clock + LEASE_SECONDS), request, None, None)
  }

  function StepReserve(w: World, t: Turn, request: nat, commit: Commit, cancelled: bool, recovered: bool,
                       ownerTaskDone: bool): World {
    var call, token := w.call, w.nextToken;
    if call.ended then w
    else if t in w.db.rows then StepStaleCheck(w, t, w.db.rows[t], ownerTaskDone, true)
    else
      var row := NewRow(w, request);
      match commit
      case Applied =>
        w.(db := SetRow(w.db, t, row), nextToken := token + 1,
           call := call.(states := call.states[t := Reserved], owners := call.owners[t := token]))
      case Lost =>
        w.(nextToken := token + 1, call := DropOwner(call.(states := call.states - {t}), t))
      case AppliedButRaised =>
        var failure := if cancelled then Cancelled else Failed;
        var discarded := DropOwner(call.(states := call.states - {t}), t);
        if recovered then
          w.(db := SetRow(w.db, t, Ended(row, failure)), nextToken := token + 1,
             call := discarded.(states := discarded.states[t := failure]))
        else
          w.(db := SetRow(w.db, t, row), nextToken := token + 1, call := discarded)
  }

  function RunningRow(w: World, row: Row): Row {
    row.(userMessage := Some(|w.db.log|), state := Running, lease := Some(w.clock + LEASE_SECONDS))
  }

  predicate RecordsUser(w: World, t: Turn, token: Option<Token>) {
    && !w.call.ended && Get(w.call.states, t) == Some(Reserved) && OwnsInMemory(w.call, t, token)
    && OwnsRow(w.db, t, Resolved(w.call, t, token)) && w.db.rows[t].state == Reserved
  }

  function StepRecordUser(w: World, t: Turn, token: Option<Token>, commit: Commit): World {
    if !RecordsUser(w, t, token) || commit == Lost then w else
    var db := Db(w.db.rows[t := RunningRow(w, w.db.rows[t])], w.db.log + [UserSpeech(t)]);
    var call := if commit == Applied then w.call.(states := w.call.states[t := Running]) else w.call;
    w.(db := db, call := call)
  }

  predicate Claims(call: Memory, t: Turn, token: Option<Token>, played: bool) {
    && played && !call.ended && Get(call.states, t) == Some(Running) && OwnsInMemory(call, t, token)
    && t !in call.completed && t !in call.pending
  }

  function StepClaimAi(w: World, t: Turn, token: Option<Token>, played: bool): World {
    if !Claims(w.call, t, token, played) then w else
    w.(call := w.call.(pending := w.call.pending[t := Resolved(w.call, t, token).value]))
  }

  function Unclaim(w: World, t: Turn): World {
    w.(call := w.call.(pending := w.call.pending - {t}))
  }

  function StepCheckAi(w: World, t: Turn): World {
    if t in w.call.pending && (w.call.ended || Get(w.call.owners, t) != Some(w.call.pending[t])) then Unclaim(w, t) else w
  }

  predicate CommitsAi(w: World, t: Turn) {
    && t in w.call.pending && !w.call.ended
    && OwnsRow(w.db, t, Some(w.call.pending[t])) && w.db.rows[t].state == Running
  }

  function CompletedRow(w: World, row: Row): Row {
    Ended(row, Completed).(assistantMessage := Some(|w.db.log|))
  }

  function StepCommitAi(w: World, t: Turn, commit: Commit): World {
    if !CommitsAi(w, t) || commit == Lost then Unclaim(w, t) else
    var db := Db(w.db.rows[t := CompletedRow(w, w.db.rows[t])], w.db.log + [AiSpeech(t)]);
    var call := w.call.(pending := w.call.pending - {t});
    w.(db := db,
       call := if commit == Applied
               then call.(completed := call.completed + {t}, states := call.states[t := Completed]) else call)
  }

  predicate Finishes(w: World, t: Turn, token: Option<Token>) {
    && Get(w.call.states, t).Some? && Active(Get(w.call.states, t).value) && OwnsInMemory(w.call, t, token)
    && OwnsRow(w.db, t, Resolved(w.call, t, token)) && Active(w.db.rows[t].state)
  }

  function StepFinish(w: World, t: Turn, token: Option<Token>, state: TerminalState, commit: Commit): World {
    if !Finishes(w, t, token) || commit == Lost then w else
    w.(db := SetRow(w.db, t, Ended(w.db.rows[t], state)),
       call := if commit == Applied then w.call.(states := w.call.states[t := state]) else w.call)
  }

  // ---- reconciler of another process, hangup ----

  function StepForeignReconcile(w: World, t: Turn, now: nat): World {
    if t in w.db.rows && Active(w.db.rows[t].state) && Expired(w.db.rows[t].lease, now)
    then w.(db := SetRow(w.db, t, Ended(w.db.rows[t], Failed))) else w
  }

  function ActiveTurns(states: map<Turn, TurnState>): set<Turn> {
    set t | t in states && Active(states[t])
  }

  function WithCancelled(states: map<Turn, TurnState>, turns: set<Turn>): map<Turn, TurnState> {
    map t | t in states :: if t in turns then Cancelled else states[t]
  }

  function StepDropOwners(w: World): World {
    var active := ActiveTurns(w.call.states);
    w.(call := w.call.(states := WithCancelled(w.call.states, active), owners := w.call.owners - active))
  }

  function EndedRows(rows: map<Turn, Row>): map<Turn, Row> {
    map t | t in rows :: if Active(rows[t].state) then Ended(rows[t], Cancelled) else rows[t]
  }

  /** Ends every active row and records the end, once; a repeated hangup commits nothing. */
  function StepEndRows(w: World): World {
    if !w.call.ended || w.call.endRecorded then w else
    w.(db := Db(EndedRows(w.db.rows), w.db.log + [CallEnd]), call := w.call.(endRecorded := true))
  }

  /** The answer to a reservation request. */
  datatype Reply = Created(token: Token) | Existing(state: TurnState, sameRequest: bool) | CallEnded | Raised

  function ReserveReply(w: World, t: Turn, request: nat, commit: Commit, ownerTaskDone: bool): Reply {
    if w.call.ended then CallEnded
    else if t in w.db.rows then
      var row := w.db.rows[t];
      Existing(SnapshotAfter(w, t, row, ownerTaskDone).state, row.request == request)
    else if commit == Applied then Created(w.nextToken) else Raised
  }

  function Next(w: World, e: Event): World {
    match e
    case Reserve(t, request, commit, cancelled, recovered, done) =>
      StepReserve(w, t, request, commit, cancelled, recovered, done)
    case RecordUser(t, token, commit) => StepRecordUser(w, t, token, commit)
    case ClaimAi(t, token, played) => StepClaimAi(w, t, token, played)
    case CheckAi(t) => StepCheckAi(w, t)
    case CommitAi(t, commit) => StepCommitAi(w, t, commit)
    case AbortAi(t) => Unclaim(w, t)
    case Finish(t, token, state, commit) => StepFinish(w, t, token, state, commit)
    case StaleCheck(t, snapshot, done, publish) => StepStaleCheck(w, t, snapshot, done, publish)
    case ForeignReconcile(t, now) => if now <= w.clock then StepForeignReconcile(w, t, now) else w
    case BeginEnd => w.(call := w.call.(ended := true))
    case DropOwners => if w.call.ended then StepDropOwners(w) else w
    case EndRows => StepEndRows(w)
    case Unregister(t, owner) => if Get(w.call.owners, t) == Some(owner) then w.(call := DropOwner(w.call, t)) else w
    case Tick(seconds) => w.(clock := w.clock + seconds)
  }

  function Start(): World {
    World(Db(map[], []), Memory(false, map[], map[], map[], {}, false), 0, 0)
  }

  function Run(w: World, events: seq<Event>): World
    decreases |events|
  {
    if events == [] then w else Next(Run(w, events[..|events| - 1]), events[|events| - 1])
  }

  // ---- the invariant ----

  /** A row has an owner and a lease exactly while it is active. */
  ghost predicate RowInv(row: Row, nextToken: Token, clock: nat) {
    && (row.lease.Some? ==> row.lease.value <= clock + LEASE_SECONDS)
    && (row.owner.Some? <==> Active(row.state)) && (row.lease.Some? <==> Active(row.state))
    && (row.owner.Some? ==> row.owner.value < nextToken)
    && (row.assistantMessage.Some? ==> row.state == Completed && row.userMessage.Some?)
    && (row.state == Running ==> row.userMessage.Some?)
    && (row.state == Reserved ==> row.userMessage.None?)
  }

  ghost predicate RowsInv(w: World) {
    forall t | t in w.db.rows :: RowInv(w.db.rows[t], w.nextToken, w.clock)
  }

  /** A message id in a row is the position of that turn's message, the user's before the assistant's. */
  ghost predicate IdsInv(row: Row, t: Turn, log: seq<Message>) {
    && (row.userMessage.Some? ==> row.userMessage.value < |log| && log[row.userMessage.value] == UserSpeech(t))
    && (row.assistantMessage.Some? ==> row.assistantMessage.value < |log| && log[row.assistantMessage.value] == AiSpeech(t))
    && (row.assistantMessage.Some? && row.userMessage.Some? ==> row.userMessage.value < row.assistantMessage.value)
  }

  ghost predicate AllIdsInv(db: Db) {
    forall t | t in db.rows :: IdsInv(db.rows[t], t, db.log)
  }

  /** Every message of a turn is the one its row names: no message is recorded twice. */
  ghost predicate LogInv(db: Db) {
    && (forall i | 0 <= i < |db.log| && db.log[i].UserSpeech? ::
          db.log[i].turn in db.rows && db.rows[db.log[i].turn].userMessage == Some(i))
    && (forall i | 0 <= i < |db.log| && db.log[i].AiSpeech? ::
          db.log[i].turn in db.rows && db.rows[db.log[i].turn].assistantMessage == Some(i))
  }

  /** The end is recorded at most once, last, after the call ended, and leaves no active row. */
  ghost predicate EndInv(w: World) {
    && (forall i | 0 <= i < |w.db.log| && w.db.log[i].CallEnd? :: i == |w.db.log| - 1 && w.call.endRecorded)
    && (w.call.endRecorded ==> w.call.ended && CallEnd in w.db.log)
    && (w.call.endRecorded ==> forall t | t in w.db.rows :: !Active(w.db.rows[t].state))
  }

  /** The turns memory calls completed have their assistant message. */
  ghost predicate CompletedInv(w: World) {
    forall t | t in w.call.completed :: t in w.db.rows && w.db.rows[t].assistantMessage.Some?
  }

  ghost predicate WorldInv(w: World) {
    RowsInv(w) && AllIdsInv(w.db) && LogInv(w.db) && EndInv(w) && CompletedInv(w)
  }

  // ---- every step keeps it ----

  predicate SameMessages(row: Row, other: Row) {
    row.userMessage == other.userMessage && row.assistantMessage == other.assistantMessage
  }

  lemma SetRowKeepsLog(db: Db, t: Turn, row: Row)
    requires AllIdsInv(db) && LogInv(db)
    requires if t in db.rows then SameMessages(row, db.rows[t]) else row.userMessage.None? && row.assistantMessage.None?
    ensures AllIdsInv(SetRow(db, t, row)) && LogInv(SetRow(db, t, row))
  {}

  lemma UserSpeechKeepsLog(db: Db, t: Turn, row: Row)
    requires AllIdsInv(db) && LogInv(db) && t in db.rows
    requires db.rows[t].userMessage.None? && db.rows[t].assistantMessage.None?
    requires row.userMessage == Some(|db.log|) && row.assistantMessage.None?
    ensures var after := Db(db.rows[t := row], db.log + [UserSpeech(t)]); AllIdsInv(after) && LogInv(after)
  {}

  lemma AiSpeechKeepsLog(db: Db, t: Turn, row: Row)
    requires AllIdsInv(db) && LogInv(db) && t in db.rows
    requires db.rows[t].assistantMessage.None? && row.userMessage == db.rows[t].userMessage
    requires row.assistantMessage == Some(|db.log|)
    ensures var after := Db(db.rows[t := row], db.log + [AiSpeech(t)]); AllIdsInv(after) && LogInv(after)
  {}

  predicate SameFlags(call: Memory, other: Memory) {
    call.endRecorded == other.endRecorded && call.completed == other.completed && call.ended == other.ended
  }

  lemma InvEndedRow(w: World, t: Turn, state: TerminalState, call: Memory)
    requires WorldInv(w) && t in w.db.rows && Active(w.db.rows[t].state) && SameFlags(call, w.call)
    ensures WorldInv(w.(db := SetRow(w.db, t, Ended(w.db.rows[t], state)), call := call))
  {
    hide AllIdsInv, LogInv;
    SetRowKeepsLog(w.db, t, Ended(w.db.rows[t], state));
  }

  lemma InvStale(w: World, t: Turn, snapshot: Row, ownerTaskDone: bool, publish: bool)
    requires WorldInv(w)
    ensures WorldInv(StepStaleCheck(w, t, snapshot, ownerTaskDone, publish))
  {
    hide WorldInv, SnapshotAfter;
    var call := StepStaleCheck(w, t, snapshot, ownerTaskDone, publish).call;
    if Stales(w, t, snapshot, ownerTaskDone) {
      InvEndedRow(w, t, Failed, call);
    } else {
      InvCall(w, call, w.clock);
    }
  }

  lemma InvNewRow(w: World, t: Turn, row: Row, call: Memory)
    requires WorldInv(w) && !w.call.ended && t !in w.db.rows
    requires !call.ended && !call.endRecorded && call.completed == w.call.completed
    requires RowInv(row, w.nextToken + 1, w.clock) && row.userMessage.None? && row.assistantMessage.None?
    ensures WorldInv(World(SetRow(w.db, t, row), call, w.clock, w.nextToken + 1))
  {
    hide AllIdsInv, LogInv;
    SetRowKeepsLog(w.db, t, row);
  }

  lemma InvReserve(w: World, t: Turn, request: nat, commit: Commit, cancelled: bool, recovered: bool, ownerTaskDone: bool)
    requires WorldInv(w)
    ensures WorldInv(StepReserve(w, t, request, commit, cancelled, recovered, ownerTaskDone))
  {
    hide StepStaleCheck;
    if t in w.db.rows {
      InvStale(w, t, w.db.rows[t], ownerTaskDone, true);
    } else if !w.call.ended {
      var after := StepReserve(w, t, request, commit, cancelled, recovered, ownerTaskDone);
      hide WorldInv;
      if commit == Lost {
        InvSkippedToken(w, after.call);
      } else {
        InvNewRow(w, t, after.db.rows[t], after.call) by { NotEndRecorded(w); }
      }
    }
  }

  lemma NotEndRecorded(w: World)
    requires WorldInv(w) && !w.call.ended
    ensures !w.call.endRecorded
  {}

  lemma InvSkippedToken(w: World, call: Memory)
    requires WorldInv(w)
    requires call.endRecorded == w.call.endRecorded && call.completed == w.call.completed && call.ended == w.call.ended
    ensures WorldInv(w.(call := call, nextToken := w.nextToken + 1))
  {}

  lemma InvRecordUser(w: World, t: Turn, token: Option<Token>, commit: Commit)
    requires WorldInv(w)
    ensures WorldInv(StepRecordUser(w, t, token, commit))
  {
    hide AllIdsInv, LogInv;
    if RecordsUser(w, t, token) {
      UserSpeechKeepsLog(w.db, t, RunningRow(w, w.db.rows[t]));
    }
  }

  lemma InvCommitAi(w: World, t: Turn, commit: Commit)
    requires WorldInv(w)
    ensures WorldInv(StepCommitAi(w, t, commit))
  {
    hide AllIdsInv, LogInv;
    if CommitsAi(w, t) {
      AiSpeechKeepsLog(w.db, t, CompletedRow(w, w.db.rows[t]));
    }
  }

  lemma InvFinish(w: World, t: Turn, token: Option<Token>, state: TerminalState, commit: Commit)
    requires WorldInv(w)
    ensures WorldInv(StepFinish(w, t, token, state, commit))
  {
    hide WorldInv;
    if Finishes(w, t, token) && commit != Lost {
      InvEndedRow(w, t, state, StepFinish(w, t, token, state, commit).call);
    }
  }

  lemma InvForeign(w: World, t: Turn, now: nat)
    requires WorldInv(w)
    ensures WorldInv(StepForeignReconcile(w, t, now))
  {
    hide WorldInv;
    if t in w.db.rows && Active(w.db.rows[t].state) {
      InvEndedRow(w, t, Failed, w.call);
    }
  }

  lemma InvEndRows(w: World)
    requires WorldInv(w)
    ensures WorldInv(StepEndRows(w))
  {}

  lemma InvCall(w: World, call: Memory, clock: nat)
    requires WorldInv(w)
    requires call.endRecorded == w.call.endRecorded && call.completed == w.call.completed
    requires (w.call.ended ==> call.ended) && w.clock <= clock
    ensures WorldInv(w.(call := call, clock := clock))
  {}

  lemma InvNext(w: World, e: Event)
    requires WorldInv(w)
    ensures WorldInv(Next(w, e))
  {
    hide WorldInv, StepStaleCheck, StepReserve, StepRecordUser, StepCommitAi, StepFinish, StepForeignReconcile, StepEndRows;
    match e
    case Reserve(t, request, commit, cancelled, recovered, done) =>
      InvReserve(w, t, request, commit, cancelled, recovered, done);
    case RecordUser(t, token, commit) => InvRecordUser(w, t, token, commit);
    case CommitAi(t, commit) => InvCommitAi(w, t, commit);
    case Finish(t, token, state, commit) => InvFinish(w, t, token, state, commit);
    case StaleCheck(t, snapshot, done, publish) => InvStale(w, t, snapshot, done, publish);
    case ForeignReconcile(t, now) => InvForeign(w, t, now);
    case EndRows => InvEndRows(w);
    case ClaimAi(t, token, played) => InvCall(w, Next(w, e).call, w.clock);
    case CheckAi(t) => InvCall(w, Next(w, e).call, w.clock);
    case AbortAi(t) => InvCall(w, Next(w, e).call, w.clock);
    case BeginEnd => InvCall(w, Next(w, e).call, w.clock);
    case DropOwners => InvCall(w, Next(w, e).call, w.clock);
    case Unregister(t, owner) => InvCall(w, Next(w, e).call, w.clock);
    case Tick(seconds) => InvCall(w, w.call, w.clock + seconds);
  }

  /** Every run keeps the invariant. */
  lemma {:induction false} InvRun(events: seq<Event>)
    ensures WorldInv(Run(Start(), events))
    decreases |events|
  {
    hide WorldInv, Next;
    if events != [] {
      InvRun(events[..|events| - 1]);
      InvNext(Run(Start(), events[..|events| - 1]), events[|events| - 1]);
    } else {
      InvStart();
    }
  }

  lemma InvStart()
    ensures WorldInv(Start())
  {}

  // ---- fencing ----

  predicate Terminal(w: World, t: Turn) {
    t in w.db.rows && !Active(w.db.rows[t].state)
  }

  lemma TerminalNext(w: World, e: Event, t: Turn)
    requires Terminal(w, t)
    ensures Terminal(Next(w, e), t) && Next(w, e).db.rows[t] == w.db.rows[t]
  {}

  /** A terminal row never changes again, whatever owners, duplicates, reconcilers and hangups do. */
  lemma {:induction false} TerminalIsAbsorbing(w: World, events: seq<Event>, t: Turn)
    requires Terminal(w, t)
    ensures Terminal(Run(w, events), t) && Run(w, events).db.rows[t] == w.db.rows[t]
    decreases |events|
  {
    hide Next;
    if events != [] {
      TerminalIsAbsorbing(w, events[..|events| - 1], t);
      TerminalNext(Run(w, events[..|events| - 1]), events[|events| - 1], t);
    }
  }

  lemma OwnerNext(w: World, e: Event, t: Turn)
    requires t in w.db.rows
    ensures t in Next(w, e).db.rows
    ensures Next(w, e).db.rows[t].request == w.db.rows[t].request
    ensures Active(Next(w, e).db.rows[t].state) ==>
              Active(w.db.rows[t].state) && Next(w, e).db.rows[t].owner == w.db.rows[t].owner
  {}

  /** A row keeps its request, and its first owner for as long as it is active. */
  lemma {:induction false} OwnerIsFixed(w: World, events: seq<Event>, t: Turn)
    requires t in w.db.rows
    ensures t in Run(w, events).db.rows
    ensures Run(w, events).db.rows[t].request == w.db.rows[t].request
    ensures Active(Run(w, events).db.rows[t].state) ==>
              Active(w.db.rows[t].state) && Run(w, events).db.rows[t].owner == w.db.rows[t].owner
    decreases |events|
  {
    hide Next;
    if events != [] {
      OwnerIsFixed(w, events[..|events| - 1], t);
      OwnerNext(Run(w, events[..|events| - 1]), events[|events| - 1], t);
    }
  }

  /** A row becomes completed only through a step of its current owner: the one that commits its assistant
      message, or a finish request that says completed. */
  lemma OnlyTheOwnerCompletes(w: World, e: Event, t: Turn)
    requires t in w.db.rows && w.db.rows[t].state != Completed
    requires Next(w, e).db.rows[t].state == Completed
    ensures w.db.rows[t].owner.Some?
    ensures || (e.CommitAi? && e.turn == t && t in w.call.pending && w.db.rows[t].owner == Some(w.call.pending[t]))
            || (e.Finish? && e.turn == t && e.state == Completed && w.db.rows[t].owner == Resolved(w.call, t, e.token))
  {}

  /** Of all requests to reserve a turn at most one is told that it created it. */
  lemma CreatedAtMostOnce(w: World, first: Event, events: seq<Event>, second: Event)
    requires first.Reserve? && second.Reserve? && first.turn == second.turn
    requires ReserveReply(w, first.turn, first.request, first.commit, first.ownerTaskDone).Created?
    ensures var later := Run(Next(w, first), events);
            !ReserveReply(later, second.turn, second.request, second.commit, second.ownerTaskDone).Created?
  {
    OwnerIsFixed(Next(w, first), events, first.turn);
  }

  lemma DuplicateReply(w: World, second: Event)
    requires second.Reserve? && second.turn in w.db.rows && !w.call.ended
    ensures second.turn in Next(w, second).db.rows
    ensures ReserveReply(w, second.turn, second.request, second.commit, second.ownerTaskDone)
            == Existing(Next(w, second).db.rows[second.turn].state, w.db.rows[second.turn].request == second.request)
  {}

  /** A reservation that is not confirmed leaves its caller no turn: no owner in the shared memory, and a row only if the
      commit took effect, ended at once if recovery succeeds and left to its lease if not. */
  lemma UnconfirmedReservation(w: World, e: Event)
    requires e.Reserve? && !w.call.ended && e.turn !in w.db.rows && e.commit != Applied
    ensures var after := Next(w, e);
            && e.turn !in after.call.owners && w.call.owners - {e.turn} == after.call.owners - {e.turn}
            && (e.turn in after.db.rows <==> e.commit == AppliedButRaised)
            && (e.turn in after.call.states <==> e.commit == AppliedButRaised && e.recovered)
            && (e.commit == AppliedButRaised ==> (Active(after.db.rows[e.turn].state) <==> !e.recovered))
            && after.nextToken == w.nextToken + 1 && after.db.log == w.db.log
  {}

  /** Every later reservation of a turn that has a row learns the state the row is in after it, and whether its request
      is the one that made the row; nothing once the call has ended. */
  lemma DuplicateLearnsExactly(w: World, first: Event, events: seq<Event>, second: Event)
    requires first.Reserve? && second.Reserve? && first.turn == second.turn
    requires first.turn !in w.db.rows && first.turn in Next(w, first).db.rows
    ensures var later := Run(Next(w, first), events);
            && second.turn in Next(later, second).db.rows
            && ReserveReply(later, second.turn, second.request, second.commit, second.ownerTaskDone)
               == if later.call.ended then CallEnded
                  else Existing(Next(later, second).db.rows[second.turn].state, first.request == second.request)
  {
    var later := Run(Next(w, first), events);
    assert Next(w, first).db.rows[first.turn].request == first.request;
    OwnerIsFixed(Next(w, first), events, first.turn);
    OwnerNext(later, second, second.turn);
    if !later.call.ended {
      DuplicateReply(later, second);
    }
    hide Run, Next;
  }

  // ---- messages ----

  /** In every run each turn has at most one user and one assistant message, in that order, and its row
      names them; nothing follows the end of the call. */
  lemma MessagesAreExactlyTheRows(events: seq<Event>, t: Turn)
    ensures var db := Run(Start(), events).db;
            && (UserSpeech(t) in db.log <==> t in db.rows && db.rows[t].userMessage.Some?)
            && (AiSpeech(t) in db.log <==> t in db.rows && db.rows[t].assistantMessage.Some?)
            && (forall i, j | 0 <= i <= j < |db.log| && db.log[i] == db.log[j] :: i == j)
            && (forall j | 0 <= j < |db.log| && db.log[j] == AiSpeech(t) ::
                  db.rows[t].userMessage.Some? && db.rows[t].userMessage.value < j)
            && (forall i | 0 <= i < |db.log| && db.log[i] == CallEnd :: i == |db.log| - 1)
  {
    InvRun(events);
  }

  /** Every completed row has its assistant message. */
  ghost predicate CompletedHaveMessages(db: Db) {
    forall t | t in db.rows && db.rows[t].state == Completed :: db.rows[t].assistantMessage.Some?
  }

  /** A finish request that says completed for a row its caller owns, and that reaches the database. */
  predicate FinishesCompleted(w: World, e: Event) {
    e.Finish? && e.state == Completed && e.commit != Lost && Finishes(w, e.turn, e.token)
  }

  /** Exactly such a request makes a completed row without an assistant message. */
  lemma CompletedWithoutMessageExactly(w: World, e: Event)
    requires WorldInv(w) && CompletedHaveMessages(w.db)
    ensures CompletedHaveMessages(Next(w, e).db) <==> !FinishesCompleted(w, e)
  {
    hide AllIdsInv, LogInv, EndInv, CompletedInv;
    if FinishesCompleted(w, e) {
      var t := e.turn;
      assert Next(w, e).db.rows[t].state == Completed;
      assert RowInv(w.db.rows[t], w.nextToken, w.clock);
    }
  }

  lemma {:induction false} GapExactly(events: seq<Event>)
    ensures CompletedHaveMessages(Run(Start(), events).db) <==> !SomeFinishCompleted(events)
    decreases |events|
  {
    hide Next, WorldInv, CompletedHaveMessages, FinishesCompleted;
    if events == [] {
      NoRowsNoGap();
    } else {
      var before, e := events[..|events| - 1], events[|events| - 1];
      var w := Run(Start(), before);
      GapExactly(before);
      InvRun(before);
      SomeFinishSnoc(events);
      if CompletedHaveMessages(w.db) {
        CompletedWithoutMessageExactly(w, e);
      } else {
        GapStays(w, e);
      }
    }
  }

  lemma NoRowsNoGap()
    ensures CompletedHaveMessages(Start().db)
  {}

  lemma GapStays(w: World, e: Event)
    requires !CompletedHaveMessages(w.db)
    ensures !CompletedHaveMessages(Next(w, e).db)
  {
    hide Next;
    var t :| t in w.db.rows && w.db.rows[t].state == Completed && w.db.rows[t].assistantMessage.None?;
    TerminalNext(w, e, t);
  }

  /** Some request of the run said completed for a turn its caller owned at that moment. */
  ghost predicate SomeFinishCompleted(events: seq<Event>) {
    exists i | 0 <= i < |events| :: FinishesCompleted(Run(Start(), events[..i]), events[i])
  }

  lemma SomeFinishSnoc(events: seq<Event>)
    requires events != []
    ensures var before := events[..|events| - 1];
            SomeFinishCompleted(events)
            <==> SomeFinishCompleted(before) || FinishesCompleted(Run(Start(), before), events[|events| - 1])
  {
    hide FinishesCompleted, Run;
    var before := events[..|events| - 1];
    forall i | 0 <= i < |before| ensures before[..i] == events[..i] {}
    if SomeFinishCompleted(events) {
      var i :| 0 <= i < |events| && FinishesCompleted(Run(Start(), events[..i]), events[i]);
      assert i < |before| ==> before[..i] == events[..i] && before[i] == events[i];
    }
    if SomeFinishCompleted(before) {
      var i :| 0 <= i < |before| && FinishesCompleted(Run(Start(), before[..i]), before[i]);
      assert before[..i] == events[..i] && before[i] == events[i];
    }
  }

  /** The stream that owns a turn says completed only after its assistant message was recorded. */
  ghost predicate CompletesAfterSpeech(events: seq<Event>) {
    forall i | 0 <= i < |events| && events[i].Finish? && events[i].state == Completed ::
      AiSpeech(events[i].turn) in Run(Start(), events[..i]).db.log
  }

  lemma RecordedIsTerminal(w: World, t: Turn)
    requires WorldInv(w) && AiSpeech(t) in w.db.log
    ensures Terminal(w, t) && w.db.rows[t].state == Completed && w.db.rows[t].assistantMessage.Some?
  {
    var i :| 0 <= i < |w.db.log| && w.db.log[i] == AiSpeech(t);
    hide AllIdsInv, EndInv, CompletedInv;
    assert RowInv(w.db.rows[t], w.nextToken, w.clock);
  }

  lemma SpeechFirstLeavesNoGap(events: seq<Event>)
    requires CompletesAfterSpeech(events)
    ensures !SomeFinishCompleted(events)
  {
    forall i | 0 <= i < |events| && events[i].Finish? && events[i].state == Completed
      ensures !FinishesCompleted(Run(Start(), events[..i]), events[i])
    {
      InvRun(events[..i]);
      hide WorldInv, Run;
      RecordedIsTerminal(Run(Start(), events[..i]), events[i].turn);
    }
  }

  /** When streams finish their turns that way, a turn has an assistant message exactly when its row is completed. */
  lemma AssistantMessageIffCompleted(events: seq<Event>, t: Turn)
    requires CompletesAfterSpeech(events)
    ensures var db := Run(Start(), events).db; AiSpeech(t) in db.log <==> t in db.rows && db.rows[t].state == Completed
  {
    InvRun(events);
    GapExactly(events);
    SpeechFirstLeavesNoGap(events);
    MessagesAreExactlyTheRows(events, t);
    var w := Run(Start(), events);
    hide Run, WorldInv, SomeFinishCompleted, CompletesAfterSpeech;
    if AiSpeech(t) in w.db.log {
      RecordedIsTerminal(w, t);
    }
  }

  // ---- hangup ----

  lemma EndedNext(w: World, e: Event)
    requires w.call.ended
    ensures Next(w, e).call.ended && Next(w, e).db.rows.Keys == w.db.rows.Keys
    ensures Next(w, e).db.log == w.db.log
            || (!w.call.endRecorded && Next(w, e).call.endRecorded && Next(w, e).db.log == w.db.log + [CallEnd])
    ensures w.call.endRecorded ==> Next(w, e).call.endRecorded
  {}

  lemma EndedStep(w: World, e: Event)
    ensures Next(w, e).call.ended <==> w.call.ended || e.BeginEnd?
  {}

  /** The call has ended exactly when somebody ended it. */
  lemma {:induction false} EndedExactly(events: seq<Event>)
    ensures Run(Start(), events).call.ended <==> BeginEnd in events
    decreases |events|
  {
    hide Next;
    if events != [] {
      var before, e := events[..|events| - 1], events[|events| - 1];
      assert events == before + [e];
      EndedExactly(before);
      EndedStep(Run(Start(), before), e);
    }
  }

  /** The hangup's second section leaves no turn active in the shared memory and takes their owners away, so that none
      of them can finish a turn any more; every other turn keeps its state. */
  lemma HangupClearsMemory(w: World, t: Turn)
    requires w.call.ended
    ensures var after := Next(w, DropOwners);
            && !(t in after.call.states && Active(after.call.states[t]))
            && (t in w.call.states && Active(w.call.states[t]) ==> after.call.states[t] == Cancelled && t !in after.call.owners)
            && (!(t in w.call.states && Active(w.call.states[t])) ==>
                  Get(after.call.states, t) == Get(w.call.states, t) && Get(after.call.owners, t) == Get(w.call.owners, t))
            && after.db == w.db
  {}

  /** After the call has ended no turn is added and nothing is said: the log at most gains the end record. */
  lemma {:induction false} NothingIsSaidAfterTheEnd(w: World, events: seq<Event>)
    requires w.call.ended
    ensures var after := Run(w, events);
            && after.call.ended && after.db.rows.Keys == w.db.rows.Keys
            && (w.call.endRecorded ==> after.call.endRecorded)
            && (after.db.log == w.db.log
                || (!w.call.endRecorded && after.call.endRecorded && after.db.log == w.db.log + [CallEnd]))
    decreases |events|
  {
    hide Next;
    if events != [] {
      NothingIsSaidAfterTheEnd(w, events[..|events| - 1]);
      EndedNext(Run(w, events[..|events| - 1]), events[|events| - 1]);
    }
  }

  /** A hangup that has run to its end leaves no turn active, for good. */
  lemma HangupEndsEveryTurn(before: seq<Event>, after: seq<Event>, t: Turn)
    requires Run(Start(), before).call.ended
    requires t in Run(Run(Start(), before + [EndRows]), after).db.rows
    ensures Terminal(Run(Run(Start(), before + [EndRows]), after), t)
  {
    var w := Run(Start(), before);
    assert (before + [EndRows])[..|before + [EndRows]| - 1] == before;
    assert Run(Start(), before + [EndRows]) == StepEndRows(w);
    InvRun(before);
    NothingIsSaidAfterTheEnd(StepEndRows(w), after);
    assert Terminal(StepEndRows(w), t);
    TerminalIsAbsorbing(StepEndRows(w), after, t);
  }

  // ---- stale owners ----

  /** With a current snapshot the stale check fails an active turn exactly when no live owner is registered and
      the registered owner is dead or the lease has run out. */
  lemma StaleCheckExactly(w: World, t: Turn, ownerTaskDone: bool, publish: bool)
    requires WorldInv(w) && t in w.db.rows && Active(w.db.rows[t].state)
    ensures var row, after := w.db.rows[t], StepStaleCheck(w, t, w.db.rows[t], ownerTaskDone, publish).db.rows[t];
            var registered := Get(w.call.owners, t) == row.owner;
            after == if (if registered then ownerTaskDone else row.lease.value <= w.clock) then Ended(row, Failed) else row
  {
    assert RowInv(w.db.rows[t], w.nextToken, w.clock);
  }

  /** A turn failed as stale loses its owner in the shared memory, which learns that it failed. */
  lemma StaleTurnIsDropped(w: World, t: Turn, snapshot: Row, ownerTaskDone: bool, publish: bool)
    requires t in w.db.rows && Next(w, StaleCheck(t, snapshot, ownerTaskDone, publish)).db != w.db
    ensures var after := Next(w, StaleCheck(t, snapshot, ownerTaskDone, publish));
            && t !in after.call.owners && t in after.call.states && after.call.states[t] == Failed
            && after.call.owners == w.call.owners - {t}
  {}

  /** However old the snapshot, the check changes no other turn, and its own only when the row is active and
      still has the snapshot's owner; an expired or dead owner is all it can end. */
  lemma StaleSnapshotIsFenced(w: World, t: Turn, snapshot: Row, ownerTaskDone: bool, publish: bool)
    ensures var after := StepStaleCheck(w, t, snapshot, ownerTaskDone, publish);
            && after.db.log == w.db.log && after.db.rows.Keys == w.db.rows.Keys
            && (forall u | u in w.db.rows && u != t :: after.db.rows[u] == w.db.rows[u])
            && (t in w.db.rows && after.db.rows[t] != w.db.rows[t] ==>
                  && Active(w.db.rows[t].state) && w.db.rows[t].owner == snapshot.owner
                  && after.db.rows[t] == Ended(w.db.rows[t], Failed)
                  && (Expired(w.db.rows[t].lease, w.clock) || (OwnerKnownDead(w.call, t, snapshot) && ownerTaskDone)))
  {}

  /** Once its lease has run out any turn can be failed: locally unless its owner is alive, by the start-up
      reconciler of another process in any case. */
  lemma NoTurnOutlivesItsLease(events: seq<Event>, t: Turn, wait: nat, publish: bool)
    requires t in Run(Start(), events).db.rows && Active(Run(Start(), events).db.rows[t].state)
    requires LEASE_SECONDS <= wait
    ensures var w := Next(Run(Start(), events), Tick(wait));
            && Terminal(Next(w, ForeignReconcile(t, w.clock)), t)
            && Terminal(Next(w, StaleCheck(t, w.db.rows[t], true, publish)), t)
            && (Get(w.call.owners, t) != w.db.rows[t].owner ==>
                  Terminal(Next(w, StaleCheck(t, w.db.rows[t], false, publish)), t))
  {
    InvRun(events);
    var row := Run(Start(), events).db.rows[t];
    assert RowInv(row, Run(Start(), events).nextToken, Run(Start(), events).clock);
  }

  // ---- an undisturbed owner, and two witnesses ----

  /** Reserve, user speech, claim, check and commit, with nothing in between, complete the turn. */
  lemma UndisturbedOwnerCompletes(w: World, t: Turn, request: nat) returns (after: World)
    requires WorldInv(w) && !w.call.ended && t !in w.db.rows && t !in w.call.pending
    ensures var token := Some(w.nextToken);
            var reserved := Next(w, Reserve(t, request, Applied, false, false, false));
            var spoken := Next(reserved, RecordUser(t, token, Applied));
            after == Next(Next(Next(spoken, ClaimAi(t, token, true)), CheckAi(t)), CommitAi(t, Applied))
    ensures t in after.db.rows && after.db.rows[t].state == Completed
    ensures after.db.log == w.db.log + [UserSpeech(t), AiSpeech(t)]
  {
    assert t !in w.call.completed;
    var token := Some(w.nextToken);
    var reserved := Next(w, Reserve(t, request, Applied, false, false, false));
    var spoken := Next(reserved, RecordUser(t, token, Applied));
    assert spoken.db.rows[t].state == Running && spoken.db.log == w.db.log + [UserSpeech(t)];
    var claimed := Next(spoken, ClaimAi(t, token, true));
    assert claimed.call.pending[t] == w.nextToken;
    after := Next(Next(claimed, CheckAi(t)), CommitAi(t, Applied));
  }

  /** A finish request can complete a turn nobody spoke in. */
  lemma FinishCanCompleteWithoutSpeech(t: Turn, request: nat)
    ensures var reserved := Next(Start(), Reserve(t, request, Applied, false, false, false));
            var after := Next(reserved, Finish(t, None, Completed, Applied));
            after.db.rows[t].state == Completed && after.db.log == []
  {}

  // ---- what a lease protects ----

  /** A reservation of this turn, or the recording of its user speech, takes effect. */
  predicate SetsLease(w: World, e: Event, t: Turn) {
    || (e.Reserve? && e.turn == t && t !in w.db.rows && t in Next(w, e).db.rows && Active(Next(w, e).db.rows[t].state))
    || (e.RecordUser? && e.turn == t && t in w.db.rows && Next(w, e).db.rows[t] != w.db.rows[t])
  }

  ghost predicate Leased(w: World, t: Turn, from: nat) {
    && t in w.db.rows && from <= w.clock
    && (Active(w.db.rows[t].state) ==> w.db.rows[t].lease.Some? && from + LEASE_SECONDS <= w.db.rows[t].lease.value)
  }

  lemma LeaseStarts(w: World, e: Event, t: Turn)
    requires SetsLease(w, e, t)
    ensures Leased(Next(w, e), t, w.clock) && Next(w, e).clock == w.clock
  {}

  lemma LeaseStays(w: World, e: Event, t: Turn, from: nat)
    requires Leased(w, t, from)
    ensures Leased(Next(w, e), t, from)
  {}

  lemma {:induction false} LeaseRun(w: World, events: seq<Event>, t: Turn, from: nat)
    requires Leased(w, t, from)
    ensures Leased(Run(w, events), t, from)
    decreases |events|
  {
    hide Next, Leased;
    if events != [] {
      LeaseRun(w, events[..|events| - 1], t, from);
      LeaseStays(Run(w, events[..|events| - 1]), events[|events| - 1], t, from);
    }
  }

  /** The steps a lease does not keep out: the owner's own, the hangup, and a stale check that finds the turn's owner
      registered with its task done. */
  predicate MayChange(w: World, e: Event, t: Turn)
    requires t in w.db.rows
  {
    || ((e.RecordUser? || e.CommitAi? || e.Finish?) && e.turn == t)
    || e.EndRows?
    || ((e.StaleCheck? || e.Reserve?) && e.turn == t && e.ownerTaskDone
        && w.db.rows[t].owner.Some? && Get(w.call.owners, t) == w.db.rows[t].owner)
  }

  lemma LeasedRowStays(w: World, e: Event, t: Turn, from: nat)
    requires Leased(w, t, from) && w.clock < from + LEASE_SECONDS && !MayChange(w, e, t)
    ensures t in Next(w, e).db.rows && Next(w, e).db.rows[t] == w.db.rows[t]
  {}

  /** For a whole lease from the moment a turn is reserved or its user speech is recorded no reconciler, however
      often and from whatever process, and no poll or duplicate touches its row, whatever happens in between;
      except when the turn's owner is registered and its task is done. */
  lemma LeaseProtects(before: seq<Event>, e: Event, after: seq<Event>, f: Event, t: Turn)
    requires SetsLease(Run(Start(), before), e, t)
    requires var w, v := Run(Start(), before), Run(Next(Run(Start(), before), e), after);
             v.clock < w.clock + LEASE_SECONDS && (t in v.db.rows ==> !MayChange(v, f, t))
    ensures var v := Run(Next(Run(Start(), before), e), after);
            t in v.db.rows && t in Next(v, f).db.rows && Next(v, f).db.rows[t] == v.db.rows[t]
  {
    hide Run, Next, SetsLease, MayChange;
    var w := Run(Start(), before);
    LeaseStarts(w, e, t);
    LeaseRun(Next(w, e), after, t, w.clock);
    LeasedRowStays(Run(Next(w, e), after), f, t, w.clock);
  }

  // ---- claims on a turn ----

  lemma CompletedStays(w: World, e: Event, t: Turn)
    requires t in w.call.completed
    ensures t in Next(w, e).call.completed
  {}

  /** A turn whose completion applied is never claimed again, even if a poll makes it look running. */
  lemma {:induction false} CompletedIsNeverClaimed(w: World, commit: Event, events: seq<Event>, token: Option<Token>, played: bool)
    requires commit.CommitAi? && commit.commit == Applied && Next(w, commit).db != w.db
    ensures var later := Run(Next(w, commit), events);
            && commit.turn in later.call.completed
            && Next(later, ClaimAi(commit.turn, token, played)) == later
    decreases |events|
  {
    if events != [] {
      CompletedIsNeverClaimed(w, commit, events[..|events| - 1], token, played);
      CompletedStays(Run(Next(w, commit), events[..|events| - 1]), events[|events| - 1], commit.turn);
      hide Run;
    }
  }

  /** The claim is accepted: the turn becomes pending for the owner its caller argued for. */
  predicate ClaimAccepted(w: World, e: Event, t: Turn) {
    e.ClaimAi? && e.turn == t && t !in w.call.pending && t in Next(w, e).call.pending
  }

  lemma PendingNext(w: World, e: Event, t: Turn)
    requires t in w.call.pending
    ensures ((e.CheckAi? || e.CommitAi? || e.AbortAi?) && e.turn == t)
            || (t in Next(w, e).call.pending && Next(w, e).call.pending[t] == w.call.pending[t])
    ensures e.ClaimAi? && e.turn == t ==> Next(w, e) == w
  {}

  lemma {:induction false} PendingRun(w: World, events: seq<Event>, t: Turn)
    requires t in w.call.pending
    requires forall k | 0 <= k < |events| :: !((events[k].CheckAi? || events[k].CommitAi? || events[k].AbortAi?) && events[k].turn == t)
    ensures t in Run(w, events).call.pending && Run(w, events).call.pending[t] == w.call.pending[t]
    decreases |events|
  {
    hide Next;
    if events != [] {
      PendingRun(w, events[..|events| - 1], t);
      PendingNext(Run(w, events[..|events| - 1]), events[|events| - 1], t);
    }
  }

  /** Until the claimed turn is committed, aborted or checked no other claim changes anything: two requests never
      commit the same answer at once. */
  lemma OneClaimAtATime(w: World, claim: Event, events: seq<Event>, other: Event)
    requires claim.ClaimAi? && other.ClaimAi? && other.turn == claim.turn && ClaimAccepted(w, claim, claim.turn)
    requires forall k | 0 <= k < |events| ::
               !((events[k].CheckAi? || events[k].CommitAi? || events[k].AbortAi?) && events[k].turn == claim.turn)
    ensures var later := Run(Next(w, claim), events);
            Next(later, other) == later && claim.turn in later.call.pending
            && later.call.pending[claim.turn] == Next(w, claim).call.pending[claim.turn]
  {
    PendingRun(Next(w, claim), events, claim.turn);
    PendingNext(Run(Next(w, claim), events), other, claim.turn);
    hide Next, Run;
  }

  /** After the check a claim still pending is the registered owner's, on a call that goes on; and the check releases
      no other claim. */
  lemma CheckedClaimIsCurrent(w: World, t: Turn)
    ensures var after := Next(w, CheckAi(t));
            && (t in after.call.pending ==> !w.call.ended && Get(w.call.owners, t) == Some(after.call.pending[t]))
            && (t in w.call.pending && !w.call.ended && Get(w.call.owners, t) == Some(w.call.pending[t]) ==> after == w)
            && after == w.(call := w.call.(pending := after.call.pending))
            && (forall u | u in w.call.pending && u != t :: u in after.call.pending && after.call.pending[u] == w.call.pending[u])
  {}

  lemma SpokenStep(w: World, e: Event, t: Turn)
    ensures AiSpeech(t) in Next(w, e).db.log ==> AiSpeech(t) in w.db.log || t in w.call.pending
    ensures t in Next(w, e).call.pending ==> t in w.call.pending || (e.ClaimAi? && e.turn == t && e.played)
  {}

  /** Only what was played is recorded as said: an assistant message, or a claim to make one, comes from a request that
      reported its playout. */
  lemma {:induction false} SpokenWasPlayed(events: seq<Event>, t: Turn) returns (i: nat)
    requires AiSpeech(t) in Run(Start(), events).db.log || t in Run(Start(), events).call.pending
    ensures i < |events| && events[i].ClaimAi? && events[i].turn == t && events[i].played
    decreases |events|
  {
    hide Next;
    if events == [] {
      assert false;
    } else {
      var before, e := events[..|events| - 1], events[|events| - 1];
      SpokenStep(Run(Start(), before), e, t);
      if AiSpeech(t) in Run(Start(), before).db.log || t in Run(Start(), before).call.pending {
        i := SpokenWasPlayed(before, t);
      } else {
        i := |before|;
      }
    }
  }

  // ---- how a turn ended ----

  /** What each kind of step leaves in a row it ends. */
  function EndState(w: World, e: Event, t: Turn): TurnState {
    match e
    case Reserve(_, _, _, cancelled, _, _) => if t !in w.db.rows && cancelled then Cancelled else Failed
    case CommitAi(_, _) => Completed
    case Finish(_, _, state, _) => state
    case EndRows => Cancelled
    case _ => Failed
  }

  /** The steps that can end a turn, each only its own one, except for the hangup. */
  predicate CanEnd(e: Event, t: Turn) {
    e.EndRows?
    || ((e.Reserve? || e.CommitAi? || e.Finish? || e.StaleCheck? || e.ForeignReconcile?) && e.turn == t)
  }

  /** The step also tells the shared memory, unless its commit raised after taking effect. */
  predicate TellsMemory(e: Event) {
    e.Reserve? || e.StaleCheck? || ((e.CommitAi? || e.Finish?) && e.commit == Applied)
  }

  lemma EndsAs(w: World, e: Event, t: Turn)
    requires !Terminal(w, t) && Terminal(Next(w, e), t)
    ensures CanEnd(e, t) && Next(w, e).db.rows[t].state == EndState(w, e, t)
    ensures TellsMemory(e) ==> Get(Next(w, e).call.states, t) == Some(EndState(w, e, t))
  {}

  /** The final state of a turn says how it ended: a committed answer completed it, a finish request left the state
      it asked for, a reconciler, poll or lost reservation failed it, a hangup or a cancelled reservation cancelled
      it; and where the step tells the shared memory, memory said the same. */
  lemma {:induction false} FinalStateSaysWhy(events: seq<Event>, t: Turn) returns (i: nat)
    requires Terminal(Run(Start(), events), t)
    ensures i < |events| && CanEnd(events[i], t)
    ensures var w := Run(Start(), events[..i]);
            && !Terminal(w, t)
            && Run(Start(), events).db.rows[t].state == EndState(w, events[i], t)
            && (TellsMemory(events[i]) ==> Get(Next(w, events[i]).call.states, t) == Some(EndState(w, events[i], t)))
    decreases |events|
  {
    hide Next, EndState, CanEnd, TellsMemory;
    if events == [] {
      assert false;
    } else {
      var before, e := events[..|events| - 1], events[|events| - 1];
      if Terminal(Run(Start(), before), t) {
        i := FinalStateSaysWhy(before, t);
        assert before[..i] == events[..i];
        TerminalNext(Run(Start(), before), e, t);
      } else {
        i := |before|;
        EndsAs(Run(Start(), before), e, t);
      }
    }
  }

  /** A finish request that takes effect leaves the state it asked for, for good, and shared memory with the same
      state if its commit applied. */
  lemma FinishedAsAsked(before: seq<Event>, e: Event, after: seq<Event>)
    requires e.Finish? && e.turn in Run(Start(), before).db.rows
    requires Next(Run(Start(), before), e).db.rows[e.turn] != Run(Start(), before).db.rows[e.turn]
    ensures var w := Run(Start(), before);
            && e.turn in Run(Next(w, e), after).db.rows && Run(Next(w, e), after).db.rows[e.turn].state == e.state
            && (e.commit == Applied ==> e.turn in Next(w, e).call.states && Next(w, e).call.states[e.turn] == e.state)
  {
    hide Run;
    var w := Run(Start(), before);
    FinishEnds(w, e);
    EndsAs(w, e, e.turn);
    TerminalIsAbsorbing(Next(w, e), after, e.turn);
    hide Next;
  }

  lemma FinishEnds(w: World, e: Event)
    requires e.Finish? && e.turn in w.db.rows && Next(w, e).db.rows[e.turn] != w.db.rows[e.turn]
    ensures !Terminal(w, e.turn) && Terminal(Next(w, e), e.turn)
  {}

  /** Whenever a step of the owner applies, the shared memory has the state of the row it wrote. */
  lemma AppliedStepsAgree(w: World, e: Event, t: Turn)
    requires (e.Reserve? && t !in w.db.rows) || e.RecordUser? || e.CommitAi? || e.Finish?
    requires e.commit == Applied && Get(Next(w, e).db.rows, t) != Get(w.db.rows, t)
    ensures e.turn == t && t in Next(w, e).db.rows
    ensures Get(Next(w, e).call.states, t) == Some(Next(w, e).db.rows[t].state)
  {}

  // ---- the shared state of a finished turn ----

  predicate ActiveInMemory(w: World, t: Turn) {
    t in w.call.states && Active(w.call.states[t])
  }

  /** A poll that publishes an active row which it does not find stale. */
  predicate PublishesActive(w: World, e: Event, t: Turn) {
    && e.StaleCheck? && e.turn == t && e.publish
    && Active(e.snapshot.state) && !LooksStale(w.call, t, e.snapshot, e.ownerTaskDone, w.clock)
  }

  lemma RegressStaleCheck(w: World, t: Turn, e: Event)
    requires Terminal(w, t) && !ActiveInMemory(w, t) && e.StaleCheck?
    ensures ActiveInMemory(Next(w, e), t) <==> PublishesActive(w, e, t)
  {
    if e.turn != t {
      hide LooksStale;
    }
  }

  lemma RegressNext(w: World, e: Event, t: Turn)
    requires Terminal(w, t) && !ActiveInMemory(w, t)
    ensures ActiveInMemory(Next(w, e), t) <==> PublishesActive(w, e, t)
  {
    if e.StaleCheck? {
      RegressStaleCheck(w, t, e);
      hide Next, ActiveInMemory, PublishesActive;
    } else {
      hide StepStaleCheck;
    }
  }

  ghost predicate SomePollPublishesActive(w: World, events: seq<Event>, t: Turn) {
    exists i | 0 <= i < |events| :: PublishesActive(Run(w, events[..i]), events[i], t)
  }

  ghost predicate FinishedThroughout(w: World, events: seq<Event>, t: Turn) {
    forall k | 0 <= k <= |events| :: !ActiveInMemory(Run(w, events[..k]), t)
  }

  lemma SomePollSnoc(w: World, events: seq<Event>, t: Turn)
    requires events != []
    ensures var before := events[..|events| - 1];
            SomePollPublishesActive(w, events, t)
            <==> SomePollPublishesActive(w, before, t) || PublishesActive(Run(w, before), events[|events| - 1], t)
  {
    hide PublishesActive, Run;
    var before := events[..|events| - 1];
    forall i | 0 <= i < |before| ensures before[..i] == events[..i] {}
    if SomePollPublishesActive(w, events, t) {
      var i :| 0 <= i < |events| && PublishesActive(Run(w, events[..i]), events[i], t);
      assert i < |before| ==> before[..i] == events[..i] && before[i] == events[i];
    }
    if SomePollPublishesActive(w, before, t) {
      var i :| 0 <= i < |before| && PublishesActive(Run(w, before[..i]), before[i], t);
      assert before[..i] == events[..i] && before[i] == events[i];
    }
  }

  lemma FinishedSnoc(w: World, events: seq<Event>, t: Turn)
    requires events != []
    ensures FinishedThroughout(w, events, t)
            <==> FinishedThroughout(w, events[..|events| - 1], t) && !ActiveInMemory(Run(w, events), t)
  {
    hide ActiveInMemory, Run;
    var before := events[..|events| - 1];
    assert events[..|events|] == events;
    assert forall k | 0 <= k <= |before| :: before[..k] == events[..k];
    if FinishedThroughout(w, events, t) {
      forall k | 0 <= k <= |before| ensures !ActiveInMemory(Run(w, before[..k]), t) {
        assert !ActiveInMemory(Run(w, events[..k]), t);
      }
    }
    if FinishedThroughout(w, before, t) && !ActiveInMemory(Run(w, events), t) {
      forall k | 0 <= k <= |events| ensures !ActiveInMemory(Run(w, events[..k]), t) {
        if k < |events| {
          assert !ActiveInMemory(Run(w, before[..k]), t);
        }
      }
    }
  }

  /** A finished turn stays finished in the shared memory at every point of a run exactly when no poll of the run
      publishes an active row it read earlier and does not find stale. The row itself stays terminal in any case. */
  lemma {:induction false} MemoryStaysFinishedExactly(w: World, events: seq<Event>, t: Turn)
    requires Terminal(w, t) && !ActiveInMemory(w, t)
    ensures FinishedThroughout(w, events, t) <==> !SomePollPublishesActive(w, events, t)
    ensures Terminal(Run(w, events), t)
    decreases |events|
  {
    TerminalIsAbsorbing(w, events, t);
    if events == [] {
      assert events[..0] == events;
    } else {
      var before := events[..|events| - 1];
      MemoryStaysFinishedExactly(w, before, t);
      SomePollSnoc(w, events, t);
      FinishedSnoc(w, events, t);
      if FinishedThroughout(w, before, t) {
        assert before[..|before|] == before;
        RegressNext(Run(w, before), events[|events| - 1], t);
      }
      hide Next, Run, FinishedThroughout, SomePollPublishesActive;
    }
  }

  lemma RunOne(w: World, events: seq<Event>, e: Event)
    ensures Run(w, events + [e]) == Next(Run(w, events), e)
  {
    assert (events + [e])[..|events + [e]| - 1] == events;
  }

  lemma RunNone(w: World)
    ensures Run(w, []) == w
  {}

  /** The steps of the example, and the row its poll reads before the turn completes. */
  lemma RegressingSteps(t: Turn) returns (row: Row)
    ensures var spoken := Next(Next(Start(), Reserve(t, 0, Applied, false, false, false)), RecordUser(t, None, Applied));
            && t in spoken.db.rows && row == spoken.db.rows[t] && row.state == Running
            && var done := Next(Next(Next(spoken, ClaimAi(t, None, true)), CheckAi(t)), CommitAi(t, Applied));
               var after := Next(Next(done, Unregister(t, 0)), StaleCheck(t, row, false, true));
               Terminal(after, t) && after.db.rows[t].state == Completed && ActiveInMemory(after, t)
  {
    var reserved := Next(Start(), Reserve(t, 0, Applied, false, false, false));
    var spoken := Next(reserved, RecordUser(t, None, Applied));
    assert spoken.db.rows[t] == Row(Running, Some(0), Some(LEASE_SECONDS), 0, Some(0), None);
    assert Get(spoken.call.owners, t) == Some(0) && Get(spoken.call.states, t) == Some(Running);
    row := spoken.db.rows[t];
    var claimed := Next(spoken, ClaimAi(t, None, true));
    assert claimed.call.pending == map[t := 0];
    var done := Next(Next(claimed, CheckAi(t)), CommitAi(t, Applied));
    assert done.db.rows[t].state == Completed && done.clock == 0;
    assert Next(done, Unregister(t, 0)).call.owners == map[];
  }

  /** Such a run: a poll reads the running row, the turn completes, and the poll sets the shared state back. */
  lemma PollCanRegressMemory(t: Turn) returns (events: seq<Event>)
    ensures |events| == 7 && events[6].StaleCheck? && t in Run(Start(), events[..2]).db.rows
    ensures events[6].snapshot == Run(Start(), events[..2]).db.rows[t]
    ensures var w := Run(Start(), events);
            Terminal(w, t) && w.db.rows[t].state == Completed && ActiveInMemory(w, t)
  {
    var row := RegressingSteps(t);
    var s := Start();
    RunNone(s);
    hide Run, Next;
    var e1, e2, e3 := Reserve(t, 0, Applied, false, false, false), RecordUser(t, None, Applied), ClaimAi(t, None, true);
    var e4, e5, e6, e7 := CheckAi(t), CommitAi(t, Applied), Unregister(t, 0), StaleCheck(t, row, false, true);
    RunOne(s, [], e1);
    RunOne(s, [] + [e1], e2);
    RunOne(s, [] + [e1] + [e2], e3);
    RunOne(s, [] + [e1] + [e2] + [e3], e4);
    RunOne(s, [] + [e1] + [e2] + [e3] + [e4], e5);
    RunOne(s, [] + [e1] + [e2] + [e3] + [e4] + [e5], e6);
    RunOne(s, [] + [e1] + [e2] + [e3] + [e4] + [e5] + [e6], e7);
    events := [] + [e1] + [e2] + [e3] + [e4] + [e5] + [e6] + [e7];
    assert events[..2] == [] + [e1] + [e2];
  }
}
