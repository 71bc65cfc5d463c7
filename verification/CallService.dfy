/**
  The call service in the source's form: the shared call's flags, dictionaries and sets, the turns table
  and the thread's messages, each updated in place by the operations. Every method is proved to do the
  protocol's step on the abstract world.
*/
module CallService {
  import opened Wrappers
  import opened CallTurns

  lemma ForgettingIsHarmless(w: World, t: Turn, request: nat, commit: Commit, cancelled: bool, recovered: bool,
                             ownerTaskDone: bool)
    requires t !in w.db.rows
    ensures StepReserve(w, t, request, commit, cancelled, recovered, ownerTaskDone)
         == var after := StepReserve(w.(call := w.call.(states := w.call.states - {t})), t, request, commit, cancelled,
                                     recovered, false);
            if w.call.ended then w else after
  {
    var states := w.call.states;
    assert (states - {t})[t := Reserved] == states[t := Reserved];
    assert states - {t} - {t} == states - {t};
  }

  lemma OneMoreCancelled(states: map<Turn, TurnState>, turns: set<Turn>, t: Turn)
    requires t in states
    ensures WithCancelled(states, turns)[t := Cancelled] == WithCancelled(states, turns + {t})
  {}

  lemma ActiveTurnsHaveStates(states: map<Turn, TurnState>)
    ensures forall t | t in ActiveTurns(states) :: t in states
    ensures WithCancelled(states, {}) == states
  {}

  class CallService {
    var rows: map<Turn, Row>
    var log: seq<Message>
    var ended: bool
    var turnStates: map<Turn, TurnState>
    var turnOwners: map<Turn, Token>
    var pendingAiTurns: map<Turn, Token>
    var completedAiTurns: set<Turn>
    var endMessageRecorded: bool
    var clock: nat
    var nextToken: Token

    ghost function View(): World
      reads this
    {
      World(Db(rows, log), Memory(ended, turnStates, turnOwners, pendingAiTurns, completedAiTurns, endMessageRecorded),
            clock, nextToken)
    }

    constructor ()
      ensures View() == Start()
    {
      rows, log, ended, turnStates, turnOwners := map[], [], false, map[], map[];
      pendingAiTurns, completedAiTurns, endMessageRecorded, clock, nextToken := map[], {}, false, 0, 0;
    }

    method DiscardTurnOwner(t: Turn, token: Token)
      modifies `turnOwners, `turnStates
      ensures turnOwners == if Get(old(turnOwners), t) == Some(token) then old(turnOwners) - {t} else old(turnOwners)
      ensures turnStates == if Get(old(turnOwners), t) == Some(token) then old(turnStates) - {t} else old(turnStates)
    {
      if t in turnOwners && turnOwners[t] == token {
        turnOwners := turnOwners - {t};
        turnStates := turnStates - {t};
      }
    }

    /** Fails the turn if the snapshot looks stale and the guarded update still matches; answers the refreshed row. */
    method TerminalizeStaleTurnIfNeeded(t: Turn, snapshot: Row, ownerTaskDone: bool) returns (row: Row)
      modifies `rows, `turnStates, `turnOwners
      ensures View() == TerminalizeStale(old(View()), t, snapshot, ownerTaskDone)
      ensures row == SnapshotAfter(old(View()), t, snapshot, ownerTaskDone)
    {
      row := snapshot;
      if !Active(snapshot.state) {
        return;
      }
      var registered := snapshot.owner.Some? && t in turnOwners && turnOwners[t] == snapshot.owner.value;
      if registered && !ownerTaskDone {
        return;
      }
      if snapshot.lease.Some? && !registered && snapshot.lease.value > clock {
        return;
      }
      if t !in rows {
        return;
      }
      if !Active(rows[t].state) || rows[t].owner != snapshot.owner || (!registered && !Expired(rows[t].lease, clock)) {
        row := rows[t];
        return;
      }
      rows := rows[t := rows[t].(state := Failed, owner := None, lease := None)];
      row := snapshot.(state := Failed, owner := None, lease := None);
      turnStates := turnStates[t := Failed];
      turnOwners := turnOwners - {t};
    }

    /** A turn that already has a row: the request learns its state, refreshed if its owner is stale. */
    method ExistingTurnReservation(t: Turn, request: nat, ownerTaskDone: bool) returns (reply: Reply)
      requires t in rows
      modifies `rows, `turnStates, `turnOwners
      ensures View() == StepStaleCheck(old(View()), t, old(rows)[t], ownerTaskDone, true)
      ensures reply == Existing(SnapshotAfter(old(View()), t, old(rows)[t], ownerTaskDone).state,
                                old(rows)[t].request == request)
    {
      var sameRequest := rows[t].request == request;
      var row := TerminalizeStaleTurnIfNeeded(t, rows[t], ownerTaskDone);
      turnStates := turnStates[t := row.state];
      reply := Existing(row.state, sameRequest);
    }

    /** The commit of a new row raised: its owner is dropped, and a committed row is ended if recovery succeeds. */
    method RecoverReservation(t: Turn, row: Row, token: Token, cancelled: bool, recovered: bool)
      requires Get(turnOwners, t) == Some(token)
      modifies `rows, `turnStates, `turnOwners
      ensures turnOwners == old(turnOwners) - {t}
      ensures rows == old(rows)[t := if recovered then Ended(row, if cancelled then Cancelled else Failed) else row]
      ensures turnStates
              == var left := old(turnStates) - {t};
                 if recovered then left[t := if cancelled then Cancelled else Failed] else left
    {
      rows := rows[t := row];
      DiscardTurnOwner(t, token);
      if recovered {
        var failure := if cancelled then Cancelled else Failed;
        rows := rows[t := row.(state := failure, owner := None, lease := None)];
        turnStates := turnStates[t := failure];
      }
    }

    method InsertReservation(t: Turn, request: nat, commit: Commit, cancelled: bool, recovered: bool) returns (reply: Reply)
      requires !ended && t !in rows
      modifies `rows, `turnStates, `turnOwners, `nextToken
      ensures View() == StepReserve(old(View()), t, request, commit, cancelled, recovered, false)
      ensures reply == if commit == Applied then Created(old(nextToken)) else Raised
    {
      hide StepStaleCheck;
      var token := nextToken;
      var row := Row(Reserved, Some(token), Some(clock + LEASE_SECONDS), request, None, None);
      nextToken := nextToken + 1;
      turnStates := turnStates[t := Reserved];
      turnOwners := turnOwners[t := token];
      reply := Raised;
      match commit {
        case Applied =>
          rows := rows[t := row];
          reply := Created(token);
        case Lost =>
          DiscardTurnOwner(t, token);
          assert turnOwners == old(turnOwners) - {t} && turnStates == old(turnStates) - {t};
        case AppliedButRaised =>
          RecoverReservation(t, row, token, cancelled, recovered);
          assert turnOwners == old(turnOwners) - {t};
          assert old(turnStates)[t := Reserved] - {t} == old(turnStates) - {t};
      }
    }

    method ReserveCallTurn(t: Turn, request: nat, commit: Commit, cancelled: bool, recovered: bool, ownerTaskDone: bool)
      returns (reply: Reply)
      modifies this
      ensures View() == StepReserve(old(View()), t, request, commit, cancelled, recovered, ownerTaskDone)
      ensures reply == ReserveReply(old(View()), t, request, commit, ownerTaskDone)
    {
      hide StepStaleCheck, SnapshotAfter;
      if ended {
        reply := CallEnded;
      } else if t in rows {
        reply := ExistingTurnReservation(t, request, ownerTaskDone);
      } else {
        // a state without a row is dropped first
        turnStates := turnStates - {t};
        ForgettingIsHarmless(old(View()), t, request, commit, cancelled, recovered, ownerTaskDone);
        reply := InsertReservation(t, request, commit, cancelled, recovered);
      }
    }

    method RecordReservedUserSpeech(t: Turn, token: Option<Token>, commit: Commit) returns (recorded: bool)
      modifies `rows, `log, `turnStates
      ensures View() == StepRecordUser(old(View()), t, token, commit)
      ensures recorded == (RecordsUser(old(View()), t, token) && commit == Applied)
    {
      recorded := false;
      var owner := if token.Some? then token else if t in turnOwners then Some(turnOwners[t]) else None;
      if ended || t !in turnStates || turnStates[t] != Reserved || owner.None?
         || t !in turnOwners || turnOwners[t] != owner.value {
        return;
      }
      if t !in rows || rows[t].state != Reserved || rows[t].owner != owner {
        return;
      }
      if commit != Lost {
        rows := rows[t := rows[t].(userMessage := Some(|log|), state := Running, lease := Some(clock + LEASE_SECONDS))];
        log := log + [UserSpeech(t)];
        if commit == Applied {
          turnStates := turnStates[t := Running];
          recorded := true;
        }
      }
    }

    /** First section of recording completed speech: claim the turn. */
    method ClaimCompletedSpeech(t: Turn, token: Option<Token>, played: bool) returns (claimed: bool)
      modifies `pendingAiTurns
      ensures View() == StepClaimAi(old(View()), t, token, played)
      ensures claimed == Claims(old(View()).call, t, token, played)
    {
      claimed := false;
      var owner := if token.Some? then token else if t in turnOwners then Some(turnOwners[t]) else None;
      if !played {
        return;
      }
      if ended || t !in turnStates || turnStates[t] != Running || owner.None? || t !in turnOwners
         || turnOwners[t] != owner.value || t in completedAiTurns || t in pendingAiTurns {
        return;
      }
      pendingAiTurns := pendingAiTurns[t := owner.value];
      claimed := true;
    }

    /** Second section: give the claim up if the call ended or the owner changed. */
    method CheckCompletedSpeech(t: Turn) returns (goOn: bool)
      requires t in pendingAiTurns
      modifies `pendingAiTurns
      ensures View() == StepCheckAi(old(View()), t)
      ensures goOn == (t in pendingAiTurns)
    {
      goOn := !ended && t in turnOwners && turnOwners[t] == pendingAiTurns[t];
      if !goOn {
        pendingAiTurns := pendingAiTurns - {t};
      }
    }

    /** Third section: the assistant message and the completed row, in one transaction. */
    method CommitCompletedSpeech(t: Turn, commit: Commit) returns (recorded: bool)
      requires t in pendingAiTurns
      modifies `rows, `log, `turnStates, `pendingAiTurns, `completedAiTurns
      ensures View() == StepCommitAi(old(View()), t, commit)
      ensures recorded == (CommitsAi(old(View()), t) && commit == Applied)
    {
      recorded := false;
      var owner := pendingAiTurns[t];
      pendingAiTurns := pendingAiTurns - {t};
      if ended || t !in rows || rows[t].state != Running || rows[t].owner != Some(owner) || commit == Lost {
        return;
      }
      rows := rows[t := rows[t].(assistantMessage := Some(|log|), state := Completed, owner := None, lease := None)];
      log := log + [AiSpeech(t)];
      if commit == Applied {
        completedAiTurns := completedAiTurns + {t};
        turnStates := turnStates[t := Completed];
        recorded := true;
      }
    }

    method FinishCallTurn(t: Turn, token: Option<Token>, state: TerminalState, commit: Commit)
      modifies `rows, `turnStates
      ensures View() == StepFinish(old(View()), t, token, state, commit)
    {
      var owner := if token.Some? then token else if t in turnOwners then Some(turnOwners[t]) else None;
      if t !in turnStates || !Active(turnStates[t]) || owner.None? || t !in turnOwners || turnOwners[t] != owner.value {
        return;
      }
      if t !in rows || !Active(rows[t].state) || rows[t].owner != owner {
        return;
      }
      if commit != Lost {
        rows := rows[t := rows[t].(state := state, owner := None, lease := None)];
        if commit == Applied {
          turnStates := turnStates[t := state];
        }
      }
    }

    /** A duplicate's poll: the row was read before the lock was taken. */
    method CallTurnStatus(t: Turn, snapshot: Row, ownerTaskDone: bool) returns (state: TurnState)
      modifies `rows, `turnStates, `turnOwners
      ensures View() == StepStaleCheck(old(View()), t, snapshot, ownerTaskDone, true)
      ensures state == SnapshotAfter(old(View()), t, snapshot, ownerTaskDone).state
    {
      var row := TerminalizeStaleTurnIfNeeded(t, snapshot, ownerTaskDone);
      turnStates := turnStates[t := row.state];
      state := row.state;
    }

    /** Second section of a hangup: every turn memory calls active loses its owner. */
    method DropActiveOwners()
      requires ended
      modifies `turnStates, `turnOwners
      ensures View() == StepDropOwners(old(View()))
    {
      hide WithCancelled, ActiveTurns;
      var active := ActiveTurns(turnStates);
      ActiveTurnsHaveStates(turnStates);
      var todo := active;
      assert turnOwners == turnOwners - {} && active - todo == {};
      while todo != {}
        invariant todo <= active
        invariant turnStates == WithCancelled(old(turnStates), active - todo)
        invariant turnOwners == old(turnOwners) - (active - todo)
        decreases |todo|
      {
        var t :| t in todo;
        OneMoreCancelled(old(turnStates), active - todo, t);
        assert active - (todo - {t}) == active - todo + {t};
        turnStates := turnStates[t := Cancelled];
        turnOwners := turnOwners - {t};
        todo := todo - {t};
      }
      assert active - todo == active;
    }

    /** Last section of a hangup: one update over the table and the end record, at most once. */
    method EndActiveRows()
      requires ended
      modifies `rows, `log, `endMessageRecorded
      ensures View() == StepEndRows(old(View()))
    {
      if !endMessageRecorded {
        rows := map t | t in rows :: if Active(rows[t].state) then Ended(rows[t], Cancelled) else rows[t];
        log := log + [CallEnd];
        endMessageRecorded := true;
      }
    }
  }
}
