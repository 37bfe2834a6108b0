/** Revocation under interleaving: what counts is the seat row a call reads in `_begin`. */
module InterleavedRevocation {
  import opened Schema
  import opened Intake
  import opened Tools
  import opened Lifecycle
  import opened Revocation
  import opened Interleaving
  import opened Serial
  import opened Schedules

  /** The call answers, or is about to, that its seat is revoked. */
  predicate SaysRevoked(p: Proc) {
    (p.pc.InsertAudit? || p.pc.Answered?) && p.pc.reply == Failed(SeatRevoked)
  }

  predicate TurnedAway(p: Proc) {
    SaysRevoked(p) && p.pc.ids == []
  }

  /** The call is past `_begin`, entered through this seat row. */
  ghost predicate Within(members: Members, p: Proc, row: Seat) {
    && p.Request? && CtxOf(p.pc).Some?
    && var ctx := CtxOf(p.pc).value;
       && ResolveMembership(members, p.user) == Member(ctx.org, ctx.role)
       && row.org == ctx.org && row.oauth == p.oauth
       && ctx == MakeCtx(members, p.user, ctx.org, ctx.role, ctx.seat, row)
       && (if row.status == Revoked then TurnedAway(p) else !SaysRevoked(p))
       && (p.pc.SelectPending? || p.pc.UpdateStatus? ==> MayReview(ctx.role))
  }

  // ---------------------------------------------------------------- one request

  lemma {:induction false} NextItemWithin(ctx: Ctx, items: seq<Payload>, done: Progress)
    ensures var pc := NextItem(ctx, items, done);
      CtxOf(pc) == Some(ctx) && (pc.InsertItem? || (pc.InsertAudit? && pc.reply.Remembered?))
    decreases |items|
  {
    if items == [] {
    } else if Validate(items[0]).None? {
      NextItemWithin(ctx, items[1..], done.(next := done.next + 1, invalid := done.invalid + [done.next]));
    }
  }

  lemma StartWithin(ctx: Ctx, op: Op)
    ensures var pc := Start(ctx, op);
      && CtxOf(pc) == Some(ctx) && (pc.InsertAudit? ==> pc.reply != Failed(SeatRevoked))
      && !pc.Answered? && !pc.UpdateStatus? && (pc.SelectPending? ==> MayReview(ctx.role))
  {
    if op.RememberFacts? {
      NextItemWithin(ctx, op.items, Progress(0, [], [], [], []));
    }
  }

  lemma AdmitWithin(db: Db, p: Proc, org: OrgId, role: Role, seat: Id, row: Seat)
    requires p.Request? && ResolveMembership(db.members, p.user) == Member(org, role)
    requires row.org == org && row.oauth == p.oauth
    ensures var q := At(p, Admit(db, p.user, p.op, org, role, seat, row));
      Within(db.members, q, row) && CtxOf(q.pc).value.seat == seat
  {
    StartWithin(MakeCtx(db.members, p.user, org, role, seat, row), p.op);
  }

  /** A call gets past `_begin` only by reading, or inserting, its seat row. */
  lemma EntersWithin(db: Db, p: Proc)
    requires ProcOk(db, p) && CtxOf(p.pc).None? && CtxOf(ProcMove(db, p).pc).Some?
    ensures var m := ProcMove(db, p);
      var seat := CtxOf(m.pc).value.seat;
      seat in m.db.seats && Within(db.members, At(p, m.pc), m.db.seats[seat])
  {
    assert p.Request? && (p.pc.SelectSeat? || p.pc.InsertSeat? || p.pc.ReselectSeat?);
    var org, role := p.pc.org, p.pc.role;
    var rows := SeatRows(db.seats, org, p.oauth);
    if rows != {} {
      AdmitWithin(db, p, org, role, Pick(rows), db.seats[Pick(rows)]);
    }
    AdmitWithin(db, p, org, role, p.first, FirstContactSeat(org, p.user, p.oauth));
  }

  lemma NeverSaysRevoked(facts: Facts, ctx: Ctx, first: Id, op: Op)
    ensures Act(facts, ctx, first, op).reply != Failed(SeatRevoked)
  {
  }

  lemma ItemStaysWithin(db: Db, p: Proc, row: Seat)
    requires ProcOk(db, p) && Within(db.members, p, row) && (p.pc.InsertItem? || p.pc.FindHolder?)
    ensures var q := At(p, ProcMove(db, p).pc);
      q.pc.Crashed? || (Within(db.members, q, row) && CtxOf(q.pc) == CtxOf(p.pc))
  {
    NextItemWithin(p.pc.ctx, p.pc.rest, Created(p.pc.done, NthId(p.first, p.pc.done.next)));
    if KeyTaken(db.facts, p.pc.ctx.org, p.pc.f) {
      var holder := Pick(Holders(db.facts, p.pc.ctx.org, p.pc.f.dedupeKey.value));
      NextItemWithin(p.pc.ctx, p.pc.rest, Deduped(p.pc.done, holder));
    }
  }

  lemma BodyStaysWithin(db: Db, p: Proc, row: Seat)
    requires ProcOk(db, p) && Within(db.members, p, row) && !p.pc.InsertItem? && !p.pc.FindHolder?
    ensures var q := At(p, ProcMove(db, p).pc);
      q.pc.Crashed? || (Within(db.members, q, row) && CtxOf(q.pc) == CtxOf(p.pc))
  {
    if p.pc.SelectFacts? {
      NeverSaysRevoked(db.facts, p.pc.ctx, p.first, p.op);
    }
  }

  lemma StaysWithin(db: Db, p: Proc, row: Seat)
    requires ProcOk(db, p) && Within(db.members, p, row)
    ensures var q := At(p, ProcMove(db, p).pc);
      q.pc.Crashed? || (Within(db.members, q, row) && CtxOf(q.pc) == CtxOf(p.pc))
  {
    if p.pc.InsertItem? || p.pc.FindHolder? {
      ItemStaysWithin(db, p, row);
    } else {
      BodyStaysWithin(db, p, row);
    }
  }

  // ---------------------------------------------------------------- decided by the row that was read

  /** The seat row call `i` entered through, as it stood at the turn the call read or inserted it. */
  ghost function RowRead(s: Sys, schedule: seq<nat>, i: nat): Option<Seat> {
    if schedule == [] then None
    else
      var n := |schedule| - 1;
      var t := Exec(s, schedule[..n]);
      if schedule[n] == i && Enters(t, i) then Some(RowAt(Advance(t, i), i)) else RowRead(s, schedule[..n], i)
  }

  /** The next turn of call `i` takes it past `_begin`. */
  ghost predicate Enters(t: Sys, i: nat) {
    && i < |t.procs| && CtxOf(t.procs[i].pc).None?
    && var m := ProcMove(t.db, t.procs[i]); CtxOf(m.pc).Some? && CtxOf(m.pc).value.seat in m.db.seats
  }

  ghost function RowAt(t: Sys, i: nat): Seat
    requires i < |t.procs| && CtxOf(t.procs[i].pc).Some? && CtxOf(t.procs[i].pc).value.seat in t.db.seats
  {
    t.db.seats[CtxOf(t.procs[i].pc).value.seat]
  }

  /** A call that is past `_begin` is on this row. */
  ghost predicate OnRow(members: Members, p: Proc, row: Option<Seat>) {
    CtxOf(p.pc).Some? ==> row.Some? && Within(members, p, row.value)
  }

  ghost predicate OnItsRow(members: Members, t: Sys, i: nat, row: Option<Seat>) {
    t.db.members == members && i < |t.procs| && OnRow(members, t.procs[i], row)
  }

  lemma MoveOnRow(db: Db, p: Proc, row: Option<Seat>)
    requires ProcOk(db, p) && OnRow(db.members, p, row)
    ensures var m := ProcMove(db, p);
      if CtxOf(p.pc).None? && CtxOf(m.pc).Some? then
        var seat := CtxOf(m.pc).value.seat; seat in m.db.seats && OnRow(db.members, At(p, m.pc), Some(m.db.seats[seat]))
      else OnRow(db.members, At(p, m.pc), row)
  {
    var m := ProcMove(db, p);
    if CtxOf(m.pc).Some? {
      if CtxOf(p.pc).None? {
        EntersWithin(db, p);
      } else {
        StaysWithin(db, p, row.value);
      }
    }
  }

  lemma OwnTurnOnRow(members: Members, t: Sys, i: nat, row: Option<Seat>)
    requires Sound(t) && OnItsRow(members, t, i, row)
    ensures OnItsRow(members, Advance(t, i), i, if Enters(t, i) then Some(RowAt(Advance(t, i), i)) else row)
  {
    ProcMoveOk(t.db, t.procs[i]);
    AdvanceIs(t, i, ProcMove(t.db, t.procs[i]));
    MoveOnRow(t.db, t.procs[i], row);
  }

  lemma OtherTurnOnRow(members: Members, t: Sys, k: nat, i: nat, row: Option<Seat>)
    requires Sound(t) && OnItsRow(members, t, i, row) && k != i
    ensures OnItsRow(members, Advance(t, k), i, row)
  {
    if k < |t.procs| {
      ProcMoveOk(t.db, t.procs[k]);
      AdvanceIs(t, k, ProcMove(t.db, t.procs[k]));
    }
  }

  /** Under every schedule a call past `_begin` runs in the context of the seat row it read then,
      and is turned away if and only if that row was revoked; what happens to the seat later does
      not matter. */
  lemma {:induction false} CallsRunOnTheRowTheyRead(s: Sys, schedule: seq<nat>, i: nat)
    requires Initial(s) && i < |s.procs|
    ensures OnItsRow(s.db.members, Exec(s, schedule), i, RowRead(s, schedule, i))
  {
    if schedule == [] {
    } else {
      var n := |schedule| - 1;
      CallsRunOnTheRowTheyRead(s, schedule[..n], i);
      InitialIsSound(s);
      ExecIsSound(s, schedule[..n]);
      var t := Exec(s, schedule[..n]);
      if schedule[n] == i {
        OwnTurnOnRow(s.db.members, t, i, RowRead(s, schedule[..n], i));
      } else {
        OtherTurnOnRow(s.db.members, t, schedule[n], i, RowRead(s, schedule[..n], i));
      }
    }
  }

  /** An answered call was told that its seat is revoked, and logged no fact, if and only if the seat row
      was revoked when the call read it. */
  lemma TurnedAwayIff(s: Sys, schedule: seq<nat>, i: nat)
    requires Initial(s) && i < |s.procs| && IsAnsweredAt(Exec(s, schedule), i)
    ensures var p, row := Exec(s, schedule).procs[i], RowRead(s, schedule, i);
      && row.Some? && (AnswerOf(p) == Failed(SeatRevoked) <==> row.value.status == Revoked)
      && (row.value.status == Revoked ==> p.pc.ids == [])
  {
    CallsRunOnTheRowTheyRead(s, schedule, i);
  }

  predicate IsAnsweredAt(t: Sys, i: nat) {
    i < |t.procs| && t.procs[i].pc.Answered?
  }

  // ---------------------------------------------------------------- calls that read afterwards

  ghost predicate IsRevoked(seats: Seats, org: OrgId, oauth: string, sid: Id) {
    HeldBy(seats, org, oauth, sid) && sid in seats && seats[sid].status == Revoked
  }

  lemma RequestKeepsRevoked(db: Db, p: Proc, org: OrgId, oauth: string, sid: Id)
    requires ProcOk(db, p) && Indexed(db) && p.Request? && IsRevoked(db.seats, org, oauth, sid)
    ensures IsRevoked(ProcMove(db, p).db.seats, org, oauth, sid)
  {
    ProcMoveOk(db, p);
    RequestsKeepSeats(db, p.first, p.user, p.oauth, p.op, p.pc);
    StillHeld(db.seats, ProcMove(db, p).db.seats, org, oauth, sid);
  }

  lemma OperatorKeepsRevoked(db: Db, p: Proc, org: OrgId, oauth: string, sid: Id)
    requires ProcOk(db, p) && Indexed(db) && p.Operator? && IsRevoked(db.seats, org, oauth, sid)
    requires !Reactivates(EventOf(p), org, oauth)
    ensures IsRevoked(ProcMove(db, p).db.seats, org, oauth, sid)
  {
    OperatorMoveOk(db, p.first, p.action, p.pc);
    StillHeld(db.seats, ProcMove(db, p).db.seats, org, oauth, sid);
    if p.pc.AdminSelect? {
      AdminKeepsRevoked(db, p.first, p.action, org, oauth, sid);
    } else if p.pc.AdminInsert? || p.pc.AdminUpdate? {
      WriteKeepsRevoked(db, p.first, p.action, p.pc, org, oauth, sid);
    }
  }

  lemma WriteKeepsRevoked(db: Db, first: Id, action: AdminOp, pc: Pc, org: OrgId, oauth: string, sid: Id)
    requires OperatorOk(db, first, action, pc) && (pc.AdminInsert? || pc.AdminUpdate?)
    requires IsRevoked(db.seats, org, oauth, sid) && !Reactivates(Admin(first, action), org, oauth)
    ensures var seats := OperatorMove(db, first, action, pc).db.seats; sid in seats && seats[sid].status == Revoked
  {
    assert sid in SeatRows(db.seats, org, oauth);
  }

  /** Nobody in the system brings the seat back. */
  predicate NoneReactivates(procs: seq<Proc>, org: OrgId, oauth: string) {
    forall i | 0 <= i < |procs| :: !Reactivates(EventOf(procs[i]), org, oauth)
  }

  /** A member of the org coming through this client, who has not read the seat row yet or has
      been turned away. */
  ghost predicate ShutOut(members: Members, p: Proc, org: OrgId, oauth: string) {
    && p.Request? && Through(members, EventOf(p), org, oauth)
    && (CtxOf(p.pc).None? || TurnedAway(p))
  }

  lemma ShutOutMoves(db: Db, p: Proc, org: OrgId, oauth: string, sid: Id)
    requires ProcOk(db, p) && IsRevoked(db.seats, org, oauth, sid) && ShutOut(db.members, p, org, oauth)
    ensures var m := ProcMove(db, p); ShutOut(db.members, At(p, m.pc), org, oauth) && m.db.facts == db.facts
  {
    if CtxOf(p.pc).None? && CtxOf(ProcMove(db, p).pc).Some? {
      EntersWithin(db, p);
      assert sid in SeatRows(db.seats, org, oauth);
    }
  }

  /** From any reachable state in which the seat is revoked, and as long as nobody reactivates it,
      a call through it that has not read the seat row yet is turned away under every schedule, and
      none of its turns changes a fact. */
  lemma {:induction false} LaterCallsAreShutOut(
      s: Sys, schedule: seq<nat>, i: nat, org: OrgId, oauth: string, sid: Id)
    requires Sound(s) && IsRevoked(s.db.seats, org, oauth, sid) && NoneReactivates(s.procs, org, oauth)
    requires i < |s.procs| && ShutOut(s.db.members, s.procs[i], org, oauth)
    ensures var t := Exec(s, schedule);
      && IsRevoked(t.db.seats, org, oauth, sid)
      && i < |t.procs| && ShutOut(s.db.members, t.procs[i], org, oauth) && t.db.members == s.db.members
      && Advance(t, i).db.facts == t.db.facts
  {
    ExecIsSound(s, schedule);
    if schedule == [] {
    } else {
      var n := |schedule| - 1;
      LaterCallsAreShutOut(s, schedule[..n], i, org, oauth, sid);
      ExecIsSound(s, schedule[..n]);
      var t, k := Exec(s, schedule[..n]), schedule[n];
      if k < |t.procs| {
        var m := ProcMove(t.db, t.procs[k]);
        ProcMoveOk(t.db, t.procs[k]);
        AdvanceIs(t, k, m);
        assert EventOf(t.procs[k]) == EventOf(s.procs[k]);
        if t.procs[k].Request? {
          RequestKeepsRevoked(t.db, t.procs[k], org, oauth, sid);
        } else {
          OperatorKeepsRevoked(t.db, t.procs[k], org, oauth, sid);
        }
        ShutOutMoves(t.db, t.procs[i], org, oauth, sid);
      }
    }
    var t := Exec(s, schedule);
    ShutOutMoves(t.db, t.procs[i], org, oauth, sid);
  }

  // ---------------------------------------------------------------- calls that read before

  /** Past `_begin` a request asks nothing of the seats. */
  lemma SeatsNoLongerMatter(db: Db, seats: Seats, first: Id, user: UserId, oauth: string, op: Op, pc: Pc)
    requires CtxOf(pc).Some?
    ensures var a := RequestMove(db, first, user, oauth, op, pc);
      RequestMove(db.(seats := seats), first, user, oauth, op, pc) == Move(a.db.(seats := seats), a.pc)
  {
  }

  lemma {:induction false} AloneOnOtherSeats(
      db: Db, seats: Seats, first: Id, user: UserId, oauth: string, op: Op, pc: Pc)
    requires CtxOf(pc).Some? || Steps(op, pc) == 0
    ensures var a := Alone(db, first, user, oauth, op, pc);
      Alone(db.(seats := seats), first, user, oauth, op, pc) == Move(a.db.(seats := seats), a.pc)
    decreases Steps(op, pc)
  {
    if Steps(op, pc) == 0 {
    } else {
      SeatsNoLongerMatter(db, seats, first, user, oauth, op, pc);
      RequestsShrink(db, first, user, oauth, op, pc);
      var m := RequestMove(db, first, user, oauth, op, pc);
      ContextStays(db, first, user, oauth, op, pc);
      AloneOnOtherSeats(m.db, seats, first, user, oauth, op, m.pc);
    }
  }

  lemma ContextStays(db: Db, first: Id, user: UserId, oauth: string, op: Op, pc: Pc)
    requires CtxOf(pc).Some?
    ensures var pc' := RequestMove(db, first, user, oauth, op, pc).pc; CtxOf(pc').Some? || Steps(op, pc') == 0
  {
    if pc.InsertItem? || pc.FindHolder? {
      NextItemWithin(pc.ctx, pc.rest, Created(pc.done, NthId(first, pc.done.next)));
      if KeyTaken(db.facts, pc.ctx.org, pc.f) {
        NextItemWithin(pc.ctx, pc.rest, Deduped(pc.done, Pick(Holders(db.facts, pc.ctx.org, pc.f.dedupeKey.value))));
      }
    }
  }

  lemma RevokingRevokes(db: Db, first: Id, org: OrgId, oauth: string)
    requires UniqueSeats(db.seats) && SeatRows(db.seats, org, oauth) != {}
    ensures var seats := StepAdmin(db, first, SetSeatStatus(org, oauth, Revoked)).db.seats;
      SeatRows(seats, org, oauth) != {} && IsRevoked(seats, org, oauth, Pick(SeatRows(seats, org, oauth)))
  {
    var sid := Pick(SeatRows(db.seats, org, oauth));
    var seats := StepAdmin(db, first, SetSeatStatus(org, oauth, Revoked)).db.seats;
    assert forall x | x in SeatRows(seats, org, oauth) :: x in SeatRows(db.seats, org, oauth);
    assert sid in SeatRows(seats, org, oauth);
  }

  lemma EnteredContext(e: Entry, op: Op)
    ensures CtxOf(Entered(e, op)).Some?
  {
    StartWithin(e.ctx, op);
  }

  /** A call past `_begin` that gets its other turns after the revocation of its seat. */
  lemma RestAfterRevocation(t: Sys, i: nat, j: nat, e: Entry, org: OrgId, oauth: string)
    requires i < |t.procs| && j < |t.procs| && i != j
    requires t.procs[i].Request? && t.procs[i].pc == Entered(e, t.procs[i].op)
    requires t.procs[j].Operator? && t.procs[j].action == SetSeatStatus(org, oauth, Revoked)
    ensures var p := t.procs[i];
      var r := Settled(t.db, e.ctx, p.op,
        if e.revoked then Reads(t.db.facts, [], Failed(SeatRevoked)) else Act(t.db.facts, e.ctx, p.first, p.op));
      var revoked := StepAdmin(t.db, t.procs[j].first, t.procs[j].action).db;
      var u := Exec(Placed(t, j, revoked, AdminDone(Done)), Repeat(i, StepsOf(p)));
      && u.db == StepAdmin(r.db, t.procs[j].first, t.procs[j].action).db
      && |u.procs| == |t.procs| && AnswerOf(u.procs[i]) == r.reply
  {
    var p := t.procs[i];
    var revoked := StepAdmin(t.db, t.procs[j].first, t.procs[j].action).db;
    ConsecutiveTurns(Placed(t, j, revoked, AdminDone(Done)), i, StepsOf(p));
    EnteredContext(e, p.op);
    AloneOnOtherSeats(t.db, revoked.seats, p.first, p.user, p.oauth, p.op, p.pc);
    AloneAdmitted(t.db, p.first, p.user, p.oauth, p.op, e);
    AloneNeverAdmin(revoked, p.first, p.user, p.oauth, p.op, p.pc);
    assert revoked == t.db.(seats := revoked.seats);
  }

  /** The operator has revoked the seat, and no fact or audit row has been written yet. */
  ghost predicate RevokedFirst(s: Sys, t: Sys, j: nat, org: OrgId, oauth: string) {
    && j < |t.procs| && t.procs[j].pc == AdminDone(Done)
    && t.db.facts == s.db.facts && t.db.audit == s.db.audit
    && SeatRows(t.db.seats, org, oauth) != {}
    && IsRevoked(t.db.seats, org, oauth, Pick(SeatRows(t.db.seats, org, oauth)))
  }

  lemma EntryLeavesSeat(db: Db, org: OrgId, role: Role, first: Id, user: UserId, oauth: string)
    requires Indexed(db) && first !in db.seats
    ensures var e := Enter(db, org, role, first, user, oauth);
      UniqueSeats(e.seats) && SeatRows(e.seats, org, oauth) != {}
  {
    ResolveSeatGrows(db.seats, org, user, oauth, first);
    assert ResolveSeat(db.seats, org, user, oauth, first).1 in
      SeatRows(Enter(db, org, role, first, user, oauth).seats, org, oauth);
  }

  /** Call `i` has done its `_begin` and nothing else. */
  ghost function Begun(s: Sys, i: nat): Sys
    requires i < |s.procs| && s.procs[i].Request? && ResolveMembership(s.db.members, s.procs[i].user).Member?
  {
    var e := EntryOf(s, i);
    Placed(s, i, s.db.(seats := e.seats), Entered(e, s.procs[i].op))
  }

  ghost function EntryOf(s: Sys, i: nat): Entry
    requires i < |s.procs| && s.procs[i].Request? && ResolveMembership(s.db.members, s.procs[i].user).Member?
  {
    var p := s.procs[i];
    var m := ResolveMembership(s.db.members, p.user);
    Enter(s.db, m.org, m.role, p.first, p.user, p.oauth)
  }

  /** A call, and the operator who revokes the seat it comes through. */
  ghost predicate RevokesSeatOf(s: Sys, i: nat, j: nat) {
    && i < |s.procs| && s.procs[i].Request? && AtStart(s.procs[i])
    && ResolveMembership(s.db.members, s.procs[i].user).Member?
    && j < |s.procs| && s.procs[j].Operator? && AtStart(s.procs[j])
    && s.procs[j].action ==
         SetSeatStatus(ResolveMembership(s.db.members, s.procs[i].user).org, s.procs[i].oauth, Revoked)
  }

  lemma RevokedAfterBegin(s: Sys, i: nat, j: nat) returns (before: seq<nat>)
    requires Indexed(s.db) && RevokesSeatOf(s, i, j) && s.procs[i].first !in s.db.seats
    ensures var t := Begun(s, i);
      Exec(s, before) == Placed(t, j, StepAdmin(t.db, s.procs[j].first, s.procs[j].action).db, AdminDone(Done))
    ensures RevokedFirst(s, Exec(s, before), j, ResolveMembership(s.db.members, s.procs[i].user).org, s.procs[i].oauth)
  {
    var p := s.procs[i];
    var m := ResolveMembership(s.db.members, p.user);
    var begin := BeginTurns(s, i);
    OperatorTurns(Begun(s, i), j);
    EntryLeavesSeat(s.db, m.org, m.role, p.first, p.user, p.oauth);
    RevokingRevokes(Begun(s, i).db, s.procs[j].first, m.org, p.oauth);
    ExecAppend(s, begin, Repeat(j, 2));
    before := begin + Repeat(j, 2);
  }

  lemma EntryThenActs(s: Sys, i: nat)
    requires i < |s.procs| && s.procs[i].Request? && ResolveMembership(s.db.members, s.procs[i].user).Member?
    ensures var p, e, db := s.procs[i], EntryOf(s, i), Begun(s, i).db;
      Settled(db, e.ctx, p.op,
              if e.revoked then Reads(db.facts, [], Failed(SeatRevoked)) else Act(db.facts, e.ctx, p.first, p.op))
        == Step(s.db, EventOf(p))
  {
  }

  /** Any call and any revocation of its seat can be scheduled so that the seat is revoked before
      the call has written anything, and the call still has its full effect: the same facts, audit
      row and answer as on its own. It had read the seat row already. */
  lemma RevocationComesTooLate(s: Sys, i: nat, j: nat) returns (before: seq<nat>, rest: seq<nat>)
    requires Initial(s) && RevokesSeatOf(s, i, j)
    ensures RevokedFirst(s, Exec(s, before), j, ResolveMembership(s.db.members, s.procs[i].user).org, s.procs[i].oauth)
    ensures CallThenRevocation(s, Exec(s, before + rest), i, j)
  {
    before := RevokedAfterBegin(s, i, j);
    rest := Repeat(i, StepsOf(Begun(s, i).procs[i]));
    ExecAppend(s, before, rest);
    FullEffect(s, Exec(s, before), i, j);
  }

  /** The state and the answer as if the call had run first and the revocation after it. */
  ghost predicate CallThenRevocation(s: Sys, t: Sys, i: nat, j: nat)
    requires i < |s.procs| && j < |s.procs|
  {
    var r := Step(s.db, EventOf(s.procs[i]));
    t.db == Step(r.db, EventOf(s.procs[j])).db && |t.procs| == |s.procs| && AnswerOf(t.procs[i]) == r.reply
  }

  lemma FullEffect(s: Sys, mid: Sys, i: nat, j: nat)
    requires RevokesSeatOf(s, i, j)
    requires var t := Begun(s, i);
      mid == Placed(t, j, StepAdmin(t.db, s.procs[j].first, s.procs[j].action).db, AdminDone(Done))
    ensures CallThenRevocation(s, Exec(mid, Repeat(i, StepsOf(Begun(s, i).procs[i]))), i, j)
  {
    EntryThenActs(s, i);
    RestAfterRevocation(Begun(s, i), i, j, EntryOf(s, i), s.procs[j].action.org, s.procs[i].oauth);
  }
}
