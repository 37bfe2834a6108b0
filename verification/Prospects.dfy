/** Calls that race with other calls only: whatever comes in between, one gets to its update only if
    it would have succeeded alone, on the database they all started from. */
module Prospects {
  import opened Schema
  import opened Intake
  import opened Tools
  import opened Lifecycle
  import opened Interleaving

  ghost predicate OnlyRequests(s: Sys) {
    forall p :: p in s.procs ==> p.Request?
  }

  /** Seats as requests leave them: the old ones untouched, new ones from first contacts. */
  ghost predicate SeatsSince(before: Seats, after: Seats) {
    && (forall id | id in before :: id in after && after[id] == before[id])
    && (forall id | id in after && id !in before ::
          after[id].status == Live && after[id].scopes == DEFAULT_SCOPES && after[id].source == None)
  }

  ghost predicate Since(before: Db, after: Db) {
    && after.members == before.members && SeatsSince(before.seats, after.seats)
    && AllDrift(before.facts, after.facts)
  }

  /** The entry the call would have had alone. */
  ghost function AloneEntry(db: Db, p: Proc): Entry
    requires p.Request?
  {
    var m := ResolveMembership(db.members, p.user);
    if m.Member? then Enter(db, m.org, m.role, p.first, p.user, p.oauth)
    else Entry(db.seats, Ctx(p.user, "", Rep, {}, p.first, [], None), true)
  }

  /** The call runs in the context it would have had alone, but possibly for the seat's id. */
  ghost predicate SameStanding(db: Db, p: Proc, ctx: Ctx)
    requires p.Request?
  {
    var e := AloneEntry(db, p);
    && ResolveMembership(db.members, p.user).Member? && !e.revoked
    && ctx == e.ctx.(seat := ctx.seat) && ctx.orgs == {ctx.org}
  }

  /** What the call has learnt so far about fact `id` was true at the start. */
  ghost predicate Promising(db: Db, p: Proc, id: Id)
    requires p.Request?
  {
    match p.pc
    case SelectTarget(ctx, _, _) => SameStanding(db, p, ctx)
    case InsertReplacement(ctx, target, _) =>
      SameStanding(db, p, ctx) && (target == id ==> id in Visible(db.facts, ctx.orgs))
    case FindReplacement(ctx, target, f) =>
      SameStanding(db, p, ctx) && Storable(f) && (target == id ==> id in Visible(db.facts, ctx.orgs))
    case UpdateTarget(ctx, target, f, _, _) =>
      SameStanding(db, p, ctx) && Storable(f) && (target == id ==> id in Visible(db.facts, ctx.orgs))
    case SelectPending(ctx, _, _) => SameStanding(db, p, ctx) && MayReview(ctx.role)
    case UpdateStatus(ctx, x, _) =>
      SameStanding(db, p, ctx) && MayReview(ctx.role) && (x == id ==> id in PendingView(db.facts, ctx))
    case SelectSeat(org, role) => ResolveMembership(db.members, p.user) == Member(org, role)
    case InsertSeat(org, role) => ResolveMembership(db.members, p.user) == Member(org, role)
    case ReselectSeat(org, role) => ResolveMembership(db.members, p.user) == Member(org, role)
    case _ => true
  }

  // ---------------------------------------------------------------- one request

  lemma StartIsPromising(db: Db, p: Proc, ctx: Ctx, id: Id)
    requires p.Request? && SameStanding(db, p, ctx)
    ensures Promising(db, At(p, Start(ctx, p.op)), id)
  {
    if p.op.RememberFacts? {
      NextItemShape(ctx, p.op.items, Progress(0, [], [], [], []));
    } else {
      FirstCheckIsPromising(db, p, ctx, id);
    }
  }

  lemma FirstCheckIsPromising(db: Db, p: Proc, ctx: Ctx, id: Id)
    requires p.Request? && SameStanding(db, p, ctx) && !p.op.RememberFacts?
    ensures Promising(db, At(p, Start(ctx, p.op)), id)
  {
    var pc := Start(ctx, p.op);
    assert pc.SelectTarget? || pc.SelectPending? || pc.InsertAudit? || pc.SelectFacts?;
  }

  /** The seat row a caller meets is the one at the start, or a first contact's. */
  lemma RowSince(before: Db, now: Db, org: OrgId, user: UserId, oauth: string, role: Role, first: Id, seat: Id)
    requires UniqueSeats(now.seats) && Since(before, now)
    requires seat in now.seats && now.seats[seat].org == org && now.seats[seat].oauth == oauth
    ensures var e := Enter(before, org, role, first, user, oauth);
      && (now.seats[seat].status == Revoked <==> e.revoked)
      && now.seats[seat].scopes == e.ctx.scopes && now.seats[seat].source == e.ctx.source
  {
    var rows := SeatRows(before.seats, org, oauth);
    if rows != {} {
      var row := Pick(rows);
      assert row in now.seats && now.seats[row] == before.seats[row];
      assert row == seat;
    } else {
      assert forall x | x in before.seats :: before.seats[x].org == org && before.seats[x].oauth == oauth ==> x in rows;
    }
  }

  lemma AdmitIsPromising(before: Db, now: Db, p: Proc, org: OrgId, role: Role, seat: Id, id: Id)
    requires p.Request? && UniqueSeats(now.seats) && Since(before, now)
    requires ResolveMembership(before.members, p.user) == Member(org, role)
    requires seat in now.seats && now.seats[seat].org == org && now.seats[seat].oauth == p.oauth
    ensures Promising(before, At(p, Admit(now, p.user, p.op, org, role, seat, now.seats[seat])), id)
  {
    RowSince(before, now, org, p.user, p.oauth, role, p.first, seat);
    SingleMembership(before.members, p.user);
    var ctx := MakeCtx(now.members, p.user, org, role, seat, now.seats[seat]);
    if now.seats[seat].status != Revoked {
      StartIsPromising(before, p, ctx, id);
    }
  }

  /** Requests keep the seats as they should be since the start. */
  lemma SeatsStaySince(before: Seats, db: Db, p: Proc)
    requires p.Request? && ProcOk(db, p) && SeatsSince(before, db.seats)
    ensures SeatsSince(before, ProcMove(db, p).db.seats)
  {
    RequestsKeepSeats(db, p.first, p.user, p.oauth, p.op, p.pc);
    if p.pc.InsertSeat? {
      FirstContactSince(before, db.seats, p.first, FirstContactSeat(p.pc.org, p.user, p.oauth));
    }
  }

  lemma FirstContactSince(before: Seats, seats: Seats, id: Id, seat: Seat)
    requires SeatsSince(before, seats) && id !in seats
    requires seat.status == Live && seat.scopes == DEFAULT_SCOPES && seat.source == None
    ensures SeatsSince(before, seats[id := seat])
  {
  }

  lemma SeatMoveIsPromising(before: Db, db: Db, p: Proc, id: Id)
    requires p.Request? && Indexed(db) && ProcOk(db, p) && Since(before, db) && Promising(before, p, id)
    requires p.pc.SelectMembers? || p.pc.SelectSeat? || p.pc.InsertSeat? || p.pc.ReselectSeat?
    ensures Promising(before, At(p, ProcMove(db, p).pc), id)
  {
    if !p.pc.SelectMembers? {
      var rows := SeatRows(db.seats, p.pc.org, p.oauth);
      if rows != {} {
        AdmitIsPromising(before, db, p, p.pc.org, p.pc.role, Pick(rows), id);
      } else if p.pc.InsertSeat? {
        var seat := FirstContactSeat(p.pc.org, p.user, p.oauth);
        var after := db.(seats := db.seats[p.first := seat]);
        NewSeatKeepsIndex(db.seats, p.pc.org, p.oauth, p.first, seat);
        FirstContactSince(before.seats, db.seats, p.first, seat);
        AdmitIsPromising(before, after, p, p.pc.org, p.pc.role, p.first, id);
      }
    }
  }

  lemma TargetCheckIsPromising(before: Db, db: Db, p: Proc, id: Id)
    requires p.Request? && Since(before, db) && Promising(before, p, id) && id in before.facts
    requires p.pc.SelectTarget?
    ensures Promising(before, At(p, ProcMove(db, p).pc), id)
  {
    assert id in db.facts && Drifts(before.facts[id], db.facts[id]);
  }

  lemma PendingSince(before: Facts, now: Facts, ctx: Ctx, id: Id)
    requires AllDrift(before, now) && id in before && id in PendingView(now, ctx)
    ensures id in PendingView(before, ctx)
  {
    assert Drifts(before[id], now[id]);
  }

  lemma PendingCheckIsPromising(before: Db, db: Db, p: Proc, id: Id)
    requires p.Request? && ProcOk(db, p) && Since(before, db) && Promising(before, p, id) && id in before.facts
    requires p.pc.SelectPending?
    ensures Promising(before, At(p, ProcMove(db, p).pc), id)
  {
    var ctx, arg, status := p.pc.ctx, p.pc.arg, p.pc.status;
    if id in PendingView(db.facts, ctx) {
      PendingSince(before.facts, db.facts, ctx, id);
    }
    PendingCheck(db, p);
    if arg.Uuid? && arg.id in PendingView(db.facts, ctx) {
      CheckedIsPromising(before, p, id, ctx, arg.id, status);
    }
  }

  lemma PendingCheck(db: Db, p: Proc)
    requires p.Request? && p.pc.SelectPending?
    ensures ProcMove(db, p).pc ==
      if !p.pc.arg.Uuid? then Crashed
      else if p.pc.arg.id in PendingView(db.facts, p.pc.ctx) then UpdateStatus(p.pc.ctx, p.pc.arg.id, p.pc.status)
      else InsertAudit(p.pc.ctx, [], NotPending)
  {
  }

  lemma CheckedIsPromising(before: Db, p: Proc, id: Id, ctx: Ctx, x: Id, status: FactStatus)
    requires p.Request? && SameStanding(before, p, ctx) && MayReview(ctx.role)
    requires x == id ==> id in PendingView(before.facts, ctx)
    ensures Promising(before, At(p, UpdateStatus(ctx, x, status)), id)
  {
  }

  lemma WriteIsPromising(before: Db, db: Db, p: Proc, id: Id)
    requires p.Request? && ProcOk(db, p) && Promising(before, p, id)
    requires p.pc.InsertReplacement? || p.pc.FindReplacement? || p.pc.UpdateTarget? || p.pc.UpdateStatus?
    ensures Promising(before, At(p, ProcMove(db, p).pc), id)
  {
  }

  lemma RestIsPromising(before: Db, db: Db, p: Proc, id: Id)
    requires p.Request?
    requires p.pc.SelectFacts? || p.pc.InsertItem? || p.pc.FindHolder? || p.pc.InsertAudit? || Final(p.pc)
    ensures Promising(before, At(p, ProcMove(db, p).pc), id)
  {
    if p.pc.InsertItem? || p.pc.FindHolder? {
      NextItemShape(p.pc.ctx, p.pc.rest, Created(p.pc.done, NthId(p.first, p.pc.done.next)));
      if KeyTaken(db.facts, p.pc.ctx.org, p.pc.f) {
        var holder := Pick(Holders(db.facts, p.pc.ctx.org, p.pc.f.dedupeKey.value));
        NextItemShape(p.pc.ctx, p.pc.rest, Deduped(p.pc.done, holder));
      }
    }
  }

  lemma MoveIsPromising(before: Db, db: Db, p: Proc, id: Id)
    requires p.Request? && Indexed(db) && ProcOk(db, p) && Since(before, db) && Promising(before, p, id)
    requires id in before.facts
    ensures Promising(before, At(p, ProcMove(db, p).pc), id)
  {
    if p.pc.SelectMembers? || p.pc.SelectSeat? || p.pc.InsertSeat? || p.pc.ReselectSeat? {
      SeatMoveIsPromising(before, db, p, id);
    } else if p.pc.SelectTarget? {
      TargetCheckIsPromising(before, db, p, id);
    } else if p.pc.SelectPending? {
      PendingCheckIsPromising(before, db, p, id);
    } else if p.pc.InsertReplacement? || p.pc.FindReplacement? || p.pc.UpdateTarget? || p.pc.UpdateStatus? {
      WriteIsPromising(before, db, p, id);
    } else {
      RestIsPromising(before, db, p, id);
    }
  }

  /** Nothing but a review's check leads to a review's update. */
  lemma NeverStartsUpdating(db: Db, p: Proc)
    requires p.Request?
    ensures ProcMove(db, p).pc.UpdateStatus? ==> p.pc.SelectPending? || p.pc == ProcMove(db, p).pc
  {
    if p.pc.SelectSeat? || p.pc.InsertSeat? || p.pc.ReselectSeat? {
      var rows := SeatRows(db.seats, p.pc.org, p.oauth);
      if rows != {} {
        AdmitDoesNotUpdate(db, p, p.pc.org, p.pc.role, Pick(rows), db.seats[Pick(rows)]);
      }
      AdmitDoesNotUpdate(db, p, p.pc.org, p.pc.role, p.first, FirstContactSeat(p.pc.org, p.user, p.oauth));
    } else if p.pc.InsertItem? || p.pc.FindHolder? {
      ItemsDoNotUpdate(db, p);
    }
  }

  lemma AdmitDoesNotUpdate(db: Db, p: Proc, org: OrgId, role: Role, seat: Id, row: Seat)
    requires p.Request?
    ensures !Admit(db, p.user, p.op, org, role, seat, row).UpdateStatus?
  {
    if p.op.RememberFacts? {
      NextItemShape(MakeCtx(db.members, p.user, org, role, seat, row), p.op.items, Progress(0, [], [], [], []));
    }
  }

  lemma ItemsDoNotUpdate(db: Db, p: Proc)
    requires p.Request? && (p.pc.InsertItem? || p.pc.FindHolder?)
    ensures !ProcMove(db, p).pc.UpdateStatus?
  {
    NextItemShape(p.pc.ctx, p.pc.rest, Created(p.pc.done, NthId(p.first, p.pc.done.next)));
    if KeyTaken(db.facts, p.pc.ctx.org, p.pc.f) {
      var holder := Pick(Holders(db.facts, p.pc.ctx.org, p.pc.f.dedupeKey.value));
      NextItemShape(p.pc.ctx, p.pc.rest, Deduped(p.pc.done, holder));
    }
  }

  // ---------------------------------------------------------------- every schedule

  ghost predicate AllPromising(before: Db, t: Sys, id: Id) {
    forall i | 0 <= i < |t.procs| :: t.procs[i].Request? && Promising(before, t.procs[i], id)
  }

  lemma TurnIsPromising(before: Db, t: Sys, i: nat, id: Id)
    requires Sound(t) && i < |t.procs| && Since(before, t.db) && AllPromising(before, t, id) && id in before.facts
    ensures var u := Advance(t, i);
      u.db.members == before.members && SeatsSince(before.seats, u.db.seats) && AllPromising(before, u, id)
  {
    var p := t.procs[i];
    SeatsStaySince(before.seats, t.db, p);
    MoveIsPromising(before, t.db, p, id);
    ProcMoveOk(t.db, p);
    var m := ProcMove(t.db, p);
    assert Advance(t, i) == Sys(m.db, t.procs[i := At(p, m.pc)]);
  }

  lemma {:induction false} SchedulesArePromising(s: Sys, schedule: seq<nat>, id: Id)
    requires Initial(s) && OnlyRequests(s) && id in s.db.facts
    ensures var t := Exec(s, schedule); Sound(t) && Since(s.db, t.db) && AllPromising(s.db, t, id)
  {
    InitialIsSound(s);
    ExecDrifts(s, schedule);
    ExecIsSound(s, schedule);
    if schedule == [] {
      assert forall i | 0 <= i < |s.procs| :: s.procs[i] in s.procs;
    } else {
      var n := |schedule| - 1;
      SchedulesArePromising(s, schedule[..n], id);
      var t := Exec(s, schedule[..n]);
      if schedule[n] < |t.procs| {
        TurnIsPromising(s.db, t, schedule[n], id);
      }
    }
  }

  // ---------------------------------------------------------------- what that means

  /** The call's answer, had it been alone. */
  ghost function AloneReply(db: Db, p: Proc): Reply
    requires p.Request?
  {
    StepCall(db, p.first, p.user, p.oauth, p.op).reply
  }

  /** A call that gets to retiring the fact would have retired it alone. */
  lemma RetiresOnlyIfAlone(db: Db, now: Db, p: Proc, id: Id)
    requires p.Request? && ProcOk(now, p) && Promising(db, p, id) && p.pc.UpdateTarget? && p.pc.target == id
    ensures p.op.SupersedeFact? && p.op.target == Uuid(id) && AloneReply(db, p).Replaced?
  {
    var m := ResolveMembership(db.members, p.user);
    assert id in Visible(db.facts, AloneEntry(db, p).ctx.orgs);
  }

  lemma DecidesIfPending(facts: Facts, a: Ctx, b: Ctx, id: Id, status: FactStatus)
    requires a.orgs == b.orgs && a.role == b.role && a.scopes == b.scopes
    requires MayReview(a.role) && id in PendingView(facts, a)
    ensures Decide(facts, b, Uuid(id), status).reply == Decided(id, status)
  {
    assert id in PendingView(facts, b);
  }

  /** A review that gets to its update would have decided alone. */
  lemma DecidesOnlyIfAlone(db: Db, now: Db, p: Proc, id: Id)
    requires p.Request? && ProcOk(now, p) && Promising(db, p, id) && p.pc.UpdateStatus? && p.pc.id == id
    ensures AloneReply(db, p) == Decided(id, p.pc.status)
    ensures p.op == PromoteFact(Uuid(id)) || (p.op.RejectFact? && p.op.arg == Uuid(id))
  {
    DecidesIfPending(db.facts, p.pc.ctx, AloneEntry(db, p).ctx, id, p.pc.status);
    AloneDecides(db, p, id, p.pc.status);
  }

  lemma AloneDecides(db: Db, p: Proc, id: Id, status: FactStatus)
    requires p.Request? && ResolveMembership(db.members, p.user).Member? && !AloneEntry(db, p).revoked
    requires p.op == PromoteFact(Uuid(id)) || (p.op.RejectFact? && p.op.arg == Uuid(id))
    requires status == if p.op.PromoteFact? then Active else Rejected
    ensures AloneReply(db, p) == Decide(db.facts, AloneEntry(db, p).ctx, Uuid(id), status).reply
  {
  }
}
