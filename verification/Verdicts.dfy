/** Two review decisions at once: a fact that one call has promoted and another rejected, both with success. */
module Verdicts {
  import opened Schema
  import opened Tools
  import opened Lifecycle
  import opened Interleaving
  import opened Serial
  import opened Schedules
  import opened Race
  import Prospects
  import Intake

  /** The call has finished and reported this decision on this fact. */
  predicate Reports(p: Proc, id: Id, status: FactStatus) {
    p.Request? && p.pc.Answered? && p.pc.reply == Decided(id, status)
  }

  /** The decision is made, and is in the audit row the call has written or is about to write. */
  predicate HasDecided(p: Proc, id: Id, status: FactStatus) {
    p.Request? && (p.pc.InsertAudit? || p.pc.Answered?) && p.pc.reply == Decided(id, status)
  }

  ghost predicate DecidesAlone(s: Sys, i: nat, id: Id, status: FactStatus) {
    i < |s.procs| && s.procs[i].Request? && Prospects.AloneReply(s.db, s.procs[i]) == Decided(id, status)
  }

  /** One call has reported the fact promoted, another has reported it rejected, and it is active. */
  ghost predicate Contradicted(t: Sys, id: Id) {
    && (exists i :: 0 <= i < |t.procs| && Reports(t.procs[i], id, Active))
    && (exists j :: 0 <= j < |t.procs| && Reports(t.procs[j], id, Rejected))
    && id in t.db.facts && t.db.facts[id].status == Active
  }

  // ---------------------------------------------------------------- only what would succeed alone

  lemma AdmitDecidesNothing(db: Db, p: Proc, org: OrgId, role: Role, seat: Id, row: Seat, id: Id, status: FactStatus)
    requires p.Request?
    ensures !HasDecided(At(p, Admit(db, p.user, p.op, org, role, seat, row)), id, status)
  {
    if p.op.RememberFacts? {
      ItemsDecideNothing(p, MakeCtx(db.members, p.user, org, role, seat, row), p.op.items, Progress(0, [], [], [], []),
                         id, status);
    }
  }

  lemma {:induction false} ItemsDecideNothing(
      p: Proc, ctx: Ctx, items: seq<Intake.Payload>, done: Progress, id: Id, status: FactStatus)
    requires p.Request?
    ensures !HasDecided(At(p, NextItem(ctx, items, done)), id, status)
    decreases |items|
  {
    if items == [] {
    } else if Intake.Validate(items[0]).None? {
      ItemsDecideNothing(p, ctx, items[1..], done.(next := done.next + 1, invalid := done.invalid + [done.next]),
                         id, status);
    }
  }

  lemma SeatDecidesNothing(db: Db, p: Proc, id: Id, status: FactStatus)
    requires p.Request? && (p.pc.SelectSeat? || p.pc.InsertSeat? || p.pc.ReselectSeat?)
    ensures !HasDecided(At(p, ProcMove(db, p).pc), id, status)
  {
    var rows := SeatRows(db.seats, p.pc.org, p.oauth);
    if rows != {} {
      AdmitDecidesNothing(db, p, p.pc.org, p.pc.role, Pick(rows), db.seats[Pick(rows)], id, status);
    }
    AdmitDecidesNothing(db, p, p.pc.org, p.pc.role, p.first, FirstContactSeat(p.pc.org, p.user, p.oauth), id, status);
  }

  lemma ItemDecidesNothing(db: Db, p: Proc, id: Id, status: FactStatus)
    requires p.Request? && (p.pc.InsertItem? || p.pc.FindHolder?)
    ensures !HasDecided(At(p, ProcMove(db, p).pc), id, status)
  {
    ItemsDecideNothing(p, p.pc.ctx, p.pc.rest, Created(p.pc.done, NthId(p.first, p.pc.done.next)), id, status);
    if KeyTaken(db.facts, p.pc.ctx.org, p.pc.f) {
      var holder := Pick(Holders(db.facts, p.pc.ctx.org, p.pc.f.dedupeKey.value));
      ItemsDecideNothing(p, p.pc.ctx, p.pc.rest, Deduped(p.pc.done, holder), id, status);
    }
  }

  lemma ReadDecidesNothing(db: Db, p: Proc, id: Id, status: FactStatus)
    requires p.Request? && ProcOk(db, p) && p.pc.SelectFacts?
    ensures !HasDecided(At(p, ProcMove(db, p).pc), id, status)
  {
    if p.op.RememberFacts? {
      NextItemShape(p.pc.ctx, p.op.items, Progress(0, [], [], [], []));
    }
    ReadsDoNotDecide(db.facts, p.pc.ctx, p.first, p.op, id, status);
  }

  lemma ReadsDoNotDecide(facts: Facts, ctx: Ctx, first: Id, op: Op, id: Id, status: FactStatus)
    requires !op.PromoteFact? && !op.RejectFact?
    ensures Act(facts, ctx, first, op).reply != Decided(id, status)
  {
  }

  /** A decision is made by a review's update and nothing else. */
  lemma OnlyUpdatesDecide(db: Db, p: Proc, id: Id, status: FactStatus)
    requires p.Request? && ProcOk(db, p) && HasDecided(At(p, ProcMove(db, p).pc), id, status)
    ensures HasDecided(p, id, status) || (UpdatesStatusOf(p, id) && p.pc.status == status)
  {
    if p.pc.SelectSeat? || p.pc.InsertSeat? || p.pc.ReselectSeat? {
      SeatDecidesNothing(db, p, id, status);
    } else if p.pc.InsertItem? || p.pc.FindHolder? {
      ItemDecidesNothing(db, p, id, status);
    } else if p.pc.SelectFacts? {
      ReadDecidesNothing(db, p, id, status);
    }
  }

  /** Every decision made was one the call would have made alone. */
  ghost predicate Earned(s: Sys, t: Sys, id: Id) {
    forall i, status | 0 <= i < |t.procs| && HasDecided(t.procs[i], id, status) :: DecidesAlone(s, i, id, status)
  }

  lemma TurnEarns(s: Sys, t: Sys, i: nat, id: Id)
    requires Prospects.OnlyRequests(s) && SameCalls(s, t) && Sound(t) && i < |t.procs| && Earned(s, t, id)
    requires Prospects.AllPromising(s.db, t, id)
    ensures Earned(s, Advance(t, i), id)
  {
    var p, m := t.procs[i], ProcMove(t.db, t.procs[i]);
    AdvanceIs(t, i, m);
    assert s.procs[i] in s.procs;
    forall status | HasDecided(At(p, m.pc), id, status) ensures DecidesAlone(s, i, id, status) {
      OnlyUpdatesDecide(t.db, p, id, status);
      if !HasDecided(p, id, status) {
        Prospects.DecidesOnlyIfAlone(s.db, t.db, p, id);
        SameAlone(s, t, i);
      }
    }
  }

  lemma {:induction false} SchedulesEarn(s: Sys, schedule: seq<nat>, id: Id)
    requires Initial(s) && Prospects.OnlyRequests(s) && id in s.db.facts
    ensures Earned(s, Exec(s, schedule), id)
  {
    if schedule == [] {
      assert forall i | 0 <= i < |s.procs| :: s.procs[i] in s.procs;
    } else {
      var n := |schedule| - 1;
      SchedulesEarn(s, schedule[..n], id);
      Prospects.SchedulesArePromising(s, schedule[..n], id);
      InitialIsSound(s);
      ExecIsSound(s, schedule[..n]);
      if schedule[n] < |Exec(s, schedule[..n]).procs| {
        TurnEarns(s, Exec(s, schedule[..n]), schedule[n], id);
      }
    }
  }

  // ---------------------------------------------------------------- both succeed

  lemma DecidesEither(facts: Facts, a: Ctx, b: Ctx, arg: IdArg, status: FactStatus)
    requires a.orgs == b.orgs && a.role == b.role && a.scopes == b.scopes
    ensures Decide(facts, a, arg, status) == Decide(facts, b, arg, status)
  {
    assert PendingView(facts, a) == PendingView(facts, b);
  }

  /** Somebody else's first contact does not stop a review that would succeed. */
  lemma StillDecides(
      db: Db, now: Db, first: Id, user: UserId, oauth: string, op: Op,
      org: OrgId, user': UserId, oauth': string, first': Id)
    requires Indexed(db) && first' !in db.seats && (op.PromoteFact? || op.RejectFact?)
    requires SeatedBy(db, now, org, user', oauth', first')
    requires StepCall(db, first, user, oauth, op).reply.Decided?
    ensures StepCall(now, first, user, oauth, op).reply == StepCall(db, first, user, oauth, op).reply
    ensures StepCall(now, first, user, oauth, op).db.facts == StepCall(db, first, user, oauth, op).db.facts
  {
    var m := ResolveMembership(db.members, user);
    SameEntryAfterContact(db, now, m.org, m.role, first, user, oauth, org, user', oauth', first');
    var a, b := Enter(db, m.org, m.role, first, user, oauth), Enter(now, m.org, m.role, first, user, oauth);
    DecidesEither(db.facts, a.ctx, b.ctx, op.arg, if op.PromoteFact? then Active else Rejected);
  }

  lemma SameEntryAfterContact(
      db: Db, now: Db, org: OrgId, role: Role, first: Id, user: UserId, oauth: string,
      org': OrgId, user': UserId, oauth': string, first': Id)
    requires Indexed(db) && first' !in db.seats && SeatedBy(db, now, org', user', oauth', first')
    requires !Enter(db, org, role, first, user, oauth).revoked
    ensures var a, b := Enter(db, org, role, first, user, oauth), Enter(now, org, role, first, user, oauth);
      !b.revoked && b.ctx == a.ctx.(seat := b.ctx.seat)
  {
    ResolveSeatGrows(db.seats, org', user', oauth', first');
    RowsAfterContact(db.seats, now.seats, org', user', oauth', first', org, oauth);
    if SeatRows(now.seats, org, oauth) != SeatRows(db.seats, org, oauth) {
      assert now.seats[first'] == FirstContactSeat(org', user', oauth');
    }
  }

  /** What a successful review has made of its fact. */
  lemma DecidedFact(db: Db, first: Id, user: UserId, oauth: string, op: Op, id: Id, status: FactStatus)
    requires StepCall(db, first, user, oauth, op).reply == Decided(id, status)
    ensures var facts := StepCall(db, first, user, oauth, op).db.facts;
      && id in db.facts && id in facts && facts[id].org == db.facts[id].org && facts[id].status == status
    ensures IsVerdict(op, id, status)
  {
    SingleMembership(db.members, user);
    var m := ResolveMembership(db.members, user);
    OnlyReviewsDecide(db.facts, Enter(db, m.org, m.role, first, user, oauth).ctx, first, op, id, status);
  }

  predicate IsVerdict(op: Op, id: Id, status: FactStatus) {
    || (op.PromoteFact? && op.arg == Uuid(id) && status == Active)
    || (op.RejectFact? && op.arg == Uuid(id) && status == Rejected)
  }

  lemma OnlyReviewsDecide(facts: Facts, ctx: Ctx, first: Id, op: Op, id: Id, status: FactStatus)
    requires Act(facts, ctx, first, op).reply == Decided(id, status)
    ensures IsVerdict(op, id, status) && id in facts
    ensures var after := Act(facts, ctx, first, op).facts;
      id in after && after[id] == facts[id].(status := status)
  {
    if !op.PromoteFact? && !op.RejectFact? {
      ReadsDoNotDecide(facts, ctx, first, op, id, status);
    }
  }

  /** The rejection, all of it, on a database that somebody else's first contact may have extended. */
  lemma ReviewRunsThrough(
      db: Db, t: Sys, j: nat, id: Id, status: FactStatus, org: OrgId, user: UserId, oauth: string, first: Id)
    requires j < |t.procs| && t.procs[j].Request? && AtStart(t.procs[j])
    requires Prospects.AloneReply(db, t.procs[j]) == Decided(id, status)
    requires Indexed(db) && SeatedBy(db, t.db, org, user, oauth, first) && first !in db.seats
    ensures var u := Exec(t, Repeat(j, StepsOf(t.procs[j])));
      && |u.procs| == |t.procs| && (forall i | 0 <= i < |t.procs| && i != j :: u.procs[i] == t.procs[i])
      && AnswerOf(u.procs[j]) == Decided(id, status)
      && id in db.facts && id in u.db.facts && u.db.facts[id].org == db.facts[id].org
  {
    var p := t.procs[j];
    DecidedFact(db, p.first, p.user, p.oauth, p.op, id, status);
    StillDecides(db, t.db, p.first, p.user, p.oauth, p.op, org, user, oauth, first);
    WholeCall(t, j);
  }

  /** A finished call that answered with a decision. */
  lemma AnswerIsReport(t: Sys, j: nat, id: Id, status: FactStatus)
    requires Sound(t) && j < |t.procs| && t.procs[j].Request? && AnswerOf(t.procs[j]) == Decided(id, status)
    ensures Reports(t.procs[j], id, status)
  {
    assert ProcOk(t.db, t.procs[j]);
  }

  lemma OneTurnOn(s: Sys, schedule: seq<nat>, i: nat, m: Move) returns (longer: seq<nat>)
    requires var t := Exec(s, schedule);
      && i < |t.procs| && t.procs[i].Request?
      && RequestMove(t.db, t.procs[i].first, t.procs[i].user, t.procs[i].oauth, t.procs[i].op, t.procs[i].pc) == m
    ensures Exec(s, longer) == Placed(Exec(s, schedule), i, m.db, m.pc)
  {
    var t := Exec(s, schedule);
    RequestTurn(t, i, t.procs[i].pc, m);
    OneMoreTurn(s, schedule, i);
    longer := schedule + [i];
  }

  lemma UpdateMoves(db: Db, first: Id, user: UserId, oauth: string, op: Op, ctx: Ctx, id: Id)
    requires id in db.facts && db.facts[id].org in ctx.orgs
    ensures var a := RequestMove(db, first, user, oauth, op, UpdateStatus(ctx, id, Active));
      var b := RequestMove(a.db, first, user, oauth, op, a.pc);
      && a.pc == InsertAudit(ctx, [id], Decided(id, Active)) && b.pc == Answered(ctx, [id], Decided(id, Active))
      && id in b.db.facts && b.db.facts[id].status == Active
  {
  }

  /** The promotion's last two requests. */
  lemma PromotionEnds(s: Sys, schedule: seq<nat>, i: nat, ctx: Ctx, id: Id) returns (longer: seq<nat>)
    requires var t := Exec(s, schedule);
      && i < |t.procs| && t.procs[i].Request? && t.procs[i].pc == UpdateStatus(ctx, id, Active)
      && id in t.db.facts && t.db.facts[id].org in ctx.orgs
    ensures var t, u := Exec(s, schedule), Exec(s, longer);
      && |u.procs| == |t.procs| && (forall j | 0 <= j < |t.procs| && j != i :: u.procs[j] == t.procs[j])
      && Reports(u.procs[i], id, Active) && id in u.db.facts && u.db.facts[id].status == Active
  {
    var t := Exec(s, schedule);
    var p := t.procs[i];
    UpdateMoves(t.db, p.first, p.user, p.oauth, p.op, ctx, id);
    var a := RequestMove(t.db, p.first, p.user, p.oauth, p.op, p.pc);
    var b := RequestMove(a.db, p.first, p.user, p.oauth, p.op, a.pc);
    var mid := OneTurnOn(s, schedule, i, a);
    longer := OneTurnOn(s, mid, i, b);
  }

  /** Any promotion and any rejection of a fact that would each succeed alone can both report success,
      the fact ending active: the promotion checks, the rejection runs, the promotion updates. */
  lemma BothReport(s: Sys, i: nat, j: nat, id: Id) returns (schedule: seq<nat>)
    requires Initial(s) && DecidesAlone(s, i, id, Active) && DecidesAlone(s, j, id, Rejected)
    ensures Contradicted(Exec(s, schedule), id)
  {
    var a, b := s.procs[i], s.procs[j];
    assert i != j;
    StartsFresh(s, i);
    StartsFresh(s, j);
    DecidedFact(s.db, a.first, a.user, a.oauth, a.op, id, Active);
    var before, now, ctx, status := ReviewIsReady(s, i, id);
    var t := Placed(s, i, now, UpdateStatus(ctx, id, status));
    ReviewRunsThrough(s.db, t, j, id, Rejected, ResolveMembership(s.db.members, a.user).org, a.user, a.oauth, a.first);
    ExecAppend(s, before, Repeat(j, StepsOf(b)));
    var both := before + Repeat(j, StepsOf(b));
    InitialIsSound(s);
    ExecIsSound(s, both);
    AnswerIsReport(Exec(s, both), j, id, Rejected);
    schedule := PromotionEnds(s, both, i, ctx, id);
  }

  ghost predicate CanContradict(s: Sys, id: Id) {
    exists schedule :: Contradicted(Exec(s, schedule), id)
  }

  ghost predicate BothDecideAlone(s: Sys, id: Id) {
    exists i: nat, j: nat :: DecidesAlone(s, i, id, Active) && DecidesAlone(s, j, id, Rejected)
  }

  lemma ContradictionIsEarned(s: Sys, schedule: seq<nat>, id: Id)
    requires Initial(s) && Prospects.OnlyRequests(s) && id in s.db.facts && Contradicted(Exec(s, schedule), id)
    ensures BothDecideAlone(s, id)
  {
    SchedulesEarn(s, schedule, id);
    var t := Exec(s, schedule);
    var i :| 0 <= i < |t.procs| && Reports(t.procs[i], id, Active);
    var j :| 0 <= j < |t.procs| && Reports(t.procs[j], id, Rejected);
    assert HasDecided(t.procs[i], id, Active) && HasDecided(t.procs[j], id, Rejected);
    assert DecidesAlone(s, i, id, Active) && DecidesAlone(s, j, id, Rejected);
  }

  /** Exactly when a fact can be reported promoted and reported rejected, and end active: when some
      call would promote it alone and some call would reject it alone. */
  lemma ContradictionIff(s: Sys, id: Id)
    requires Initial(s) && Prospects.OnlyRequests(s) && id in s.db.facts
    ensures CanContradict(s, id) <==> BothDecideAlone(s, id)
  {
    if BothDecideAlone(s, id) {
      var i: nat, j: nat :| DecidesAlone(s, i, id, Active) && DecidesAlone(s, j, id, Rejected);
      var schedule := BothReport(s, i, j, id);
    }
    if CanContradict(s, id) {
      var schedule :| Contradicted(Exec(s, schedule), id);
      ContradictionIsEarned(s, schedule, id);
    }
  }
}
