/** Org isolation under interleaving: other orgs' calls and operator actions, request by request, are
    not observable in an org. */
module InterleavedIsolation {
  import opened Schema
  import opened Intake
  import opened Tools
  import opened Lifecycle
  import opened Isolation
  import opened Interleaving
  import opened Schedules

  ghost predicate Ours(members: Members, p: Proc, org: OrgId) {
    Concerns(members, EventOf(p), org)
  }

  /** The schedule without the turns of calls that do not concern the org. */
  ghost function OurTurns(s: Sys, schedule: seq<nat>, org: OrgId): seq<nat> {
    if schedule == [] then []
    else
      var i := schedule[|schedule| - 1];
      OurTurns(s, schedule[..|schedule| - 1], org)
        + (if i < |s.procs| && Ours(s.db.members, s.procs[i], org) then [i] else [])
  }

  // ---------------------------------------------------------------- other orgs' requests

  lemma FactElsewhere(facts: Facts, org: OrgId, id: Id, row: Fact)
    requires row.org != org && (id in facts ==> facts[id].org != org)
    ensures FactsOf(facts[id := row], org) == FactsOf(facts, org)
  {
  }

  lemma ItsOrgIsAnother(db: Db, p: Proc, org: OrgId)
    requires p.Request? && ProcOk(db, p) && !Ours(db.members, p, org)
    ensures CtxOf(p.pc).Some? ==> CtxOf(p.pc).value.org != org && CtxOf(p.pc).value.orgs == {CtxOf(p.pc).value.org}
    ensures p.pc.SelectSeat? || p.pc.InsertSeat? || p.pc.ReselectSeat? ==> p.pc.org != org
  {
    SingleMembership(db.members, p.user);
  }

  lemma OtherInsertIsInvisible(db: Db, p: Proc, org: OrgId)
    requires p.Request? && ProcOk(db, p) && (p.pc.InsertItem? || p.pc.InsertReplacement?) && p.pc.ctx.org != org
    ensures SameFor(org, db, ProcMove(db, p).db)
  {
    var id := if p.pc.InsertItem? then NthId(p.first, p.pc.done.next) else p.first;
    FactElsewhere(db.facts, org, id, FactRow(p.pc.ctx, p.pc.f));
  }

  lemma OtherUpdateIsInvisible(db: Db, p: Proc, org: OrgId)
    requires p.Request? && ProcOk(db, p) && (p.pc.UpdateTarget? || p.pc.UpdateStatus?) && p.pc.ctx.org != org
    ensures SameFor(org, db, ProcMove(db, p).db)
  {
    match p.pc
    case UpdateTarget(ctx, target, _, link, _) =>
      FactElsewhere(db.facts, org, target, db.facts[target].(status := Superseded, supersededBy := Some(link)));
    case UpdateStatus(ctx, id, status) => FactElsewhere(db.facts, org, id, db.facts[id].(status := status));
  }

  lemma OtherSeatOrLogIsInvisible(db: Db, p: Proc, org: OrgId)
    requires p.Request? && ProcOk(db, p)
    requires (p.pc.InsertSeat? && p.pc.org != org) || (p.pc.InsertAudit? && p.pc.ctx.org != org)
    ensures SameFor(org, db, ProcMove(db, p).db)
  {
    if p.pc.InsertSeat? {
      if SeatRows(db.seats, p.pc.org, p.oauth) == {} {
        SeatElsewhere(db.seats, org, p.first, FirstContactSeat(p.pc.org, p.user, p.oauth));
      }
    } else {
      var ctx := p.pc.ctx;
      AuditOfAppend(db.audit, AuditRow(ctx.org, ctx.user, ctx.seat, ToolName(p.op), p.pc.ids), org);
    }
  }

  lemma OtherRequestIsInvisible(db: Db, p: Proc, org: OrgId)
    requires p.Request? && ProcOk(db, p) && !Ours(db.members, p, org)
    ensures SameFor(org, db, ProcMove(db, p).db)
  {
    ItsOrgIsAnother(db, p, org);
    if p.pc.InsertItem? || p.pc.InsertReplacement? {
      OtherInsertIsInvisible(db, p, org);
    } else if p.pc.UpdateTarget? || p.pc.UpdateStatus? {
      OtherUpdateIsInvisible(db, p, org);
    } else if p.pc.InsertSeat? || p.pc.InsertAudit? {
      OtherSeatOrLogIsInvisible(db, p, org);
    } else {
      assert ProcMove(db, p).db == db;
    }
  }

  lemma OtherOperatorIsInvisible(db: Db, p: Proc, org: OrgId)
    requires p.Operator? && ProcOk(db, p) && !Ours(db.members, p, org)
    ensures SameFor(org, db, ProcMove(db, p).db)
  {
    var a := p.action;
    match p.pc
    case AdminSelect =>
      if !a.RegisterConnector? || Blank(a.source) {
        OtherAdminIsInvisible(db, p.first, a, org);
      }
    case AdminInsert =>
      SeatElsewhere(db.seats, org, p.first,
        NewConnector(a.org, a.oauth, a.source, a.registrant, a.displayName, a.scopes));
    case AdminUpdate(id) =>
      SeatElsewhere(db.seats, org, id, Reregistered(db.seats[id], a.source, a.displayName, a.scopes));
    case _ =>
  }

  lemma OtherMoveIsInvisible(db: Db, p: Proc, org: OrgId)
    requires ProcOk(db, p) && !Ours(db.members, p, org)
    ensures SameFor(org, db, ProcMove(db, p).db)
  {
    if p.Request? {
      OtherRequestIsInvisible(db, p, org);
    } else {
      OtherOperatorIsInvisible(db, p, org);
    }
  }

  // ---------------------------------------------------------------- the org's own requests

  ghost predicate SameMove(org: OrgId, a: Move, b: Move) {
    SameFor(org, a.db, b.db) && a.pc == b.pc
  }

  lemma ItsOrgIsOurs(db: Db, p: Proc, org: OrgId)
    requires p.Request? && ProcOk(db, p) && Ours(db.members, p, org)
    ensures CtxOf(p.pc).Some? ==> CtxOf(p.pc).value.org == org && CtxOf(p.pc).value.orgs == {org}
    ensures p.pc.SelectSeat? || p.pc.InsertSeat? || p.pc.ReselectSeat? ==> p.pc.org == org
  {
    SingleMembership(db.members, p.user);
  }

  lemma SameKeyTaken(f: Facts, g: Facts, org: OrgId, input: FactInput)
    requires FactsOf(f, org) == FactsOf(g, org)
    ensures KeyTaken(f, org, input) == KeyTaken(g, org, input)
    ensures KeyTaken(f, org, input) ==>
      Pick(Holders(f, org, input.dedupeKey.value)) == Pick(Holders(g, org, input.dedupeKey.value))
  {
    if input.dedupeKey.Some? {
      SameHolders(f, g, org, input.dedupeKey.value);
    }
  }

  lemma SameSeatMove(s: Db, t: Db, p: Proc, org: OrgId)
    requires p.Request? && SameFor(org, s, t) && ProcOk(s, p) && ProcOk(t, p)
    requires (p.pc.SelectSeat? || p.pc.InsertSeat? || p.pc.ReselectSeat?) && p.pc.org == org
    ensures SameMove(org, ProcMove(s, p), ProcMove(t, p))
  {
    SameSeatRows(s.seats, t.seats, org, p.oauth);
    SameSeatUpdate(s.seats, t.seats, org, p.first, FirstContactSeat(org, p.user, p.oauth));
  }

  lemma SameInsert(s: Db, t: Db, p: Proc, org: OrgId)
    requires p.Request? && SameFor(org, s, t)
    requires p.pc.InsertItem? || p.pc.InsertReplacement? || p.pc.FindHolder? || p.pc.FindReplacement?
    requires p.pc.ctx.org == org
    ensures SameMove(org, ProcMove(s, p), ProcMove(t, p))
  {
    SameKeyTaken(s.facts, t.facts, org, p.pc.f);
    var id := if p.pc.InsertItem? then NthId(p.first, p.pc.done.next) else p.first;
    SameUpdate(s.facts, t.facts, org, id, FactRow(p.pc.ctx, p.pc.f));
  }

  lemma SameCheckOrUpdate(s: Db, t: Db, p: Proc, org: OrgId)
    requires p.Request? && SameFor(org, s, t) && CtxOf(p.pc).Some?
    requires CtxOf(p.pc).value.org == org && CtxOf(p.pc).value.orgs == {org}
    requires p.pc.SelectTarget? || p.pc.UpdateTarget? || p.pc.SelectPending? || p.pc.UpdateStatus?
    ensures SameMove(org, ProcMove(s, p), ProcMove(t, p))
  {
    match p.pc
    case SelectTarget(ctx, arg, _) =>
      if arg.Uuid? {
        SameRow(s.facts, t.facts, org, arg.id);
      }
    case UpdateTarget(ctx, target, _, link, _) => SameRetire(s.facts, t.facts, ctx, target, link);
    case SelectPending(ctx, _, _) => SameViews(s.facts, t.facts, ctx, ctx.scopes);
    case UpdateStatus(ctx, id, status) => SameSetStatus(s.facts, t.facts, ctx, id, status);
  }

  lemma SameReadOrLog(s: Db, t: Db, p: Proc, org: OrgId)
    requires p.Request? && SameFor(org, s, t) && (p.pc.SelectFacts? || p.pc.InsertAudit?)
    requires p.pc.ctx.org == org && p.pc.ctx.orgs == {org}
    ensures SameMove(org, ProcMove(s, p), ProcMove(t, p))
  {
    if p.pc.SelectFacts? {
      SameAct(s.facts, t.facts, p.pc.ctx, p.first, p.op);
    } else {
      var row := AuditRow(p.pc.ctx.org, p.pc.ctx.user, p.pc.ctx.seat, ToolName(p.op), p.pc.ids);
      AuditOfAppend(s.audit, row, org);
      AuditOfAppend(t.audit, row, org);
    }
  }

  lemma SameRequest(s: Db, t: Db, p: Proc, org: OrgId)
    requires p.Request? && SameFor(org, s, t) && ProcOk(s, p) && ProcOk(t, p) && Ours(s.members, p, org)
    ensures SameMove(org, ProcMove(s, p), ProcMove(t, p))
  {
    ItsOrgIsOurs(s, p, org);
    if p.pc.SelectSeat? || p.pc.InsertSeat? || p.pc.ReselectSeat? {
      SameSeatMove(s, t, p, org);
    } else if p.pc.InsertItem? || p.pc.InsertReplacement? || p.pc.FindHolder? || p.pc.FindReplacement? {
      SameInsert(s, t, p, org);
    } else if p.pc.SelectTarget? || p.pc.UpdateTarget? || p.pc.SelectPending? || p.pc.UpdateStatus? {
      SameCheckOrUpdate(s, t, p, org);
    } else if p.pc.SelectFacts? || p.pc.InsertAudit? {
      SameReadOrLog(s, t, p, org);
    }
  }

  lemma SameOperator(s: Db, t: Db, p: Proc, org: OrgId)
    requires p.Operator? && SameFor(org, s, t) && ProcOk(s, p) && ProcOk(t, p) && Ours(s.members, p, org)
    ensures SameMove(org, ProcMove(s, p), ProcMove(t, p))
  {
    var a := p.action;
    match p.pc
    case AdminSelect =>
      SameAdmin(s, t, p.first, a, org);
      if a.RegisterConnector? {
        SameSeatRows(s.seats, t.seats, org, a.oauth);
      }
    case AdminInsert =>
      SameSeatRows(s.seats, t.seats, org, a.oauth);
      SameSeatUpdate(s.seats, t.seats, org, p.first,
        NewConnector(a.org, a.oauth, a.source, a.registrant, a.displayName, a.scopes));
    case AdminUpdate(id) =>
      SameSeatRows(s.seats, t.seats, org, a.oauth);
      assert id in SeatRows(s.seats, org, a.oauth);
      SameSeatUpdate(s.seats, t.seats, org, id, Reregistered(s.seats[id], a.source, a.displayName, a.scopes));
    case _ =>
  }

  // ---------------------------------------------------------------- every schedule

  ghost predicate SameToUs(s: Sys, t: Sys, u: Sys, org: OrgId) {
    && SameCalls(s, t) && SameCalls(s, u) && SameFor(org, t.db, u.db) && t.db.members == s.db.members
    && forall i | 0 <= i < |s.procs| && Ours(s.db.members, s.procs[i], org) :: t.procs[i] == u.procs[i]
  }

  lemma SameForThrough(org: OrgId, a: Db, b: Db, c: Db)
    requires SameFor(org, a, b) && SameFor(org, b, c)
    ensures SameFor(org, a, c) && SameFor(org, b, a)
  {
  }

  lemma OtherTurn(s: Sys, t: Sys, u: Sys, i: nat, org: OrgId)
    requires SameToUs(s, t, u, org) && Sound(t) && i < |s.procs| && !Ours(s.db.members, s.procs[i], org)
    ensures SameToUs(s, Advance(t, i), u, org)
  {
    var p := t.procs[i];
    assert EventOf(p) == EventOf(s.procs[i]);
    ProcMoveOk(t.db, p);
    OtherMoveIsInvisible(t.db, p, org);
    var m := ProcMove(t.db, p);
    SameForThrough(org, t.db, m.db, m.db);
    SameForThrough(org, m.db, t.db, u.db);
    AdvanceIs(t, i, m);
  }

  lemma OurTurn(s: Sys, t: Sys, u: Sys, i: nat, org: OrgId)
    requires SameToUs(s, t, u, org) && Sound(t) && Sound(u) && i < |s.procs| && Ours(s.db.members, s.procs[i], org)
    ensures SameToUs(s, Advance(t, i), Advance(u, i), org)
  {
    var p := t.procs[i];
    assert EventOf(p) == EventOf(s.procs[i]) && u.procs[i] == p;
    ProcMoveOk(t.db, p);
    SameOwnMove(t.db, u.db, p, org);
    var m, n := ProcMove(t.db, p), ProcMove(u.db, p);
    SameTurn(s, t, u, i, org, m, n);
    AdvanceIs(t, i, m);
    AdvanceIs(u, i, n);
  }

  lemma SameOwnMove(s: Db, t: Db, p: Proc, org: OrgId)
    requires SameFor(org, s, t) && ProcOk(s, p) && ProcOk(t, p) && Ours(s.members, p, org)
    ensures SameMove(org, ProcMove(s, p), ProcMove(t, p))
  {
    if p.Request? {
      SameRequest(s, t, p, org);
    } else {
      SameOperator(s, t, p, org);
    }
  }

  lemma SameTurn(s: Sys, t: Sys, u: Sys, i: nat, org: OrgId, m: Move, n: Move)
    requires SameToUs(s, t, u, org) && i < |s.procs| && t.procs[i] == u.procs[i]
    requires SameMove(org, m, n) && m.db.members == s.db.members
    ensures SameToUs(s, Placed(t, i, m.db, m.pc), Placed(u, i, n.db, n.pc), org)
  {
  }

  /** Noninterference under every schedule: taking away every turn of calls by other orgs' callers and
      of operator actions on other orgs' seats leaves the org's facts, seats and audit rows, and every
      one of its own calls, answers included, exactly as they were. */
  lemma {:induction false} SchedulesDoNotInterfere(s: Sys, schedule: seq<nat>, org: OrgId)
    requires Initial(s)
    ensures SameToUs(s, Exec(s, schedule), Exec(s, OurTurns(s, schedule, org)), org)
  {
    InitialIsSound(s);
    if schedule == [] {
    } else {
      var n := |schedule| - 1;
      var ours := OurTurns(s, schedule[..n], org);
      SchedulesDoNotInterfere(s, schedule[..n], org);
      ExecIsSound(s, schedule[..n]);
      ExecIsSound(s, ours);
      var i := schedule[n];
      if i < |s.procs| {
        if Ours(s.db.members, s.procs[i], org) {
          OurTurn(s, Exec(s, schedule[..n]), Exec(s, ours), i, org);
          assert (ours + [i])[..|ours|] == ours;
        } else {
          OtherTurn(s, Exec(s, schedule[..n]), Exec(s, ours), i, org);
          assert ours + [] == ours;
        }
      } else {
        assert ours + [] == ours;
      }
    }
  }
}
