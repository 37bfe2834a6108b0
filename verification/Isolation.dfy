/** Org isolation: nothing another org's callers do is observable in an org. */
module Isolation {
  import opened Schema
  import opened Intake
  import opened Tools
  import opened Lifecycle
  import opened Audit

  function FactsOf(facts: Facts, org: OrgId): Facts {
    map id | id in facts && facts[id].org == org :: facts[id]
  }

  function SeatsOf(seats: Seats, org: OrgId): Seats {
    map id | id in seats && seats[id].org == org :: seats[id]
  }

  function AuditOf(rows: seq<AuditRow>, org: OrgId): seq<AuditRow> {
    if rows == [] then []
    else AuditOf(rows[..|rows| - 1], org) + (if rows[|rows| - 1].org == org then [rows[|rows| - 1]] else [])
  }

  /** Two states an org cannot tell apart. */
  ghost predicate SameFor(org: OrgId, s: Db, t: Db) {
    && s.members == t.members
    && FactsOf(s.facts, org) == FactsOf(t.facts, org)
    && SeatsOf(s.seats, org) == SeatsOf(t.seats, org)
    && AuditOf(s.audit, org) == AuditOf(t.audit, org)
  }

  /** Events that concern the org: calls by users who are members of it and of no other org,
      operator actions on its seats, and all membership changes. */
  ghost predicate Concerns(members: Members, e: Event, org: OrgId) {
    match e
    case Call(_, user, _, _) => UserOrgIds(members, user) == {org}
    case Admin(_, action) =>
      match action
      case AddMember(_, _, _) => true
      case RemoveMember(_, _) => true
      case RegisterConnector(o, _, _, _, _, _) => o == org
      case SetConnectorSource(o, _, _) => o == org
      case SetSeatStatus(o, _, _) => o == org
  }

  /** The run with every event that does not concern the org deleted. */
  ghost function Purge(db: Db, es: seq<Event>, org: OrgId): seq<Event> {
    if es == [] then []
    else
      var n := |es| - 1;
      Purge(db, es[..n], org) + (if Concerns(Run(db, es[..n]).members, es[n], org) then [es[n]] else [])
  }

  /** What the org's own callers get back. */
  ghost function Replies(db: Db, es: seq<Event>, org: OrgId): seq<Reply> {
    if es == [] then []
    else
      var n := |es| - 1;
      var s := Run(db, es[..n]);
      Replies(db, es[..n], org) + (if Concerns(s.members, es[n], org) then [Step(s, es[n]).reply] else [])
  }

  // ---------------------------------------------------------------- other orgs' events

  lemma AuditOfAppend(rows: seq<AuditRow>, row: AuditRow, org: OrgId)
    ensures AuditOf(rows + [row], org) == AuditOf(rows, org) + (if row.org == org then [row] else [])
  {
    assert (rows + [row])[..|rows|] == rows;
  }

  lemma OtherRowsStay(before: Facts, after: Facts, other: OrgId, org: OrgId)
    requires Evolves(before, after) && ChangesWithin(before, after, other) && other != org
    ensures FactsOf(after, org) == FactsOf(before, org)
  {
    assert forall id | id in after :: id in before && before[id].org == org ==> after[id] == before[id];
  }

  lemma ForeignChangeIsInvisible(db: Db, after: Db, other: OrgId, org: OrgId)
    requires other != org && after.members == db.members && Evolves(db.facts, after.facts)
    requires ChangesWithin(db.facts, after.facts, other)
    requires
      || after.audit == db.audit
      || (|after.audit| == |db.audit| + 1 && after.audit[..|db.audit|] == db.audit
          && after.audit[|db.audit|].org == other)
    requires forall id | id in db.seats :: id in after.seats && after.seats[id] == db.seats[id]
    requires forall id | id in after.seats && id !in db.seats :: after.seats[id].org == other
    ensures SameFor(org, db, after)
  {
    if |after.audit| == |db.audit| + 1 {
      var row := after.audit[|db.audit|];
      assert after.audit == db.audit + [row];
      AuditOfAppend(db.audit, row, org);
    }
    OtherRowsStay(db.facts, after.facts, other, org);
    assert SeatsOf(after.seats, org) == SeatsOf(db.seats, org);
  }

  /** The seats after a call: as `_resolve_client` left them. */
  lemma CallSeats(db: Db, first: Id, user: UserId, oauth: string, op: Op)
    requires Indexed(db) && Before(db, first.call) && ResolveMembership(db.members, user).Member?
    ensures var m := ResolveMembership(db.members, user);
      var after := StepCall(db, first, user, oauth, op).db;
      && after.members == db.members
      && (forall id | id in db.seats :: id in after.seats && after.seats[id] == db.seats[id])
      && (forall id | id in after.seats && id !in db.seats :: after.seats[id].org == m.org)
  {
    var m := ResolveMembership(db.members, user);
    ResolveSeatGrows(db.seats, m.org, user, oauth, first);
  }

  /** A call from another org's caller. */
  lemma OtherCallsAreInvisible(db: Db, first: Id, user: UserId, oauth: string, op: Op, org: OrgId)
    requires Indexed(db) && Before(db, first.call) && UserOrgIds(db.members, user) != {org}
    requires ResolveMembership(db.members, user).Member?
    ensures SameFor(org, db, StepCall(db, first, user, oauth, op).db)
  {
    SingleMembership(db.members, user);
    CallIsAudited(db, first, user, oauth, op);
    CallSeats(db, first, user, oauth, op);
    StepEvolves(db, Call(first, user, oauth, op));
    ForeignChangeIsInvisible(db, StepCall(db, first, user, oauth, op).db, ResolveMembership(db.members, user).org, org);
  }

  lemma SeatElsewhere(seats: Seats, org: OrgId, id: Id, seat: Seat)
    requires seat.org != org && (id in seats ==> seats[id].org != org)
    ensures SeatsOf(seats[id := seat], org) == SeatsOf(seats, org)
  {
  }

  lemma RegisterElsewhere(db: Db, first: Id, action: AdminOp, org: OrgId)
    requires action.RegisterConnector? && action.org != org && first !in db.seats
    ensures SeatsOf(StepAdmin(db, first, action).db.seats, org) == SeatsOf(db.seats, org)
  {
    var rows := SeatRows(db.seats, action.org, action.oauth);
    if rows != {} {
      var id := Pick(rows);
      SeatElsewhere(db.seats, org, id, Reregistered(db.seats[id], action.source, action.displayName, action.scopes));
    } else {
      SeatElsewhere(db.seats, org, first,
        NewConnector(action.org, action.oauth, action.source, action.registrant, action.displayName, action.scopes));
    }
  }

  lemma OtherAdminIsInvisible(db: Db, first: Id, action: AdminOp, org: OrgId)
    requires first !in db.seats && !Concerns(db.members, Admin(first, action), org)
    ensures SameFor(org, db, StepAdmin(db, first, action).db)
  {
    match action
    case RegisterConnector(_, _, _, _, _, _) => RegisterElsewhere(db, first, action, org);
    case SetConnectorSource(o, oauth, source) => UpdateElsewhere(db.seats, org, o, oauth, NewSource(source));
    case SetSeatStatus(o, oauth, status) => UpdateElsewhere(db.seats, org, o, oauth, NewStatus(status, first.call));
    case _ =>
  }

  /** An event that does not concern the org leaves the org's state alone. */
  lemma OtherEventsAreInvisible(db: Db, e: Event, org: OrgId)
    requires Indexed(db) && Before(db, e.first.call) && !Concerns(db.members, e, org)
    ensures SameFor(org, db, Step(db, e).db)
  {
    match e
    case Call(first, user, oauth, op) =>
      if ResolveMembership(db.members, user).Member? {
        OtherCallsAreInvisible(db, first, user, oauth, op, org);
      }
    case Admin(first, action) =>
      OtherAdminIsInvisible(db, first, action, org);
  }

  // ---------------------------------------------------------------- the org's own events

  lemma SameHolders(f: Facts, g: Facts, org: OrgId, key: string)
    requires FactsOf(f, org) == FactsOf(g, org)
    ensures Holders(f, org, key) == Holders(g, org, key)
  {
    var ff, gg := FactsOf(f, org), FactsOf(g, org);
    assert forall id :: id in Holders(f, org, key) <==> id in ff && ff[id].dedupeKey == Some(key);
    assert forall id :: id in Holders(g, org, key) <==> id in gg && gg[id].dedupeKey == Some(key);
  }

  lemma SameViews(f: Facts, g: Facts, ctx: Ctx, base: seq<string>)
    requires FactsOf(f, ctx.org) == FactsOf(g, ctx.org) && ctx.orgs == {ctx.org}
    ensures ActiveView(f, ctx, base) == ActiveView(g, ctx, base)
    ensures PendingView(f, ctx) == PendingView(g, ctx)
  {
    var ff, gg := FactsOf(f, ctx.org), FactsOf(g, ctx.org);
    assert forall id :: id in f && f[id].org == ctx.org <==> id in ff;
    assert forall id :: id in g && g[id].org == ctx.org <==> id in gg;
    assert forall id | id in ff :: ff[id] == f[id] && ff[id] == g[id];
  }

  lemma SameInsertion(f: Facts, g: Facts, ctx: Ctx, id: Id, input: FactInput)
    requires FactsOf(f, ctx.org) == FactsOf(g, ctx.org)
    ensures var v, w := InsertFact(f, ctx, id, input), InsertFact(g, ctx, id, input);
      v.id == w.id && v.created == w.created && FactsOf(v.facts, ctx.org) == FactsOf(w.facts, ctx.org)
  {
    if input.dedupeKey.Some? {
      SameHolders(f, g, ctx.org, input.dedupeKey.value);
    }
    var row := FactRow(ctx, input);
    assert FactsOf(f[id := row], ctx.org) == FactsOf(f, ctx.org)[id := row];
    assert FactsOf(g[id := row], ctx.org) == FactsOf(g, ctx.org)[id := row];
  }

  lemma {:induction false} SameBatch(f: Facts, g: Facts, ctx: Ctx, first: Id, items: seq<Payload>)
    requires FactsOf(f, ctx.org) == FactsOf(g, ctx.org)
    ensures var a, b := WriteBatch(f, ctx, first, items), WriteBatch(g, ctx, first, items);
      && FactsOf(a.facts, ctx.org) == FactsOf(b.facts, ctx.org)
      && a.created == b.created && a.deduped == b.deduped && a.invalid == b.invalid && a.touched == b.touched
  {
    if items == [] {
    } else {
      var n := |items| - 1;
      SameBatch(f, g, ctx, first, items[..n]);
      var v := Validate(items[n]);
      if v.Some? {
        SameInsertion(WriteBatch(f, ctx, first, items[..n]).facts, WriteBatch(g, ctx, first, items[..n]).facts,
                      ctx, NthId(first, n), v.value);
      }
    }
  }

  lemma SameUpdate(f: Facts, g: Facts, org: OrgId, id: Id, row: Fact)
    requires FactsOf(f, org) == FactsOf(g, org) && row.org == org
    ensures FactsOf(f[id := row], org) == FactsOf(g[id := row], org)
  {
    assert FactsOf(f[id := row], org) == FactsOf(f, org)[id := row];
    assert FactsOf(g[id := row], org) == FactsOf(g, org)[id := row];
  }

  lemma SameRow(f: Facts, g: Facts, org: OrgId, id: Id)
    requires FactsOf(f, org) == FactsOf(g, org)
    ensures id in f && f[id].org == org <==> id in g && g[id].org == org
    ensures id in f && f[id].org == org ==> id in g && f[id] == g[id]
  {
    assert id in FactsOf(f, org) <==> id in FactsOf(g, org);
    assert id in FactsOf(f, org) ==> FactsOf(f, org)[id] == FactsOf(g, org)[id];
  }

  ghost predicate SameOutcome(org: OrgId, a: Outcome, b: Outcome) {
    FactsOf(a.facts, org) == FactsOf(b.facts, org) && a.ids == b.ids && a.reply == b.reply && a.audited == b.audited
  }

  lemma SameRetire(f: Facts, g: Facts, ctx: Ctx, target: Id, link: Id)
    requires FactsOf(f, ctx.org) == FactsOf(g, ctx.org) && ctx.orgs == {ctx.org}
    ensures FactsOf(Retire(f, ctx.orgs, target, link), ctx.org) == FactsOf(Retire(g, ctx.orgs, target, link), ctx.org)
  {
    SameRow(f, g, ctx.org, target);
    if target in f && f[target].org == ctx.org {
      SameUpdate(f, g, ctx.org, target, f[target].(status := Superseded, supersededBy := Some(link)));
    }
  }

  lemma SameSupersede(f: Facts, g: Facts, ctx: Ctx, first: Id, arg: IdArg, p: Payload)
    requires FactsOf(f, ctx.org) == FactsOf(g, ctx.org) && ctx.orgs == {ctx.org}
    ensures SameOutcome(ctx.org, Supersede(f, ctx, first, arg, p), Supersede(g, ctx, first, arg, p))
  {
    if arg.Uuid? && Validate(p).Some? {
      var v, w := InsertFact(f, ctx, first, Validate(p).value), InsertFact(g, ctx, first, Validate(p).value);
      SameRow(f, g, ctx.org, arg.id);
      SameInsertion(f, g, ctx, first, Validate(p).value);
      SameRetire(v.facts, w.facts, ctx, arg.id, v.id);
    }
  }

  lemma SameSetStatus(f: Facts, g: Facts, ctx: Ctx, id: Id, status: FactStatus)
    requires FactsOf(f, ctx.org) == FactsOf(g, ctx.org) && ctx.orgs == {ctx.org}
    ensures FactsOf(SetStatus(f, ctx.orgs, id, status), ctx.org) == FactsOf(SetStatus(g, ctx.orgs, id, status), ctx.org)
  {
    SameRow(f, g, ctx.org, id);
    if id in f && f[id].org == ctx.org {
      SameUpdate(f, g, ctx.org, id, f[id].(status := status));
    }
  }

  lemma SameDecision(f: Facts, g: Facts, ctx: Ctx, arg: IdArg, status: FactStatus)
    requires FactsOf(f, ctx.org) == FactsOf(g, ctx.org) && ctx.orgs == {ctx.org}
    ensures SameOutcome(ctx.org, Decide(f, ctx, arg, status), Decide(g, ctx, arg, status))
  {
    SameViews(f, g, ctx, ctx.scopes);
    if arg.Uuid? {
      SameSetStatus(f, g, ctx, arg.id, status);
    }
  }

  lemma SameProfile(f: Facts, g: Facts, ctx: Ctx)
    requires FactsOf(f, ctx.org) == FactsOf(g, ctx.org) && ctx.orgs == {ctx.org}
    ensures SameOutcome(ctx.org, ReadProfile(f, ctx), ReadProfile(g, ctx))
  {
    SameViews(f, g, ctx, ctx.scopes);
    ProfileCandidatesAreVisible(f, ctx);
    ProfileCandidatesAreVisible(g, ctx);
    var ids := ProfileCandidates(f, ctx);
    var view := ActiveView(f, ctx, ctx.scopes);
    forall id | id in ids ensures id in f && id in g && f[id] == g[id] {
      assert id in view && view[id] == f[id];
      assert ActiveView(g, ctx, ctx.scopes)[id] == g[id];
    }
    assert LinesOf(f, ids) == LinesOf(g, ids);
  }

  lemma SameSearch(f: Facts, g: Facts, ctx: Ctx, q: Query)
    requires FactsOf(f, ctx.org) == FactsOf(g, ctx.org) && ctx.orgs == {ctx.org}
    ensures SameOutcome(ctx.org, RunSearch(f, ctx, q), RunSearch(g, ctx, q))
  {
    SameViews(f, g, ctx, ctx.scopes);
  }

  lemma SameFetch(f: Facts, g: Facts, ctx: Ctx, arg: IdArg)
    requires FactsOf(f, ctx.org) == FactsOf(g, ctx.org) && ctx.orgs == {ctx.org}
    ensures SameOutcome(ctx.org, FetchFact(f, ctx, arg), FetchFact(g, ctx, arg))
  {
    SameViews(f, g, ctx, ctx.scopes);
  }

  lemma SameListing(f: Facts, g: Facts, ctx: Ctx, limit: int)
    requires FactsOf(f, ctx.org) == FactsOf(g, ctx.org) && ctx.orgs == {ctx.org}
    ensures SameOutcome(ctx.org, CountFacts(f, ctx), CountFacts(g, ctx))
    ensures SameOutcome(ctx.org, ListPending(f, ctx, limit), ListPending(g, ctx, limit))
  {
    SameViews(f, g, ctx, ctx.scopes);
  }

  lemma SameActivity(f: Facts, g: Facts, ctx: Ctx, domain: Option<string>)
    requires FactsOf(f, ctx.org) == FactsOf(g, ctx.org) && ctx.orgs == {ctx.org}
    ensures SameOutcome(ctx.org, ReadActivity(f, ctx, domain), ReadActivity(g, ctx, domain))
  {
    SameViews(f, g, ctx, if domain.Some? then [domain.value] else ctx.scopes);
  }

  lemma SameRead(f: Facts, g: Facts, ctx: Ctx, op: Op)
    requires FactsOf(f, ctx.org) == FactsOf(g, ctx.org) && ctx.orgs == {ctx.org}
    requires !op.RememberFacts? && !op.SupersedeFact? && !op.PromoteFact? && !op.RejectFact?
    ensures SameOutcome(ctx.org, Read(f, ctx, op), Read(g, ctx, op))
  {
    match op
    case GetProfile => SameProfile(f, g, ctx);
    case GetRecentActivity(domain) => SameActivity(f, g, ctx, domain);
    case SearchContext(q) => SameSearch(f, g, ctx, q);
    case Search(q) => SameSearch(f, g, ctx, q);
    case Fetch(arg) => SameFetch(f, g, ctx, arg);
    case ListPendingFacts(limit) => SameListing(f, g, ctx, limit);
    case Ping => SameListing(f, g, ctx, 0);
  }

  /** A tool does the same for states its org cannot tell apart. */
  lemma SameAct(f: Facts, g: Facts, ctx: Ctx, first: Id, op: Op)
    requires FactsOf(f, ctx.org) == FactsOf(g, ctx.org) && ctx.orgs == {ctx.org}
    ensures SameOutcome(ctx.org, Act(f, ctx, first, op), Act(g, ctx, first, op))
  {
    match op
    case RememberFacts(items) => SameBatch(f, g, ctx, first, items[..Clean(items)]);
    case SupersedeFact(arg, p) => SameSupersede(f, g, ctx, first, arg, p);
    case PromoteFact(arg) => SameDecision(f, g, ctx, arg, Active);
    case RejectFact(arg, _) => SameDecision(f, g, ctx, arg, Rejected);
    case _ => SameRead(f, g, ctx, op);
  }

  lemma SameSeatRows(s: Seats, t: Seats, org: OrgId, oauth: string)
    requires SeatsOf(s, org) == SeatsOf(t, org)
    ensures SeatRows(s, org, oauth) == SeatRows(t, org, oauth)
    ensures forall id | id in SeatRows(s, org, oauth) :: s[id] == t[id]
  {
    var ss, tt := SeatsOf(s, org), SeatsOf(t, org);
    assert forall id :: id in SeatRows(s, org, oauth) <==> id in ss && ss[id].oauth == oauth;
    assert forall id :: id in SeatRows(t, org, oauth) <==> id in tt && tt[id].oauth == oauth;
    assert forall id | id in ss :: ss[id] == s[id] && tt[id] == t[id];
  }

  lemma SameEntry(s: Db, t: Db, org: OrgId, role: Role, first: Id, user: UserId, oauth: string)
    requires SameFor(org, s, t)
    ensures var a, b := Enter(s, org, role, first, user, oauth), Enter(t, org, role, first, user, oauth);
      a.ctx == b.ctx && a.revoked == b.revoked && SeatsOf(a.seats, org) == SeatsOf(b.seats, org)
  {
    SameSeatRows(s.seats, t.seats, org, oauth);
    SameSeatUpdate(s.seats, t.seats, org, first, FirstContactSeat(org, user, oauth));
  }

  lemma SameSeatUpdate(s: Seats, t: Seats, org: OrgId, id: Id, seat: Seat)
    requires SeatsOf(s, org) == SeatsOf(t, org) && seat.org == org
    ensures SeatsOf(s[id := seat], org) == SeatsOf(t[id := seat], org)
  {
    assert SeatsOf(s[id := seat], org) == SeatsOf(s, org)[id := seat];
    assert SeatsOf(t[id := seat], org) == SeatsOf(t, org)[id := seat];
  }

  lemma UpdateWithin(s: Seats, org: OrgId, o: OrgId, oauth: string, change: SeatChange)
    ensures SeatsOf(UpdateSeats(s, o, oauth, change), org) == UpdateSeats(SeatsOf(s, org), o, oauth, change)
  {
  }

  lemma UpdateElsewhere(s: Seats, org: OrgId, o: OrgId, oauth: string, change: SeatChange)
    requires o != org
    ensures SeatsOf(UpdateSeats(s, o, oauth, change), org) == SeatsOf(s, org)
  {
  }

  lemma SameAdmin(s: Db, t: Db, first: Id, action: AdminOp, org: OrgId)
    requires SameFor(org, s, t) && Concerns(s.members, Admin(first, action), org)
    ensures SameFor(org, StepAdmin(s, first, action).db, StepAdmin(t, first, action).db)
    ensures StepAdmin(s, first, action).reply == StepAdmin(t, first, action).reply
  {
    match action
    case RegisterConnector(o, oauth, source, registrant, displayName, scopes) =>
      SameSeatRows(s.seats, t.seats, org, oauth);
      var rows := SeatRows(s.seats, org, oauth);
      if rows != {} {
        var id := Pick(rows);
        SameSeatUpdate(s.seats, t.seats, org, id, Reregistered(s.seats[id], source, displayName, scopes));
      } else {
        SameSeatUpdate(s.seats, t.seats, org, first, NewConnector(o, oauth, source, registrant, displayName, scopes));
      }
    case SetConnectorSource(o, oauth, source) =>
      UpdateWithin(s.seats, org, o, oauth, NewSource(source));
      UpdateWithin(t.seats, org, o, oauth, NewSource(source));
    case SetSeatStatus(o, oauth, status) =>
      UpdateWithin(s.seats, org, o, oauth, NewStatus(status, first.call));
      UpdateWithin(t.seats, org, o, oauth, NewStatus(status, first.call));
    case _ =>
  }

  /** Logging the same row keeps two logs alike for the org. */
  lemma SameLog(org: OrgId, s: Db, t: Db, s': Db, t': Db, row: AuditRow)
    requires SameFor(org, s, t) && s'.members == t'.members
    requires FactsOf(s'.facts, org) == FactsOf(t'.facts, org) && SeatsOf(s'.seats, org) == SeatsOf(t'.seats, org)
    requires
      || (s'.audit == s.audit && t'.audit == t.audit)
      || (s'.audit == s.audit + [row] && t'.audit == t.audit + [row])
    ensures SameFor(org, s', t')
  {
    AuditOfAppend(s.audit, row, org);
    AuditOfAppend(t.audit, row, org);
  }

  lemma OwnCallsSeeOwnState(s: Db, t: Db, first: Id, user: UserId, oauth: string, op: Op, role: Role, org: OrgId)
    requires SameFor(org, s, t) && UserOrgIds(s.members, user) == {org}
    requires ResolveMembership(s.members, user) == Member(org, role)
    ensures SameFor(org, StepCall(s, first, user, oauth, op).db, StepCall(t, first, user, oauth, op).db)
    ensures StepCall(s, first, user, oauth, op).reply == StepCall(t, first, user, oauth, op).reply
  {
    SameEntry(s, t, org, role, first, user, oauth);
    var ctx := Enter(s, org, role, first, user, oauth).ctx;
    var revoked := Enter(s, org, role, first, user, oauth).revoked;
    SameAct(s.facts, t.facts, ctx, first, op);
    var ids := if revoked then [] else Act(s.facts, ctx, first, op).ids;
    SameLog(org, s, t, StepCall(s, first, user, oauth, op).db, StepCall(t, first, user, oauth, op).db,
            AuditRow(org, user, ctx.seat, ToolName(op), ids));
  }

  /** The org's own events read and write only what the org can see. */
  lemma OwnEventsSeeOwnState(s: Db, t: Db, e: Event, org: OrgId)
    requires SameFor(org, s, t) && Concerns(s.members, e, org)
    ensures SameFor(org, Step(s, e).db, Step(t, e).db)
    ensures Step(s, e).reply == Step(t, e).reply
  {
    match e
    case Call(first, user, oauth, op) =>
      var m := ResolveMembership(s.members, user);
      SingleMembership(s.members, user);
      assert |UserOrgIds(s.members, user)| == 1;
      assert m.Member? && m.org in UserOrgIds(s.members, user);
      OwnCallsSeeOwnState(s, t, first, user, oauth, op, m.role, org);
    case Admin(first, action) => SameAdmin(s, t, first, action, org);
  }

  // ---------------------------------------------------------------- whole runs

  lemma FreshAppend(db: Db, es: seq<Event>, e: Event)
    requires Fresh(db, es) && Before(db, e.first.call) && forall x :: x in es ==> x.first.call < e.first.call
    ensures Fresh(db, es + [e])
  {
  }

  lemma {:induction false} PurgeIsSubsequence(db: Db, es: seq<Event>, org: OrgId)
    requires Fresh(db, es)
    ensures Fresh(db, Purge(db, es, org))
    ensures forall e :: e in Purge(db, es, org) ==> e in es
  {
    if es == [] {
    } else {
      var n := |es| - 1;
      FreshPrefix(db, es, n);
      PurgeIsSubsequence(db, es[..n], org);
      var p := Purge(db, es[..n], org);
      forall e | e in p ensures e.first.call < es[n].first.call {
        assert e in es[..n];
        var k :| 0 <= k < n && es[..n][k] == e;
        assert es[k] == e;
      }
      FreshAppend(db, p, es[n]);
      assert Purge(db, es, org) == p || Purge(db, es, org) == p + [es[n]];
    }
  }

  /** Noninterference over whole runs: deleting every event that does not concern the org, from
      any run, membership changes included, leaves the org's facts, seats and audit rows and
      all replies to its own events unchanged. */
  lemma {:induction false} OrgsDoNotInterfere(db: Db, es: seq<Event>, org: OrgId)
    requires Indexed(db) && Fresh(db, es)
    ensures SameFor(org, Run(db, es), Run(db, Purge(db, es, org)))
    ensures Replies(db, es, org) == Replies(db, Purge(db, es, org), org)
  {
    if es == [] {
    } else {
      var n := |es| - 1;
      LastStepIsFresh(db, es);
      OrgsDoNotInterfere(db, es[..n], org);
      var s, p := Run(db, es[..n]), Purge(db, es[..n], org);
      if Concerns(s.members, es[n], org) {
        var q := p + [es[n]];
        assert q[..|q| - 1] == p;
        OwnEventsSeeOwnState(s, Run(db, p), es[n], org);
      } else {
        OtherEventsAreInvisible(s, es[n], org);
        assert Purge(db, es, org) == p;
      }
    }
  }
}
