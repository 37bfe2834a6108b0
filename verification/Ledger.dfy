/** The ledger server: tables updated in place by single database requests, and the tools and
    operator actions that issue them. Each is proved to do exactly what `Tools` says. */
module LedgerServer {
  import opened Schema
  import opened Intake
  import opened Selection
  import opened Tools
  import opened Lifecycle
  import opened Registration
  import ToolAnswers
  import ProfileBudget

  /** How the database answers an insert: 23505, 42501, or an error about the values themselves, such
      as 22P05, 22003 or 54000. */
  datatype DbResult = Inserted | UniqueViolation | RlsViolation | BadValue

  /** What `_insert_fact` comes back with, unless it raises. */
  datatype Written = Raised | Wrote(isNew: bool, id: Id)

  /** What `_begin` comes back with. */
  datatype Begun = Stopped(error: Error) | Started(ctx: Ctx)

  lemma ReviewActs(facts: Facts, ctx: Ctx, first: Id, arg: IdArg, promote: bool, reason: Option<string>)
    ensures Act(facts, ctx, first, if promote then PromoteFact(arg) else RejectFact(arg, reason)) ==
      Decide(facts, ctx, arg, if promote then Active else Rejected)
  {
  }

  lemma WritesAct(facts: Facts, ctx: Ctx, first: Id, items: seq<Payload>, target: IdArg, replacement: Payload)
    ensures Act(facts, ctx, first, Op.RememberFacts(items)) == Remember(facts, ctx, first, items)
    ensures Act(facts, ctx, first, Op.SupersedeFact(target, replacement)) ==
      Supersede(facts, ctx, first, target, replacement)
  {
  }

  class Ledger {
    var members: Members
    var seats: Seats
    var facts: Facts
    var audit: seq<AuditRow>

    ghost function State(): Db
      reads this
    {
      Db(members, seats, facts, audit)
    }

    /** The unique indexes hold. */
    ghost predicate Valid()
      reads this
    {
      Indexed(State())
    }

    constructor ()
      ensures Valid() && State() == Db(map[], map[], map[], [])
    {
      members, seats, facts, audit := map[], map[], map[], [];
    }

    // -------------------------------------------------------------- single requests

    /** `memberships_select_self`. */
    method SelectMemberships(user: UserId) returns (rows: set<OrgId>)
      ensures forall org :: org in rows <==> MemberKey(org, user) in members
    {
      rows := set k | k in members && k.user == user :: k.org;
      assert forall org :: MemberKey(org, user) in members ==> MemberKey(org, user).org in rows;
    }

    /** A caller-scoped select on `clients`. */
    method SelectSeats(user: UserId, org: OrgId, oauth: string) returns (rows: set<Id>)
      ensures rows == if org in UserOrgIds(members, user) then SeatRows(seats, org, oauth) else {}
    {
      rows := set id | id in SeatRows(seats, org, oauth) && seats[id].org in UserOrgIds(members, user);
    }

    /** A caller-scoped insert into `clients`. */
    method InsertSeat(user: UserId, id: Id, seat: Seat) returns (r: DbResult)
      requires id !in seats
      modifies this`seats
      ensures !r.BadValue? && (r.RlsViolation? <==> !(seat.org in UserOrgIds(members, user) && seat.registrant == user))
      ensures r.Inserted? ==> SeatRows(old(seats), seat.org, seat.oauth) == {} && seats == old(seats)[id := seat]
      ensures r.UniqueViolation? ==> SeatRows(old(seats), seat.org, seat.oauth) != {}
      ensures !r.Inserted? ==> seats == old(seats)
    {
      if seat.org !in UserOrgIds(members, user) || seat.registrant != user {
        return RlsViolation;
      }
      if SeatRows(seats, seat.org, seat.oauth) != {} {
        return UniqueViolation;
      }
      seats := seats[id := seat];
      return Inserted;
    }

    /** A caller-scoped insert into `facts`; `accepted` says whether the database takes the values. */
    method InsertRow(user: UserId, id: Id, row: Fact, accepted: bool) returns (r: DbResult)
      requires id !in facts
      modifies this`facts
      ensures r.BadValue? <==> !accepted
      ensures r.RlsViolation? ==> !(row.org in UserOrgIds(members, user) && row.owner == user)
      ensures r.Inserted? || r.UniqueViolation? ==> row.org in UserOrgIds(members, user) && row.owner == user
      ensures r.Inserted? ==> facts == old(facts)[id := row]
      ensures r.Inserted? && row.dedupeKey.Some? ==> Holders(old(facts), row.org, row.dedupeKey.value) == {}
      ensures r.UniqueViolation? ==> row.dedupeKey.Some? && Holders(old(facts), row.org, row.dedupeKey.value) != {}
      ensures !r.Inserted? ==> facts == old(facts)
    {
      if !accepted {
        return BadValue;
      }
      if row.org !in UserOrgIds(members, user) || row.owner != user {
        return RlsViolation;
      }
      if row.dedupeKey.Some? && Holders(facts, row.org, row.dedupeKey.value) != {} {
        return UniqueViolation;
      }
      facts := facts[id := row];
      return Inserted;
    }

    /** A caller-scoped select on `facts` by dedupe key. */
    method SelectHolders(user: UserId, org: OrgId, key: string) returns (rows: set<Id>)
      ensures rows == if org in UserOrgIds(members, user) then Holders(facts, org, key) else {}
    {
      rows := set id | id in Holders(facts, org, key) && facts[id].org in UserOrgIds(members, user);
    }

    /** A select on `rows` with a limit and no order: as many as the limit allows, whichever the
        database comes across. */
    method SelectSome(rows: Facts, limit: nat) returns (ids: seq<Id>)
      ensures |ids| <= limit && Distinct(ids) && forall id :: id in ids ==> id in rows
      ensures forall x | x in rows && x !in ids :: |ids| == limit
    {
      ids := [];
      var left := rows;
      while |ids| < limit && left != map[]
        invariant |ids| <= limit && Distinct(ids)
        invariant left.Keys == rows.Keys - set id | id in ids
        invariant forall id :: id in ids ==> id in rows
        decreases limit - |ids|
      {
        var id :| id in left;
        ids := ids + [id];
        left := left - {id};
      }
      forall x | x in rows && x !in ids ensures |ids| == limit {
        assert x in rows.Keys - set id | id in ids;
      }
    }

    // -------------------------------------------------------------- _begin and _finish

    /** `_resolve_membership`. */
    method ResolveMember(user: UserId) returns (r: Resolution)
      ensures r == ResolveMembership(members, user)
    {
      var rows := SelectMemberships(user);
      assert rows == UserOrgIds(members, user) by {
        forall o ensures o in rows <==> o in UserOrgIds(members, user) {
          OrgIffKey(members, user, o);
        }
      }
      if rows == {} {
        return Refused(NoOrg);
      }
      if |rows| > 1 {
        return Refused(MultiOrg);
      }
      var org :| org in rows;
      SingleMembership(members, user);
      assert rows == {org};
      r := Member(org, members[MemberKey(org, user)]);
    }

    /** `_resolve_client`: find or create the seat; an existing one is never modified. */
    method ResolveClient(user: UserId, org: OrgId, oauth: string, first: Id) returns (id: Id)
      requires Valid() && first !in seats && org in UserOrgIds(members, user)
      modifies this`seats
      ensures (seats, id) == ResolveSeat(old(seats), org, user, oauth, first)
    {
      var found := SelectSeats(user, org, oauth);
      if found != {} {
        id :| id in found;
        assert forall x | x in found :: x == id;
        return;
      }
      var r := InsertSeat(user, first, FirstContactSeat(org, user, oauth));
      match r
      case Inserted => id := first;
      case UniqueViolation => assert false;  // needs another first contact in between: see Interleaving
      case RlsViolation => assert false;
      case BadValue => assert false;
    }

    /** `_finish`: one more row, and every earlier row still there. */
    method Finish(ctx: Ctx, op: Op, ids: seq<Id>)
      modifies this`audit
      ensures old(audit) <= audit && |audit| == |old(audit)| + 1
      ensures var row := audit[|old(audit)|];
        && row.org == ctx.org && row.user == ctx.user && row.seat == ctx.seat
        && row.tool == ToolName(op) && row.factIds == ids
      ensures audit == Audited(old(audit), ctx, op, ids)
    {
      audit := audit + [AuditRow(ctx.org, ctx.user, ctx.seat, ToolName(op), ids)];
    }

    /** `_begin`: resolve membership, then the seat; a revoked seat is audited and refused. */
    method Begin(first: Id, user: UserId, oauth: string, op: Op) returns (b: Begun)
      requires Valid() && Before(State(), first.call)
      modifies this`seats, this`audit
      ensures match ResolveMembership(members, user)
        case Refused(error) => b == Stopped(error) && State() == old(State())
        case Member(org, role) =>
          var e := Enter(old(State()), org, role, first, user, oauth);
          && seats == e.seats
          && (if e.revoked then b == Stopped(SeatRevoked) && audit == Audited(old(audit), e.ctx, op, [])
              else b == Started(e.ctx) && audit == old(audit))
      ensures b.Started? ==> b.ctx.orgs == {b.ctx.org} && b.ctx.user == user && b.ctx.orgs == UserOrgIds(members, user)
    {
      var m := ResolveMember(user);
      SingleMembership(members, user);
      if m.Refused? {
        return Stopped(m.error);
      }
      var id := ResolveClient(user, m.org, oauth, first);
      var row := seats[id];
      var ctx := MakeCtx(members, user, m.org, m.role, id, row);
      if row.status == Revoked {
        Finish(ctx, op, []);
        return Stopped(SeatRevoked);
      }
      return Started(ctx);
    }

    // -------------------------------------------------------------- writing tools

    /** `_insert_fact`. It raises only for values the database refuses: row-level security accepts the
        stamped row, and a key collision always finds the row that caused it. */
    method InsertOrFind(ctx: Ctx, id: Id, f: FactInput) returns (w: Written)
      requires Valid() && id !in facts && ctx.org in ctx.orgs && ctx.orgs == UserOrgIds(members, ctx.user)
      modifies this`facts
      ensures w.Raised? <==> !Storable(f)
      ensures w.Raised? ==> facts == old(facts)
      ensures w.Wrote? ==> Insertion(facts, w.id, w.isNew) == Tools.InsertFact(old(facts), ctx, id, f)
    {
      var r := InsertRow(ctx.user, id, FactRow(ctx, f), Storable(f));
      match r
      case Inserted => w := Wrote(true, id);
      case UniqueViolation =>
        var existing := SelectHolders(ctx.user, ctx.org, f.dedupeKey.value);
        var found :| found in existing;
        assert forall x | x in existing :: x == found;
        w := Wrote(false, found);
      case RlsViolation => assert false;
      case BadValue => w := Raised;
    }

    /** The body of `remember_facts` after `_begin`: the accumulating loop. */
    method WriteAll(ctx: Ctx, op: Op, first: Id, items: seq<Payload>) returns (reply: Reply)
      requires Valid() && AllBefore(facts, first.call)
      requires ctx.org in ctx.orgs && ctx.orgs == UserOrgIds(members, ctx.user)
      modifies this`facts, this`audit
      ensures var o := Remember(old(facts), ctx, first, items);
        && facts == o.facts && reply == o.reply
        && audit == if o.audited then Audited(old(audit), ctx, op, o.ids) else old(audit)
    {
      ghost var before := facts;
      var created: seq<Id>, deduped: seq<Id>, invalid: seq<nat>, touched: seq<Id> := [], [], [], [];
      for index := 0 to |items|
        invariant index <= Clean(items) && audit == old(audit)
        invariant Batch(facts, created, deduped, invalid, touched) == WriteBatch(before, ctx, first, items[..index])
        invariant Valid()
      {
        assert items[..index + 1][..index] == items[..index];
        WriteBatchGrows(before, ctx, first, items[..index]);
        var checked := Validate(items[index]);
        match checked
        case None => invalid := invalid + [index];
        case Some(f) =>
          InsertFactGrows(facts, ctx, NthId(first, index), f);
          var w := InsertOrFind(ctx, NthId(first, index), f);
          if w.Raised? {
            return Failed(DatabaseError);
          }
          touched := touched + [w.id];
          if w.isNew {
            created := created + [w.id];
          } else {
            deduped := deduped + [w.id];
          }
      }
      Finish(ctx, op, touched);
      reply := Remembered(created, deduped, invalid, ctx.source);
    }

    /** `remember_facts`. */
    method RememberFacts(first: Id, user: UserId, oauth: string, items: seq<Payload>) returns (reply: Reply)
      requires Valid() && Before(State(), first.call)
      modifies this
      ensures Valid()
      ensures Result(State(), reply) == StepCall(old(State()), first, user, oauth, Op.RememberFacts(items))
    {
      StepKeepsIndexes(State(), Call(first, user, oauth, Op.RememberFacts(items)));
      var b := Begin(first, user, oauth, Op.RememberFacts(items));
      if b.Stopped? {
        return Failed(b.error);
      }
      reply := WriteAll(b.ctx, Op.RememberFacts(items), first, items);
    }

    /** The body of `supersede_fact` after `_begin`. */
    method ReplaceFact(ctx: Ctx, op: Op, first: Id, target: IdArg, replacement: Payload) returns (reply: Reply)
      requires Valid() && first !in facts && ctx.org in ctx.orgs && ctx.orgs == UserOrgIds(members, ctx.user)
      modifies this`facts, this`audit
      ensures var o := Supersede(old(facts), ctx, first, target, replacement);
        && facts == o.facts && reply == o.reply
        && audit == if o.audited then Audited(old(audit), ctx, op, o.ids) else old(audit)
    {
      if target.NotUuid? {
        Finish(ctx, op, []);
        return Failed(BadId);
      }
      var checked := Validate(replacement);
      if checked.None? {
        Finish(ctx, op, []);
        return InvalidReplacement;
      }
      if target.Unreadable? {
        return Failed(DatabaseError);
      }
      if target.id !in Visible(facts, ctx.orgs) {
        Finish(ctx, op, []);
        return NoSuchFact;
      }
      var w := InsertOrFind(ctx, first, checked.value);
      if w.Raised? {
        return Failed(DatabaseError);
      }
      facts := Retire(facts, ctx.orgs, target.id, w.id);
      Finish(ctx, op, [w.id, target.id]);
      reply := Replaced(target.id, w.id, FactStatusFor(checked.value.confidence), !w.isNew);
    }

    /** `supersede_fact`. */
    method SupersedeFact(first: Id, user: UserId, oauth: string, target: IdArg, replacement: Payload)
      returns (reply: Reply)
      requires Valid() && Before(State(), first.call)
      modifies this
      ensures Valid()
      ensures Result(State(), reply) ==
        StepCall(old(State()), first, user, oauth, Op.SupersedeFact(target, replacement))
    {
      var op := Op.SupersedeFact(target, replacement);
      StepKeepsIndexes(State(), Call(first, user, oauth, op));
      var b := Begin(first, user, oauth, op);
      if b.Stopped? {
        return Failed(b.error);
      }
      WritesAct(facts, b.ctx, first, [], target, replacement);
      reply := ReplaceFact(b.ctx, op, first, target, replacement);
    }

    /** The body of `_review_decision` after `_begin`. */
    method DecidePending(ctx: Ctx, op: Op, arg: IdArg, status: FactStatus) returns (reply: Reply)
      modifies this`facts, this`audit
      ensures var o := Decide(old(facts), ctx, arg, status);
        && facts == o.facts && reply == o.reply
        && audit == if o.audited then Audited(old(audit), ctx, op, o.ids) else old(audit)
    {
      if !MayReview(ctx.role) {
        Finish(ctx, op, []);
        return Failed(ReviewDenied);
      }
      if arg.NotUuid? {
        Finish(ctx, op, []);
        return Failed(BadId);
      }
      if arg.Unreadable? {
        return Failed(DatabaseError);
      }
      if arg.id !in PendingView(facts, ctx) {
        Finish(ctx, op, []);
        return NotPending;
      }
      facts := SetStatus(facts, ctx.orgs, arg.id, status);
      Finish(ctx, op, [arg.id]);
      reply := Decided(arg.id, status);
    }

    /** `_review_decision`, for `promote_fact` and `reject_fact`. */
    method ReviewDecision(first: Id, user: UserId, oauth: string, arg: IdArg, promote: bool, reason: Option<string>)
      returns (reply: Reply)
      requires Valid() && Before(State(), first.call)
      modifies this
      ensures Valid()
      ensures Result(State(), reply) == StepCall(old(State()), first, user, oauth,
        if promote then Op.PromoteFact(arg) else Op.RejectFact(arg, reason))
    {
      var op := if promote then Op.PromoteFact(arg) else Op.RejectFact(arg, reason);
      StepKeepsIndexes(State(), Call(first, user, oauth, op));
      var b := Begin(first, user, oauth, op);
      if b.Stopped? {
        return Failed(b.error);
      }
      ReviewActs(facts, b.ctx, first, arg, promote, reason);
      reply := DecidePending(b.ctx, op, arg, if promote then Active else Rejected);
    }

    // -------------------------------------------------------------- reading tools

    /** `get_profile`. */
    method GetProfile(first: Id, user: UserId, oauth: string) returns (reply: Reply)
      requires Valid() && Before(State(), first.call)
      modifies this
      ensures Valid()
      ensures Result(State(), reply) == StepCall(old(State()), first, user, oauth, Op.GetProfile)
    {
      StepKeepsIndexes(State(), Call(first, user, oauth, Op.GetProfile));
      var b := Begin(first, user, oauth, Op.GetProfile);
      if b.Stopped? {
        return Failed(b.error);
      }
      var candidates := ProfileCandidates(facts, b.ctx);
      ProfileCandidatesAreVisible(facts, b.ctx);
      var all := LinesOf(facts, candidates);
      var lines := ProfileBudget.TakeWithinBudget(all);
      ProfileBudget.LongestFitIsUnique(all, |lines|, ProfileBudget.Fit(all));
      Finish(b.ctx, Op.GetProfile, candidates[..|lines|]);
      reply := Profile(lines);
    }

    /** `_search_facts`: full text first, the pattern if that finds nothing. */
    method FindFacts(ctx: Ctx, q: Query) returns (ids: seq<Id>)
      ensures ToolAnswers.SearchResult(facts, ctx, q, ids)
    {
      var rows := ActiveView(facts, ctx, ctx.scopes);
      var hits := FullTextHits(rows, q);
      ids := SelectSome(hits, SEARCH_CONTEXT_LIMIT);
      ToolAnswers.FullTextIsResult(facts, ctx, q, ids);
      if ids == [] {
        ids := Page(PatternHits(rows, q), Surest, SEARCH_CONTEXT_LIMIT);
        ToolAnswers.PatternIsResult(facts, ctx, q);
      }
    }

    /** `search` and `search_context`, which differ in how they print their result. */
    method SearchOrContext(first: Id, user: UserId, oauth: string, q: Query, context: bool) returns (reply: Reply)
      requires Valid() && Before(State(), first.call)
      modifies this`seats, this`audit
      ensures Valid()
      ensures var op := if context then Op.SearchContext(q) else Op.Search(q);
        match ResolveMembership(members, user)
        case Refused(error) => reply == Failed(error) && State() == old(State())
        case Member(org, role) =>
          var e := Enter(old(State()), org, role, first, user, oauth);
          && seats == e.seats
          && (if e.revoked then reply == Failed(SeatRevoked) && audit == Audited(old(audit), e.ctx, op, [])
              else if q.refused || '\0' in q.text then reply == Failed(DatabaseError) && audit == old(audit)
              else
                && reply.Found? && ToolAnswers.SearchResult(facts, e.ctx, q, reply.ids)
                && audit == Audited(old(audit), e.ctx, op, reply.ids))
    {
      var op := if context then Op.SearchContext(q) else Op.Search(q);
      StepKeepsIndexes(State(), Call(first, user, oauth, op));
      var b := Begin(first, user, oauth, op);
      if b.Stopped? {
        return Failed(b.error);
      }
      if !Answerable(q) {
        return Failed(DatabaseError);
      }
      var ids := FindFacts(b.ctx, q);
      Finish(b.ctx, op, ids);
      reply := Found(ids);
    }

    /** `get_recent_activity`. */
    method GetRecentActivity(first: Id, user: UserId, oauth: string, domain: Option<string>) returns (reply: Reply)
      requires Valid() && Before(State(), first.call)
      modifies this
      ensures Valid()
      ensures Result(State(), reply) == StepCall(old(State()), first, user, oauth, Op.GetRecentActivity(domain))
    {
      var op := Op.GetRecentActivity(domain);
      StepKeepsIndexes(State(), Call(first, user, oauth, op));
      var b := Begin(first, user, oauth, op);
      if b.Stopped? {
        return Failed(b.error);
      }
      if domain.Some? && domain.value !in b.ctx.scopes {
        Finish(b.ctx, op, []);
        return OutOfScope;
      }
      var rows := ActiveView(facts, b.ctx, if domain.Some? then [domain.value] else b.ctx.scopes);
      var ids := Page(OfKind(rows, {"state", "episodic", "behavioral"}), Newest, RECENT_ACTIVITY_LIMIT);
      Finish(b.ctx, op, ids);
      reply := Activity(ids);
    }

    /** `fetch`. */
    method Fetch(first: Id, user: UserId, oauth: string, arg: IdArg) returns (reply: Reply)
      requires Valid() && Before(State(), first.call)
      modifies this
      ensures Valid()
      ensures Result(State(), reply) == StepCall(old(State()), first, user, oauth, Op.Fetch(arg))
    {
      StepKeepsIndexes(State(), Call(first, user, oauth, Op.Fetch(arg)));
      var b := Begin(first, user, oauth, Op.Fetch(arg));
      if b.Stopped? {
        return Failed(b.error);
      }
      if arg.NotUuid? {
        Finish(b.ctx, Op.Fetch(arg), []);
        return Failed(BadId);
      }
      if arg.Unreadable? {
        return Failed(DatabaseError);
      }
      var rows := ActiveView(facts, b.ctx, b.ctx.scopes);
      if arg.id !in rows {
        Finish(b.ctx, Op.Fetch(arg), []);
        return Failed(NotAccessible);
      }
      Finish(b.ctx, Op.Fetch(arg), [arg.id]);
      reply := Fetched(arg.id, rows[arg.id]);
    }

    /** `ping`. */
    method Ping(first: Id, user: UserId, oauth: string) returns (reply: Reply)
      requires Valid() && Before(State(), first.call)
      modifies this
      ensures Valid()
      ensures Result(State(), reply) == StepCall(old(State()), first, user, oauth, Op.Ping)
    {
      StepKeepsIndexes(State(), Call(first, user, oauth, Op.Ping));
      var b := Begin(first, user, oauth, Op.Ping);
      if b.Stopped? {
        return Failed(b.error);
      }
      var count := |ActiveView(facts, b.ctx, b.ctx.scopes)|;
      Finish(b.ctx, Op.Ping, []);
      reply := Pong(count);
    }

    /** `list_pending_facts`. */
    method ListPendingFacts(first: Id, user: UserId, oauth: string, limit: int) returns (reply: Reply)
      requires Valid() && Before(State(), first.call)
      modifies this
      ensures Valid()
      ensures Result(State(), reply) == StepCall(old(State()), first, user, oauth, Op.ListPendingFacts(limit))
    {
      StepKeepsIndexes(State(), Call(first, user, oauth, Op.ListPendingFacts(limit)));
      var b := Begin(first, user, oauth, Op.ListPendingFacts(limit));
      if b.Stopped? {
        return Failed(b.error);
      }
      if !MayReview(b.ctx.role) {
        Finish(b.ctx, Op.ListPendingFacts(limit), []);
        return Failed(ReviewDenied);
      }
      var ids := Page(PendingView(facts, b.ctx), Newest, CappedLimit(limit));
      Finish(b.ctx, Op.ListPendingFacts(limit), ids);
      reply := Pending(ids);
    }

    // -------------------------------------------------------------- operator actions

    /** `add_member`: an upsert on (org, user). */
    method AddMember(now: Id, org: OrgId, user: UserId, role: Option<Role>) returns (reply: Reply)
      requires Valid()
      modifies this`members
      ensures Valid()
      ensures Result(State(), reply) == StepAdmin(old(State()), now, AdminOp.AddMember(org, user, role))
      ensures role.None? ==> members == old(members) && reply == Failed(BadArgument)
      ensures role.Some? ==>
        ResolveMembership(members, user) ==
          (if OnlyIn(old(members), user, org) then Member(org, role.value) else Refused(MultiOrg))
      ensures forall u :: u != user ==> ResolveMembership(members, u) == ResolveMembership(old(members), u)
    {
      ghost var before := State();
      if role.None? {
        return Failed(BadArgument);
      }
      members := members[MemberKey(org, user) := role.value];
      AddedMemberResolves(before, now, now, org, user, role.value);
      reply := Done;
    }

    /** `remove_member`. */
    method RemoveMember(now: Id, org: OrgId, user: UserId) returns (reply: Reply)
      requires Valid()
      modifies this`members
      ensures Valid()
      ensures Result(State(), reply) == StepAdmin(old(State()), now, AdminOp.RemoveMember(org, user))
      ensures UserOrgIds(members, user) == UserOrgIds(old(members), user) - {org}
      ensures UserOrgIds(old(members), user) <= {org} ==> ResolveMembership(members, user) == Refused(NoOrg)
      ensures forall u :: u != user ==> ResolveMembership(members, u) == ResolveMembership(old(members), u)
    {
      RemovedMemberResolves(State(), now, org, user);
      members := members - {MemberKey(org, user)};
      reply := Done;
    }

    /** `register_connector`: check, then update or insert. */
    method RegisterConnector(first: Id, org: OrgId, oauth: string, source: string, registrant: UserId,
                             displayName: Option<string>, scopes: Option<seq<string>>) returns (reply: Reply)
      requires Valid() && Before(State(), first.call)
      modifies this`seats
      ensures Valid()
      ensures Result(State(), reply) == StepAdmin(old(State()), first,
        AdminOp.RegisterConnector(org, oauth, source, registrant, displayName, scopes))
    {
      AdminKeepsIndex(State(), first, AdminOp.RegisterConnector(org, oauth, source, registrant, displayName, scopes));
      if Blank(source) {
        return Failed(BadArgument);
      }
      var existing := SeatRows(seats, org, oauth);
      if existing != {} {
        var id :| id in existing;
        assert forall x | x in existing :: x == id;
        seats := seats[id := Reregistered(seats[id], source, displayName, scopes)];
      } else {
        seats := seats[first := NewConnector(org, oauth, source, registrant, displayName, scopes)];
      }
      reply := Done;
    }

    /** `set_connector_source`. */
    method SetConnectorSource(now: Id, org: OrgId, oauth: string, source: string) returns (reply: Reply)
      requires Valid() && Before(State(), now.call)
      modifies this`seats
      ensures Valid()
      ensures Result(State(), reply) == StepAdmin(old(State()), now, AdminOp.SetConnectorSource(org, oauth, source))
      ensures seats.Keys == old(seats).Keys && (Blank(source) ==> reply == Failed(BadArgument) && seats == old(seats))
      ensures forall id | id in seats ::
        || seats[id] == old(seats)[id]
        || (seats[id].org == org && seats[id].oauth == oauth && seats[id] == old(seats)[id].(source := Some(source)))
      ensures !Blank(source) && SeatRows(old(seats), org, oauth) != {} ==>
        forall role, first, user :: Enter(State(), org, role, first, user, oauth).ctx.source == Some(source)
    {
      UpdateKeepsIndex(seats, org, oauth, NewSource(source));
      if Blank(source) {
        return Failed(BadArgument);
      }
      seats := UpdateSeats(seats, org, oauth, NewSource(source));
      reply := Done;
    }

    /** `set_seat_status`, behind `revoke_seat` and `reinstate_seat`. */
    method SetSeatStatus(now: Id, org: OrgId, oauth: string, status: SeatStatus) returns (reply: Reply)
      requires Valid() && Before(State(), now.call)
      modifies this`seats
      ensures Valid()
      ensures Result(State(), reply) == StepAdmin(old(State()), now, AdminOp.SetSeatStatus(org, oauth, status))
      ensures seats.Keys == old(seats).Keys
      ensures forall id | id in seats ::
        || seats[id] == old(seats)[id]
        || (seats[id].org == org && seats[id].oauth == oauth && seats[id].status == status
            && (seats[id].revokedAt.Some? <==> status == Revoked)
            && seats[id] == old(seats)[id].(status := status, revokedAt := seats[id].revokedAt))
      ensures SeatRows(old(seats), org, oauth) != {} ==>
        forall role, first, user :: Enter(State(), org, role, first, user, oauth).revoked == (status == Revoked)
    {
      UpdateKeepsIndex(seats, org, oauth, NewStatus(status, now.call));
      seats := UpdateSeats(seats, org, oauth, NewStatus(status, now.call));
      reply := Done;
    }
  }
}
