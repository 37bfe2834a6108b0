/** What the writing tools answer and leave behind, and how a call gets to its tool, spelled out
    independently of the functions that compute it. */
module WriteAnswers {
  import opened Schema
  import opened Intake
  import opened Tools
  import opened Lifecycle
  import opened Idempotency
  import opened RoundTrip

  // ---------------------------------------------------------------- what the database refuses

  predicate HasNul(s: Option<string>) {
    s.Some? && '\0' in s.value
  }

  /** The database refuses the item: for one of its texts with a NUL character, or for another reason
      that the item carries. No other character is a reason. */
  predicate Refused(f: FactInput) {
    || f.refused || '\0' in f.content || (exists t :: t in f.tags && '\0' in t)
    || HasNul(f.sourceRef) || HasNul(f.dedupeKey)
  }

  predicate RefusedItem(p: Payload) {
    Validate(p).Some? && Refused(Validate(p).value)
  }

  lemma UnstorableIff(p: Payload)
    ensures Unstorable(p) <==> RefusedItem(p)
  {
  }

  lemma SomeRefused(items: seq<Payload>)
    ensures (exists p :: p in items && RefusedItem(p)) <==> Clean(items) < |items|
  {
    forall p ensures Unstorable(p) <==> RefusedItem(p) {
      UnstorableIff(p);
    }
    if Clean(items) < |items| {
      assert items[Clean(items)] in items;
    }
  }

  // ---------------------------------------------------------------- remember_facts

  /** What a batch reports and leaves, item by item: see `Lands` and `FirstWriteWins`. */
  ghost predicate RememberResult(facts: Facts, ctx: Ctx, first: Id, items: seq<Payload>, b: Batch) {
    && Partitions(b, items)
    && b.created == IdsAt(first, Landing(facts, ctx.org, items, true))
    && Repeats(b, ctx.org, items, Landing(facts, ctx.org, items, false))
    && Answers(b.facts, ctx.org, Keys(items), b.touched)
    && StoresAll(b, ctx, first, items)
    && (forall id :: id in b.facts <==> id in facts || id in b.created)
    && (forall id | id in facts :: id in b.facts && b.facts[id] == facts[id])
  }

  lemma BatchIsResult(facts: Facts, ctx: Ctx, first: Id, items: seq<Payload>)
    requires UniqueKeys(facts) && AllBefore(facts, first.call)
    ensures RememberResult(facts, ctx, first, items, WriteBatch(facts, ctx, first, items))
  {
    BatchPartitions(facts, ctx, first, items);
    CreatedLands(facts, ctx, first, items);
    DedupedLands(facts, ctx, first, items);
    BatchAnswers(facts, ctx, first, items);
    BatchStoresItems(facts, ctx, first, items);
    WriteBatchGrows(facts, ctx, first, items);
  }

  lemma RememberRuns(facts: Facts, ctx: Ctx, first: Id, items: seq<Payload>)
    ensures var o := Act(facts, ctx, first, RememberFacts(items));
      if exists p :: p in items && RefusedItem(p) then o == Outcome(o.facts, [], Failed(DatabaseError), false)
      else
        var b := WriteBatch(facts, ctx, first, items);
        o == Outcome(b.facts, b.touched, Remembered(b.created, b.deduped, b.invalid, ctx.source), true)
  {
    SomeRefused(items);
    assert items[..|items|] == items;
  }

  /** `remember_facts` answers with the result of its batch, the seat's source and the touched ids in
      its audit row, unless the database refuses one of the items. */
  lemma RememberAnswers(facts: Facts, ctx: Ctx, first: Id, items: seq<Payload>)
    requires UniqueKeys(facts) && AllBefore(facts, first.call)
    ensures var o := Act(facts, ctx, first, RememberFacts(items));
      if exists p :: p in items && RefusedItem(p) then
        o == Outcome(o.facts, [], Failed(DatabaseError), false)
      else
        && o.audited && o.reply.Remembered? && o.reply.source == ctx.source
        && RememberResult(facts, ctx, first, items,
                          Batch(o.facts, o.reply.created, o.reply.deduped, o.reply.invalid, o.ids))
  {
    RememberRuns(facts, ctx, first, items);
    BatchIsResult(facts, ctx, first, items);
  }

  // ---------------------------------------------------------------- supersede_fact

  /** The fact already holding the key in the org. */
  predicate Holds(facts: Facts, org: OrgId, key: Option<string>, h: Id) {
    h in facts && facts[h].org == org && key.Some? && facts[h].dedupeKey == key
  }

  /** The target is retired in favour of the link, which is the holder of the replacement's key or, if
      nobody holds it, a new row; nothing else changes. */
  ghost predicate SupersedeResult(
      facts: Facts, after: Facts, ctx: Ctx, first: Id, target: Id, f: FactInput, link: Id, wasDeduped: bool)
    requires target in facts
  {
    && (wasDeduped <==> exists h :: Holds(facts, ctx.org, f.dedupeKey, h))
    && (if wasDeduped then Holds(facts, ctx.org, f.dedupeKey, link) && after.Keys == facts.Keys
        else link == first && after.Keys == facts.Keys + {first} && first in after && IsRowOf(after[first], ctx, f))
    && target in after && after[target] == facts[target].(status := Superseded, supersededBy := Some(link))
    && (forall id | id in facts && id != target :: id in after && after[id] == facts[id])
  }

  lemma InsertOrHolder(facts: Facts, ctx: Ctx, first: Id, f: FactInput)
    requires first !in facts
    ensures var w := InsertFact(facts, ctx, first, f);
      && (!w.created <==> exists h :: Holds(facts, ctx.org, f.dedupeKey, h))
      && (if w.created then w.id == first && w.facts.Keys == facts.Keys + {first} && IsRowOf(w.facts[first], ctx, f)
          else Holds(facts, ctx.org, f.dedupeKey, w.id) && w.facts == facts)
      && (forall id | id in facts :: id in w.facts && w.facts[id] == facts[id])
  {
    if f.dedupeKey.Some? {
      var holders := Holders(facts, ctx.org, f.dedupeKey.value);
      assert forall h :: h in holders <==> Holds(facts, ctx.org, f.dedupeKey, h);
      if holders != {} {
        assert Pick(holders) in holders;
      }
    }
  }

  lemma ReplaceIsResult(facts: Facts, ctx: Ctx, first: Id, target: Id, f: FactInput)
    requires first !in facts && target in facts && facts[target].org in ctx.orgs
    ensures var w := InsertFact(facts, ctx, first, f);
      SupersedeResult(facts, Retire(w.facts, ctx.orgs, target, w.id), ctx, first, target, f, w.id, !w.created)
  {
    InsertOrHolder(facts, ctx, first, f);
  }

  /** `supersede_fact`, for every argument: the checks come in this order, and only the last branch
      changes anything. */
  lemma SupersedeAnswers(facts: Facts, ctx: Ctx, first: Id, target: IdArg, p: Payload)
    requires first !in facts
    ensures var o := Act(facts, ctx, first, SupersedeFact(target, p));
      if target.NotUuid? then o == Outcome(facts, [], Failed(BadId), true)
      else if Validate(p).None? then o == Outcome(facts, [], InvalidReplacement, true)
      else if target.Unreadable? then o == Outcome(facts, [], Failed(DatabaseError), false)
      else if target.id !in facts || facts[target.id].org !in ctx.orgs then
        o == Outcome(facts, [], NoSuchFact, true)
      else if RefusedItem(p) then o == Outcome(facts, [], Failed(DatabaseError), false)
      else
        && o.audited && o.reply.Replaced? && o.reply.retired == target.id
        && o.ids == [o.reply.replacement, target.id]
        && o.reply.status == (if Validate(p).value.confidence >= 0.9 then Active else PendingReview)
        && SupersedeResult(facts, o.facts, ctx, first, target.id, Validate(p).value,
                           o.reply.replacement, o.reply.wasDeduped)
  {
    UnstorableIff(p);
    if target.Uuid? && Validate(p).Some? && target.id in facts && facts[target.id].org in ctx.orgs {
      ReplaceIsResult(facts, ctx, first, target.id, Validate(p).value);
    }
  }

  // ---------------------------------------------------------------- one call

  /** The tool's name in the audit log. */
  lemma AuditNames(op: Op)
    ensures ToolName(op) ==
      if op.GetProfile? then "get_profile"
      else if op.SearchContext? then "search_context"
      else if op.GetRecentActivity? then "get_recent_activity"
      else if op.Search? then "search"
      else if op.Fetch? then "fetch"
      else if op.Ping? then "ping"
      else if op.RememberFacts? then "remember_facts"
      else if op.SupersedeFact? then "supersede_fact"
      else if op.ListPendingFacts? then "list_pending_facts"
      else if op.PromoteFact? then "promote_fact"
      else "reject_fact"
  {
  }

  /** The seat row of the caller's client in the org: the one there is, or a new one with the default
      scopes, live and without a source, which is then the only change to the table. */
  ghost predicate EntersThrough(
      before: Seats, after: Seats, org: OrgId, user: UserId, oauth: string, first: Id, sid: Id)
  {
    && sid in after && after[sid].org == org && after[sid].oauth == oauth
    && (if exists id :: id in before && before[id].org == org && before[id].oauth == oauth then after == before
        else
          sid == first
          && after == before[first := Seat(org, oauth, user, oauth, ["personal", "work"], Live, None, None)])
  }

  /** A member's call enters through the seat row with the role of the membership and the row's scopes and
      source. Through a revoked seat it is refused and leaves one empty audit row; otherwise its tool
      decides, and leaves one audit row with the tool's ids unless the database refused it. */
  ghost predicate CallResult(
      db: Db, r: Result, org: OrgId, user: UserId, oauth: string, op: Op, first: Id, sid: Id)
    requires MemberKey(org, user) in db.members
  {
    && EntersThrough(db.seats, r.db.seats, org, user, oauth, first, sid)
    && r.db.members == db.members
    && var row := r.db.seats[sid];
       if row.status == Revoked then
         && r.reply == Failed(SeatRevoked) && r.db.facts == db.facts
         && r.db.audit == db.audit + [AuditRow(org, user, sid, ToolName(op), [])]
       else
         var ctx := Ctx(user, org, db.members[MemberKey(org, user)], {org}, sid, row.scopes, row.source);
         var o := Act(db.facts, ctx, first, op);
         && r.reply == o.reply && r.db.facts == o.facts
         && r.db.audit == db.audit + (if o.audited then [AuditRow(org, user, sid, ToolName(op), o.ids)] else [])
  }

  lemma SeatIsEntered(seats: Seats, org: OrgId, user: UserId, oauth: string, first: Id)
    ensures var (after, sid) := ResolveSeat(seats, org, user, oauth, first);
      EntersThrough(seats, after, org, user, oauth, first, sid)
  {
    var rows := SeatRows(seats, org, oauth);
    assert forall id :: id in rows <==> id in seats && seats[id].org == org && seats[id].oauth == oauth;
    if rows != {} {
      assert Pick(rows) in rows;
    }
  }

  /** What a call by a member of one org does, whatever its tool. */
  lemma MemberIsServed(db: Db, first: Id, user: UserId, oauth: string, op: Op, org: OrgId)
    requires MemberKey(org, user) in db.members && forall k | k in db.members && k.user == user :: k.org == org
    ensures exists sid :: CallResult(db, StepCall(db, first, user, oauth, op), org, user, oauth, op, first, sid)
  {
    OnlyOrg(db.members, user, org);
    var (after, sid) := ResolveSeat(db.seats, org, user, oauth, first);
    SeatIsEntered(db.seats, org, user, oauth, first);
    var r := StepCall(db, first, user, oauth, op);
    assert r.db.seats == after;
    assert CallResult(db, r, org, user, oauth, op, first, sid);
  }

  lemma OnlyOrg(members: Members, user: UserId, org: OrgId)
    requires MemberKey(org, user) in members && forall k | k in members && k.user == user :: k.org == org
    ensures UserOrgIds(members, user) == {org}
    ensures ResolveMembership(members, user) == Member(org, members[MemberKey(org, user)])
  {
    assert forall k :: k in members && k.user == user ==> k.org in UserOrgIds(members, user);
    assert MemberKey(org, user).org in UserOrgIds(members, user);
  }
}
