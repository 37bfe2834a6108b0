/** What each tool answers, said of the rows alone: who may see what, the numbers, the order and the
    text are spelled out here, independently of the functions that compute them. */
module ToolAnswers {
  import opened Schema
  import opened Selection
  import opened Tools
  import LikePattern

  // ---------------------------------------------------------------- who sees what

  /** One of the tags is granted and open to the role: every tag to an owner, "account" and "work" to
      the office, "account" and "personal" to a rep. */
  predicate InScope(tags: seq<string>, scopes: seq<string>, role: Role) {
    exists t :: t in tags && t in scopes &&
      (role == Owner || t == "account" || t == (if role == Office then "work" else "personal"))
  }

  /** A row with this status that the caller can see with these scopes. */
  predicate Sees(facts: Facts, ctx: Ctx, scopes: seq<string>, status: FactStatus, id: Id) {
    && id in facts && facts[id].org in ctx.orgs && facts[id].status == status
    && InScope(facts[id].tags, scopes, ctx.role)
  }

  predicate Readable(facts: Facts, ctx: Ctx, id: Id) {
    Sees(facts, ctx, ctx.scopes, Active, id)
  }

  predicate Reviewable(facts: Facts, ctx: Ctx, id: Id) {
    Sees(facts, ctx, ctx.scopes, PendingReview, id)
  }

  lemma InScopeIff(tags: seq<string>, scopes: seq<string>, role: Role)
    ensures InScope(tags, scopes, role) <==> Overlaps(tags, EffectiveScopes(role, scopes))
  {
    var effective := EffectiveScopes(role, scopes);
    if InScope(tags, scopes, role) {
      var t :| t in tags && t in scopes &&
        (role == Owner || t == "account" || t == (if role == Office then "work" else "personal"));
      assert t in effective;
    }
    if Overlaps(tags, effective) {
      var t :| t in tags && t in effective;
      assert t in scopes;
    }
  }

  lemma ActiveIff(facts: Facts, ctx: Ctx, base: seq<string>)
    ensures var view := ActiveView(facts, ctx, base);
      forall id :: (id in view <==> Sees(facts, ctx, base, Active, id)) && (id in view ==> view[id] == facts[id])
  {
    forall id | id in facts ensures InScope(facts[id].tags, base, ctx.role) <==>
      Overlaps(facts[id].tags, EffectiveScopes(ctx.role, base))
    {
      InScopeIff(facts[id].tags, base, ctx.role);
    }
  }

  lemma PendingIff(facts: Facts, ctx: Ctx)
    ensures var view := PendingView(facts, ctx);
      forall id :: (id in view <==> Reviewable(facts, ctx, id)) && (id in view ==> view[id] == facts[id])
  {
    forall id | id in facts ensures InScope(facts[id].tags, ctx.scopes, ctx.role) <==>
      Overlaps(facts[id].tags, EffectiveScopes(ctx.role, ctx.scopes))
    {
      InScopeIff(facts[id].tags, ctx.scopes, ctx.role);
    }
  }

  // ---------------------------------------------------------------- fetch and ping

  /** `fetch` answers with the row, unchanged, if and only if it is readable; every other argument has
      its own error. */
  lemma FetchAnswers(facts: Facts, ctx: Ctx, first: Id, arg: IdArg)
    ensures Act(facts, ctx, first, Fetch(arg)) ==
      match arg
      case NotUuid => Outcome(facts, [], Failed(BadId), true)
      case Unreadable => Outcome(facts, [], Failed(DatabaseError), false)
      case Uuid(id) =>
        if Readable(facts, ctx, id) then Outcome(facts, [id], Fetched(id, facts[id]), true)
        else Outcome(facts, [], Failed(NotAccessible), true)
  {
    ActiveIff(facts, ctx, ctx.scopes);
  }

  /** `ping` answers with the number of readable facts. */
  lemma PingAnswers(facts: Facts, ctx: Ctx, first: Id)
    ensures Act(facts, ctx, first, Ping) ==
      Outcome(facts, [], Pong(|set id | id in facts && Readable(facts, ctx, id)|), true)
  {
    ActiveIff(facts, ctx, ctx.scopes);
    assert ActiveView(facts, ctx, ctx.scopes).Keys == set id | id in facts && Readable(facts, ctx, id);
  }

  // ---------------------------------------------------------------- search

  ghost predicate Matching(facts: Facts, ctx: Ctx, q: Query, id: Id) {
    Readable(facts, ctx, id) && q.fullText(facts[id].content)
  }

  ghost predicate Occurring(facts: Facts, ctx: Ctx, q: Query, id: Id) {
    Readable(facts, ctx, id) && LikePattern.Occurs(facts[id].content, q.text, q.fold)
  }

  /** The result of a search: if a readable fact matches the full-text query, only such facts; otherwise
      those in which the text occurs, its stars standing for anything, the surest first. Up to
      twelve, and twelve before any is left out. */
  ghost predicate SearchResult(facts: Facts, ctx: Ctx, q: Query, ids: seq<Id>) {
    && |ids| <= 12 && Distinct(ids)
    && if exists id :: Matching(facts, ctx, q, id) then
         && (forall id :: id in ids ==> Matching(facts, ctx, q, id))
         && (forall x | Matching(facts, ctx, q, x) && x !in ids :: |ids| == 12)
       else
         && (forall id :: id in ids ==> Occurring(facts, ctx, q, id))
         && (forall i, j | 0 <= i < j < |ids| :: AsSure(facts, ids[i], ids[j]))
         && (forall x | Occurring(facts, ctx, q, x) && x !in ids ::
               |ids| == 12 && forall i | 0 <= i < |ids| :: AsSure(facts, ids[i], x))
  }

  /** The first fact has at least the confidence of the second. */
  predicate AsSure(facts: Facts, a: Id, b: Id) {
    a in facts && b in facts && facts[a].confidence >= facts[b].confidence
  }

  lemma OccursIff(q: Query)
    ensures forall t: string :: LikePattern.Fallback(t, q.text, q.fold) <==> LikePattern.Occurs(t, q.text, q.fold)
  {
    forall t: string ensures LikePattern.Fallback(t, q.text, q.fold) <==> LikePattern.Occurs(t, q.text, q.fold) {
      LikePattern.FallbackIsGlobAnywhere(t, q.text, q.fold);
    }
  }

  /** Any selection of up to twelve full-text matches is a result, unless there is no match. */
  lemma FullTextIsResult(facts: Facts, ctx: Ctx, q: Query, ids: seq<Id>)
    requires var hits := FullTextHits(ActiveView(facts, ctx, ctx.scopes), q);
      && |ids| <= 12 && Distinct(ids) && (forall id :: id in ids ==> id in hits)
      && forall x | x in hits && x !in ids :: |ids| == 12
    ensures ids != [] ==> SearchResult(facts, ctx, q, ids)
    ensures ids == [] ==> forall id :: !Matching(facts, ctx, q, id)
  {
    var hits := FullTextHits(ActiveView(facts, ctx, ctx.scopes), q);
    ActiveIff(facts, ctx, ctx.scopes);
    assert forall id :: id in hits <==> Matching(facts, ctx, q, id);
    if ids != [] {
      assert ids[0] in ids;
    }
  }

  /** The surest twelve matches of the pattern are a result, if the full-text query has none. */
  lemma PatternIsResult(facts: Facts, ctx: Ctx, q: Query)
    requires forall id :: !Matching(facts, ctx, q, id)
    ensures SearchResult(facts, ctx, q, Page(PatternHits(ActiveView(facts, ctx, ctx.scopes), q), Surest, 12))
  {
    var rows := PatternHits(ActiveView(facts, ctx, ctx.scopes), q);
    PatternHitsIff(facts, ctx, q);
    PageRows(rows, Surest, 12);
    PageLeads(rows, Surest, 12);
    LeadingMatches(facts, ctx, q, rows, Page(rows, Surest, 12));
  }

  lemma PatternHitsIff(facts: Facts, ctx: Ctx, q: Query)
    ensures var rows := PatternHits(ActiveView(facts, ctx, ctx.scopes), q);
      forall id :: (id in rows <==> Occurring(facts, ctx, q, id)) && (id in rows ==> rows[id] == facts[id])
  {
    ActiveIff(facts, ctx, ctx.scopes);
    OccursIff(q);
  }

  lemma LeadingMatches(facts: Facts, ctx: Ctx, q: Query, rows: Facts, ids: seq<Id>)
    requires forall id :: !Matching(facts, ctx, q, id)
    requires forall id :: (id in rows <==> Occurring(facts, ctx, q, id)) && (id in rows ==> rows[id] == facts[id])
    requires Leads(rows, Surest, 12, ids) && forall id :: id in ids ==> id in rows
    ensures SearchResult(facts, ctx, q, ids)
  {
    forall x | Occurring(facts, ctx, q, x) && x !in ids
      ensures |ids| == 12 && forall i | 0 <= i < |ids| :: AsSure(facts, ids[i], x)
    {
      forall i | 0 <= i < |ids| ensures AsSure(facts, ids[i], x) {
        assert Precedes(rows, Surest, ids[i], x);
      }
    }
    forall i, j | 0 <= i < j < |ids| ensures AsSure(facts, ids[i], ids[j]) {
      assert Precedes(rows, Surest, ids[i], ids[j]);
    }
  }

  lemma FoundIsResult(facts: Facts, ctx: Ctx, q: Query)
    ensures SearchResult(facts, ctx, q, SearchFacts(facts, ctx, q, 12))
  {
    var hits := FullTextHits(ActiveView(facts, ctx, ctx.scopes), q);
    ScanListsRows(hits);
    LimitedScanRows(hits, 12);
    ScanLimitIsAny(hits, 12);
    FullTextIsResult(facts, ctx, q, Limit(Scan(hits), 12));
    if hits == map[] {
      PatternIsResult(facts, ctx, q);
    }
  }

  lemma ScanLimitIsAny(rows: Facts, k: nat)
    ensures var ids := Limit(Scan(rows), k);
      && Distinct(ids) && (forall id :: id in ids ==> id in rows)
      && forall x | x in rows && x !in ids :: |ids| == k
  {
    ScanListsRows(rows);
    LimitedScanRows(rows, k);
  }

  /** Both search tools run the same search. */
  lemma SearchRuns(facts: Facts, ctx: Ctx, first: Id, op: Op, q: Query)
    requires op == Search(q) || op == SearchContext(q)
    ensures var ids := SearchFacts(facts, ctx, q, 12);
      Act(facts, ctx, first, op) ==
        if q.refused || '\0' in q.text then Outcome(facts, [], Failed(DatabaseError), false)
        else Outcome(facts, ids, Found(ids), true)
  {
  }

  /** `search` and `search_context` answer with the result and audit it; a text that the database
      refuses, for a NUL character or otherwise, ends in its error. */
  lemma SearchAnswers(facts: Facts, ctx: Ctx, first: Id, op: Op, q: Query)
    requires op == Search(q) || op == SearchContext(q)
    ensures var o := Act(facts, ctx, first, op);
      if q.refused || '\0' in q.text then o == Outcome(facts, [], Failed(DatabaseError), false)
      else o == Outcome(facts, o.ids, Found(o.ids), true) && SearchResult(facts, ctx, q, o.ids)
  {
    SearchRuns(facts, ctx, first, op, q);
    FoundIsResult(facts, ctx, q);
  }

  /** The answer is empty if and only if no readable fact matches either way. */
  lemma SearchFindsNothingIff(facts: Facts, ctx: Ctx, first: Id, op: Op, q: Query)
    requires (op == Search(q) || op == SearchContext(q)) && !q.refused && '\0' !in q.text
    ensures Act(facts, ctx, first, op).reply == Found([]) <==>
      forall id :: !Matching(facts, ctx, q, id) && !Occurring(facts, ctx, q, id)
  {
    SearchAnswers(facts, ctx, first, op, q);
    var ids := Act(facts, ctx, first, op).ids;
    if ids != [] {
      assert ids[0] in ids;
    }
  }

  /** Without stars, occurring is being contained, ignoring case. */
  lemma StarFreeTextsAreContained(q: Query, t: string)
    requires '*' !in q.text
    ensures LikePattern.Occurs(t, q.text, q.fold) <==> LikePattern.Contains(t, q.text, q.fold)
  {
    LikePattern.FallbackIsGlobAnywhere(t, q.text, q.fold);
    LikePattern.EscapingIsExact(t, q.text, q.fold);
  }

  // ---------------------------------------------------------------- recent activity

  predicate ActivityKind(kind: string) {
    kind == "state" || kind == "episodic" || kind == "behavioral"
  }

  predicate InActivity(facts: Facts, ctx: Ctx, scopes: seq<string>, id: Id) {
    Sees(facts, ctx, scopes, Active, id) && ActivityKind(facts[id].kind)
  }

  /** The newest activity facts that the scopes show, newest first: ten, or all there are. */
  ghost predicate ActivityResult(facts: Facts, ctx: Ctx, scopes: seq<string>, ids: seq<Id>) {
    && |ids| <= 10
    && (forall id :: id in ids ==> InActivity(facts, ctx, scopes, id))
    && (forall i, j | 0 <= i < j < |ids| :: Earlier(ids[j], ids[i]))
    && (forall x | InActivity(facts, ctx, scopes, x) && x !in ids ::
          |ids| == 10 && forall i | 0 <= i < |ids| :: Earlier(x, ids[i]))
  }

  lemma NewestPage(facts: Facts, ctx: Ctx, scopes: seq<string>)
    ensures ActivityResult(facts, ctx, scopes,
      Page(OfKind(ActiveView(facts, ctx, scopes), {"state", "episodic", "behavioral"}), Newest, 10))
  {
    var rows := OfKind(ActiveView(facts, ctx, scopes), {"state", "episodic", "behavioral"});
    ActivityRowsIff(facts, ctx, scopes);
    PageRows(rows, Newest, 10);
    PageLeads(rows, Newest, 10);
    LeadingActivity(facts, ctx, scopes, rows, Page(rows, Newest, 10));
  }

  lemma ActivityRowsIff(facts: Facts, ctx: Ctx, scopes: seq<string>)
    ensures var rows := OfKind(ActiveView(facts, ctx, scopes), {"state", "episodic", "behavioral"});
      forall id :: id in rows <==> InActivity(facts, ctx, scopes, id)
  {
    ActiveIff(facts, ctx, scopes);
  }

  lemma LeadingActivity(facts: Facts, ctx: Ctx, scopes: seq<string>, rows: Facts, ids: seq<Id>)
    requires forall id :: id in rows <==> InActivity(facts, ctx, scopes, id)
    requires Leads(rows, Newest, 10, ids) && forall id :: id in ids ==> id in rows
    ensures ActivityResult(facts, ctx, scopes, ids)
  {
    forall i, j | 0 <= i < j < |ids| ensures Earlier(ids[j], ids[i]) {
      assert Precedes(rows, Newest, ids[i], ids[j]);
    }
    forall x | InActivity(facts, ctx, scopes, x) && x !in ids
      ensures |ids| == 10 && forall i | 0 <= i < |ids| :: Earlier(x, ids[i])
    {
      forall i | 0 <= i < |ids| ensures Earlier(x, ids[i]) {
        assert Precedes(rows, Newest, ids[i], x);
      }
    }
  }

  /** `get_recent_activity` answers with the newest activity facts of the seat's scopes, or of the one
      granted domain asked for; a domain that is not granted is turned away. */
  lemma ActivityAnswers(facts: Facts, ctx: Ctx, first: Id, domain: Option<string>)
    ensures var o := Act(facts, ctx, first, GetRecentActivity(domain));
      if domain.Some? && domain.value !in ctx.scopes then o == Outcome(facts, [], OutOfScope, true)
      else
        && o == Outcome(facts, o.ids, Activity(o.ids), true)
        && ActivityResult(facts, ctx, if domain.Some? then [domain.value] else ctx.scopes, o.ids)
  {
    NewestPage(facts, ctx, if domain.Some? then [domain.value] else ctx.scopes);
  }

  // ---------------------------------------------------------------- the review queue

  function Queue(facts: Facts, ctx: Ctx): set<Id> {
    set id | id in facts && Reviewable(facts, ctx, id)
  }

  function Min(a: int, b: int): int {
    if a < b then a else b
  }

  /** The newest reviewable facts, newest first: as many as asked for, but at least one and at most
      twenty, or all there are. */
  ghost predicate QueueResult(facts: Facts, ctx: Ctx, limit: int, ids: seq<Id>) {
    && |ids| == Min(|Queue(facts, ctx)|, if limit < 1 then 1 else Min(limit, 20))
    && (forall id | id in ids :: Reviewable(facts, ctx, id))
    && (forall i, j | 0 <= i < j < |ids| :: Earlier(ids[j], ids[i]))
    && (forall x | Reviewable(facts, ctx, x) && x !in ids :: forall i | 0 <= i < |ids| :: Earlier(x, ids[i]))
  }

  lemma QueuePage(facts: Facts, ctx: Ctx, limit: int, k: nat)
    requires k == if limit < 1 then 1 else Min(limit, 20)
    ensures QueueResult(facts, ctx, limit, Page(PendingView(facts, ctx), Newest, k))
  {
    var view := PendingView(facts, ctx);
    PendingIff(facts, ctx);
    PageRows(view, Newest, k);
    PageLeads(view, Newest, k);
    assert view.Keys == Queue(facts, ctx);
  }

  /** `list_pending_facts` answers owners and the office with the queue, and nobody else. */
  lemma QueueAnswers(facts: Facts, ctx: Ctx, first: Id, limit: int)
    ensures var o := Act(facts, ctx, first, ListPendingFacts(limit));
      if ctx.role == Rep then o == Outcome(facts, [], Failed(ReviewDenied), true)
      else o == Outcome(facts, o.ids, Pending(o.ids), true) && QueueResult(facts, ctx, limit, o.ids)
  {
    QueuePage(facts, ctx, limit, if limit < 1 then 1 else Min(limit, 20));
  }

  /** The tool call that decides `arg` with this verdict. */
  predicate Reviews(op: Op, arg: IdArg, status: FactStatus) {
    (op == PromoteFact(arg) && status == Active) || (op.RejectFact? && op.arg == arg && status == Rejected)
  }

  /** `promote_fact` and `reject_fact` succeed if and only if the caller is owner or office and the fact
      is pending and in their scopes, and then change its status and nothing else; every other call
      changes nothing and has its own answer. */
  lemma ReviewAnswers(facts: Facts, ctx: Ctx, first: Id, op: Op, arg: IdArg, status: FactStatus)
    requires Reviews(op, arg, status)
    ensures Act(facts, ctx, first, op) ==
      if ctx.role == Rep then Outcome(facts, [], Failed(ReviewDenied), true)
      else
        match arg
        case NotUuid => Outcome(facts, [], Failed(BadId), true)
        case Unreadable => Outcome(facts, [], Failed(DatabaseError), false)
        case Uuid(id) =>
          if Reviewable(facts, ctx, id)
          then Outcome(facts[id := facts[id].(status := status)], [id], Decided(id, status), true)
          else Outcome(facts, [], NotPending, true)
  {
    PendingIff(facts, ctx);
  }
}
