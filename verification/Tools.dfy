/** What each tool call and operator action does to the tables, as functions of the state. */
module Tools {
  import opened Schema
  import opened Intake
  import opened Selection
  import LikePattern
  import ProfileBudget

  const AUTO_PROMOTE_CONFIDENCE := 0.9
  const PENDING_REVIEW_LIMIT := 20
  const SEARCH_CONTEXT_LIMIT := 12
  const RECENT_ACTIVITY_LIMIT := 10

  /** A fact id argument. Python's `uuid.UUID` accepts more spellings than Postgres does
      (`urn:uuid:` prefixes, misplaced hyphens): `Unreadable` passes the former only. */
  datatype IdArg = NotUuid | Unreadable | Uuid(id: Id)

  /** A search text with what the database makes of it: the parsed full-text query as a
      predicate on contents, the case folding of the collation, and whether it refuses the text, for
      a word too long to search for. */
  datatype Query = Query(text: string, fullText: string -> bool, fold: char -> char, refused: bool)

  /** A search the database answers. */
  predicate Answerable(q: Query) {
    !q.refused && StorableText(q.text)
  }

  datatype Op =
    | GetProfile
    | SearchContext(query: Query)
    | GetRecentActivity(domain: Option<string>)
    | Search(query: Query)
    | Fetch(arg: IdArg)
    | Ping
    | RememberFacts(items: seq<Payload>)
    | SupersedeFact(target: IdArg, replacement: Payload)
    | ListPendingFacts(limit: int)
    | PromoteFact(arg: IdArg)
    | RejectFact(arg: IdArg, reason: Option<string>)

  datatype AdminOp =
    | AddMember(org: OrgId, user: UserId, role: Option<Role>)
    | RemoveMember(org: OrgId, user: UserId)
    | RegisterConnector(org: OrgId, oauth: string, source: string, registrant: UserId,
                        displayName: Option<string>, scopes: Option<seq<string>>)
    | SetConnectorSource(org: OrgId, oauth: string, source: string)
    | SetSeatStatus(org: OrgId, oauth: string, status: SeatStatus)

  /** `first` is the id the database gives the first row this event creates. */
  datatype Event =
    | Call(first: Id, user: UserId, oauth: string, op: Op)
    | Admin(first: Id, action: AdminOp)

  datatype Error =
    NoOrg | MultiOrg | SeatRevoked | BadId | NotAccessible | ReviewDenied | BadArgument | DatabaseError

  datatype Reply =
    | Failed(error: Error)
    | Profile(lines: seq<string>)
    | Found(ids: seq<Id>)
    | Activity(ids: seq<Id>)
    | OutOfScope
    | Fetched(id: Id, fact: Fact)
    | Pong(count: nat)
    | Remembered(created: seq<Id>, deduped: seq<Id>, invalid: seq<nat>, source: Option<string>)
    | Replaced(retired: Id, replacement: Id, status: FactStatus, wasDeduped: bool)
    | InvalidReplacement
    | NoSuchFact
    | Pending(ids: seq<Id>)
    | Decided(id: Id, status: FactStatus)
    | NotPending
    | Done

  function ToolName(op: Op): string {
    match op
    case GetProfile => "get_profile"
    case SearchContext(_) => "search_context"
    case GetRecentActivity(_) => "get_recent_activity"
    case Search(_) => "search"
    case Fetch(_) => "fetch"
    case Ping => "ping"
    case RememberFacts(_) => "remember_facts"
    case SupersedeFact(_, _) => "supersede_fact"
    case ListPendingFacts(_) => "list_pending_facts"
    case PromoteFact(_) => "promote_fact"
    case RejectFact(_, _) => "reject_fact"
  }

  /** `ToolContext`, with the orgs that row-level security grants the caller. */
  datatype Ctx = Ctx(user: UserId, org: OrgId, role: Role, orgs: set<OrgId>,
                     seat: Id, scopes: seq<string>, source: Option<string>)

  // ---------------------------------------------------------------- membership and seat

  datatype Resolution = Refused(error: Error) | Member(org: OrgId, role: Role)

  ghost function ResolveMembership(members: Members, user: UserId): Resolution {
    var orgs := UserOrgIds(members, user);
    if orgs == {} then Refused(NoOrg)
    else if |orgs| > 1 then Refused(MultiOrg)
    else
      var org := Pick(orgs);
      Member(org, members[MemberKey(org, user)])
  }

  /** The row a first contact inserts; status and scopes are the column defaults. */
  function FirstContactSeat(org: OrgId, user: UserId, oauth: string): Seat {
    Seat(org, oauth, user, oauth, DEFAULT_SCOPES, Live, None, None)
  }

  ghost function ResolveSeat(seats: Seats, org: OrgId, user: UserId, oauth: string, first: Id): (r: (Seats, Id))
    ensures r.1 in r.0 && r.0[r.1].org == org && r.0[r.1].oauth == oauth
  {
    var rows := SeatRows(seats, org, oauth);
    if rows != {} then (seats, Pick(rows))
    else (seats[first := FirstContactSeat(org, user, oauth)], first)
  }

  function MakeCtx(members: Members, user: UserId, org: OrgId, role: Role, seat: Id, row: Seat): Ctx {
    Ctx(user, org, role, UserOrgIds(members, user), seat, row.scopes, row.source)
  }

  /** `_finish`: one audit row. */
  function Audited(audit: seq<AuditRow>, ctx: Ctx, op: Op, ids: seq<Id>): seq<AuditRow> {
    audit + [AuditRow(ctx.org, ctx.user, ctx.seat, ToolName(op), ids)]
  }

  // ---------------------------------------------------------------- role and scope views

  /** `ROLE_SCOPES`. */
  predicate RoleAllows(role: Role, scope: string) {
    match role
    case Owner => true
    case Office => scope == "account" || scope == "work"
    case Rep => scope == "account" || scope == "personal"
  }

  predicate MayReview(role: Role) {
    role == Owner || role == Office
  }

  function EffectiveScopes(role: Role, base: seq<string>): (r: seq<string>)
    ensures forall x :: x in r <==> x in base && RoleAllows(role, x)
  {
    if base == [] then []
    else (if RoleAllows(role, base[0]) then [base[0]] else []) + EffectiveScopes(role, base[1..])
  }

  predicate Shows(f: Fact, orgs: set<OrgId>, status: FactStatus, scopes: seq<string>) {
    f.org in orgs && f.status == status && Overlaps(f.tags, scopes)
  }

  /** `_scoped_active_facts` with the given base scopes. */
  function ActiveView(facts: Facts, ctx: Ctx, base: seq<string>): Facts {
    var scopes := EffectiveScopes(ctx.role, base);
    map id | id in facts && Shows(facts[id], ctx.orgs, Active, scopes) :: facts[id]
  }

  /** `_scoped_pending_facts`. */
  function PendingView(facts: Facts, ctx: Ctx): Facts {
    var scopes := EffectiveScopes(ctx.role, ctx.scopes);
    map id | id in facts && Shows(facts[id], ctx.orgs, PendingReview, scopes) :: facts[id]
  }

  function OfKind(rows: Facts, kinds: set<string>): Facts {
    map id | id in rows && rows[id].kind in kinds :: rows[id]
  }

  // ---------------------------------------------------------------- writes

  function FactStatusFor(confidence: real): FactStatus {
    if confidence >= AUTO_PROMOTE_CONFIDENCE then Active else PendingReview
  }

  /** `_fact_row`: org and owner come from the context, never from the payload. */
  function FactRow(ctx: Ctx, f: FactInput): Fact {
    Fact(ctx.org, ctx.user, f.kind, f.content, f.confidence, f.tags, f.source, f.sourceRef, f.dedupeKey,
         FactStatusFor(f.confidence), None)
  }

  datatype Insertion = Insertion(facts: Facts, id: Id, created: bool)

  /** `_insert_fact`: a new row, or the row already holding the dedupe key. */
  ghost function InsertFact(facts: Facts, ctx: Ctx, id: Id, f: FactInput): Insertion {
    if f.dedupeKey.Some? && Holders(facts, ctx.org, f.dedupeKey.value) != {}
    then Insertion(facts, Pick(Holders(facts, ctx.org, f.dedupeKey.value)), false)
    else Insertion(facts[id := FactRow(ctx, f)], id, true)
  }

  datatype Batch = Batch(facts: Facts, created: seq<Id>, deduped: seq<Id>, invalid: seq<nat>, touched: seq<Id>)

  ghost function WriteItem(b: Batch, ctx: Ctx, id: Id, index: nat, item: Payload): Batch {
    match Validate(item)
    case None => b.(invalid := b.invalid + [index])
    case Some(f) =>
      var w := InsertFact(b.facts, ctx, id, f);
      Batch(w.facts,
            if w.created then b.created + [w.id] else b.created,
            if w.created then b.deduped else b.deduped + [w.id],
            b.invalid, b.touched + [w.id])
  }

  function NthId(first: Id, n: nat): Id {
    Id(first.call, first.slot + n)
  }

  /** The loop of `remember_facts` over the items seen so far. */
  ghost function WriteBatch(facts: Facts, ctx: Ctx, first: Id, items: seq<Payload>): Batch {
    if items == [] then Batch(facts, [], [], [], [])
    else
      var n := |items| - 1;
      WriteItem(WriteBatch(facts, ctx, first, items[..n]), ctx, NthId(first, n), n, items[n])
  }

  /** The update of `supersede_fact`, on the rows row-level security lets it reach. */
  function Retire(facts: Facts, orgs: set<OrgId>, target: Id, link: Id): Facts {
    if target in facts && facts[target].org in orgs
    then facts[target := facts[target].(status := Superseded, supersededBy := Some(link))]
    else facts
  }

  /** The update of a review decision. It has no guard on the row's status. */
  function SetStatus(facts: Facts, orgs: set<OrgId>, id: Id, status: FactStatus): Facts {
    if id in facts && facts[id].org in orgs then facts[id := facts[id].(status := status)] else facts
  }

  // ---------------------------------------------------------------- tools

  /** What a tool does once the caller and seat are resolved: the new facts table, the ids and
      the audit row it writes, if it gets that far, and the reply. */
  datatype Outcome = Outcome(facts: Facts, ids: seq<Id>, reply: Reply, audited: bool)

  function Reads(facts: Facts, ids: seq<Id>, reply: Reply): Outcome {
    Outcome(facts, ids, reply, true)
  }

  /** A request the database rejects: the exception leaves before `_finish`. */
  function Crashes(facts: Facts): Outcome {
    Outcome(facts, [], Failed(DatabaseError), false)
  }

  function ProfileCandidates(facts: Facts, ctx: Ctx): seq<Id> {
    var view := ActiveView(facts, ctx, ctx.scopes);
    var identity := Page(OfKind(view, {"identity"}), Oldest, ProfileBudget.PROFILE_FACT_CAP);
    var preferences := Page(OfKind(view, {"preference", "style"}), Surest,
                            ProfileBudget.PROFILE_FACT_CAP);
    Limit(identity + preferences, ProfileBudget.PROFILE_FACT_CAP)
  }

  /** Confidence as shown; the table keeps it within 0 and 1. */
  function LineOf(f: Fact): string {
    var c := if f.confidence < 0.0 then 0.0 else if f.confidence > 1.0 then 1.0 else f.confidence;
    ProfileBudget.FactLine(f.kind, c, f.content)
  }

  function LinesOf(facts: Facts, ids: seq<Id>): (lines: seq<string>)
    requires forall id :: id in ids ==> id in facts
    ensures |lines| == |ids|
  {
    seq(|ids|, i requires 0 <= i < |ids| && ids[i] in facts => LineOf(facts[ids[i]]))
  }

  lemma ProfileCandidatesAreVisible(facts: Facts, ctx: Ctx)
    ensures forall id :: id in ProfileCandidates(facts, ctx) ==> id in ActiveView(facts, ctx, ctx.scopes)
    ensures |ProfileCandidates(facts, ctx)| <= ProfileBudget.PROFILE_FACT_CAP
  {
    var view := ActiveView(facts, ctx, ctx.scopes);
    var cap := ProfileBudget.PROFILE_FACT_CAP;
    var identity := Page(OfKind(view, {"identity"}), Oldest, cap);
    var preferences := Page(OfKind(view, {"preference", "style"}), Surest, cap);
    PageRows(OfKind(view, {"identity"}), Oldest, cap);
    PageRows(OfKind(view, {"preference", "style"}), Surest, cap);
    forall id | id in Limit(identity + preferences, cap) ensures id in view {
      assert id in identity || id in preferences;
    }
  }

  /** The candidates, rendered. */
  function ProfileLines(facts: Facts, ctx: Ctx): (lines: seq<string>)
    ensures |lines| == |ProfileCandidates(facts, ctx)|
  {
    ProfileCandidatesAreVisible(facts, ctx);
    LinesOf(facts, ProfileCandidates(facts, ctx))
  }

  function ReadProfile(facts: Facts, ctx: Ctx): Outcome {
    var ids := ProfileCandidates(facts, ctx);
    var lines := ProfileLines(facts, ctx);
    var n := ProfileBudget.Fit(lines);
    Reads(facts, ids[..n], Profile(lines[..n]))
  }

  function FullTextHits(rows: Facts, q: Query): Facts {
    map id | id in rows && q.fullText(rows[id].content) :: rows[id]
  }

  function PatternHits(rows: Facts, q: Query): Facts {
    map id | id in rows && LikePattern.Fallback(rows[id].content, q.text, q.fold) :: rows[id]
  }

  /** `_search_facts`: full text first, the escaped substring pattern if that finds nothing. */
  ghost function SearchFacts(facts: Facts, ctx: Ctx, q: Query, limit: nat): seq<Id> {
    var view := ActiveView(facts, ctx, ctx.scopes);
    var hits := FullTextHits(view, q);
    if hits != map[] then Limit(Scan(hits), limit)
    else Page(PatternHits(view, q), Surest, limit)
  }

  ghost function RunSearch(facts: Facts, ctx: Ctx, q: Query): Outcome {
    if !Answerable(q) then Crashes(facts)
    else
      var ids := SearchFacts(facts, ctx, q, SEARCH_CONTEXT_LIMIT);
      Reads(facts, ids, Found(ids))
  }

  function ReadActivity(facts: Facts, ctx: Ctx, domain: Option<string>): Outcome {
    if domain.Some? && domain.value !in ctx.scopes then Reads(facts, [], OutOfScope)
    else
      var view := ActiveView(facts, ctx, if domain.Some? then [domain.value] else ctx.scopes);
      var ids := Page(OfKind(view, {"state", "episodic", "behavioral"}),
                      Newest, RECENT_ACTIVITY_LIMIT);
      Reads(facts, ids, Activity(ids))
  }

  function FetchFact(facts: Facts, ctx: Ctx, arg: IdArg): Outcome {
    match arg
    case NotUuid => Reads(facts, [], Failed(BadId))
    case Unreadable => Crashes(facts)
    case Uuid(id) =>
      var view := ActiveView(facts, ctx, ctx.scopes);
      if id in view then Reads(facts, [id], Fetched(id, view[id])) else Reads(facts, [], Failed(NotAccessible))
  }

  function CountFacts(facts: Facts, ctx: Ctx): Outcome {
    Reads(facts, [], Pong(|ActiveView(facts, ctx, ctx.scopes)|))
  }

  /** `remember_facts`. An item the database rejects raises out of the loop: the items before it
      stay written, and the call never gets to its audit row. */
  ghost function Remember(facts: Facts, ctx: Ctx, first: Id, items: seq<Payload>): Outcome {
    var n := Clean(items);
    var b := WriteBatch(facts, ctx, first, items[..n]);
    if n < |items| then Outcome(b.facts, [], Failed(DatabaseError), false)
    else Outcome(b.facts, b.touched, Remembered(b.created, b.deduped, b.invalid, ctx.source), true)
  }

  ghost function Supersede(facts: Facts, ctx: Ctx, first: Id, arg: IdArg, replacement: Payload): Outcome {
    if arg.NotUuid? then Reads(facts, [], Failed(BadId))
    else
      match Validate(replacement)
      case None => Reads(facts, [], InvalidReplacement)
      case Some(f) =>
        if arg.Unreadable? then Crashes(facts)
        else if arg.id !in Visible(facts, ctx.orgs) then Reads(facts, [], NoSuchFact)
        else if !Storable(f) then Crashes(facts)
        else
          var w := InsertFact(facts, ctx, first, f);
          Outcome(Retire(w.facts, ctx.orgs, arg.id, w.id), [w.id, arg.id],
                  Replaced(arg.id, w.id, FactStatusFor(f.confidence), !w.created), true)
  }

  function CappedLimit(limit: int): nat {
    if limit < 1 then 1 else if limit > PENDING_REVIEW_LIMIT then PENDING_REVIEW_LIMIT else limit
  }

  function ListPending(facts: Facts, ctx: Ctx, limit: int): Outcome {
    if !MayReview(ctx.role) then Reads(facts, [], Failed(ReviewDenied))
    else
      var ids := Page(PendingView(facts, ctx), Newest, CappedLimit(limit));
      Reads(facts, ids, Pending(ids))
  }

  /** `_review_decision`; `status` is `Active` for promote and `Rejected` for reject. */
  function Decide(facts: Facts, ctx: Ctx, arg: IdArg, status: FactStatus): Outcome {
    if !MayReview(ctx.role) then Reads(facts, [], Failed(ReviewDenied))
    else
      match arg
      case NotUuid => Reads(facts, [], Failed(BadId))
      case Unreadable => Crashes(facts)
      case Uuid(id) =>
        if id !in PendingView(facts, ctx) then Reads(facts, [], NotPending)
        else Outcome(SetStatus(facts, ctx.orgs, id, status), [id], Decided(id, status), true)
  }

  /** The tools that only read. */
  ghost function Read(facts: Facts, ctx: Ctx, op: Op): (o: Outcome)
    requires !op.RememberFacts? && !op.SupersedeFact? && !op.PromoteFact? && !op.RejectFact?
    ensures o.facts == facts
    ensures !o.audited <==>
      op == Fetch(Unreadable) || ((op.Search? || op.SearchContext?) && !Answerable(op.query))
    ensures !o.audited ==> o.reply == Failed(DatabaseError)
  {
    match op
    case GetProfile => ReadProfile(facts, ctx)
    case SearchContext(q) => RunSearch(facts, ctx, q)
    case GetRecentActivity(domain) => ReadActivity(facts, ctx, domain)
    case Search(q) => RunSearch(facts, ctx, q)
    case Fetch(arg) => FetchFact(facts, ctx, arg)
    case Ping => CountFacts(facts, ctx)
    case ListPendingFacts(limit) => ListPending(facts, ctx, limit)
  }

  ghost function Act(facts: Facts, ctx: Ctx, first: Id, op: Op): Outcome {
    match op
    case RememberFacts(items) => Remember(facts, ctx, first, items)
    case SupersedeFact(target, replacement) => Supersede(facts, ctx, first, target, replacement)
    case PromoteFact(arg) => Decide(facts, ctx, arg, Active)
    case RejectFact(arg, _) => Decide(facts, ctx, arg, Rejected)
    case _ => Read(facts, ctx, op)
  }

  // ---------------------------------------------------------------- one event

  datatype Result = Result(db: Db, reply: Reply)

  /** The context a call runs in, when its caller has exactly one membership. */
  datatype Entry = Entry(seats: Seats, ctx: Ctx, revoked: bool)

  ghost function Enter(db: Db, org: OrgId, role: Role, first: Id, user: UserId, oauth: string): Entry {
    var (seats, id) := ResolveSeat(db.seats, org, user, oauth, first);
    Entry(seats, MakeCtx(db.members, user, org, role, id, seats[id]), seats[id].status == Revoked)
  }

  ghost function StepCall(db: Db, first: Id, user: UserId, oauth: string, op: Op): Result {
    match ResolveMembership(db.members, user)
    case Refused(error) => Result(db, Failed(error))
    case Member(org, role) =>
      var e := Enter(db, org, role, first, user, oauth);
      if e.revoked then
        Result(Db(db.members, e.seats, db.facts, Audited(db.audit, e.ctx, op, [])), Failed(SeatRevoked))
      else
        var o := Act(db.facts, e.ctx, first, op);
        Result(Db(db.members, e.seats, o.facts,
                  if o.audited then Audited(db.audit, e.ctx, op, o.ids) else db.audit), o.reply)
  }

  /** A character that Python's `str.strip` removes. */
  predicate IsSpace(c: char) {
    || '\t' <= c <= '\r' || '\U{1c}' <= c <= ' ' || c == '\U{85}' || c == '\U{a0}' || c == '\U{1680}'
    || '\U{2000}' <= c <= '\U{200a}' || c == '\U{2028}' || c == '\U{2029}' || c == '\U{202f}'
    || c == '\U{205f}' || c == '\U{3000}'
  }

  predicate Blank(s: string) {
    forall c :: c in s ==> IsSpace(c)
  }

  /** A seat after `register_connector` updates it. */
  function Reregistered(seat: Seat, source: string, displayName: Option<string>, scopes: Option<seq<string>>): Seat {
    seat.(source := Some(source), status := Live, revokedAt := None,
          displayName := if displayName.Some? then displayName.value else seat.displayName,
          scopes := if scopes.Some? then scopes.value else seat.scopes)
  }

  function NewConnector(org: OrgId, oauth: string, source: string, registrant: UserId,
                        displayName: Option<string>, scopes: Option<seq<string>>): Seat {
    Seat(org, oauth, registrant, if displayName.Some? then displayName.value else oauth,
         if scopes.Some? then scopes.value else DEFAULT_SCOPES, Live, None, Some(source))
  }

  /** The column updates of `set_connector_source` and `set_seat_status`. */
  datatype SeatChange = NewSource(source: string) | NewStatus(status: SeatStatus, now: nat)

  function Changed(seat: Seat, change: SeatChange): Seat {
    match change
    case NewSource(source) => seat.(source := Some(source))
    case NewStatus(status, now) =>
      seat.(status := status, revokedAt := if status == Revoked then Some(now) else None)
  }

  /** `update ... where org_id = ... and oauth_client_id = ...`. */
  function UpdateSeats(seats: Seats, org: OrgId, oauth: string, change: SeatChange): Seats {
    map id | id in seats ::
      if seats[id].org == org && seats[id].oauth == oauth then Changed(seats[id], change) else seats[id]
  }

  ghost function StepAdmin(db: Db, first: Id, action: AdminOp): Result {
    match action
    case AddMember(org, user, role) =>
      if role.None? then Result(db, Failed(BadArgument))
      else Result(db.(members := db.members[MemberKey(org, user) := role.value]), Done)
    case RemoveMember(org, user) =>
      Result(db.(members := db.members - {MemberKey(org, user)}), Done)
    case RegisterConnector(org, oauth, source, registrant, displayName, scopes) =>
      if Blank(source) then Result(db, Failed(BadArgument))
      else
        var rows := SeatRows(db.seats, org, oauth);
        if rows != {} then
          var id := Pick(rows);
          Result(db.(seats := db.seats[id := Reregistered(db.seats[id], source, displayName, scopes)]), Done)
        else
          var seat := NewConnector(org, oauth, source, registrant, displayName, scopes);
          Result(db.(seats := db.seats[first := seat]), Done)
    case SetConnectorSource(org, oauth, source) =>
      if Blank(source) then Result(db, Failed(BadArgument))
      else Result(db.(seats := UpdateSeats(db.seats, org, oauth, NewSource(source))), Done)
    case SetSeatStatus(org, oauth, status) =>
      Result(db.(seats := UpdateSeats(db.seats, org, oauth, NewStatus(status, first.call))), Done)
  }

  ghost function Step(db: Db, e: Event): Result {
    match e
    case Call(first, user, oauth, op) => StepCall(db, first, user, oauth, op)
    case Admin(first, action) => StepAdmin(db, first, action)
  }

  /** The state after a run of events. */
  ghost function Run(db: Db, es: seq<Event>): Db {
    if es == [] then db else Step(Run(db, es[..|es| - 1]), es[|es| - 1]).db
  }

  /** Events are numbered in order, after everything already stored. */
  ghost predicate Fresh(db: Db, es: seq<Event>) {
    forall i :: 0 <= i < |es| ==>
      Before(db, es[i].first.call) && forall j :: 0 <= j < i ==> es[j].first.call < es[i].first.call
  }
}
