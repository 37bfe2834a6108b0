/** The ledger's Postgres tables, their unique indexes and their row-level rules. */
module Schema {
  datatype Option<+T> = None | Some(value: T)

  type OrgId = string
  type UserId = string

  /** A row's generated uuid. The database hands out globally fresh ids; here an id names the
      call that created the row and the row's slot in that call, so ids also order rows by
      creation time (`created_at`). */
  datatype Id = Id(call: nat, slot: nat)

  predicate Earlier(a: Id, b: Id) {
    a.call < b.call || (a.call == b.call && a.slot < b.slot)
  }

  datatype Role = Owner | Rep | Office

  datatype FactStatus = PendingReview | Active | Superseded | Rejected | Archived

  datatype SeatStatus = Live | Revoked

  datatype MemberKey = MemberKey(org: OrgId, user: UserId)

  /** A row of `clients`: one connector seat. */
  datatype Seat = Seat(
    org: OrgId, oauth: string, registrant: UserId, displayName: string,
    scopes: seq<string>, status: SeatStatus, revokedAt: Option<nat>, source: Option<string>)

  /** A row of `facts`. */
  datatype Fact = Fact(
    org: OrgId, owner: UserId, kind: string, content: string, confidence: real,
    tags: seq<string>, source: string, sourceRef: Option<string>, dedupeKey: Option<string>,
    status: FactStatus, supersededBy: Option<Id>)

  /** A row of `audit_log`; its own id is its position. */
  datatype AuditRow = AuditRow(org: OrgId, user: UserId, seat: Id, tool: string, factIds: seq<Id>)

  type Facts = map<Id, Fact>
  type Seats = map<Id, Seat>
  type Members = map<MemberKey, Role>

  datatype Db = Db(members: Members, seats: Seats, facts: Facts, audit: seq<AuditRow>)

  /** `user_org_ids()`: the orgs the calling user belongs to. */
  function UserOrgIds(members: Members, user: UserId): set<OrgId> {
    set k | k in members && k.user == user :: k.org
  }

  /** The rows a caller with these orgs can select (`facts_select_org`). */
  function Visible(facts: Facts, orgs: set<OrgId>): Facts {
    map id | id in facts && facts[id].org in orgs :: facts[id]
  }

  /** The rows of `facts` that hold this dedupe key in this org. */
  function Holders(facts: Facts, org: OrgId, key: string): set<Id> {
    set id | id in facts && facts[id].org == org && facts[id].dedupeKey == Some(key)
  }

  /** The rows of `clients` for this OAuth client in this org. */
  function SeatRows(seats: Seats, org: OrgId, oauth: string): set<Id> {
    set id | id in seats && seats[id].org == org && seats[id].oauth == oauth
  }

  /** `facts_org_dedupe_idx`: partial unique index on (org_id, dedupe_key). */
  ghost predicate UniqueKeys(facts: Facts) {
    forall a, b | a in facts && b in facts && facts[a].dedupeKey.Some? ::
      facts[a].org == facts[b].org && facts[a].dedupeKey == facts[b].dedupeKey ==> a == b
  }

  /** `clients_org_oauth_client_idx`: unique on (org_id, oauth_client_id). */
  ghost predicate UniqueSeats(seats: Seats) {
    forall a, b | a in seats && b in seats ::
      seats[a].org == seats[b].org && seats[a].oauth == seats[b].oauth ==> a == b
  }

  ghost predicate Indexed(db: Db) {
    UniqueKeys(db.facts) && UniqueSeats(db.seats)
  }

  /** Every row was created before call number `n`. */
  ghost predicate Before(db: Db, n: nat) {
    && (forall id :: id in db.facts ==> id.call < n)
    && (forall id :: id in db.seats ==> id.call < n)
  }

  /** The first element of a result set; under the unique indexes there is only one. */
  ghost function Pick<T>(rows: set<T>): (row: T)
    requires rows != {}
    ensures row in rows
  {
    var row :| row in rows; row
  }

  /** The listed ids are all different. */
  predicate Distinct(ids: seq<Id>) {
    forall i, j :: 0 <= i < j < |ids| ==> ids[i] != ids[j]
  }

  predicate Overlaps(tags: seq<string>, scopes: seq<string>) {
    exists t :: t in tags && t in scopes
  }

  /** What the CHECK constraints of `facts` allow. */
  const FACT_TYPES: set<string> :=
    {"identity", "preference", "state", "episodic", "relationship", "style", "behavioral"}

  const FACT_SOURCES: set<string> :=
    {"import_chatgpt", "import_claude", "dump_prompt", "mcp_writeback", "save_session",
     "refresh_diff", "murray_app", "murray_clip", "user_manual"}

  const DEFAULT_SCOPES: seq<string> := ["personal", "work"]
}
