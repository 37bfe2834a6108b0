/** Calls as programs of single database requests, interleaved in any order. Memberships are
    fixed while calls are running. */
module Interleaving {
  import opened Schema
  import opened Intake
  import opened Tools
  import opened Lifecycle
  import opened Idempotency
  import opened Audit

  /** What `remember_facts` has accumulated after its first `next` items. */
  datatype Progress = Progress(next: nat, created: seq<Id>, deduped: seq<Id>, invalid: seq<nat>, touched: seq<Id>)

  /** The request a call will send next, with the local state it has built so far. */
  datatype Pc =
    | SelectMembers
    | SelectSeat(org: OrgId, role: Role)
    | InsertSeat(org: OrgId, role: Role)
    | ReselectSeat(org: OrgId, role: Role)
    | SelectFacts(ctx: Ctx)
    | InsertItem(ctx: Ctx, f: FactInput, rest: seq<Payload>, done: Progress)
    | FindHolder(ctx: Ctx, f: FactInput, rest: seq<Payload>, done: Progress)
    | SelectTarget(ctx: Ctx, arg: IdArg, f: FactInput)
    | InsertReplacement(ctx: Ctx, target: Id, f: FactInput)
    | FindReplacement(ctx: Ctx, target: Id, f: FactInput)
    | UpdateTarget(ctx: Ctx, target: Id, f: FactInput, link: Id, isNew: bool)
    | SelectPending(ctx: Ctx, arg: IdArg, status: FactStatus)
    | UpdateStatus(ctx: Ctx, id: Id, status: FactStatus)
    | InsertAudit(ctx: Ctx, ids: seq<Id>, reply: Reply)
    | Answered(ctx: Ctx, ids: seq<Id>, reply: Reply)
    | Refusal(error: Error)
    | Crashed
    | AdminSelect
    | AdminInsert
    | AdminUpdate(id: Id)
    | AdminDone(reply: Reply)

  /** A tool call or an operator action on seats, under way. */
  datatype Proc =
    | Request(first: Id, user: UserId, oauth: string, op: Op, pc: Pc)
    | Operator(first: Id, action: AdminOp, pc: Pc)

  /** The same call at this point of its program. */
  function At(p: Proc, pc: Pc): Proc {
    p.(pc := pc)
  }

  predicate Final(pc: Pc) {
    pc.Answered? || pc.Refusal? || pc.Crashed? || pc.AdminDone?
  }

  // ---------------------------------------------------------------- the programs

  /** Skip invalid items up to the next one to insert, or to the audit row. */
  function NextItem(ctx: Ctx, items: seq<Payload>, done: Progress): Pc {
    if items == [] then
      InsertAudit(ctx, done.touched, Remembered(done.created, done.deduped, done.invalid, ctx.source))
    else
      match Validate(items[0])
      case Some(f) => InsertItem(ctx, f, items[1..], done)
      case None => NextItem(ctx, items[1..], done.(next := done.next + 1, invalid := done.invalid + [done.next]))
  }

  function Created(done: Progress, id: Id): Progress {
    done.(next := done.next + 1, created := done.created + [id], touched := done.touched + [id])
  }

  function Deduped(done: Progress, id: Id): Progress {
    done.(next := done.next + 1, deduped := done.deduped + [id], touched := done.touched + [id])
  }

  /** The tool body up to its first request. */
  function Start(ctx: Ctx, op: Op): Pc {
    match op
    case RememberFacts(items) => NextItem(ctx, items, Progress(0, [], [], [], []))
    case SupersedeFact(target, p) =>
      if target.NotUuid? then InsertAudit(ctx, [], Failed(BadId))
      else
        (match Validate(p)
         case None => InsertAudit(ctx, [], InvalidReplacement)
         case Some(f) => SelectTarget(ctx, target, f))
    case PromoteFact(arg) => StartReview(ctx, arg, Active)
    case RejectFact(arg, _) => StartReview(ctx, arg, Rejected)
    case ListPendingFacts(_) =>
      if !MayReview(ctx.role) then InsertAudit(ctx, [], Failed(ReviewDenied)) else SelectFacts(ctx)
    case Fetch(arg) => if arg.NotUuid? then InsertAudit(ctx, [], Failed(BadId)) else SelectFacts(ctx)
    case GetRecentActivity(domain) =>
      if domain.Some? && domain.value !in ctx.scopes then InsertAudit(ctx, [], OutOfScope) else SelectFacts(ctx)
    case _ => SelectFacts(ctx)
  }

  function StartReview(ctx: Ctx, arg: IdArg, status: FactStatus): Pc {
    if !MayReview(ctx.role) then InsertAudit(ctx, [], Failed(ReviewDenied))
    else if arg.NotUuid? then InsertAudit(ctx, [], Failed(BadId))
    else SelectPending(ctx, arg, status)
  }

  /** The end of `_begin`, once the seat row is read. */
  function Admit(db: Db, user: UserId, op: Op, org: OrgId, role: Role, seat: Id, row: Seat): Pc {
    var ctx := MakeCtx(db.members, user, org, role, seat, row);
    if row.status == Revoked then InsertAudit(ctx, [], Failed(SeatRevoked)) else Start(ctx, op)
  }

  datatype Move = Move(db: Db, pc: Pc)

  ghost predicate KeyTaken(facts: Facts, org: OrgId, f: FactInput) {
    f.dedupeKey.Some? && Holders(facts, org, f.dedupeKey.value) != {}
  }

  /** One request of a tool call. */
  ghost function RequestMove(db: Db, first: Id, user: UserId, oauth: string, op: Op, pc: Pc): Move {
    match pc
    case SelectMembers =>
      (match ResolveMembership(db.members, user)
       case Refused(error) => Move(db, Refusal(error))
       case Member(org, role) => Move(db, SelectSeat(org, role)))
    case SelectSeat(org, role) =>
      var rows := SeatRows(db.seats, org, oauth);
      if rows == {} then Move(db, InsertSeat(org, role))
      else Move(db, Admit(db, user, op, org, role, Pick(rows), db.seats[Pick(rows)]))
    case InsertSeat(org, role) =>
      if SeatRows(db.seats, org, oauth) != {} then Move(db, ReselectSeat(org, role))
      else
        var seat := FirstContactSeat(org, user, oauth);
        Move(db.(seats := db.seats[first := seat]), Admit(db, user, op, org, role, first, seat))
    case ReselectSeat(org, role) =>
      var rows := SeatRows(db.seats, org, oauth);
      if rows == {} then Move(db, Crashed)
      else Move(db, Admit(db, user, op, org, role, Pick(rows), db.seats[Pick(rows)]))
    case SelectFacts(ctx) =>
      var o := Act(db.facts, ctx, first, op);
      if o.audited then Move(db, InsertAudit(ctx, o.ids, o.reply)) else Move(db, Crashed)
    case InsertItem(ctx, f, rest, done) =>
      if !Storable(f) then Move(db, Crashed)
      else if KeyTaken(db.facts, ctx.org, f) then Move(db, FindHolder(ctx, f, rest, done))
      else
        var id := NthId(first, done.next);
        Move(db.(facts := db.facts[id := FactRow(ctx, f)]), NextItem(ctx, rest, Created(done, id)))
    case FindHolder(ctx, f, rest, done) =>
      if !KeyTaken(db.facts, ctx.org, f) then Move(db, Crashed)
      else Move(db, NextItem(ctx, rest, Deduped(done, Pick(Holders(db.facts, ctx.org, f.dedupeKey.value)))))
    case SelectTarget(ctx, arg, f) =>
      if !arg.Uuid? then Move(db, Crashed)
      else if arg.id !in Visible(db.facts, ctx.orgs) then Move(db, InsertAudit(ctx, [], NoSuchFact))
      else Move(db, InsertReplacement(ctx, arg.id, f))
    case InsertReplacement(ctx, target, f) =>
      if !Storable(f) then Move(db, Crashed)
      else if KeyTaken(db.facts, ctx.org, f) then Move(db, FindReplacement(ctx, target, f))
      else Move(db.(facts := db.facts[first := FactRow(ctx, f)]), UpdateTarget(ctx, target, f, first, true))
    case FindReplacement(ctx, target, f) =>
      if !KeyTaken(db.facts, ctx.org, f) then Move(db, Crashed)
      else Move(db, UpdateTarget(ctx, target, f, Pick(Holders(db.facts, ctx.org, f.dedupeKey.value)), false))
    case UpdateTarget(ctx, target, f, link, isNew) =>
      Move(db.(facts := Retire(db.facts, ctx.orgs, target, link)),
           InsertAudit(ctx, [link, target], Replaced(target, link, FactStatusFor(f.confidence), !isNew)))
    case SelectPending(ctx, arg, status) =>
      if !arg.Uuid? then Move(db, Crashed)
      else if arg.id !in PendingView(db.facts, ctx) then Move(db, InsertAudit(ctx, [], NotPending))
      else Move(db, UpdateStatus(ctx, arg.id, status))
    case UpdateStatus(ctx, id, status) =>
      Move(db.(facts := SetStatus(db.facts, ctx.orgs, id, status)), InsertAudit(ctx, [id], Decided(id, status)))
    case InsertAudit(ctx, ids, reply) =>
      Move(db.(audit := Audited(db.audit, ctx, op, ids)), Answered(ctx, ids, reply))
    case _ => Move(db, pc)
  }

  /** One request of an operator action. `register_connector` checks first and writes second; its
      insert does not handle a unique violation. */
  ghost function OperatorMove(db: Db, first: Id, action: AdminOp, pc: Pc): Move {
    match pc
    case AdminSelect =>
      if action.RegisterConnector? && !Blank(action.source) then
        var rows := SeatRows(db.seats, action.org, action.oauth);
        Move(db, if rows == {} then AdminInsert else AdminUpdate(Pick(rows)))
      else
        var r := StepAdmin(db, first, action);
        Move(r.db, AdminDone(r.reply))
    case AdminInsert =>
      if !action.RegisterConnector? || SeatRows(db.seats, action.org, action.oauth) != {} then Move(db, Crashed)
      else
        var seat := NewConnector(
          action.org, action.oauth, action.source, action.registrant, action.displayName, action.scopes);
        Move(db.(seats := db.seats[first := seat]), AdminDone(Done))
    case AdminUpdate(id) =>
      if !action.RegisterConnector? || id !in db.seats then Move(db, Crashed)
      else
        Move(db.(seats := db.seats[id := Reregistered(db.seats[id], action.source, action.displayName, action.scopes)]),
             AdminDone(Done))
    case _ => Move(db, pc)
  }

  ghost function ProcMove(db: Db, p: Proc): Move {
    match p
    case Request(first, user, oauth, op, pc) => RequestMove(db, first, user, oauth, op, pc)
    case Operator(first, action, pc) => OperatorMove(db, first, action, pc)
  }

  /** Any number of calls over one database. */
  datatype Sys = Sys(db: Db, procs: seq<Proc>)

  ghost function Advance(s: Sys, i: nat): Sys {
    if i >= |s.procs| then s
    else
      var m := ProcMove(s.db, s.procs[i]);
      Sys(m.db, s.procs[i := s.procs[i].(pc := m.pc)])
  }

  /** A schedule says whose turn it is. */
  ghost function Exec(s: Sys, schedule: seq<nat>): Sys {
    if schedule == [] then s else Advance(Exec(s, schedule[..|schedule| - 1]), schedule[|schedule| - 1])
  }

  /** Calls about to start, each with ids of its own, on a database with its indexes intact. */
  ghost predicate Initial(s: Sys) {
    && Indexed(s.db)
    && (forall i | 0 <= i < |s.procs| ::
          && (s.procs[i].Request? ==> s.procs[i].pc == SelectMembers)
          && (s.procs[i].Operator? ==> s.procs[i].pc == AdminSelect && !ChangesMembers(s.procs[i].action))
          && NoIdsOf(s.db, s.procs[i].first.call))
    && OwnIds(s.procs)
  }

  predicate ChangesMembers(action: AdminOp) {
    action.AddMember? || action.RemoveMember?
  }

  ghost predicate OwnIds(procs: seq<Proc>) {
    forall i, j :: 0 <= i < j < |procs| ==> procs[i].first.call != procs[j].first.call
  }

  ghost predicate NoIdsOf(db: Db, call: nat) {
    (forall id :: id in db.facts ==> id.call != call) && (forall id :: id in db.seats ==> id.call != call)
  }

  // ---------------------------------------------------------------- the invariant

  /** A context as `_begin` builds it: a single-org member on a seat of that org. */
  ghost predicate CtxOk(db: Db, user: UserId, oauth: string, ctx: Ctx) {
    && ctx.user == user && ctx.orgs == {ctx.org} == UserOrgIds(db.members, user)
    && ctx.seat in db.seats && db.seats[ctx.seat].org == ctx.org && db.seats[ctx.seat].oauth == oauth
  }

  ghost predicate FactsBelow(db: Db, first: Id, n: nat) {
    forall id | id in db.facts && id.call == first.call :: id.slot < first.slot + n
  }

  ghost predicate SeatsBelow(db: Db, first: Id) {
    forall id | id in db.seats :: id.call != first.call
  }

  /** The ids collected so far hold the keys of the items they answer. */
  ghost predicate ProgressOk(db: Db, first: Id, op: Op, ctx: Ctx, rest: seq<Payload>, done: Progress) {
    && op.RememberFacts? && done.next <= |op.items| && op.items[done.next..] == rest
    && FactsBelow(db, first, done.next)
    && Answers(db.facts, ctx.org, Keys(op.items[..done.next]), done.touched)
  }

  ghost predicate ItemOk(db: Db, first: Id, op: Op, ctx: Ctx, f: FactInput, rest: seq<Payload>, done: Progress) {
    && op.RememberFacts? && done.next < |op.items| && Validate(op.items[done.next]) == Some(f)
    && op.items[done.next + 1..] == rest
    && FactsBelow(db, first, done.next)
    && Answers(db.facts, ctx.org, Keys(op.items[..done.next]), done.touched)
  }

  ghost predicate SupersedeOk(db: Db, op: Op, ctx: Ctx, target: Id, f: FactInput) {
    && op.SupersedeFact? && op.target == Uuid(target) && Validate(op.replacement) == Some(f)
    && target in db.facts && db.facts[target].org == ctx.org
  }

  /** What a call has promised by the time it audits: each id it reports holds the key asked for. */
  ghost predicate ReplyOk(db: Db, op: Op, ctx: Ctx, ids: seq<Id>, reply: Reply) {
    && (op.RememberFacts? && reply.Remembered? ==> Answers(db.facts, ctx.org, Keys(op.items), ids))
    && (op.SupersedeFact? && reply.Replaced? ==>
          && Validate(op.replacement).Some? && |ids| == 2 && ids[0] == reply.replacement
          && Answers(db.facts, ctx.org, [Validate(op.replacement).value.dedupeKey], [ids[0]]))
  }

  ghost predicate RequestOk(db: Db, first: Id, user: UserId, oauth: string, op: Op, pc: Pc) {
    match pc
    case SelectMembers => FactsBelow(db, first, 0) && SeatsBelow(db, first)
    case SelectSeat(org, role) =>
      FactsBelow(db, first, 0) && SeatsBelow(db, first) && ResolveMembership(db.members, user) == Member(org, role)
    case InsertSeat(org, role) =>
      FactsBelow(db, first, 0) && SeatsBelow(db, first) && ResolveMembership(db.members, user) == Member(org, role)
    case ReselectSeat(org, role) =>
      && FactsBelow(db, first, 0) && ResolveMembership(db.members, user) == Member(org, role)
      && SeatRows(db.seats, org, oauth) != {}
    case SelectFacts(ctx) => CtxOk(db, user, oauth, ctx) && Start(ctx, op) == pc
    case InsertItem(ctx, f, rest, done) => CtxOk(db, user, oauth, ctx) && ItemOk(db, first, op, ctx, f, rest, done)
    case FindHolder(ctx, f, rest, done) =>
      CtxOk(db, user, oauth, ctx) && ItemOk(db, first, op, ctx, f, rest, done) && KeyTaken(db.facts, ctx.org, f)
    case SelectTarget(ctx, arg, f) =>
      && CtxOk(db, user, oauth, ctx) && FactsBelow(db, first, 0)
      && op.SupersedeFact? && op.target == arg && !arg.NotUuid? && Validate(op.replacement) == Some(f)
    case InsertReplacement(ctx, target, f) =>
      CtxOk(db, user, oauth, ctx) && FactsBelow(db, first, 0) && SupersedeOk(db, op, ctx, target, f)
    case FindReplacement(ctx, target, f) =>
      CtxOk(db, user, oauth, ctx) && SupersedeOk(db, op, ctx, target, f) && KeyTaken(db.facts, ctx.org, f)
    case UpdateTarget(ctx, target, f, link, isNew) =>
      && CtxOk(db, user, oauth, ctx) && SupersedeOk(db, op, ctx, target, f)
      && Answers(db.facts, ctx.org, [f.dedupeKey], [link])
    case SelectPending(ctx, arg, status) =>
      && CtxOk(db, user, oauth, ctx) && !arg.NotUuid?
      && ((status == Active && op == PromoteFact(arg)) || (status == Rejected && op.RejectFact? && op.arg == arg))
    case UpdateStatus(ctx, id, status) =>
      && CtxOk(db, user, oauth, ctx) && id in db.facts && db.facts[id].org == ctx.org
      && ((status == Active && op == PromoteFact(Uuid(id)))
          || (status == Rejected && op.RejectFact? && op.arg == Uuid(id)))
    case InsertAudit(ctx, ids, reply) => CtxOk(db, user, oauth, ctx) && ReplyOk(db, op, ctx, ids, reply)
    case Answered(ctx, ids, reply) => CtxOk(db, user, oauth, ctx) && ReplyOk(db, op, ctx, ids, reply)
    case Refusal(error) => true
    case Crashed => Rejectable(op)
    case _ => false
  }

  ghost predicate OperatorOk(db: Db, first: Id, action: AdminOp, pc: Pc) {
    && !ChangesMembers(action)
    && match pc
       case AdminSelect => SeatsBelow(db, first)
       case AdminInsert => SeatsBelow(db, first) && action.RegisterConnector? && !Blank(action.source)
       case AdminUpdate(id) =>
         action.RegisterConnector? && !Blank(action.source) && id in db.seats
         && db.seats[id].org == action.org && db.seats[id].oauth == action.oauth
       case AdminDone(_) => true
       case Crashed => action.RegisterConnector? && !Blank(action.source)
       case _ => false
  }

  ghost predicate ProcOk(db: Db, p: Proc) {
    match p
    case Request(first, user, oauth, op, pc) => RequestOk(db, first, user, oauth, op, pc)
    case Operator(first, action, pc) => OperatorOk(db, first, action, pc)
  }

  ghost predicate Sound(s: Sys) {
    && Indexed(s.db) && OwnIds(s.procs)
    && forall i | 0 <= i < |s.procs| :: ProcOk(s.db, s.procs[i])
  }

  // ---------------------------------------------------------------- what one request changes

  /** Under interleaving a row keeps its identity, never returns to pending, and never loses its
      link; but a review decided on an outdated read may overwrite any status. */
  predicate Drifts(f: Fact, g: Fact) {
    && g == f.(status := g.status, supersededBy := g.supersededBy)
    && (g.status == PendingReview ==> f.status == PendingReview)
    && (f.supersededBy.Some? ==> g.supersededBy.Some?)
    && (LinkedIfSuperseded(f) ==> LinkedIfSuperseded(g))
  }

  predicate LinkedIfSuperseded(f: Fact) {
    f.status == Superseded ==> f.supersededBy.Some?
  }

  ghost predicate FactsDrift(before: Facts, after: Facts, call: nat) {
    && (forall id | id in before :: id in after && Drifts(before[id], after[id]))
    && (forall id | id in after && id !in before :: id.call == call && Newborn(after[id]))
  }

  ghost predicate SeatsGrow(before: Seats, after: Seats, call: nat) {
    && SeatsPersist(before, after)
    && (forall id | id in after && id !in before :: id.call == call)
  }

  ghost predicate Grows(before: Db, after: Db, call: nat) {
    && after.members == before.members
    && FactsDrift(before.facts, after.facts, call) && SeatsGrow(before.seats, after.seats, call)
  }

  // ---------------------------------------------------------------- one request keeps the invariant

  lemma KeptAnswers(before: Facts, after: Facts, call: nat, org: OrgId, keys: seq<Option<string>>, ids: seq<Id>)
    requires FactsDrift(before, after, call) && Answers(before, org, keys, ids)
    ensures Answers(after, org, keys, ids)
  {
  }

  lemma KeptKey(before: Facts, after: Facts, call: nat, org: OrgId, f: FactInput)
    requires FactsDrift(before, after, call) && KeyTaken(before, org, f)
    ensures KeyTaken(after, org, f)
  {
    assert Pick(Holders(before, org, f.dedupeKey.value)) in Holders(after, org, f.dedupeKey.value);
  }

  lemma KeptSeat(before: Seats, after: Seats, call: nat, org: OrgId, oauth: string)
    requires SeatsGrow(before, after, call) && SeatRows(before, org, oauth) != {}
    ensures SeatRows(after, org, oauth) != {}
  {
    assert Pick(SeatRows(before, org, oauth)) in SeatRows(after, org, oauth);
  }

  lemma KeptItem(before: Db, after: Db, call: nat, p: Proc)
    requires p.Request? && (p.pc.InsertItem? || p.pc.FindHolder?)
    requires ProcOk(before, p) && Grows(before, after, call) && p.first.call != call
    ensures ProcOk(after, p)
  {
    KeptAnswers(before.facts, after.facts, call, p.pc.ctx.org, Keys(p.op.items[..p.pc.done.next]), p.pc.done.touched);
    if p.pc.FindHolder? {
      KeptKey(before.facts, after.facts, call, p.pc.ctx.org, p.pc.f);
    }
  }

  lemma KeptSupersede(before: Db, after: Db, call: nat, p: Proc)
    requires p.Request? && (p.pc.FindReplacement? || p.pc.UpdateTarget?)
    requires ProcOk(before, p) && Grows(before, after, call) && p.first.call != call
    ensures ProcOk(after, p)
  {
    if p.pc.FindReplacement? {
      KeptKey(before.facts, after.facts, call, p.pc.ctx.org, p.pc.f);
    } else {
      KeptAnswers(before.facts, after.facts, call, p.pc.ctx.org, [p.pc.f.dedupeKey], [p.pc.link]);
    }
  }

  lemma KeptEnd(before: Db, after: Db, call: nat, p: Proc)
    requires p.Request? && (p.pc.InsertAudit? || p.pc.Answered?)
    requires ProcOk(before, p) && Grows(before, after, call) && p.first.call != call
    ensures ProcOk(after, p)
  {
    KeptReply(before, after, call, p.op, p.pc.ctx, p.pc.ids, p.pc.reply);
  }

  /** What other calls and operators do never breaks a call's own invariant. */
  lemma OthersStayOk(before: Db, after: Db, call: nat, p: Proc)
    requires ProcOk(before, p) && Grows(before, after, call) && p.first.call != call
    ensures ProcOk(after, p)
  {
    if p.Request? {
      if p.pc.ReselectSeat? {
        KeptSeat(before.seats, after.seats, call, p.pc.org, p.oauth);
      } else if p.pc.InsertItem? || p.pc.FindHolder? {
        KeptItem(before, after, call, p);
      } else if p.pc.FindReplacement? || p.pc.UpdateTarget? {
        KeptSupersede(before, after, call, p);
      } else if p.pc.InsertAudit? || p.pc.Answered? {
        KeptEnd(before, after, call, p);
      }
    }
  }

  lemma KeptReply(before: Db, after: Db, call: nat, op: Op, ctx: Ctx, ids: seq<Id>, reply: Reply)
    requires FactsDrift(before.facts, after.facts, call) && ReplyOk(before, op, ctx, ids, reply)
    ensures ReplyOk(after, op, ctx, ids, reply)
  {
  }

  lemma {:induction false} NextItemOk(
      db: Db, first: Id, user: UserId, oauth: string, op: Op, ctx: Ctx, rest: seq<Payload>, done: Progress)
    requires CtxOk(db, user, oauth, ctx) && ProgressOk(db, first, op, ctx, rest, done)
    ensures RequestOk(db, first, user, oauth, op, NextItem(ctx, rest, done))
    decreases |rest|
  {
    var n := done.next;
    if rest == [] {
      assert op.items[..n] == op.items;
    } else {
      assert rest[0] == op.items[n] && rest[1..] == op.items[n + 1..];
      if Validate(rest[0]).None? {
        assert op.items[..n + 1][..n] == op.items[..n];
        NextItemOk(db, first, user, oauth, op, ctx, rest[1..], done.(next := n + 1, invalid := done.invalid + [n]));
      }
    }
  }

  lemma StartOk(db: Db, first: Id, user: UserId, oauth: string, op: Op, ctx: Ctx)
    requires CtxOk(db, user, oauth, ctx) && FactsBelow(db, first, 0)
    ensures RequestOk(db, first, user, oauth, op, Start(ctx, op))
  {
    if op.RememberFacts? {
      NextItemOk(db, first, user, oauth, op, ctx, op.items, Progress(0, [], [], [], []));
    }
  }

  lemma AdmitOk(db: Db, first: Id, user: UserId, oauth: string, op: Op, org: OrgId, role: Role, seat: Id)
    requires FactsBelow(db, first, 0) && ResolveMembership(db.members, user) == Member(org, role)
    requires seat in db.seats && db.seats[seat].org == org && db.seats[seat].oauth == oauth
    ensures RequestOk(db, first, user, oauth, op, Admit(db, user, op, org, role, seat, db.seats[seat]))
  {
    SingleMembership(db.members, user);
    StartOk(db, first, user, oauth, op, MakeCtx(db.members, user, org, role, seat, db.seats[seat]));
  }

  /** A new fact under the call's own id keeps the index and answers for its key. */
  lemma NewFact(db: Db, call: nat, ctx: Ctx, id: Id, f: FactInput)
    requires Indexed(db) && id !in db.facts && id.call == call && !KeyTaken(db.facts, ctx.org, f)
    ensures var after := db.(facts := db.facts[id := FactRow(ctx, f)]);
      Indexed(after) && Grows(db, after, call) && Answers(after.facts, ctx.org, [f.dedupeKey], [id])
  {
    InsertFactGrows(db.facts, ctx, id, f);
  }

  lemma ItemAnswered(
      db: Db, first: Id, op: Op, ctx: Ctx, f: FactInput, rest: seq<Payload>, done: Progress, id: Id, after: Progress)
    requires op.RememberFacts? && done.next < |op.items| && Validate(op.items[done.next]) == Some(f)
    requires op.items[done.next + 1..] == rest && FactsBelow(db, first, done.next + 1)
    requires Answers(db.facts, ctx.org, Keys(op.items[..done.next]), done.touched)
    requires Answers(db.facts, ctx.org, [f.dedupeKey], [id])
    requires after.next == done.next + 1 && after.touched == done.touched + [id]
    ensures ProgressOk(db, first, op, ctx, rest, after)
  {
    var n := done.next;
    assert op.items[..n + 1][..n] == op.items[..n];
    assert Keys(op.items[..n + 1]) == Keys(op.items[..n]) + [f.dedupeKey];
  }

  lemma InsertItemOk(
      db: Db, first: Id, user: UserId, oauth: string, op: Op, ctx: Ctx, f: FactInput, rest: seq<Payload>,
      done: Progress)
    requires Indexed(db) && RequestOk(db, first, user, oauth, op, InsertItem(ctx, f, rest, done))
    ensures var m := RequestMove(db, first, user, oauth, op, InsertItem(ctx, f, rest, done));
      Indexed(m.db) && Grows(db, m.db, first.call) && RequestOk(m.db, first, user, oauth, op, m.pc)
  {
    if !Storable(f) {
      assert op.items[done.next] in op.items;
    } else if !KeyTaken(db.facts, ctx.org, f) {
      var id := NthId(first, done.next);
      var m := RequestMove(db, first, user, oauth, op, InsertItem(ctx, f, rest, done));
      NewFact(db, first.call, ctx, id, f);
      KeptAnswers(db.facts, m.db.facts, first.call, ctx.org, Keys(op.items[..done.next]), done.touched);
      ItemAnswered(m.db, first, op, ctx, f, rest, done, id, Created(done, id));
      NextItemOk(m.db, first, user, oauth, op, ctx, rest, Created(done, id));
    }
  }

  lemma FindHolderOk(
      db: Db, first: Id, user: UserId, oauth: string, op: Op, ctx: Ctx, f: FactInput, rest: seq<Payload>,
      done: Progress)
    requires Indexed(db) && RequestOk(db, first, user, oauth, op, FindHolder(ctx, f, rest, done))
    ensures var m := RequestMove(db, first, user, oauth, op, FindHolder(ctx, f, rest, done));
      m.db == db && RequestOk(m.db, first, user, oauth, op, m.pc)
  {
    var id := Pick(Holders(db.facts, ctx.org, f.dedupeKey.value));
    ItemAnswered(db, first, op, ctx, f, rest, done, id, Deduped(done, id));
    NextItemOk(db, first, user, oauth, op, ctx, rest, Deduped(done, id));
  }

  lemma FirstContactOk(db: Db, first: Id, user: UserId, oauth: string, op: Op, org: OrgId, role: Role)
    requires Indexed(db) && RequestOk(db, first, user, oauth, op, Pc.InsertSeat(org, role))
    requires SeatRows(db.seats, org, oauth) == {}
    ensures var seat := FirstContactSeat(org, user, oauth);
      var after := db.(seats := db.seats[first := seat]);
      && Indexed(after) && Grows(db, after, first.call)
      && RequestOk(after, first, user, oauth, op, Admit(db, user, op, org, role, first, seat))
  {
    var seat := FirstContactSeat(org, user, oauth);
    NewSeatKeepsIndex(db.seats, org, oauth, first, seat);
    AdmitOk(db.(seats := db.seats[first := seat]), first, user, oauth, op, org, role, first);
  }

  lemma SeatMoveOk(db: Db, first: Id, user: UserId, oauth: string, op: Op, pc: Pc)
    requires Indexed(db) && RequestOk(db, first, user, oauth, op, pc)
    requires pc.SelectMembers? || pc.SelectSeat? || pc.InsertSeat? || pc.ReselectSeat?
    ensures var m := RequestMove(db, first, user, oauth, op, pc);
      Indexed(m.db) && Grows(db, m.db, first.call) && RequestOk(m.db, first, user, oauth, op, m.pc)
  {
    if !pc.SelectMembers? {
      var rows := SeatRows(db.seats, pc.org, oauth);
      if rows != {} {
        AdmitOk(db, first, user, oauth, op, pc.org, pc.role, Pick(rows));
      } else if pc.InsertSeat? {
        FirstContactOk(db, first, user, oauth, op, pc.org, pc.role);
      }
    }
  }

  lemma ReadMoveOk(db: Db, first: Id, user: UserId, oauth: string, op: Op, ctx: Ctx)
    requires RequestOk(db, first, user, oauth, op, SelectFacts(ctx))
    ensures var o := Act(db.facts, ctx, first, op);
      && (o.audited || Rejectable(op))
      && ReplyOk(db, op, ctx, o.ids, o.reply)
  {
    assert !op.RememberFacts? by {
      if op.RememberFacts? {
        NextItemShape(ctx, op.items, Progress(0, [], [], [], []));
      }
    }
  }

  lemma {:induction false} NextItemShape(ctx: Ctx, items: seq<Payload>, done: Progress)
    ensures NextItem(ctx, items, done).InsertItem? || NextItem(ctx, items, done).InsertAudit?
  {
    if items == [] {
    } else if Validate(items[0]).None? {
      NextItemShape(ctx, items[1..], done.(next := done.next + 1, invalid := done.invalid + [done.next]));
    }
  }

  /** Updating a row in place, as the two update requests do. */
  lemma RowUpdate(db: Db, call: nat, id: Id, row: Fact)
    requires Indexed(db) && id in db.facts && Drifts(db.facts[id], row)
    ensures var after := db.(facts := db.facts[id := row]); Indexed(after) && Grows(db, after, call)
  {
  }

  lemma WriteReplacementOk(db: Db, first: Id, user: UserId, oauth: string, op: Op, ctx: Ctx, target: Id, f: FactInput)
    requires Indexed(db) && RequestOk(db, first, user, oauth, op, InsertReplacement(ctx, target, f))
    ensures var m := RequestMove(db, first, user, oauth, op, InsertReplacement(ctx, target, f));
      Indexed(m.db) && Grows(db, m.db, first.call) && RequestOk(m.db, first, user, oauth, op, m.pc)
  {
    if Storable(f) && !KeyTaken(db.facts, ctx.org, f) {
      NewFact(db, first.call, ctx, first, f);
    }
  }

  lemma UpdateTargetOk(
      db: Db, first: Id, user: UserId, oauth: string, op: Op, ctx: Ctx, target: Id, f: FactInput, link: Id, isNew: bool)
    requires Indexed(db) && RequestOk(db, first, user, oauth, op, UpdateTarget(ctx, target, f, link, isNew))
    ensures var m := RequestMove(db, first, user, oauth, op, UpdateTarget(ctx, target, f, link, isNew));
      Indexed(m.db) && Grows(db, m.db, first.call) && RequestOk(m.db, first, user, oauth, op, m.pc)
  {
    var m := RequestMove(db, first, user, oauth, op, UpdateTarget(ctx, target, f, link, isNew));
    RowUpdate(db, first.call, target, db.facts[target].(status := Superseded, supersededBy := Some(link)));
    KeptAnswers(db.facts, m.db.facts, first.call, ctx.org, [f.dedupeKey], [link]);
  }

  lemma ReadTargetOk(db: Db, first: Id, user: UserId, oauth: string, op: Op, pc: Pc)
    requires RequestOk(db, first, user, oauth, op, pc) && (pc.SelectTarget? || pc.FindReplacement? || pc.SelectPending?)
    ensures var m := RequestMove(db, first, user, oauth, op, pc);
      m.db == db && RequestOk(db, first, user, oauth, op, m.pc)
  {
  }

  lemma UpdateStatusOk(db: Db, first: Id, user: UserId, oauth: string, op: Op, ctx: Ctx, id: Id, status: FactStatus)
    requires Indexed(db) && RequestOk(db, first, user, oauth, op, UpdateStatus(ctx, id, status))
    ensures var m := RequestMove(db, first, user, oauth, op, UpdateStatus(ctx, id, status));
      Indexed(m.db) && Grows(db, m.db, first.call) && RequestOk(m.db, first, user, oauth, op, m.pc)
  {
    RowUpdate(db, first.call, id, db.facts[id].(status := status));
  }

  lemma SelectFactsOk(db: Db, first: Id, user: UserId, oauth: string, op: Op, ctx: Ctx)
    requires RequestOk(db, first, user, oauth, op, SelectFacts(ctx))
    ensures var m := RequestMove(db, first, user, oauth, op, SelectFacts(ctx));
      m.db == db && RequestOk(db, first, user, oauth, op, m.pc)
  {
    ReadMoveOk(db, first, user, oauth, op, ctx);
  }

  lemma NoGrowth(db: Db, call: nat)
    ensures Grows(db, db, call)
  {
  }

  lemma AuditMoveOk(db: Db, first: Id, user: UserId, oauth: string, op: Op, ctx: Ctx, ids: seq<Id>, reply: Reply)
    requires Indexed(db) && RequestOk(db, first, user, oauth, op, InsertAudit(ctx, ids, reply))
    ensures var after := db.(audit := Audited(db.audit, ctx, op, ids));
      && Indexed(after) && Grows(db, after, first.call)
      && RequestOk(after, first, user, oauth, op, Answered(ctx, ids, reply))
  {
    NoGrowth(db, first.call);
  }

  lemma FinalMoveOk(db: Db, first: Id, user: UserId, oauth: string, op: Op, pc: Pc)
    requires Final(pc)
    ensures RequestMove(db, first, user, oauth, op, pc) == Move(db, pc) && Grows(db, db, first.call)
  {
    NoGrowth(db, first.call);
  }

  lemma BodyMoveOk(db: Db, first: Id, user: UserId, oauth: string, op: Op, pc: Pc)
    requires Indexed(db) && RequestOk(db, first, user, oauth, op, pc)
    requires pc.SelectTarget? || pc.FindReplacement? || pc.SelectPending? || pc.InsertReplacement? || pc.UpdateTarget?
      || pc.UpdateStatus? || pc.InsertItem? || pc.FindHolder? || pc.SelectFacts?
    ensures var m := RequestMove(db, first, user, oauth, op, pc);
      Indexed(m.db) && Grows(db, m.db, first.call) && RequestOk(m.db, first, user, oauth, op, m.pc)
  {
    NoGrowth(db, first.call);
    if pc.SelectTarget? || pc.FindReplacement? || pc.SelectPending? {
      ReadTargetOk(db, first, user, oauth, op, pc);
    } else if pc.InsertReplacement? {
      WriteReplacementOk(db, first, user, oauth, op, pc.ctx, pc.target, pc.f);
    } else if pc.UpdateTarget? {
      UpdateTargetOk(db, first, user, oauth, op, pc.ctx, pc.target, pc.f, pc.link, pc.isNew);
    } else if pc.UpdateStatus? {
      UpdateStatusOk(db, first, user, oauth, op, pc.ctx, pc.id, pc.status);
    } else if pc.InsertItem? {
      InsertItemOk(db, first, user, oauth, op, pc.ctx, pc.f, pc.rest, pc.done);
    } else if pc.FindHolder? {
      FindHolderOk(db, first, user, oauth, op, pc.ctx, pc.f, pc.rest, pc.done);
    } else {
      SelectFactsOk(db, first, user, oauth, op, pc.ctx);
    }
  }

  /** Every request of every tool keeps the indexes, only lets the tables grow and drift, and
      leaves its call where its invariant says. In particular no request-path step can crash but
      on an argument the database refuses: the re-raise after a key collision and the index after a seat
      collision always find their row. */
  lemma RequestMoveOk(db: Db, first: Id, user: UserId, oauth: string, op: Op, pc: Pc)
    requires Indexed(db) && RequestOk(db, first, user, oauth, op, pc)
    ensures var m := RequestMove(db, first, user, oauth, op, pc);
      Indexed(m.db) && Grows(db, m.db, first.call) && RequestOk(m.db, first, user, oauth, op, m.pc)
  {
    if pc.SelectMembers? || pc.SelectSeat? || pc.InsertSeat? || pc.ReselectSeat? {
      SeatMoveOk(db, first, user, oauth, op, pc);
    } else if pc.InsertAudit? {
      AuditMoveOk(db, first, user, oauth, op, pc.ctx, pc.ids, pc.reply);
    } else if Final(pc) {
      FinalMoveOk(db, first, user, oauth, op, pc);
    } else {
      BodyMoveOk(db, first, user, oauth, op, pc);
    }
  }

  /** One-request operator actions on seats. */
  lemma SeatActionOk(db: Db, first: Id, action: AdminOp)
    requires Indexed(db) && SeatsBelow(db, first) && !ChangesMembers(action)
    ensures action.SetConnectorSource? || action.SetSeatStatus? ==>
      var after := StepAdmin(db, first, action).db; Indexed(after) && Grows(db, after, first.call)
  {
    match action
    case SetConnectorSource(org, oauth, source) =>
      UpdateKeepsIndex(db.seats, org, oauth, NewSource(source));
    case SetSeatStatus(org, oauth, status) =>
      UpdateKeepsIndex(db.seats, org, oauth, NewStatus(status, first.call));
    case _ =>
  }

  lemma RegistrationWriteOk(db: Db, first: Id, action: AdminOp, pc: Pc)
    requires Indexed(db) && OperatorOk(db, first, action, pc) && (pc.AdminInsert? || pc.AdminUpdate?)
    ensures var m := OperatorMove(db, first, action, pc);
      Indexed(m.db) && Grows(db, m.db, first.call) && OperatorOk(m.db, first, action, m.pc)
  {
    NewSeatKeepsIndex(db.seats, action.org, action.oauth, first,
      NewConnector(action.org, action.oauth, action.source, action.registrant, action.displayName, action.scopes));
  }

  lemma OperatorMoveOk(db: Db, first: Id, action: AdminOp, pc: Pc)
    requires Indexed(db) && OperatorOk(db, first, action, pc)
    ensures var m := OperatorMove(db, first, action, pc);
      Indexed(m.db) && Grows(db, m.db, first.call) && OperatorOk(m.db, first, action, m.pc)
  {
    if pc.AdminSelect? {
      SeatActionOk(db, first, action);
    } else if pc.AdminInsert? || pc.AdminUpdate? {
      RegistrationWriteOk(db, first, action, pc);
    }
  }

  // ---------------------------------------------------------------- every schedule

  lemma ProcMoveOk(db: Db, p: Proc)
    requires Indexed(db) && ProcOk(db, p)
    ensures var m := ProcMove(db, p);
      Indexed(m.db) && Grows(db, m.db, p.first.call) && ProcOk(m.db, p.(pc := m.pc))
  {
    match p
    case Request(first, user, oauth, op, pc) => RequestMoveOk(db, first, user, oauth, op, pc);
    case Operator(first, action, pc) => OperatorMoveOk(db, first, action, pc);
  }

  lemma InitialIsSound(s: Sys)
    requires Initial(s)
    ensures Sound(s)
  {
  }

  lemma AdvanceKeepsSound(s: Sys, i: nat)
    requires Sound(s) && i < |s.procs|
    ensures Sound(Advance(s, i)) && Grows(s.db, Advance(s, i).db, s.procs[i].first.call)
  {
    var p, t := s.procs[i], Advance(s, i);
    ProcMoveOk(s.db, p);
    forall j | 0 <= j < |t.procs| ensures ProcOk(t.db, t.procs[j]) {
      if j != i {
        OthersStayOk(s.db, t.db, p.first.call, s.procs[j]);
      }
    }
  }

  ghost predicate SameCalls(s: Sys, t: Sys) {
    |s.procs| == |t.procs| && forall i | 0 <= i < |s.procs| :: t.procs[i] == s.procs[i].(pc := t.procs[i].pc)
  }

  /** Every interleaving keeps every call's invariant; hence the indexes, and the absence of
      unexpected crashes. */
  lemma {:induction false} ExecIsSound(s: Sys, schedule: seq<nat>)
    requires Sound(s)
    ensures Sound(Exec(s, schedule)) && SameCalls(s, Exec(s, schedule))
  {
    if schedule == [] {
    } else {
      var n := |schedule| - 1;
      ExecIsSound(s, schedule[..n]);
      var t := Exec(s, schedule[..n]);
      if schedule[n] < |t.procs| {
        AdvanceKeepsSound(t, schedule[n]);
      }
    }
  }

  /** Under every interleaving of any calls: both unique indexes hold, and a tool call ends in a
      database error only for an argument the database rejects; among operator actions only
      registrations can. When exactly they do is the subject of `SeatRace`. */
  lemma RacesAreSafe(s: Sys, schedule: seq<nat>, i: nat)
    requires Initial(s) && i < |s.procs|
    ensures var t := Exec(s, schedule);
      && Indexed(t.db) && i < |t.procs|
      && (t.procs[i].pc.Crashed? ==>
            match s.procs[i]
            case Request(_, _, _, op, _) => Rejectable(op)
            case Operator(_, action, _) => action.RegisterConnector? && !Blank(action.source))
  {
    InitialIsSound(s);
    ExecIsSound(s, schedule);
  }

  /** A finished call that reported `id` for an item with this key. */
  ghost predicate Resolved(p: Proc, org: OrgId, key: string, id: Id) {
    && p.Request? && p.pc.Answered? && p.pc.ctx.org == org
    && (match p.op
        case RememberFacts(items) =>
          p.pc.reply.Remembered? && exists a ::
            0 <= a < |Keys(items)| && a < |p.pc.ids| && Keys(items)[a] == Some(key) && p.pc.ids[a] == id
        case SupersedeFact(_, payload) =>
          && p.pc.reply.Replaced? && p.pc.reply.replacement == id
          && Validate(payload).Some? && Validate(payload).value.dedupeKey == Some(key)
        case _ => false)
  }

  lemma ResolvedHoldsKey(db: Db, p: Proc, org: OrgId, key: string, id: Id)
    requires ProcOk(db, p) && Resolved(p, org, key, id)
    ensures id in Holders(db.facts, org, key)
  {
    assert ReplyOk(db, p.op, p.pc.ctx, p.pc.ids, p.pc.reply);
    if p.op.RememberFacts? {
      var keys := Keys(p.op.items);
      var a :| 0 <= a < |keys| && a < |p.pc.ids| && keys[a] == Some(key) && p.pc.ids[a] == id;
      assert db.facts[p.pc.ids[a]].dedupeKey == keys[a];
    } else {
      var keys, ids := [Validate(p.op.replacement).value.dedupeKey], [p.pc.ids[0]];
      assert Answers(db.facts, org, keys, ids);
      assert ids[0] in db.facts && db.facts[ids[0]].dedupeKey == keys[0];
    }
  }

  /** All racing calls with the same key in the same org resolve to the same fact, and that fact
      holds the key. */
  lemma RacersAgree(s: Sys, schedule: seq<nat>, i: nat, j: nat, org: OrgId, key: string, x: Id, y: Id)
    requires Initial(s) && i < |Exec(s, schedule).procs| && j < |Exec(s, schedule).procs|
    requires Resolved(Exec(s, schedule).procs[i], org, key, x) && Resolved(Exec(s, schedule).procs[j], org, key, y)
    ensures x == y && Holders(Exec(s, schedule).db.facts, org, key) == {x}
  {
    InitialIsSound(s);
    ExecIsSound(s, schedule);
    var t := Exec(s, schedule);
    ResolvedHoldsKey(t.db, t.procs[i], org, key, x);
    ResolvedHoldsKey(t.db, t.procs[j], org, key, y);
  }

  /** The context of a call that has got past `_begin`. */
  function CtxOf(pc: Pc): Option<Ctx> {
    match pc
    case SelectFacts(ctx) => Some(ctx)
    case InsertItem(ctx, _, _, _) => Some(ctx)
    case FindHolder(ctx, _, _, _) => Some(ctx)
    case SelectTarget(ctx, _, _) => Some(ctx)
    case InsertReplacement(ctx, _, _) => Some(ctx)
    case FindReplacement(ctx, _, _) => Some(ctx)
    case UpdateTarget(ctx, _, _, _, _) => Some(ctx)
    case SelectPending(ctx, _, _) => Some(ctx)
    case UpdateStatus(ctx, _, _) => Some(ctx)
    case InsertAudit(ctx, _, _) => Some(ctx)
    case Answered(ctx, _, _) => Some(ctx)
    case _ => None
  }

  /** However first contacts and operator registrations race, callers of one org with one OAuth
      client all end up on the same seat row, the only one there is. */
  lemma RacersShareTheSeat(s: Sys, schedule: seq<nat>, i: nat, j: nat)
    requires Initial(s) && i < |s.procs| == |Exec(s, schedule).procs| && j < |s.procs|
    requires s.procs[i].Request? && s.procs[j].Request? && s.procs[i].oauth == s.procs[j].oauth
    requires var t := Exec(s, schedule);
      && CtxOf(t.procs[i].pc).Some? && CtxOf(t.procs[j].pc).Some?
      && CtxOf(t.procs[i].pc).value.org == CtxOf(t.procs[j].pc).value.org
    ensures var t := Exec(s, schedule);
      var ctx := CtxOf(t.procs[i].pc).value;
      ctx.seat == CtxOf(t.procs[j].pc).value.seat && SeatRows(t.db.seats, ctx.org, s.procs[i].oauth) == {ctx.seat}
  {
    InitialIsSound(s);
    ExecIsSound(s, schedule);
    var t := Exec(s, schedule);
    assert ProcOk(t.db, t.procs[i]) && ProcOk(t.db, t.procs[j]);
    var a, b := CtxOf(t.procs[i].pc).value, CtxOf(t.procs[j].pc).value;
    assert CtxOk(t.db, t.procs[i].user, t.procs[i].oauth, a);
    assert CtxOk(t.db, t.procs[j].user, t.procs[j].oauth, b);
    assert a.seat in SeatRows(t.db.seats, a.org, t.procs[i].oauth);
  }

  /** Nothing on the request path changes an existing seat: in particular reconnecting does not
      reactivate a revoked one. */
  lemma RequestsKeepSeats(db: Db, first: Id, user: UserId, oauth: string, op: Op, pc: Pc)
    requires RequestOk(db, first, user, oauth, op, pc)
    ensures forall id | id in db.seats ::
      var after := RequestMove(db, first, user, oauth, op, pc).db.seats; id in after && after[id] == db.seats[id]
  {
  }

  ghost predicate AllDrift(before: Facts, after: Facts) {
    forall id | id in before :: id in after && Drifts(before[id], after[id])
  }

  /** Over any interleaving rows persist and keep their identity, none returns to pending, no link
      is cleared, and a superseded row has its link. */
  lemma {:induction false} ExecDrifts(s: Sys, schedule: seq<nat>)
    requires Sound(s)
    ensures AllDrift(s.db.facts, Exec(s, schedule).db.facts)
    ensures (forall id | id in s.db.facts :: LinkedIfSuperseded(s.db.facts[id])) ==>
      forall id | id in Exec(s, schedule).db.facts :: LinkedIfSuperseded(Exec(s, schedule).db.facts[id])
  {
    if schedule == [] {
    } else {
      var n := |schedule| - 1;
      ExecDrifts(s, schedule[..n]);
      ExecIsSound(s, schedule[..n]);
      var t := Exec(s, schedule[..n]);
      if schedule[n] < |t.procs| {
        AdvanceKeepsSound(t, schedule[n]);
      }
    }
  }
}
