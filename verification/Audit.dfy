/** The audit log explains the facts table. */
module Audit {
  import opened Schema
  import opened Intake
  import opened Tools
  import opened Lifecycle

  /** The calls that end in a database error before their audit row: an id that Python parses as a
      uuid and Postgres then refuses, or a fact or search whose values it refuses, in a tool that
      gets as far as sending it. */
  predicate Escapes(facts: Facts, ctx: Ctx, op: Op) {
    match op
    case Fetch(arg) => arg.Unreadable?
    case Search(q) => !Answerable(q)
    case SearchContext(q) => !Answerable(q)
    case RememberFacts(items) => exists p :: p in items && Unstorable(p)
    case SupersedeFact(arg, p) =>
      Validate(p).Some? && (arg.Unreadable? || (arg.Uuid? && arg.id in Visible(facts, ctx.orgs) && Unstorable(p)))
    case PromoteFact(arg) => arg.Unreadable? && MayReview(ctx.role)
    case RejectFact(arg, _) => arg.Unreadable? && MayReview(ctx.role)
    case _ => false
  }

  /** The arguments without which no call escapes. */
  predicate Rejectable(op: Op) {
    match op
    case Fetch(arg) => arg.Unreadable?
    case Search(q) => !Answerable(q)
    case SearchContext(q) => !Answerable(q)
    case RememberFacts(items) => exists p :: p in items && Unstorable(p)
    case SupersedeFact(arg, p) => arg.Unreadable? || Unstorable(p)
    case PromoteFact(arg) => arg.Unreadable?
    case RejectFact(arg, _) => arg.Unreadable?
    case _ => false
  }

  lemma CleanIff(items: seq<Payload>)
    ensures Clean(items) == |items| <==> !exists p :: p in items && Unstorable(p)
  {
    if p :| p in items && Unstorable(p) {
      var i :| 0 <= i < |items| && items[i] == p;
    }
    if Clean(items) < |items| {
      assert items[Clean(items)] in items;
    }
  }

  /** A call changes rows of its own org only. */
  ghost predicate ChangesWithin(before: Facts, after: Facts, org: OrgId) {
    forall id | id in after && (id !in before || before[id] != after[id]) ::
      after[id].org == org && (id in before ==> before[id].org == org)
  }

  /** What a call that ends in a database error has done: a batch has inserted the new items before
      the one that was rejected, anything else nothing. */
  ghost predicate LeavesInserts(before: Facts, after: Facts, ctx: Ctx, first: Id, op: Op) {
    if op.RememberFacts? then
      && (forall id | id in before :: id in after && after[id] == before[id])
      && (forall id :: id in after <==>
            id in before || id in WriteBatch(before, ctx, first, op.items[..Clean(op.items)]).created)
      && (forall id | id in after && id !in before ::
            id.call == first.call && after[id].org == ctx.org && after[id].owner == ctx.user)
    else after == before
  }

  ghost predicate Outcomes(facts: Facts, ctx: Ctx, first: Id, op: Op, o: Outcome) {
    && ChangesWithin(facts, o.facts, ctx.org)
    && (o.audited <==> !Escapes(facts, ctx, op))
    && (if o.audited then Explained(facts, o.facts, o.ids)
        else o.reply == Failed(DatabaseError) && LeavesInserts(facts, o.facts, ctx, first, op))
  }

  lemma RetireWithin(before: Facts, inserted: Facts, org: OrgId, target: Id, row: Fact)
    requires ChangesWithin(before, inserted, org) && target in before && target in inserted
    requires before[target].org == org && row.org == org
    ensures ChangesWithin(before, inserted[target := row], org)
  {
  }

  lemma SupersedeStaysWithin(facts: Facts, ctx: Ctx, first: Id, arg: IdArg, p: Payload)
    requires UniqueKeys(facts) && AllBefore(facts, first.call) && ctx.orgs == {ctx.org}
    ensures ChangesWithin(facts, Supersede(facts, ctx, first, arg, p).facts, ctx.org)
  {
    var v := Validate(p);
    if arg.Uuid? && v.Some? && arg.id in Visible(facts, ctx.orgs) {
      InsertFactGrows(facts, ctx, first, v.value);
      var w := InsertFact(facts, ctx, first, v.value);
      RetireWithin(facts, w.facts, ctx.org, arg.id, facts[arg.id].(status := Superseded, supersededBy := Some(w.id)));
    }
  }

  lemma SupersedeIsExplained(facts: Facts, ctx: Ctx, first: Id, arg: IdArg, p: Payload)
    requires UniqueKeys(facts) && AllBefore(facts, first.call) && ctx.orgs == {ctx.org}
    ensures Outcomes(facts, ctx, first, SupersedeFact(arg, p), Supersede(facts, ctx, first, arg, p))
  {
    SupersedeEvolves(facts, ctx, first, arg, p);
    SupersedeStaysWithin(facts, ctx, first, arg, p);
  }

  lemma RememberIsExplained(facts: Facts, ctx: Ctx, first: Id, items: seq<Payload>)
    requires UniqueKeys(facts) && AllBefore(facts, first.call)
    ensures Outcomes(facts, ctx, first, RememberFacts(items), Remember(facts, ctx, first, items))
  {
    WriteBatchGrows(facts, ctx, first, items[..Clean(items)]);
    CleanIff(items);
  }

  lemma DecideIsExplained(facts: Facts, ctx: Ctx, arg: IdArg, status: FactStatus)
    requires UniqueKeys(facts) && ctx.orgs == {ctx.org} && (status == Active || status == Rejected)
    ensures var o := Decide(facts, ctx, arg, status);
      && ChangesWithin(facts, o.facts, ctx.org) && Explained(facts, o.facts, o.ids)
      && (o.audited <==> !(arg.Unreadable? && MayReview(ctx.role)))
      && (!o.audited ==> o.facts == facts && o.reply == Failed(DatabaseError))
  {
    DecideEvolves(facts, ctx, arg, status);
  }

  /** A tool changes only rows of its caller's org, and lists each of them unless it escapes. */
  lemma ActIsExplained(facts: Facts, ctx: Ctx, first: Id, op: Op)
    requires UniqueKeys(facts) && AllBefore(facts, first.call) && ctx.orgs == {ctx.org}
    ensures Outcomes(facts, ctx, first, op, Act(facts, ctx, first, op))
  {
    match op
    case RememberFacts(items) => RememberIsExplained(facts, ctx, first, items);
    case SupersedeFact(arg, p) => SupersedeIsExplained(facts, ctx, first, arg, p);
    case PromoteFact(arg) => DecideIsExplained(facts, ctx, arg, Active);
    case RejectFact(arg, _) => DecideIsExplained(facts, ctx, arg, Rejected);
    case _ =>
  }

  /** A row that records this call: caller, org, and a seat of that org for the caller's client. */
  predicate Records(row: AuditRow, db: Db, user: UserId, oauth: string, op: Op, org: OrgId) {
    && row.org == org && row.user == user && row.tool == ToolName(op)
    && row.seat in db.seats && db.seats[row.seat].org == org && db.seats[row.seat].oauth == oauth
  }

  predicate HasMembership(members: Members, user: UserId) {
    exists k :: k in members && k.user == user
  }

  predicate HasTwoMemberships(members: Members, user: UserId) {
    exists k, l :: k in members && l in members && k.user == user && l.user == user && k.org != l.org
  }

  lemma MembershipsCount(members: Members, user: UserId)
    ensures HasMembership(members, user) <==> UserOrgIds(members, user) != {}
    ensures HasTwoMemberships(members, user) <==> |UserOrgIds(members, user)| > 1
  {
    var orgs := UserOrgIds(members, user);
    assert forall k :: k in members && k.user == user ==> k.org in orgs;
    assert forall o :: o in orgs ==> MemberKey(o, user) in members;
    if HasTwoMemberships(members, user) {
      var k, l :| k in members && l in members && k.user == user && l.user == user && k.org != l.org;
      assert {k.org, l.org} <= orgs;
      assert orgs == {k.org, l.org} + (orgs - {k.org, l.org});
    }
    if |orgs| > 1 {
      var o := Pick(orgs);
      assert orgs == {o} + (orgs - {o});
      var p := Pick(orgs - {o});
      assert MemberKey(o, user) in members && MemberKey(p, user) in members;
    }
  }

  /** Tools never answer with a membership error of their own. */
  lemma ActAnswersItsOwn(facts: Facts, ctx: Ctx, first: Id, op: Op)
    ensures var r := Act(facts, ctx, first, op).reply; r != Failed(NoOrg) && r != Failed(MultiOrg)
  {
  }

  /** Who is turned away, and at what cost: a caller without a membership is told so, a caller with
      two is told so, nobody else is, and in both cases no table changes, the log included. */
  lemma OnlySingleOrgCallersAreServed(db: Db, first: Id, user: UserId, oauth: string, op: Op)
    ensures var r := StepCall(db, first, user, oauth, op);
      && (r.reply == Failed(NoOrg) <==> !HasMembership(db.members, user))
      && (r.reply == Failed(MultiOrg) <==> HasTwoMemberships(db.members, user))
      && (r.reply == Failed(NoOrg) || r.reply == Failed(MultiOrg) ==> r.db == db)
  {
    MembershipsCount(db.members, user);
    var m := ResolveMembership(db.members, user);
    if m.Member? {
      ActAnswersItsOwn(db.facts, Enter(db, m.org, m.role, first, user, oauth).ctx, first, op);
    }
  }

  /** Every other call appends exactly one audit row, revoked seats and tool errors included, and
      that row lists every fact the call created or changed. The calls that escape, and what they
      leave behind, are characterised exactly. */
  lemma CallIsAudited(db: Db, first: Id, user: UserId, oauth: string, op: Op)
    requires Indexed(db) && Before(db, first.call) && ResolveMembership(db.members, user).Member?
    ensures var m := ResolveMembership(db.members, user);
      var entry := Enter(db, m.org, m.role, first, user, oauth);
      var r := StepCall(db, first, user, oauth, op);
      && ChangesWithin(db.facts, r.db.facts, m.org)
      && if !entry.revoked && Escapes(db.facts, entry.ctx, op) then
           && r.db.audit == db.audit && r.reply == Failed(DatabaseError)
           && LeavesInserts(db.facts, r.db.facts, entry.ctx, first, op)
         else
           && |r.db.audit| == |db.audit| + 1 && r.db.audit[..|db.audit|] == db.audit
           && Records(r.db.audit[|db.audit|], r.db, user, oauth, op, m.org)
           && Explained(db.facts, r.db.facts, r.db.audit[|db.audit|].factIds)
           && (entry.revoked ==> r.db.audit[|db.audit|].factIds == [] && r.db.facts == db.facts)
  {
    SingleMembership(db.members, user);
    var m := ResolveMembership(db.members, user);
    var entry := Enter(db, m.org, m.role, first, user, oauth);
    ActIsExplained(db.facts, entry.ctx, first, op);
  }

  /** Some audit row written after the first `n` names this fact, in the fact's own org. */
  ghost predicate Named(db: Db, n: nat, id: Id)
    requires id in db.facts
  {
    exists k :: n <= k < |db.audit| && id in db.audit[k].factIds && db.audit[k].org == db.facts[id].org
  }

  /** The event is a batch with an item the database rejects, and the fact has its ids. */
  predicate CutShort(e: Event, id: Id) {
    e.Call? && e.first.call == id.call && e.op.RememberFacts? && exists p :: p in e.op.items && Unstorable(p)
  }

  lemma StepNamesChanges(db: Db, e: Event)
    requires Indexed(db) && Before(db, e.first.call)
    ensures var after := Step(db, e).db;
      && db.audit <= after.audit
      && forall id | id in after.facts && (id !in db.facts || db.facts[id] != after.facts[id]) ::
           Named(after, |db.audit|, id) || (id !in db.facts && CutShort(e, id))
  {
    match e
    case Call(first, user, oauth, op) =>
      if ResolveMembership(db.members, user).Member? {
        CallIsAudited(db, first, user, oauth, op);
        var after := Step(db, e).db;
        forall id | id in after.facts && (id !in db.facts || db.facts[id] != after.facts[id])
          ensures Named(after, |db.audit|, id) || (id !in db.facts && CutShort(e, id))
        {
          if |after.audit| > |db.audit| {
            assert id in after.audit[|db.audit|].factIds;
          }
        }
      }
    case Admin(first, action) =>
      AdminKeepsIndex(db, first, action);
  }

  lemma StillNamed(db: Db, after: Db, n: nat, id: Id)
    requires id in db.facts && id in after.facts && db.facts[id].org == after.facts[id].org
    requires db.audit <= after.audit && Named(db, n, id)
    ensures Named(after, n, id)
  {
    var k :| n <= k < |db.audit| && id in db.audit[k].factIds && db.audit[k].org == db.facts[id].org;
    assert after.audit[k] == db.audit[k];
  }

  /** Every difference is named by a row written since, but for facts that a batch of the run
      inserted before one of its items was rejected. */
  ghost predicate Accounted(db: Db, after: Db, es: seq<Event>) {
    && db.audit <= after.audit
    && forall id | id in after.facts && (id !in db.facts || db.facts[id] != after.facts[id]) ::
         Named(after, |db.audit|, id) || (id !in db.facts && exists e :: e in es && CutShort(e, id))
  }

  /** Over any run the log only grows, and every fact that was created or differs at the end is named
      by a row the run wrote, in its own org; the only others are the facts a rejected batch left. */
  lemma {:induction false} AuditExplainsRun(db: Db, es: seq<Event>)
    requires Indexed(db) && Fresh(db, es)
    ensures Accounted(db, Run(db, es), es)
  {
    if es == [] {
    } else {
      var n := |es| - 1;
      LastStepIsFresh(db, es);
      var mid := Run(db, es[..n]);
      AuditExplainsRun(db, es[..n]);
      RunAdvances(db, es[..n]);
      StepNamesChanges(mid, es[n]);
      StepEvolves(mid, es[n]);
      assert es == es[..n] + [es[n]];
      CombineNames(db, mid, Run(db, es), es[..n], es[n]);
    }
  }

  lemma CombineNames(db: Db, mid: Db, after: Db, es: seq<Event>, e: Event)
    requires Accounted(db, mid, es) && mid.audit <= after.audit && Evolves(mid.facts, after.facts)
    requires AllAdvance(db.facts, mid.facts)
    requires forall id | id in after.facts && (id !in mid.facts || mid.facts[id] != after.facts[id]) ::
      Named(after, |mid.audit|, id) || (id !in mid.facts && CutShort(e, id))
    ensures Accounted(db, after, es + [e])
  {
    forall id | id in after.facts && (id !in db.facts || db.facts[id] != after.facts[id])
      ensures Named(after, |db.audit|, id) || (id !in db.facts && exists x :: x in es + [e] && CutShort(x, id))
    {
      if id in mid.facts && mid.facts[id] == after.facts[id] {
        if Named(mid, |db.audit|, id) {
          StillNamed(mid, after, |db.audit|, id);
        } else {
          var x :| x in es && CutShort(x, id);
          assert x in es + [e];
        }
      } else if !Named(after, |mid.audit|, id) {
        assert e in es + [e] && CutShort(e, id);
      }
    }
  }
}
