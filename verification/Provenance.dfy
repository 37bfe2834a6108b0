/** Why a fact is active: it was submitted with enough confidence, or an owner or office member promoted it. */
module Provenance {
  import opened Schema
  import opened Intake
  import opened Tools
  import opened Lifecycle

  /** Event `e`, taken in state `db`, is a promotion of `id` by a caller who at that moment is
      owner or office of the fact's org, through a live seat whose effective scopes overlap the
      fact's tags; it appends one audit row naming exactly that fact. */
  ghost predicate Promotes(db: Db, e: Event, id: Id) {
    && e.Call? && e.op == PromoteFact(Uuid(id))
    && id in db.facts && db.facts[id].status == PendingReview
    && ResolveMembership(db.members, e.user).Member?
    && var m := ResolveMembership(db.members, e.user);
       var entry := Enter(db, m.org, m.role, e.first, e.user, e.oauth);
       && m.org == db.facts[id].org && MayReview(m.role) && !entry.revoked
       && Overlaps(db.facts[id].tags, EffectiveScopes(m.role, entry.ctx.scopes))
       && Step(db, e).reply == Decided(id, Active)
       && Step(db, e).db.audit == db.audit + [AuditRow(m.org, e.user, entry.ctx.seat, "promote_fact", [id])]
  }

  predicate IsActive(facts: Facts, id: Id) {
    id in facts && facts[id].status == Active
  }

  lemma RememberActivatesNone(facts: Facts, ctx: Ctx, first: Id, items: seq<Payload>, id: Id)
    requires UniqueKeys(facts) && AllBefore(facts, first.call) && !IsActive(facts, id)
    ensures var after := Remember(facts, ctx, first, items).facts;
      IsActive(after, id) ==> after[id].confidence >= 0.9
  {
    WriteBatchGrows(facts, ctx, first, items[..Clean(items)]);
  }

  lemma SupersedeActivatesNone(facts: Facts, ctx: Ctx, first: Id, arg: IdArg, p: Payload, id: Id)
    requires UniqueKeys(facts) && AllBefore(facts, first.call) && !IsActive(facts, id)
    ensures var after := Supersede(facts, ctx, first, arg, p).facts;
      IsActive(after, id) ==> after[id].confidence >= 0.9
  {
    if arg.Uuid? && Validate(p).Some? {
      InsertFactGrows(facts, ctx, first, Validate(p).value);
    }
  }

  /** Within a call, only promoting a fact turns it active. */
  lemma ActMakesActive(facts: Facts, ctx: Ctx, first: Id, op: Op, id: Id)
    requires UniqueKeys(facts) && AllBefore(facts, first.call)
    requires var o := Act(facts, ctx, first, op);
      !IsActive(facts, id) && IsActive(o.facts, id) && o.facts[id].confidence < 0.9
    ensures op == PromoteFact(Uuid(id)) && id in PendingView(facts, ctx) && MayReview(ctx.role)
    ensures Act(facts, ctx, first, op) ==
      Outcome(SetStatus(facts, ctx.orgs, id, Active), [id], Decided(id, Active), true)
  {
    match op
    case RememberFacts(items) => RememberActivatesNone(facts, ctx, first, items, id);
    case SupersedeFact(arg, p) => SupersedeActivatesNone(facts, ctx, first, arg, p, id);
    case _ =>
  }

  /** Only a promotion turns an existing fact active. */
  lemma BecomingActive(db: Db, e: Event, id: Id)
    requires Indexed(db) && Before(db, e.first.call)
    requires !IsActive(db.facts, id) && IsActive(Step(db, e).db.facts, id)
    requires Step(db, e).db.facts[id].confidence < 0.9
    ensures Promotes(db, e, id)
  {
    SingleMembership(db.members, e.user);
    var m := ResolveMembership(db.members, e.user);
    var entry := Enter(db, m.org, m.role, e.first, e.user, e.oauth);
    ActMakesActive(db.facts, entry.ctx, e.first, e.op, id);
  }

  /** Some event of the run, in the state it was taken in, promoted the fact. */
  ghost predicate PromotedDuring(db: Db, es: seq<Event>, id: Id) {
    es != [] &&
    var n := |es| - 1;
    Promotes(Run(db, es[..n]), es[n], id) || PromotedDuring(db, es[..n], id)
  }

  /** In every reachable state a fact submitted below the threshold is active only if some
      earlier event of the run promoted it. */
  lemma {:induction false} ActiveFactsWerePromoted(db: Db, es: seq<Event>, id: Id)
    requires Indexed(db) && Fresh(db, es)
    requires !IsActive(db.facts, id) && IsActive(Run(db, es).facts, id)
    requires Run(db, es).facts[id].confidence < 0.9
    ensures PromotedDuring(db, es, id)
  {
    if es == [] {
    } else {
      var n := |es| - 1;
      LastStepIsFresh(db, es);
      if IsActive(Run(db, es[..n]).facts, id) {
        StepEvolves(Run(db, es[..n]), es[n]);
        ActiveFactsWerePromoted(db, es[..n], id);
      } else {
        BecomingActive(Run(db, es[..n]), es[n], id);
      }
    }
  }
}
