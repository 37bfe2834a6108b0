/** One `remember_facts` call or two: the same facts, answers and audit, up to the ids handed out. */
module SplitCalls {
  import opened Schema
  import opened Intake
  import opened Tools
  import opened Lifecycle
  import opened Audit
  import opened Idempotency

  /** The id that stands where this one does when ids are handed out from `to` instead of `from`. */
  function Moved(id: Id, from: Id, to: Id): Id {
    if id.call == from.call && from.slot <= id.slot then NthId(to, id.slot - from.slot) else id
  }

  function MovedAll(ids: seq<Id>, from: Id, to: Id): seq<Id> {
    seq(|ids|, k requires 0 <= k < |ids| => Moved(ids[k], from, to))
  }

  /** No row has an id from `from` on, starting with the `n`th. */
  ghost predicate Unused(facts: Facts, from: Id, n: nat) {
    forall id | id in facts :: id.call != from.call || id.slot < from.slot + n
  }

  /** The same table but for the ids of the rows that are not in `base`. */
  ghost predicate SameRows(base: Facts, f: Facts, g: Facts, from: Id, to: Id) {
    && (forall id | id in f :: id in base || (id.call == from.call && from.slot <= id.slot))
    && (forall id | id in g :: id in base || (id.call == to.call && to.slot <= id.slot))
    && (forall id | id in base :: id in f && id in g && f[id] == base[id] && g[id] == base[id])
    && (forall k: nat | NthId(from, k) in f :: NthId(to, k) in g && f[NthId(from, k)] == g[NthId(to, k)])
    && (forall k: nat | NthId(to, k) in g :: NthId(from, k) in f)
  }

  ghost predicate SameBatches(base: Facts, a: Batch, b: Batch, from: Id, to: Id, n: nat) {
    && SameRows(base, a.facts, b.facts, from, to) && UniqueKeys(a.facts) && UniqueKeys(b.facts)
    && Unused(base, from, 0) && Unused(base, to, 0) && Unused(a.facts, from, n) && Unused(b.facts, to, n)
    && b.created == MovedAll(a.created, from, to) && b.deduped == MovedAll(a.deduped, from, to)
    && b.touched == MovedAll(a.touched, from, to) && b.invalid == a.invalid
  }

  lemma MovedRow(base: Facts, f: Facts, g: Facts, from: Id, to: Id, id: Id)
    requires SameRows(base, f, g, from, to) && Unused(base, from, 0) && id in f
    ensures Moved(id, from, to) in g && g[Moved(id, from, to)] == f[id]
  {
    if id !in base {
      assert id == NthId(from, id.slot - from.slot);
    }
  }

  lemma MovedBack(base: Facts, f: Facts, g: Facts, from: Id, to: Id, id: Id) returns (source: Id)
    requires SameRows(base, f, g, from, to) && id in g
    ensures source in f && f[source] == g[id]
  {
    if id in base {
      source := id;
    } else {
      assert id == NthId(to, id.slot - to.slot);
      source := NthId(from, id.slot - to.slot);
    }
  }

  lemma MovedHolders(base: Facts, f: Facts, g: Facts, from: Id, to: Id, org: OrgId, key: string)
    requires SameRows(base, f, g, from, to) && Unused(base, from, 0) && UniqueKeys(g)
    ensures Holders(f, org, key) == {} <==> Holders(g, org, key) == {}
    ensures Holders(f, org, key) != {} ==> Pick(Holders(g, org, key)) == Moved(Pick(Holders(f, org, key)), from, to)
  {
    if Holders(f, org, key) != {} {
      MovedRow(base, f, g, from, to, Pick(Holders(f, org, key)));
      assert Moved(Pick(Holders(f, org, key)), from, to) in Holders(g, org, key);
    }
    if Holders(g, org, key) != {} {
      var source := MovedBack(base, f, g, from, to, Pick(Holders(g, org, key)));
      assert source in Holders(f, org, key);
    }
  }

  lemma MovedAppend(ids: seq<Id>, id: Id, from: Id, to: Id)
    ensures MovedAll(ids + [id], from, to) == MovedAll(ids, from, to) + [Moved(id, from, to)]
  {
  }

  lemma SameNewRow(base: Facts, f: Facts, g: Facts, from: Id, to: Id, n: nat, row: Fact)
    requires SameRows(base, f, g, from, to) && Unused(base, from, 0) && Unused(base, to, 0)
    requires Unused(f, from, n) && Unused(g, to, n)
    ensures SameRows(base, f[NthId(from, n) := row], g[NthId(to, n) := row], from, to)
    ensures Unused(f[NthId(from, n) := row], from, n + 1) && Unused(g[NthId(to, n) := row], to, n + 1)
  {
  }

  lemma SameItem(base: Facts, a: Batch, b: Batch, from: Id, to: Id, n: nat, ctx: Ctx, item: Payload)
    requires SameBatches(base, a, b, from, to, n)
    ensures SameBatches(base, WriteItem(a, ctx, NthId(from, n), n, item), WriteItem(b, ctx, NthId(to, n), n, item),
                        from, to, n + 1)
  {
    var v := Validate(item);
    if v.Some? {
      var f := v.value;
      InsertFactGrows(a.facts, ctx, NthId(from, n), f);
      InsertFactGrows(b.facts, ctx, NthId(to, n), f);
      if f.dedupeKey.Some? {
        MovedHolders(base, a.facts, b.facts, from, to, ctx.org, f.dedupeKey.value);
      }
      SameNewRow(base, a.facts, b.facts, from, to, n, FactRow(ctx, f));
      var id := InsertFact(a.facts, ctx, NthId(from, n), f).id;
      MovedAppend(a.created, id, from, to);
      MovedAppend(a.deduped, id, from, to);
      MovedAppend(a.touched, id, from, to);
    }
  }

  /** The same items on the same table, with ids handed out from elsewhere. */
  lemma {:induction false} SameFromElsewhere(base: Facts, ctx: Ctx, from: Id, to: Id, items: seq<Payload>)
    requires UniqueKeys(base) && Unused(base, from, 0) && Unused(base, to, 0)
    ensures SameBatches(base, WriteBatch(base, ctx, from, items), WriteBatch(base, ctx, to, items), from, to, |items|)
  {
    if items == [] {
    } else {
      var n := |items| - 1;
      SameFromElsewhere(base, ctx, from, to, items[..n]);
      SameItem(base, WriteBatch(base, ctx, from, items[..n]), WriteBatch(base, ctx, to, items[..n]),
               from, to, n, ctx, items[n]);
    }
  }

  lemma CleanHalves(xs: seq<Payload>, ys: seq<Payload>)
    requires Clean(xs + ys) == |xs + ys|
    ensures Clean(xs) == |xs| && Clean(ys) == |ys|
  {
    CleanIff(xs + ys);
    CleanIff(xs);
    CleanIff(ys);
    assert forall p :: p in xs || p in ys ==> p in xs + ys;
  }

  /** A second call through the same seat runs in the same context. */
  lemma SameContext(db: Db, first: Id, first': Id, user: UserId, oauth: string, op: Op)
    requires UniqueSeats(db.seats) && first !in db.seats && ResolveMembership(db.members, user).Member?
    ensures var m := ResolveMembership(db.members, user);
      var e := Enter(db, m.org, m.role, first, user, oauth);
      var after := StepCall(db, first, user, oauth, op).db;
      && ResolveMembership(after.members, user) == m
      && Enter(after, m.org, m.role, first', user, oauth).ctx == e.ctx
      && Enter(after, m.org, m.role, first', user, oauth).revoked == e.revoked
  {
    var m := ResolveMembership(db.members, user);
    ResolveSeatGrows(db.seats, m.org, user, oauth, first);
    var e := Enter(db, m.org, m.role, first, user, oauth);
    var after := StepCall(db, first, user, oauth, op).db;
    assert after.seats == e.seats && e.ctx.seat in SeatRows(after.seats, m.org, oauth);
  }

  /** The two replies together say what the one says. */
  ghost predicate AddUp(one: Reply, fst: Reply, snd: Reply, n: nat, from: Id, to: Id) {
    && one.Remembered? && fst.Remembered? && snd.Remembered?
    && one.created == fst.created + MovedAll(snd.created, from, to)
    && one.deduped == fst.deduped + MovedAll(snd.deduped, from, to)
    && one.invalid == fst.invalid + Shift(snd.invalid, n)
  }

  /** Sending a batch in one call is sending it in two, through the same seat: one reply is the other
      two put together, with the second's indices shifted; the one audit row lists what the two list,
      one after the other; and the facts are the same, up to the ids handed out by the second call. */
  lemma OneCallIsTwo(
      db: Db, first: Id, first': Id, user: UserId, oauth: string, xs: seq<Payload>, ys: seq<Payload>)
    requires Indexed(db) && Before(db, first.call) && first.call < first'.call
    requires StepCall(db, first, user, oauth, RememberFacts(xs + ys)).reply.Remembered?
    ensures var one := StepCall(db, first, user, oauth, RememberFacts(xs + ys));
      var fst := StepCall(db, first, user, oauth, RememberFacts(xs));
      var snd := StepCall(fst.db, first', user, oauth, RememberFacts(ys));
      var to := NthId(first, |xs|);
      var n := |db.audit|;
      && AddUp(one.reply, fst.reply, snd.reply, |xs|, first', to)
      && SameRows(fst.db.facts, snd.db.facts, one.db.facts, first', to)
      && |one.db.audit| == n + 1 && |fst.db.audit| == n + 1 && |snd.db.audit| == n + 2
      && snd.db.audit[..n + 1] == fst.db.audit
      && one.db.audit[n].factIds == fst.db.audit[n].factIds + MovedAll(snd.db.audit[n + 1].factIds, first', to)
  {
    var m := ResolveMembership(db.members, user);
    var e := Enter(db, m.org, m.role, first, user, oauth);
    ServedRemember(db, first, user, oauth, xs + ys);
    CleanHalves(xs, ys);
    ServedRemember(db, first, user, oauth, xs);
    SameContext(db, first, first', user, oauth, RememberFacts(xs));
    var fst := StepCall(db, first, user, oauth, RememberFacts(xs)).db;
    ServedRemember(fst, first', user, oauth, ys);
    BatchSplits(db.facts, e.ctx, first, xs, ys);
    WriteBatchGrows(db.facts, e.ctx, first, xs);
    SameFromElsewhere(fst.facts, e.ctx, first', NthId(first, |xs|), ys);
  }
}
