/** What one call, and any run of calls, can do to the facts table. */
module Lifecycle {
  import opened Schema
  import opened Intake
  import opened Tools

  // ---------------------------------------------------------------- one call

  predicate Newborn(f: Fact) {
    f.status == (if f.confidence >= 0.9 then Active else PendingReview) && f.supersededBy == None
  }

  /** A row retired in favour of an existing row of its own org. */
  predicate Retired(f: Fact, g: Fact, table: Facts) {
    && g.supersededBy.Some? && g == f.(status := Superseded, supersededBy := g.supersededBy)
    && g.supersededBy.value in table && table[g.supersededBy.value].org == f.org
  }

  /** A pending row promoted or rejected. */
  predicate Reviewed(f: Fact, g: Fact) {
    f.status == PendingReview && (g == f.(status := Active) || g == f.(status := Rejected))
  }

  /** Rows never disappear; each stays, is retired or is reviewed; new rows are newborn. */
  ghost predicate Evolves(before: Facts, after: Facts) {
    && (forall id | id in before :: id in after)
    && (forall id | id in before && id in after ::
          after[id] == before[id] || Retired(before[id], after[id], after) || Reviewed(before[id], after[id]))
    && (forall id :: id in after && id !in before ==> Newborn(after[id]))
  }

  /** Every row that differs is listed. */
  ghost predicate Explained(before: Facts, after: Facts, ids: seq<Id>) {
    forall id :: id in after && (id !in before || before[id] != after[id]) ==> id in ids
  }

  ghost predicate AllBefore(facts: Facts, n: nat) {
    forall id :: id in facts ==> id.call < n
  }

  lemma InsertFactGrows(facts: Facts, ctx: Ctx, id: Id, f: FactInput)
    requires UniqueKeys(facts) && id !in facts
    ensures var w := InsertFact(facts, ctx, id, f);
      && UniqueKeys(w.facts) && w.id in w.facts
      && w.facts[w.id].org == ctx.org && w.facts[w.id].dedupeKey == f.dedupeKey
      && (if w.created then w.id == id && w.facts == facts[id := FactRow(ctx, f)] else w.facts == facts)
  {
    var w := InsertFact(facts, ctx, id, f);
    if w.created && f.dedupeKey.Some? {
      assert forall a | a in facts ::
          facts[a].org == ctx.org && facts[a].dedupeKey == f.dedupeKey ==>
            a in Holders(facts, ctx.org, f.dedupeKey.value);
    }
  }

  /** Only rows are added: newborn rows of the caller's org, under the batch's own ids, and exactly
      those it reports as created. */
  ghost predicate OnlyAdds(facts: Facts, b: Batch, ctx: Ctx, first: Id, n: nat) {
    && UniqueKeys(b.facts)
    && (forall id :: id in facts ==> id in b.facts && b.facts[id] == facts[id])
    && (forall id :: id in b.facts <==> id in facts || id in b.created)
    && (forall id :: id in b.created ==>
          id !in facts && id.call == first.call && first.slot <= id.slot < first.slot + n
          && b.facts[id].org == ctx.org && b.facts[id].owner == ctx.user && Newborn(b.facts[id]))
    && (forall id :: id in b.created ==> id in b.touched)
  }

  lemma ItemOnlyAdds(facts: Facts, b: Batch, ctx: Ctx, first: Id, n: nat, item: Payload)
    requires AllBefore(facts, first.call) && OnlyAdds(facts, b, ctx, first, n)
    ensures OnlyAdds(facts, WriteItem(b, ctx, NthId(first, n), n, item), ctx, first, n + 1)
  {
    var v := Validate(item);
    if v.Some? {
      InsertFactGrows(b.facts, ctx, NthId(first, n), v.value);
    }
  }

  lemma {:induction false} WriteBatchGrows(facts: Facts, ctx: Ctx, first: Id, items: seq<Payload>)
    requires UniqueKeys(facts) && AllBefore(facts, first.call)
    ensures OnlyAdds(facts, WriteBatch(facts, ctx, first, items), ctx, first, |items|)
  {
    if items == [] {
    } else {
      var n := |items| - 1;
      WriteBatchGrows(facts, ctx, first, items[..n]);
      ItemOnlyAdds(facts, WriteBatch(facts, ctx, first, items[..n]), ctx, first, n, items[n]);
    }
  }

  /** Updating a row's status and link keeps the key index. */
  lemma UpdateKeepsKeys(facts: Facts, id: Id, row: Fact, n: nat)
    requires UniqueKeys(facts) && id in facts && row.org == facts[id].org && row.dedupeKey == facts[id].dedupeKey
    ensures UniqueKeys(facts[id := row])
    ensures AllBefore(facts, n) ==> AllBefore(facts[id := row], n)
  {
  }

  /** Retiring a row that is there already, in favour of one of its own org. */
  lemma RetireEvolves(before: Facts, inserted: Facts, target: Id, link: Id)
    requires forall id | id in before :: id in inserted && inserted[id] == before[id]
    requires forall id | id in inserted && id !in before :: id == link && Newborn(inserted[id])
    requires target in before && link in inserted && inserted[link].org == before[target].org
    ensures var after := inserted[target := before[target].(status := Superseded, supersededBy := Some(link))];
      Evolves(before, after) && Explained(before, after, [link, target])
  {
    var after := inserted[target := before[target].(status := Superseded, supersededBy := Some(link))];
    assert Retired(before[target], after[target], after);
  }

  lemma SupersedeEvolves(facts: Facts, ctx: Ctx, first: Id, arg: IdArg, replacement: Payload)
    requires UniqueKeys(facts) && AllBefore(facts, first.call) && ctx.orgs == {ctx.org}
    ensures var o := Supersede(facts, ctx, first, arg, replacement);
      && UniqueKeys(o.facts) && Evolves(facts, o.facts) && Explained(facts, o.facts, o.ids)
      && AllBefore(o.facts, first.call + 1)
  {
    var v := Validate(replacement);
    if arg.Uuid? && v.Some? && arg.id in Visible(facts, ctx.orgs) && Storable(v.value) {
      InsertFactGrows(facts, ctx, first, v.value);
      var w := InsertFact(facts, ctx, first, v.value);
      RetireEvolves(facts, w.facts, arg.id, w.id);
      var row := facts[arg.id].(status := Superseded, supersededBy := Some(w.id));
      UpdateKeepsKeys(w.facts, arg.id, row, first.call + 1);
    }
  }

  lemma ReviewEvolves(facts: Facts, id: Id, status: FactStatus)
    requires id in facts && facts[id].status == PendingReview && (status == Active || status == Rejected)
    ensures var after := facts[id := facts[id].(status := status)];
      Evolves(facts, after) && Explained(facts, after, [id]) && after.Keys == facts.Keys
  {
    var after := facts[id := facts[id].(status := status)];
    assert Reviewed(facts[id], after[id]);
  }

  lemma DecideEvolves(facts: Facts, ctx: Ctx, arg: IdArg, status: FactStatus)
    requires UniqueKeys(facts) && (status == Active || status == Rejected)
    ensures var o := Decide(facts, ctx, arg, status);
      UniqueKeys(o.facts) && Evolves(facts, o.facts) && Explained(facts, o.facts, o.ids) && o.facts.Keys == facts.Keys
  {
    if arg.Uuid? && arg.id in PendingView(facts, ctx) && MayReview(ctx.role) {
      ReviewEvolves(facts, arg.id, status);
      UpdateKeepsKeys(facts, arg.id, facts[arg.id].(status := status), 0);
    }
  }

  lemma RememberEvolves(facts: Facts, ctx: Ctx, first: Id, items: seq<Payload>)
    requires UniqueKeys(facts) && AllBefore(facts, first.call)
    ensures var o := Remember(facts, ctx, first, items);
      && UniqueKeys(o.facts) && Evolves(facts, o.facts) && (o.audited ==> Explained(facts, o.facts, o.ids))
      && AllBefore(o.facts, first.call + 1)
  {
    WriteBatchGrows(facts, ctx, first, items[..Clean(items)]);
  }

  /** Every tool call makes the facts table evolve, keeps the unique index, and, if it gets to its
      audit row, lists there every row it changed. Relies on the caller having one org only: with
      more, a retired row could link across orgs. */
  lemma ActEvolves(facts: Facts, ctx: Ctx, first: Id, op: Op)
    requires UniqueKeys(facts) && AllBefore(facts, first.call) && ctx.orgs == {ctx.org}
    ensures var o := Act(facts, ctx, first, op);
      && UniqueKeys(o.facts) && Evolves(facts, o.facts) && (o.audited ==> Explained(facts, o.facts, o.ids))
      && AllBefore(o.facts, first.call + 1)
  {
    match op
    case RememberFacts(items) => RememberEvolves(facts, ctx, first, items);
    case SupersedeFact(target, replacement) => SupersedeEvolves(facts, ctx, first, target, replacement);
    case PromoteFact(arg) => DecideEvolves(facts, ctx, arg, Active);
    case RejectFact(arg, _) => DecideEvolves(facts, ctx, arg, Rejected);
    case _ =>
  }

  // ---------------------------------------------------------------- one event

  lemma SingleMembership(members: Members, user: UserId)
    ensures var r := ResolveMembership(members, user);
      r.Member? ==> UserOrgIds(members, user) == {r.org} && MemberKey(r.org, user) in members
  {
    var orgs := UserOrgIds(members, user);
    var r := ResolveMembership(members, user);
    if r.Member? {
      assert |orgs - {r.org}| == 0;
      assert orgs == {r.org} + (orgs - {r.org});
    }
  }

  lemma NewSeatKeepsIndex(seats: Seats, org: OrgId, oauth: string, id: Id, seat: Seat)
    requires UniqueSeats(seats) && seat.org == org && seat.oauth == oauth
    ensures SeatRows(seats, org, oauth) == {} ==> UniqueSeats(seats[id := seat])
  {
    assert forall a | a in seats :: seats[a].org == org && seats[a].oauth == oauth ==> a in SeatRows(seats, org, oauth);
  }

  /** Seats are never removed or moved to another org or OAuth client. */
  ghost predicate SeatsPersist(before: Seats, after: Seats) {
    forall id | id in before ::
      id in after && after[id].org == before[id].org && after[id].oauth == before[id].oauth
  }

  /** Resolving a seat keeps the seats table but for one possible new row, and keeps its index. */
  lemma ResolveSeatGrows(seats: Seats, org: OrgId, user: UserId, oauth: string, first: Id)
    requires UniqueSeats(seats) && first !in seats
    ensures var r := ResolveSeat(seats, org, user, oauth, first);
      && UniqueSeats(r.0)
      && (forall id :: id in seats ==> id in r.0 && r.0[id] == seats[id])
      && (forall id :: id in r.0 ==> id in seats || id == first)
  {
    NewSeatKeepsIndex(seats, org, oauth, first, FirstContactSeat(org, user, oauth));
  }

  lemma StepEvolves(db: Db, e: Event)
    requires Indexed(db) && Before(db, e.first.call)
    ensures var r := Step(db, e);
      && Indexed(r.db) && Before(r.db, e.first.call + 1)
      && Evolves(db.facts, r.db.facts)
      && SeatsPersist(db.seats, r.db.seats)
  {
    match e
    case Call(first, user, oauth, op) =>
      SingleMembership(db.members, user);
      var m := ResolveMembership(db.members, user);
      if m.Member? {
        ResolveSeatGrows(db.seats, m.org, user, oauth, first);
        var entry := Enter(db, m.org, m.role, first, user, oauth);
        ActEvolves(db.facts, entry.ctx, first, op);
      }
    case Admin(first, action) =>
      AdminKeepsIndex(db, first, action);
  }

  lemma AdminKeepsIndex(db: Db, first: Id, action: AdminOp)
    requires Indexed(db) && Before(db, first.call)
    ensures var r := StepAdmin(db, first, action);
      && r.db.facts == db.facts && r.db.audit == db.audit
      && UniqueSeats(r.db.seats) && Before(r.db, first.call + 1)
      && SeatsPersist(db.seats, r.db.seats)
  {
    match action
    case RegisterConnector(_, _, _, _, _, _) =>
      RegisterKeepsIndex(db, first, action);
    case SetConnectorSource(org, oauth, source) =>
      UpdateKeepsIndex(db.seats, org, oauth, NewSource(source));
    case SetSeatStatus(org, oauth, status) =>
      UpdateKeepsIndex(db.seats, org, oauth, NewStatus(status, first.call));
    case _ =>
  }

  lemma RegisterKeepsIndex(db: Db, first: Id, action: AdminOp)
    requires Indexed(db) && first !in db.seats && action.RegisterConnector?
    ensures var after := StepAdmin(db, first, action).db.seats;
      UniqueSeats(after) && SeatsPersist(db.seats, after) && after.Keys <= db.seats.Keys + {first}
  {
    NewSeatKeepsIndex(db.seats, action.org, action.oauth, first,
      NewConnector(action.org, action.oauth, action.source, action.registrant, action.displayName, action.scopes));
  }

  lemma UpdateKeepsIndex(seats: Seats, org: OrgId, oauth: string, change: SeatChange)
    requires UniqueSeats(seats)
    ensures UniqueSeats(UpdateSeats(seats, org, oauth, change))
    ensures SeatsPersist(seats, UpdateSeats(seats, org, oauth, change))
    ensures UpdateSeats(seats, org, oauth, change).Keys == seats.Keys
  {
  }

  lemma StepKeepsIndexes(db: Db, e: Event)
    requires Indexed(db) && Before(db, e.first.call)
    ensures Indexed(Step(db, e).db)
  {
    StepEvolves(db, e);
  }

  lemma FreshPrefix(db: Db, es: seq<Event>, n: nat)
    requires Fresh(db, es) && n <= |es|
    ensures Fresh(db, es[..n])
  {
    forall i | 0 <= i < n
      ensures Before(db, es[..n][i].first.call)
      ensures forall j :: 0 <= j < i ==> es[..n][j].first.call < es[..n][i].first.call
    {
      assert es[..n][i] == es[i];
    }
  }

  /** Every reachable state keeps both unique indexes, and holds rows of earlier calls only. */
  lemma {:induction false} RunKeepsIndexes(db: Db, es: seq<Event>)
    requires Indexed(db) && Fresh(db, es)
    ensures Indexed(Run(db, es))
    ensures forall n ::
      (es == [] ==> Before(db, n)) && (es != [] ==> es[|es| - 1].first.call < n) ==> Before(Run(db, es), n)
  {
    if es == [] {
    } else {
      var n := |es| - 1;
      FreshPrefix(db, es, n);
      RunKeepsIndexes(db, es[..n]);
      assert n > 0 ==> es[..n][n - 1] == es[n - 1];
      StepEvolves(Run(db, es[..n]), es[n]);
    }
  }

  /** The last event of a run starts from an indexed state that does not hold its ids. */
  lemma LastStepIsFresh(db: Db, es: seq<Event>)
    requires Indexed(db) && Fresh(db, es) && es != []
    ensures var n := |es| - 1;
      && Fresh(db, es[..n]) && Indexed(Run(db, es[..n])) && Before(Run(db, es[..n]), es[n].first.call)
      && Run(db, es) == Step(Run(db, es[..n]), es[n]).db
  {
    var n := |es| - 1;
    FreshPrefix(db, es, n);
    RunKeepsIndexes(db, es[..n]);
    assert n > 0 ==> es[..n][n - 1] == es[n - 1];
  }

  // ---------------------------------------------------------------- runs

  function Rank(s: FactStatus): nat {
    match s
    case PendingReview => 0
    case Superseded => 2
    case _ => 1
  }

  /** What a run may do to a row: everything but status and link is fixed; status only moves
      up in rank, or stays; a link once set stays set. */
  predicate Advances(f: Fact, g: Fact) {
    && g == f.(status := g.status, supersededBy := g.supersededBy)
    && (f.status == g.status || Rank(f.status) < Rank(g.status))
    && (f.supersededBy.Some? ==> g.supersededBy.Some?)
  }

  ghost predicate AllAdvance(before: Facts, after: Facts) {
    forall id :: id in before ==> id in after && Advances(before[id], after[id])
  }

  lemma EvolvesAdvances(start: Facts, before: Facts, after: Facts)
    requires AllAdvance(start, before) && Evolves(before, after)
    ensures AllAdvance(start, after)
  {
    forall id | id in start ensures id in after && Advances(start[id], after[id]) {
      assert Advances(start[id], before[id]);
    }
  }

  /** Over any run rows persist and only advance: pending facts never come back, superseded is
      absorbing, and org, owner, content, tags and dedupe key of a row never change. */
  lemma {:induction false} RunAdvances(db: Db, es: seq<Event>)
    requires Indexed(db) && Fresh(db, es)
    ensures AllAdvance(db.facts, Run(db, es).facts)
  {
    if es == [] {
    } else {
      var n := |es| - 1;
      LastStepIsFresh(db, es);
      RunAdvances(db, es[..n]);
      StepEvolves(Run(db, es[..n]), es[n]);
      EvolvesAdvances(db.facts, Run(db, es[..n]).facts, Run(db, es).facts);
    }
  }

  /** The lifecycle invariant: superseded exactly when linked, links stay within the org, and
      no fact is ever archived. */
  ghost predicate Healthy(facts: Facts) {
    forall id :: id in facts ==>
      && (facts[id].status == Superseded <==> facts[id].supersededBy.Some?)
      && facts[id].status != Archived
      && (facts[id].supersededBy.Some? ==>
            facts[id].supersededBy.value in facts && facts[facts[id].supersededBy.value].org == facts[id].org)
  }

  lemma EvolvesKeepsHealthy(before: Facts, after: Facts)
    requires Healthy(before) && Evolves(before, after)
    ensures Healthy(after)
  {
    forall id | id in after && id in before && after[id].supersededBy.Some?
      ensures after[id].supersededBy.value in after && after[after[id].supersededBy.value].org == after[id].org
    {
      if !Retired(before[id], after[id], after) {
        assert after[id].supersededBy == before[id].supersededBy;
      }
    }
  }

  lemma {:induction false} RunStaysHealthy(db: Db, es: seq<Event>)
    requires Indexed(db) && Fresh(db, es) && Healthy(db.facts)
    ensures Healthy(Run(db, es).facts)
  {
    if es == [] {
    } else {
      var n := |es| - 1;
      LastStepIsFresh(db, es);
      RunStaysHealthy(db, es[..n]);
      StepEvolves(Run(db, es[..n]), es[n]);
      EvolvesKeepsHealthy(Run(db, es[..n]).facts, Run(db, es).facts);
    }
  }
}
