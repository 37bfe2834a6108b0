/** What goes in comes out: items through storage, any later history, and `fetch`. */
module RoundTrip {
  import opened Schema
  import opened Intake
  import opened Tools
  import opened Lifecycle
  import opened ToolAnswers

  /** The row of an item: its values, the caller's org and name, no link, and a status that the client
      cannot set: active from a confidence of 0.9 on, pending review below. */
  predicate IsRowOf(row: Fact, ctx: Ctx, f: FactInput) {
    && row.org == ctx.org && row.owner == ctx.user && row.supersededBy == None
    && row.kind == f.kind && row.content == f.content && row.confidence == f.confidence && row.tags == f.tags
    && row.source == f.source && row.sourceRef == f.sourceRef && row.dedupeKey == f.dedupeKey
    && row.status == if f.confidence >= 0.9 then Active else PendingReview
  }

  predicate StoredItem(facts: Facts, ctx: Ctx, id: Id, item: Payload) {
    id in facts && Validate(item).Some? && IsRowOf(facts[id], ctx, Validate(item).value)
  }

  /** The id belongs to one of the items, by its place, and the row is that item. */
  predicate StoresItem(facts: Facts, ctx: Ctx, first: Id, items: seq<Payload>, id: Id) {
    && id.call == first.call && first.slot <= id.slot < first.slot + |items|
    && StoredItem(facts, ctx, id, items[id.slot - first.slot])
  }

  lemma StillStores(before: Facts, after: Facts, ctx: Ctx, first: Id, items: seq<Payload>, n: nat, id: Id)
    requires n <= |items| && StoresItem(before, ctx, first, items[..n], id)
    requires id in after && after[id] == before[id]
    ensures StoresItem(after, ctx, first, items, id)
  {
    assert items[..n][id.slot - first.slot] == items[id.slot - first.slot];
  }

  lemma NewItemIsStored(a: Batch, ctx: Ctx, first: Id, items: seq<Payload>, n: nat, id: Id)
    requires n + 1 == |items| && NthId(first, n) !in a.facts
    requires id in WriteItem(a, ctx, NthId(first, n), n, items[n]).created
    requires id in a.created ==> StoresItem(a.facts, ctx, first, items[..n], id)
    ensures StoresItem(WriteItem(a, ctx, NthId(first, n), n, items[n]).facts, ctx, first, items, id)
  {
    var b := WriteItem(a, ctx, NthId(first, n), n, items[n]);
    if id in a.created {
      StillStores(a.facts, b.facts, ctx, first, items, n, id);
    } else {
      assert id == NthId(first, n) && id.slot - first.slot == n;
    }
  }

  ghost predicate StoresAll(b: Batch, ctx: Ctx, first: Id, items: seq<Payload>) {
    forall id | id in b.created :: StoresItem(b.facts, ctx, first, items, id)
  }

  lemma ItemKeepsStored(a: Batch, ctx: Ctx, first: Id, items: seq<Payload>, n: nat)
    requires n + 1 == |items| && NthId(first, n) !in a.facts && StoresAll(a, ctx, first, items[..n])
    ensures StoresAll(WriteItem(a, ctx, NthId(first, n), n, items[n]), ctx, first, items)
  {
    var b := WriteItem(a, ctx, NthId(first, n), n, items[n]);
    forall id | id in b.created ensures StoresItem(b.facts, ctx, first, items, id) {
      NewItemIsStored(a, ctx, first, items, n, id);
    }
  }

  /** Every created id is the id of one item of the batch, and its row is that item, stamped. */
  lemma {:induction false} BatchStoresItems(facts: Facts, ctx: Ctx, first: Id, items: seq<Payload>)
    requires UniqueKeys(facts) && AllBefore(facts, first.call)
    ensures StoresAll(WriteBatch(facts, ctx, first, items), ctx, first, items)
  {
    if items == [] {
    } else {
      var n := |items| - 1;
      BatchStoresItems(facts, ctx, first, items[..n]);
      WriteBatchGrows(facts, ctx, first, items[..n]);
      ItemKeepsStored(WriteBatch(facts, ctx, first, items[..n]), ctx, first, items, n);
    }
  }

  lemma RememberedRow(facts: Facts, ctx: Ctx, first: Id, items: seq<Payload>, i: nat)
    requires UniqueKeys(facts) && AllBefore(facts, first.call) && i < |items|
    requires var r := Act(facts, ctx, first, RememberFacts(items)).reply; r.Remembered? && NthId(first, i) in r.created
    ensures var now := Act(facts, ctx, first, RememberFacts(items)).facts;
      StoredItem(now, ctx, NthId(first, i), items[i]) && !Validate(items[i]).value.refused
  {
    BatchStoresItems(facts, ctx, first, items);
    assert items[..|items|] == items;
    assert StoresItem(WriteBatch(facts, ctx, first, items).facts, ctx, first, items, NthId(first, i));
    assert !Unstorable(items[i]);
  }

  lemma CreatedItem(db: Db, first: Id, user: UserId, oauth: string, items: seq<Payload>, i: nat)
    requires Indexed(db) && Before(db, first.call) && i < |items|
    requires var r := StepCall(db, first, user, oauth, RememberFacts(items)).reply;
      r.Remembered? && NthId(first, i) in r.created
    ensures var m := ResolveMembership(db.members, user);
      var now := StepCall(db, first, user, oauth, RememberFacts(items)).db.facts;
      && m.Member? && NthId(first, i) in now && Validate(items[i]).Some? && !Validate(items[i]).value.refused
      && now[NthId(first, i)].org == m.org && now[NthId(first, i)].owner == user
      && exists ctx :: IsRowOf(now[NthId(first, i)], ctx, Validate(items[i]).value)
  {
    var m := ResolveMembership(db.members, user);
    RememberedRow(db.facts, Enter(db, m.org, m.role, first, user, oauth).ctx, first, items, i);
  }

  /** Remember, then anything, then fetch: the fact still carries what was submitted, under its
      author's name, and right after the call exactly the seats it is meant for can fetch it: none if
      the confidence is below 0.9. */
  lemma RememberedFactComesBack(
      db: Db, first: Id, user: UserId, oauth: string, items: seq<Payload>, i: nat, es: seq<Event>, reader: Ctx)
    requires Indexed(db) && Before(db, first.call) && i < |items|
    requires var r := StepCall(db, first, user, oauth, RememberFacts(items)).reply;
      r.Remembered? && NthId(first, i) in r.created
    requires Fresh(StepCall(db, first, user, oauth, RememberFacts(items)).db, es)
    ensures var id := NthId(first, i);
      var m := ResolveMembership(db.members, user);
      var now := StepCall(db, first, user, oauth, RememberFacts(items)).db.facts;
      var later := Run(StepCall(db, first, user, oauth, RememberFacts(items)).db, es).facts;
      && m.Member? && id in now && id in later && Validate(items[i]) == Some(Submitted(later[id]))
      && later[id].org == m.org && later[id].owner == user
      && (Readable(later, reader, id) ==> Act(later, reader, first, Fetch(Uuid(id))).reply == Fetched(id, later[id]))
      && (Readable(now, reader, id) <==>
            && m.org in reader.orgs && now[id].confidence >= 0.9 && InScope(now[id].tags, reader.scopes, reader.role))
  {
    var id := NthId(first, i);
    var now := StepCall(db, first, user, oauth, RememberFacts(items)).db;
    CreatedItem(db, first, user, oauth, items, i);
    StepEvolves(db, Call(first, user, oauth, RememberFacts(items)));
    RunAdvances(now, es);
    FetchAnswers(Run(now, es).facts, reader, first, Uuid(id));
  }

  /** A fact remembered without a confidence waits for review: nobody can fetch it right after. */
  lemma UnratedFactsWait(
      db: Db, first: Id, user: UserId, oauth: string, items: seq<Payload>, i: nat, reader: Ctx, any: Id)
    requires Indexed(db) && Before(db, first.call) && i < |items|
    requires items[i].Object? && items[i].confidence == Absent
    requires var r := StepCall(db, first, user, oauth, RememberFacts(items)).reply;
      r.Remembered? && NthId(first, i) in r.created
    ensures var id := NthId(first, i);
      var now := StepCall(db, first, user, oauth, RememberFacts(items)).db.facts;
      && id in now && now[id].status == PendingReview
      && Act(now, reader, any, Fetch(Uuid(id))).reply == Failed(NotAccessible)
  {
    CreatedItem(db, first, user, oauth, items, i);
    FetchAnswers(StepCall(db, first, user, oauth, RememberFacts(items)).db.facts, reader, any, Uuid(NthId(first, i)));
  }
}
