/** `remember_facts`: its loop as a first-write-wins index, its split law, and re-sending. */
module Idempotency {
  import opened Schema
  import opened Intake
  import opened Tools
  import opened Lifecycle

  // ---------------------------------------------------------------- the loop, abstractly

  /** The dedupe keys in use in an org. */
  ghost function KeysIn(facts: Facts, org: OrgId): set<string> {
    set id | id in facts && facts[id].org == org && facts[id].dedupeKey.Some? :: facts[id].dedupeKey.value
  }

  /** The dedupe index of an org: which fact holds each key. */
  ghost function KeyIndex(facts: Facts, org: OrgId): map<string, Id> {
    map k | k in KeysIn(facts, org) && Holders(facts, org, k) != {} :: Pick(Holders(facts, org, k))
  }

  datatype Indexing = Indexing(index: map<string, Id>, touched: seq<Id>)

  /** First write wins: a key keeps the id it first got; an item without a key gets its own id;
      an invalid item does nothing. */
  function FirstWriteWins(index: map<string, Id>, first: Id, items: seq<Payload>): Indexing {
    if items == [] then Indexing(index, [])
    else
      var n := |items| - 1;
      var r := FirstWriteWins(index, first, items[..n]);
      match Validate(items[n])
      case None => r
      case Some(f) =>
        if f.dedupeKey.None? then Indexing(r.index, r.touched + [NthId(first, n)])
        else if f.dedupeKey.value in r.index then Indexing(r.index, r.touched + [r.index[f.dedupeKey.value]])
        else Indexing(r.index[f.dedupeKey.value := NthId(first, n)], r.touched + [NthId(first, n)])
  }

  lemma IndexHolders(facts: Facts, org: OrgId, key: string)
    ensures key in KeyIndex(facts, org) <==> Holders(facts, org, key) != {}
    ensures key in KeyIndex(facts, org) ==> KeyIndex(facts, org)[key] == Pick(Holders(facts, org, key))
  {
    if h :| h in Holders(facts, org, key) {
      assert facts[h].dedupeKey.value in KeysIn(facts, org);
    }
  }

  lemma HoldersAfter(facts: Facts, id: Id, row: Fact, key: string)
    requires id !in facts
    ensures Holders(facts[id := row], row.org, key) ==
      Holders(facts, row.org, key) + (if row.dedupeKey == Some(key) then {id} else {})
  {
  }

  lemma NewRowIndex(facts: Facts, id: Id, row: Fact)
    requires id !in facts && (row.dedupeKey.Some? ==> Holders(facts, row.org, row.dedupeKey.value) == {})
    ensures KeyIndex(facts[id := row], row.org) ==
      if row.dedupeKey.Some? then KeyIndex(facts, row.org)[row.dedupeKey.value := id] else KeyIndex(facts, row.org)
  {
    var index, index' := KeyIndex(facts, row.org), KeyIndex(facts[id := row], row.org);
    forall k
      ensures row.dedupeKey != Some(k) ==> (k in index' <==> k in index) && (k in index ==> index'[k] == index[k])
      ensures row.dedupeKey == Some(k) ==> k in index' && index'[k] == id
    {
      HoldersAfter(facts, id, row, k);
      IndexHolders(facts, row.org, k);
      IndexHolders(facts[id := row], row.org, k);
      if row.dedupeKey != Some(k) {
        assert Holders(facts[id := row], row.org, k) == Holders(facts, row.org, k);
      } else {
        assert Holders(facts[id := row], row.org, k) == {id};
      }
    }
  }

  lemma InsertIndexes(facts: Facts, ctx: Ctx, id: Id, f: FactInput)
    requires UniqueKeys(facts) && id !in facts
    ensures var w := InsertFact(facts, ctx, id, f);
      && UniqueKeys(w.facts)
      && (match f.dedupeKey
          case None => w.id == id && KeyIndex(w.facts, ctx.org) == KeyIndex(facts, ctx.org)
          case Some(k) =>
            if k in KeyIndex(facts, ctx.org)
            then w.id == KeyIndex(facts, ctx.org)[k] && KeyIndex(w.facts, ctx.org) == KeyIndex(facts, ctx.org)
            else w.id == id && KeyIndex(w.facts, ctx.org) == KeyIndex(facts, ctx.org)[k := id])
  {
    InsertFactGrows(facts, ctx, id, f);
    if f.dedupeKey.Some? {
      IndexHolders(facts, ctx.org, f.dedupeKey.value);
    }
    if InsertFact(facts, ctx, id, f).created {
      NewRowIndex(facts, id, FactRow(ctx, f));
    }
  }

  /** The loop of `remember_facts` refines the first-write-wins index of the caller's org. */
  lemma {:induction false} BatchRefinesFirstWriteWins(facts: Facts, ctx: Ctx, first: Id, items: seq<Payload>)
    requires UniqueKeys(facts) && AllBefore(facts, first.call)
    ensures var b := WriteBatch(facts, ctx, first, items);
      && UniqueKeys(b.facts)
      && Indexing(KeyIndex(b.facts, ctx.org), b.touched) == FirstWriteWins(KeyIndex(facts, ctx.org), first, items)
  {
    if items == [] {
    } else {
      var n := |items| - 1;
      BatchRefinesFirstWriteWins(facts, ctx, first, items[..n]);
      WriteBatchGrows(facts, ctx, first, items[..n]);
      var v := Validate(items[n]);
      if v.Some? {
        InsertIndexes(WriteBatch(facts, ctx, first, items[..n]).facts, ctx, NthId(first, n), v.value);
      }
    }
  }

  ghost predicate Increasing(ids: seq<Id>) {
    forall i, j :: 0 <= i < j < |ids| ==> Earlier(ids[i], ids[j])
  }

  /** Every item is accounted for once: invalid lists exactly the indices that fail validation,
      in order, and touched merges created and deduped. */
  ghost predicate Partitions(b: Batch, items: seq<Payload>) {
    && (forall i: nat :: i in b.invalid <==> i < |items| && Validate(items[i]).None?)
    && (forall i, j :: 0 <= i < j < |b.invalid| ==> b.invalid[i] < b.invalid[j])
    && |b.touched| + |b.invalid| == |items|
    && multiset(b.touched) == multiset(b.created) + multiset(b.deduped)
  }

  lemma {:induction false} BatchPartitions(facts: Facts, ctx: Ctx, first: Id, items: seq<Payload>)
    ensures Partitions(WriteBatch(facts, ctx, first, items), items)
  {
    if items == [] {
    } else {
      var n := |items| - 1;
      BatchPartitions(facts, ctx, first, items[..n]);
      ItemPartitions(WriteBatch(facts, ctx, first, items[..n]), ctx, NthId(first, n), items);
    }
  }

  lemma InvalidPartitions(b: Batch, items: seq<Payload>)
    requires items != [] && Partitions(b, items[..|items| - 1]) && Validate(items[|items| - 1]).None?
    ensures Partitions(b.(invalid := b.invalid + [|items| - 1]), items)
  {
    var n := |items| - 1;
    var invalid := b.invalid + [n];
    assert forall i | 0 <= i < n :: items[..n][i] == items[i];
    forall i, j | 0 <= i < j < |invalid| ensures invalid[i] < invalid[j] {
      if j == |b.invalid| {
        assert b.invalid[i] in b.invalid;
      }
    }
  }

  lemma ItemPartitions(b: Batch, ctx: Ctx, id: Id, items: seq<Payload>)
    requires items != [] && Partitions(b, items[..|items| - 1])
    ensures Partitions(WriteItem(b, ctx, id, |items| - 1, items[|items| - 1]), items)
  {
    var n := |items| - 1;
    if Validate(items[n]).None? {
      InvalidPartitions(b, items);
    } else {
      assert forall i | 0 <= i < n :: items[..n][i] == items[i];
    }
  }

  /** The table grows by exactly the created ids, which are new, distinct and in order. */
  lemma {:induction false} BatchGrowsByCreated(facts: Facts, ctx: Ctx, first: Id, items: seq<Payload>)
    requires UniqueKeys(facts) && AllBefore(facts, first.call)
    ensures var b := WriteBatch(facts, ctx, first, items);
      Increasing(b.created) && |b.facts| == |facts| + |b.created|
  {
    if items == [] {
    } else {
      var n := |items| - 1;
      BatchGrowsByCreated(facts, ctx, first, items[..n]);
      NextIdIsLater(facts, ctx, first, items[..n]);
      OneMore(WriteBatch(facts, ctx, first, items[..n]), ctx, NthId(first, n), n, items[n]);
    }
  }

  lemma NextIdIsLater(facts: Facts, ctx: Ctx, first: Id, items: seq<Payload>)
    requires UniqueKeys(facts) && AllBefore(facts, first.call)
    ensures var b := WriteBatch(facts, ctx, first, items);
      && NthId(first, |items|) !in b.facts
      && forall x :: x in b.created ==> Earlier(x, NthId(first, |items|))
  {
    WriteBatchGrows(facts, ctx, first, items);
  }

  lemma OneMore(b: Batch, ctx: Ctx, id: Id, index: nat, item: Payload)
    requires Increasing(b.created) && id !in b.facts && forall x :: x in b.created ==> Earlier(x, id)
    ensures var b' := WriteItem(b, ctx, id, index, item);
      Increasing(b'.created) && |b'.facts| - |b'.created| == |b.facts| - |b.created|
  {
    if Validate(item).Some? && InsertFact(b.facts, ctx, id, Validate(item).value).created {
      var b' := WriteItem(b, ctx, id, index, item);
      assert b'.facts.Keys == b.facts.Keys + {id};
      assert |b'.facts.Keys| == |b.facts.Keys| + 1;
      forall i, j | 0 <= i < j < |b'.created| ensures Earlier(b'.created[i], b'.created[j]) {
        if j == |b.created| {
          assert b.created[i] in b.created;
        }
      }
    }
  }

  // ---------------------------------------------------------------- splitting a batch

  function Shift(indices: seq<nat>, n: nat): seq<nat> {
    seq(|indices|, i requires 0 <= i < |indices| => indices[i] + n)
  }

  lemma ShiftAppend(indices: seq<nat>, last: nat, n: nat)
    ensures Shift(indices + [last], n) == Shift(indices, n) + [last + n]
  {
  }

  /** One batch after another, as one. */
  function Combine(a: Batch, b: Batch, n: nat): Batch {
    Batch(b.facts, a.created + b.created, a.deduped + b.deduped, a.invalid + Shift(b.invalid, n), a.touched + b.touched)
  }

  lemma ItemAfter(a: Batch, b: Batch, n: nat, ctx: Ctx, id: Id, index: nat, item: Payload)
    ensures WriteItem(Combine(a, b, n), ctx, id, n + index, item) == Combine(a, WriteItem(b, ctx, id, index, item), n)
  {
    ShiftAppend(b.invalid, index, n);
    if Validate(item).Some? {
      var w := InsertFact(b.facts, ctx, id, Validate(item).value);
      assert (a.created + b.created) + [w.id] == a.created + (b.created + [w.id]);
      assert (a.deduped + b.deduped) + [w.id] == a.deduped + (b.deduped + [w.id]);
      assert (a.touched + b.touched) + [w.id] == a.touched + (b.touched + [w.id]);
    } else {
      assert (a.invalid + Shift(b.invalid, n)) + [n + index] == a.invalid + Shift(b.invalid + [index], n);
    }
  }

  lemma StepAfter(
      a: Batch, b: Batch, b': Batch, n: nat, whole: Batch, whole': Batch,
      ctx: Ctx, id: Id, index: nat, item: Payload)
    requires whole == Combine(a, b, n) && b' == WriteItem(b, ctx, id, index, item)
    requires whole' == WriteItem(whole, ctx, id, n + index, item)
    ensures whole' == Combine(a, b', n)
  {
    ItemAfter(a, b, n, ctx, id, index, item);
  }

  /** Sending two batches one after the other, with the same ids handed out, is sending their
      concatenation: same table, ids concatenated, invalid indices of the second shifted. */
  lemma {:induction false} BatchSplits(facts: Facts, ctx: Ctx, first: Id, xs: seq<Payload>, ys: seq<Payload>)
    ensures var a := WriteBatch(facts, ctx, first, xs);
      WriteBatch(facts, ctx, first, xs + ys) == Combine(a, WriteBatch(a.facts, ctx, NthId(first, |xs|), ys), |xs|)
  {
    var a := WriteBatch(facts, ctx, first, xs);
    if ys == [] {
      assert xs + ys == xs;
      assert Combine(a, WriteBatch(a.facts, ctx, NthId(first, |xs|), ys), |xs|) == a;
    } else {
      var n := |ys| - 1;
      var zs := xs + ys;
      assert zs[..|xs| + n] == xs + ys[..n];
      BatchSplits(facts, ctx, first, xs, ys[..n]);
      var from := NthId(first, |xs|);
      StepAfter(a, WriteBatch(a.facts, ctx, from, ys[..n]), WriteBatch(a.facts, ctx, from, ys), |xs|,
                WriteBatch(facts, ctx, first, xs + ys[..n]), WriteBatch(facts, ctx, first, zs),
                ctx, NthId(first, |xs| + n), n, ys[n]);
    }
  }

  // ---------------------------------------------------------------- which item lands where

  /** Item `i` makes a new fact: it is valid, and has no key or one that nobody in the org holds and no
      earlier valid item carries. */
  ghost predicate IsNew(facts: Facts, org: OrgId, items: seq<Payload>, i: nat)
    requires i < |items|
  {
    && Validate(items[i]).Some?
    && var key := Validate(items[i]).value.dedupeKey;
       key.Some? ==>
         && Holders(facts, org, key.value) == {}
         && forall j | 0 <= j < i :: !CarriesKey(items[j], key.value)
  }

  /** Item `i` is valid, and makes a new fact or does not. */
  ghost predicate Lands(facts: Facts, org: OrgId, items: seq<Payload>, isNew: bool, i: nat) {
    i < |items| && Validate(items[i]).Some? && (IsNew(facts, org, items, i) <==> isNew)
  }

  /** The indices of the valid items that make a new fact, or of those that do not. */
  ghost function Landing(facts: Facts, org: OrgId, items: seq<Payload>, isNew: bool): seq<nat> {
    if items == [] then []
    else
      var n := |items| - 1;
      Landing(facts, org, items[..n], isNew) + (if Lands(facts, org, items, isNew, n) then [n] else [])
  }

  lemma LandsInPrefix(facts: Facts, org: OrgId, items: seq<Payload>, isNew: bool, n: nat, i: nat)
    requires i < n <= |items|
    ensures Lands(facts, org, items[..n], isNew, i) <==> Lands(facts, org, items, isNew, i)
  {
    assert forall j | 0 <= j <= i :: items[..n][j] == items[j];
  }

  /** They are listed once each, in order. */
  lemma {:induction false} LandingIff(facts: Facts, org: OrgId, items: seq<Payload>, isNew: bool)
    ensures var l := Landing(facts, org, items, isNew);
      && (forall i: nat :: i in l <==> Lands(facts, org, items, isNew, i))
      && (forall k, m :: 0 <= k < m < |l| ==> l[k] < l[m])
  {
    if items == [] {
    } else {
      var n := |items| - 1;
      LandingIff(facts, org, items[..n], isNew);
      var before, l := Landing(facts, org, items[..n], isNew), Landing(facts, org, items, isNew);
      forall i: nat ensures i in l <==> Lands(facts, org, items, isNew, i) {
        if i < n {
          LandsInPrefix(facts, org, items, isNew, n, i);
        }
      }
      forall k, m | 0 <= k < m < |l| ensures l[k] < l[m] {
        assert l[k] in before || m < |before|;
      }
    }
  }

  function IdsAt(first: Id, indices: seq<nat>): seq<Id> {
    seq(|indices|, k requires 0 <= k < |indices| => NthId(first, indices[k]))
  }

  lemma HeldAfterItem(b: Batch, ctx: Ctx, id: Id, index: nat, item: Payload, key: string)
    requires UniqueKeys(b.facts) && id !in b.facts
    ensures Holders(WriteItem(b, ctx, id, index, item).facts, ctx.org, key) != {} <==>
      Holders(b.facts, ctx.org, key) != {} || (Validate(item).Some? && Validate(item).value.dedupeKey == Some(key))
  {
    if Validate(item).Some? {
      InsertFactGrows(b.facts, ctx, id, Validate(item).value);
      HoldersAfter(b.facts, id, FactRow(ctx, Validate(item).value), key);
    }
  }

  predicate CarriesKey(item: Payload, key: string) {
    Validate(item).Some? && Validate(item).value.dedupeKey == Some(key)
  }

  lemma {:induction false} HeldAfterBatch(facts: Facts, ctx: Ctx, first: Id, items: seq<Payload>, key: string)
    requires UniqueKeys(facts) && AllBefore(facts, first.call)
    ensures Holders(WriteBatch(facts, ctx, first, items).facts, ctx.org, key) != {} <==>
      Holders(facts, ctx.org, key) != {} || exists j :: 0 <= j < |items| && CarriesKey(items[j], key)
  {
    if items == [] {
    } else {
      var n := |items| - 1;
      HeldAfterBatch(facts, ctx, first, items[..n], key);
      WriteBatchGrows(facts, ctx, first, items[..n]);
      HeldAfterItem(WriteBatch(facts, ctx, first, items[..n]), ctx, NthId(first, n), n, items[n], key);
      assert forall j | 0 <= j < n :: items[..n][j] == items[j];
      assert items[n] == items[|items| - 1];
    }
  }

  /** An item is inserted exactly if it makes a new fact. */
  lemma InsertedIffNew(facts: Facts, ctx: Ctx, first: Id, items: seq<Payload>, n: nat)
    requires UniqueKeys(facts) && AllBefore(facts, first.call) && n < |items| && Validate(items[n]).Some?
    ensures var b := WriteBatch(facts, ctx, first, items[..n]);
      InsertFact(b.facts, ctx, NthId(first, n), Validate(items[n]).value).created <==> IsNew(facts, ctx.org, items, n)
  {
    var key := Validate(items[n]).value.dedupeKey;
    if key.Some? {
      HeldAfterBatch(facts, ctx, first, items[..n], key.value);
      assert forall j | 0 <= j < n :: items[..n][j] == items[j];
      assert (exists j :: 0 <= j < n && CarriesKey(items[..n][j], key.value)) <==>
        (exists j :: 0 <= j < n && CarriesKey(items[j], key.value));
    }
  }

  /** Each deduped id is a fact that holds the key of its item. */
  ghost predicate Repeats(b: Batch, org: OrgId, items: seq<Payload>, repeats: seq<nat>) {
    && |b.deduped| == |repeats|
    && forall k | 0 <= k < |repeats| ::
         && repeats[k] < |items| && Validate(items[repeats[k]]).Some?
         && Validate(items[repeats[k]]).value.dedupeKey.Some?
         && b.deduped[k] in Holders(b.facts, org, Validate(items[repeats[k]]).value.dedupeKey.value)
  }

  lemma RepeatsGrow(b: Batch, b': Batch, org: OrgId, items: seq<Payload>, n: nat, repeats: seq<nat>)
    requires n <= |items| && Repeats(b, org, items[..n], repeats) && b'.deduped == b.deduped
    requires forall id | id in b.facts :: id in b'.facts && b'.facts[id] == b.facts[id]
    ensures Repeats(b', org, items, repeats)
  {
  }

  /** created lists, in order, the ids of exactly the items that make a new fact. */
  lemma {:induction false} CreatedLands(facts: Facts, ctx: Ctx, first: Id, items: seq<Payload>)
    requires UniqueKeys(facts) && AllBefore(facts, first.call)
    ensures WriteBatch(facts, ctx, first, items).created == IdsAt(first, Landing(facts, ctx.org, items, true))
  {
    if items == [] {
    } else {
      var n := |items| - 1;
      CreatedLands(facts, ctx, first, items[..n]);
      if Validate(items[n]).Some? {
        InsertedIffNew(facts, ctx, first, items, n);
      }
    }
  }

  lemma RepeatLands(facts: Facts, ctx: Ctx, first: Id, items: seq<Payload>, n: nat)
    requires UniqueKeys(facts) && AllBefore(facts, first.call) && n + 1 == |items|
    requires Lands(facts, ctx.org, items, false, n)
    ensures var a := WriteBatch(facts, ctx, first, items[..n]);
      var b := WriteBatch(facts, ctx, first, items);
      var key := Validate(items[n]).value.dedupeKey;
      && b.facts == a.facts && |b.deduped| == |a.deduped| + 1 && b.deduped[..|a.deduped|] == a.deduped
      && key.Some? && b.deduped[|a.deduped|] in Holders(b.facts, ctx.org, key.value)
  {
    InsertedIffNew(facts, ctx, first, items, n);
  }

  /** deduped lists, in order and for exactly the valid items that make none, the fact that then holds
      the item's key. */
  lemma {:induction false} DedupedLands(facts: Facts, ctx: Ctx, first: Id, items: seq<Payload>)
    requires UniqueKeys(facts) && AllBefore(facts, first.call)
    ensures Repeats(WriteBatch(facts, ctx, first, items), ctx.org, items, Landing(facts, ctx.org, items, false))
  {
    if items == [] {
    } else {
      var n := |items| - 1;
      var a, b := WriteBatch(facts, ctx, first, items[..n]), WriteBatch(facts, ctx, first, items);
      var repeats := Landing(facts, ctx.org, items[..n], false);
      DedupedLands(facts, ctx, first, items[..n]);
      if Lands(facts, ctx.org, items, false, n) {
        RepeatLands(facts, ctx, first, items, n);
        RepeatsGrow(a, b.(deduped := a.deduped), ctx.org, items, n, repeats);
      } else {
        NothingRepeats(facts, ctx, first, items, n);
        RepeatsGrow(a, b, ctx.org, items, n, repeats);
      }
    }
  }

  lemma ItemKeepsRows(b: Batch, ctx: Ctx, id: Id, index: nat, item: Payload)
    requires id !in b.facts
    ensures var b' := WriteItem(b, ctx, id, index, item);
      && (forall x | x in b.facts :: x in b'.facts && b'.facts[x] == b.facts[x])
      && (Validate(item).None? || InsertFact(b.facts, ctx, id, Validate(item).value).created ==>
            b'.deduped == b.deduped)
  {
  }

  lemma NothingRepeats(facts: Facts, ctx: Ctx, first: Id, items: seq<Payload>, n: nat)
    requires UniqueKeys(facts) && AllBefore(facts, first.call) && n + 1 == |items|
    requires !Lands(facts, ctx.org, items, false, n)
    ensures var a := WriteBatch(facts, ctx, first, items[..n]);
      var b := WriteBatch(facts, ctx, first, items);
      b.deduped == a.deduped && forall id | id in a.facts :: id in b.facts && b.facts[id] == a.facts[id]
  {
    WriteBatchGrows(facts, ctx, first, items[..n]);
    ItemKeepsRows(WriteBatch(facts, ctx, first, items[..n]), ctx, NthId(first, n), n, items[n]);
    if Validate(items[n]).Some? {
      InsertedIffNew(facts, ctx, first, items, n);
    }
  }

  // ---------------------------------------------------------------- re-sending

  /** The dedupe keys of the valid items, in order. */
  function Keys(items: seq<Payload>): seq<Option<string>> {
    if items == [] then []
    else
      var n := |items| - 1;
      Keys(items[..n]) + (match Validate(items[n]) case None => [] case Some(f) => [f.dedupeKey])
  }

  predicate FullyKeyed(items: seq<Payload>) {
    forall i :: 0 <= i < |items| && Validate(items[i]).Some? ==> Validate(items[i]).value.dedupeKey.Some?
  }

  /** Each id is a fact of the org that carries the key asked for. */
  ghost predicate Answers(facts: Facts, org: OrgId, keys: seq<Option<string>>, ids: seq<Id>) {
    && |keys| == |ids|
    && forall j :: 0 <= j < |ids| ==>
         ids[j] in facts && facts[ids[j]].org == org && facts[ids[j]].dedupeKey == keys[j]
  }

  lemma ItemAnswers(b: Batch, ctx: Ctx, id: Id, index: nat, item: Payload, keys: seq<Option<string>>)
    requires UniqueKeys(b.facts) && id !in b.facts && Answers(b.facts, ctx.org, keys, b.touched)
    ensures var b' := WriteItem(b, ctx, id, index, item);
      var more := match Validate(item) case None => [] case Some(f) => [f.dedupeKey];
      Answers(b'.facts, ctx.org, keys + more, b'.touched)
  {
    if Validate(item).Some? {
      InsertFactGrows(b.facts, ctx, id, Validate(item).value);
    } else {
      assert keys + [] == keys;
    }
  }

  lemma {:induction false} BatchAnswers(facts: Facts, ctx: Ctx, first: Id, items: seq<Payload>)
    requires UniqueKeys(facts) && AllBefore(facts, first.call)
    ensures var b := WriteBatch(facts, ctx, first, items); Answers(b.facts, ctx.org, Keys(items), b.touched)
  {
    if items == [] {
    } else {
      var n := |items| - 1;
      BatchAnswers(facts, ctx, first, items[..n]);
      WriteBatchGrows(facts, ctx, first, items[..n]);
      ItemAnswers(WriteBatch(facts, ctx, first, items[..n]), ctx, NthId(first, n), n, items[n], Keys(items[..n]));
    }
  }

  lemma AnswersPersist(before: Facts, after: Facts, org: OrgId, keys: seq<Option<string>>, ids: seq<Id>)
    requires Answers(before, org, keys, ids) && AllAdvance(before, after)
    ensures Answers(after, org, keys, ids)
  {
  }

  /** An item whose key is taken adds the holder to the report and nothing to the table. */
  lemma TakenItem(b: Batch, ctx: Ctx, id: Id, index: nat, item: Payload, holder: Id)
    requires UniqueKeys(b.facts) && Validate(item).Some? && Validate(item).value.dedupeKey.Some?
    requires holder in Holders(b.facts, ctx.org, Validate(item).value.dedupeKey.value)
    ensures WriteItem(b, ctx, id, index, item) == b.(deduped := b.deduped + [holder], touched := b.touched + [holder])
  {
    var holders := Holders(b.facts, ctx.org, Validate(item).value.dedupeKey.value);
    assert Pick(holders) in holders;
  }

  lemma KeysOfPrefix(items: seq<Payload>)
    requires items != []
    ensures var n := |items| - 1;
      Keys(items) == Keys(items[..n]) +
        (if Validate(items[n]).Some? then [Validate(items[n]).value.dedupeKey] else [])
  {
  }

  /** A batch whose keys are all taken writes nothing and reports the holders in order. */
  lemma {:induction false} AnsweredBatchIsNoOp(facts: Facts, ctx: Ctx, first: Id, items: seq<Payload>, ids: seq<Id>)
    requires UniqueKeys(facts) && FullyKeyed(items) && Answers(facts, ctx.org, Keys(items), ids)
    ensures var b := WriteBatch(facts, ctx, first, items);
      b.facts == facts && b.created == [] && b.deduped == ids && b.touched == ids
  {
    if items == [] {
    } else {
      var n := |items| - 1;
      assert forall i | 0 <= i < n :: items[..n][i] == items[i];
      KeysOfPrefix(items);
      if Validate(items[n]).Some? {
        var m := |ids| - 1;
        AnsweredBatchIsNoOp(facts, ctx, first, items[..n], ids[..m]);
        TakenItem(WriteBatch(facts, ctx, first, items[..n]), ctx, NthId(first, n), n, items[n], ids[m]);
        assert ids == ids[..m] + [ids[m]];
      } else {
        AnsweredBatchIsNoOp(facts, ctx, first, items[..n], ids);
      }
    }
  }

  lemma {:induction false} InvalidIsStateless(
      f: Facts, g: Facts, ctx: Ctx, ctx': Ctx, first: Id, first': Id, items: seq<Payload>)
    ensures WriteBatch(f, ctx, first, items).invalid == WriteBatch(g, ctx', first', items).invalid
  {
    if items == [] {
    } else {
      InvalidIsStateless(f, g, ctx, ctx', first, first', items[..|items| - 1]);
    }
  }

  /** What a served `remember_facts` call does: the batch, in its caller's org. */
  lemma ServedRemember(db: Db, first: Id, user: UserId, oauth: string, items: seq<Payload>)
    requires ResolveMembership(db.members, user).Member?
    ensures var m := ResolveMembership(db.members, user);
      var entry := Enter(db, m.org, m.role, first, user, oauth);
      var r := StepCall(db, first, user, oauth, RememberFacts(items));
      var b := WriteBatch(db.facts, entry.ctx, first, items);
      && entry.ctx.org == m.org
      && (r.reply.Remembered? <==> !entry.revoked && Clean(items) == |items|)
      && (r.reply.Remembered? ==>
            r.reply == Remembered(b.created, b.deduped, b.invalid, entry.ctx.source) && r.db.facts == b.facts
            && r.db.audit == Audited(db.audit, entry.ctx, RememberFacts(items), b.touched))
  {
    var m := ResolveMembership(db.members, user);
    RememberedIff(db.facts, Enter(db, m.org, m.role, first, user, oauth).ctx, first, items);
  }

  lemma RememberedIff(facts: Facts, ctx: Ctx, first: Id, items: seq<Payload>)
    ensures var o := Remember(facts, ctx, first, items);
      var b := WriteBatch(facts, ctx, first, items);
      if Clean(items) == |items| then
        o == Outcome(b.facts, b.touched, Remembered(b.created, b.deduped, b.invalid, ctx.source), true)
      else o.reply == Failed(DatabaseError)
  {
    assert items[..|items|] == items;
  }

  /** Re-sending a fully keyed batch, after any run of tool and operator events, through any
      live seat and member of the same org: nothing is created, the facts table is unchanged,
      and the ids the first call audited come back as deduped, in order, repeats included. */
  lemma ResendIsNoOp(
      db: Db, first: Id, user: UserId, oauth: string, items: seq<Payload>,
      es: seq<Event>, first': Id, user': UserId, oauth': string)
    requires Indexed(db) && Before(db, first.call) && FullyKeyed(items)
    requires StepCall(db, first, user, oauth, RememberFacts(items)).reply.Remembered?
    requires Fresh(StepCall(db, first, user, oauth, RememberFacts(items)).db, es)
    requires var mid := Run(StepCall(db, first, user, oauth, RememberFacts(items)).db, es);
      && ResolveMembership(mid.members, user').Member?
      && ResolveMembership(mid.members, user').org == ResolveMembership(db.members, user).org
      && StepCall(mid, first', user', oauth', RememberFacts(items)).reply.Remembered?
    ensures var r := StepCall(db, first, user, oauth, RememberFacts(items));
      var ids := r.db.audit[|db.audit|].factIds;
      var mid := Run(r.db, es);
      var again := StepCall(mid, first', user', oauth', RememberFacts(items));
      && again.db.facts == mid.facts
      && again.reply == Remembered([], ids, r.reply.invalid, again.reply.source)
      && again.db.audit[|mid.audit|].factIds == ids
  {
    ServedRemember(db, first, user, oauth, items);
    var m := ResolveMembership(db.members, user);
    var ctx := Enter(db, m.org, m.role, first, user, oauth).ctx;
    var b := WriteBatch(db.facts, ctx, first, items);
    BatchAnswers(db.facts, ctx, first, items);
    var r := StepCall(db, first, user, oauth, RememberFacts(items)).db;
    StepEvolves(db, Call(first, user, oauth, RememberFacts(items)));
    RunAdvances(r, es);
    RunKeepsIndexes(r, es);
    var mid := Run(r, es);
    AnswersPersist(r.facts, mid.facts, m.org, Keys(items), b.touched);
    ServedRemember(mid, first', user', oauth', items);
    var m' := ResolveMembership(mid.members, user');
    var ctx' := Enter(mid, m'.org, m'.role, first', user', oauth').ctx;
    AnsweredBatchIsNoOp(mid.facts, ctx', first', items, b.touched);
    InvalidIsStateless(db.facts, mid.facts, ctx, ctx', first, first', items);
  }
}
