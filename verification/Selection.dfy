/** `ORDER BY ... LIMIT k` over a set of visible rows, and its unordered counterpart. */
module Selection {
  import opened Schema

  /** The sort orders the tools ask for, each ending in a unique column. */
  datatype Order = Oldest | Newest | Surest

  predicate Precedes(rows: Facts, order: Order, a: Id, b: Id)
    requires a in rows && b in rows
  {
    match order
    case Oldest => Earlier(a, b)
    case Newest => Earlier(b, a)
    case Surest =>
      rows[a].confidence > rows[b].confidence
      || (rows[a].confidence == rows[b].confidence && Earlier(a, b))
  }

  predicate IsFirst(rows: Facts, order: Order, m: Id) {
    m in rows && forall x :: x in rows && x != m ==> Precedes(rows, order, m, x)
  }

  lemma {:induction false} FirstExists(rows: Facts, order: Order)
    requires rows != map[]
    ensures exists m :: IsFirst(rows, order, m)
    decreases |rows.Keys|
  {
    var m :| m in rows;
    var rest := rows - {m};
    assert rest.Keys == rows.Keys - {m};
    if rest == map[] {
      assert forall x :: x in rows && x != m ==> x in rest;
      assert IsFirst(rows, order, m);
    } else {
      FirstExists(rest, order);
      var n :| IsFirst(rest, order, n);
      var best := if Precedes(rows, order, m, n) then m else n;
      forall x | x in rows && x != best ensures Precedes(rows, order, best, x) {
        assert x == m || x == n || Precedes(rest, order, n, x);
      }
      assert IsFirst(rows, order, best);
    }
  }

  function First(rows: Facts, order: Order): (m: Id)
    requires rows != map[]
    ensures IsFirst(rows, order, m)
  {
    FirstExists(rows, order);
    var m :| m in rows && IsFirst(rows, order, m);
    m
  }

  /** All rows in the given order. */
  function Ranked(rows: Facts, order: Order): seq<Id>
    decreases |rows.Keys|
  {
    if rows == map[] then []
    else
      var m := First(rows, order);
      assert (rows - {m}).Keys == rows.Keys - {m};
      [m] + Ranked(rows - {m}, order)
  }

  function Limit(ids: seq<Id>, k: nat): seq<Id> {
    if |ids| <= k then ids else ids[..k]
  }

  function Page(rows: Facts, order: Order, k: nat): seq<Id> {
    Limit(Ranked(rows, order), k)
  }

  /** Rows in the order the database happens to produce them: unspecified, but the same for
      the same rows. */
  ghost function Scan(rows: Facts): seq<Id>
    decreases |rows.Keys|
  {
    if rows == map[] then []
    else
      var m := Pick(rows.Keys);
      assert (rows - {m}).Keys == rows.Keys - {m};
      [m] + Scan(rows - {m})
  }

  /** Listing each row of `rows` once, in order. */
  ghost predicate Sorted(rows: Facts, order: Order, ids: seq<Id>) {
    && (forall i :: 0 <= i < |ids| ==> ids[i] in rows)
    && (forall i, j :: 0 <= i < j < |ids| ==> ids[i] != ids[j] && Precedes(rows, order, ids[i], ids[j]))
  }

  lemma {:induction false} RankedListsRows(rows: Facts, order: Order)
    ensures forall id :: id in Ranked(rows, order) <==> id in rows
    ensures |Ranked(rows, order)| == |rows|
    decreases |rows.Keys|
  {
    if rows == map[] {
    } else {
      var m := First(rows, order);
      var rest := rows - {m};
      assert rest.Keys == rows.Keys - {m};
      RankedListsRows(rest, order);
      assert Ranked(rows, order) == [m] + Ranked(rest, order);
      assert |rows| == |rows.Keys| && |rest| == |rest.Keys|;
    }
  }

  /** The ranking is a sorted listing. */
  lemma {:induction false} RankedIsSorted(rows: Facts, order: Order)
    ensures Sorted(rows, order, Ranked(rows, order))
    decreases |rows.Keys|
  {
    if rows == map[] {
    } else {
      var m := First(rows, order);
      var rest := rows - {m};
      assert rest.Keys == rows.Keys - {m};
      RankedIsSorted(rest, order);
      var r := Ranked(rest, order);
      var ids := Ranked(rows, order);
      assert ids == [m] + r;
      forall i, j | 0 <= i < j < |ids| ensures ids[i] != ids[j] && Precedes(rows, order, ids[i], ids[j]) {
        assert ids[j] == r[j - 1] && r[j - 1] in rest;
        if i > 0 {
          assert ids[i] == r[i - 1];
          assert Precedes(rest, order, r[i - 1], r[j - 1]);
        }
      }
    }
  }

  lemma {:induction false} ScanListsRows(rows: Facts)
    ensures forall id :: id in Scan(rows) <==> id in rows
    ensures |Scan(rows)| == |rows| && Distinct(Scan(rows))
    decreases |rows.Keys|
  {
    if rows == map[] {
    } else {
      var m := Pick(rows.Keys);
      var rest := rows - {m};
      assert rest.Keys == rows.Keys - {m};
      ScanListsRows(rest);
      assert Scan(rows) == [m] + Scan(rest);
    }
  }

  lemma PageRows(rows: Facts, order: Order, k: nat)
    ensures forall id :: id in Page(rows, order, k) ==> id in rows
    ensures |Page(rows, order, k)| == if |rows| <= k then |rows| else k
  {
    RankedListsRows(rows, order);
    var r := Ranked(rows, order);
    forall id | id in Limit(r, k) ensures id in r {}
  }

  lemma LimitedScanRows(rows: Facts, k: nat)
    ensures forall id :: id in Limit(Scan(rows), k) ==> id in rows
    ensures |Limit(Scan(rows), k)| == if |rows| <= k then |rows| else k
  {
    ScanListsRows(rows);
    var r := Scan(rows);
    forall id | id in Limit(r, k) ensures id in r {}
  }

  /** A sorted selection of at most `k` rows; if any row is left out, it comes after all `k` listed. */
  ghost predicate Leads(rows: Facts, order: Order, k: nat, ids: seq<Id>) {
    && Sorted(rows, order, ids) && |ids| <= k
    && forall x | x in rows && x !in ids ::
         |ids| == k && forall i | 0 <= i < |ids| :: ids[i] in rows && Precedes(rows, order, ids[i], x)
  }

  lemma SortedPrefixLeads(rows: Facts, order: Order, k: nat, all: seq<Id>)
    requires Sorted(rows, order, all) && forall x | x in rows :: x in all
    ensures Leads(rows, order, k, Limit(all, k))
  {
    var page := Limit(all, k);
    forall x | x in rows && x !in page
      ensures |page| == k && forall i | 0 <= i < |page| :: page[i] in rows && Precedes(rows, order, page[i], x)
    {
      var j :| 0 <= j < |all| && all[j] == x;
      forall m | 0 <= m < |page| ensures all[m] != x {
        assert page[m] in page;
      }
    }
  }

  /** `ORDER BY ... LIMIT k` selects the leading rows. */
  lemma PageLeads(rows: Facts, order: Order, k: nat)
    ensures Leads(rows, order, k, Page(rows, order, k))
  {
    RankedIsSorted(rows, order);
    RankedListsRows(rows, order);
    SortedPrefixLeads(rows, order, k, Ranked(rows, order));
  }
}
