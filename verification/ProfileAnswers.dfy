/** What `get_profile` answers: which facts, in which order, how many, and the text of each line. */
module ProfileAnswers {
  import opened Schema
  import opened Selection
  import opened Tools
  import opened ToolAnswers
  import opened ProfileBudget

  // ---------------------------------------------------------------- which facts, in which order

  /** The order `get_profile` promises: identity facts first, oldest first; then preferences and
      styles, surest first. */
  predicate ProfileBefore(facts: Facts, a: Id, b: Id)
    requires a in facts && b in facts
  {
    if facts[a].kind == "identity" then facts[b].kind == "identity" ==> Earlier(a, b)
    else
      && facts[b].kind != "identity"
      && (facts[a].confidence > facts[b].confidence || (facts[a].confidence == facts[b].confidence && Earlier(a, b)))
  }

  predicate ProfileKind(kind: string) {
    kind == "identity" || kind == "preference" || kind == "style"
  }

  lemma ListedInOrder(view: Facts, a: seq<Id>, b: seq<Id>, i: nat, j: nat)
    requires Sorted(OfKind(view, {"identity"}), Oldest, a) && Sorted(OfKind(view, {"preference", "style"}), Surest, b)
    requires i < j < |a + b|
    ensures (a + b)[i] in view && (a + b)[j] in view && ProfileBefore(view, (a + b)[i], (a + b)[j])
  {
    if j < |a| {
      assert Precedes(OfKind(view, {"identity"}), Oldest, a[i], a[j]);
    } else if i < |a| {
      assert a[i] in OfKind(view, {"identity"}) && b[j - |a|] in OfKind(view, {"preference", "style"});
    } else {
      assert Precedes(OfKind(view, {"preference", "style"}), Surest, b[i - |a|], b[j - |a|]);
    }
  }

  lemma LeftOutComesAfter(view: Facts, cap: nat, a: seq<Id>, b: seq<Id>, i: nat, n: nat, x: Id)
    requires Leads(OfKind(view, {"identity"}), Oldest, cap, a)
    requires Leads(OfKind(view, {"preference", "style"}), Surest, cap, b)
    requires i < n <= |a + b| && n <= cap
    requires x in view && ProfileKind(view[x].kind) && forall j | 0 <= j < n :: (a + b)[j] != x
    ensures (a + b)[i] in view && ProfileBefore(view, (a + b)[i], x)
  {
    var all := a + b;
    if x in all {
      var j :| 0 <= j < |all| && all[j] == x;
      ListedInOrder(view, a, b, i, j);
    } else if x in OfKind(view, {"identity"}) {
      assert x !in a;
      assert Precedes(OfKind(view, {"identity"}), Oldest, a[i], x);
    } else {
      assert x in OfKind(view, {"preference", "style"}) && x !in b;
      if i < |a| {
        assert a[i] in OfKind(view, {"identity"});
      } else {
        assert Precedes(OfKind(view, {"preference", "style"}), Surest, b[i - |a|], x);
      }
    }
  }

  /** In profile order, and every profile fact of the view that is left out comes after all of it. */
  ghost predicate LeadsProfile(view: Facts, ids: seq<Id>) {
    && (forall i, j | 0 <= i < j < |ids| :: ids[i] in view && ids[j] in view && ProfileBefore(view, ids[i], ids[j]))
    && (forall i, x | 0 <= i < |ids| && x in view && ProfileKind(view[x].kind) && x !in ids ::
          ids[i] in view && ProfileBefore(view, ids[i], x))
  }

  lemma PrefixLeadsProfile(view: Facts, cap: nat, a: seq<Id>, b: seq<Id>, ids: seq<Id>)
    requires Leads(OfKind(view, {"identity"}), Oldest, cap, a)
    requires Leads(OfKind(view, {"preference", "style"}), Surest, cap, b)
    requires ids <= a + b && |ids| <= cap
    ensures LeadsProfile(view, ids)
  {
    forall i, j | 0 <= i < j < |ids| ensures ids[i] in view && ids[j] in view && ProfileBefore(view, ids[i], ids[j]) {
      ListedInOrder(view, a, b, i, j);
    }
    forall i, x | 0 <= i < |ids| && x in view && ProfileKind(view[x].kind) && x !in ids
      ensures ids[i] in view && ProfileBefore(view, ids[i], x)
    {
      assert forall j | 0 <= j < |ids| :: (a + b)[j] == ids[j];
      LeftOutComesAfter(view, cap, a, b, i, |ids|, x);
    }
  }

  lemma ProfileIsPrefix(facts: Facts, ctx: Ctx)
    ensures var view := ActiveView(facts, ctx, ctx.scopes);
      var cap := ProfileBudget.PROFILE_FACT_CAP;
      && ReadProfile(facts, ctx).ids <=
           Page(OfKind(view, {"identity"}), Oldest, cap) + Page(OfKind(view, {"preference", "style"}), Surest, cap)
      && |ReadProfile(facts, ctx).ids| <= cap
  {
    ProfileCandidatesAreVisible(facts, ctx);
  }

  lemma ProfileIsLeading(facts: Facts, ctx: Ctx)
    ensures LeadsProfile(ActiveView(facts, ctx, ctx.scopes), ReadProfile(facts, ctx).ids)
  {
    var view := ActiveView(facts, ctx, ctx.scopes);
    var cap := ProfileBudget.PROFILE_FACT_CAP;
    var identity, preferences := OfKind(view, {"identity"}), OfKind(view, {"preference", "style"});
    PageLeads(identity, Oldest, cap);
    PageLeads(preferences, Surest, cap);
    ProfileIsPrefix(facts, ctx);
    PrefixLeadsProfile(view, cap, Page(identity, Oldest, cap), Page(preferences, Surest, cap),
                       ReadProfile(facts, ctx).ids);
  }

  // ---------------------------------------------------------------- how many, and the text

  /** A quarter token per character, rounded up line by line. */
  function Tokens(lines: seq<string>): nat {
    if lines == [] then 0 else Tokens(lines[..|lines| - 1]) + (|lines[|lines| - 1]| + 3) / 4
  }

  /** How many characters the line of this fact has. */
  function LineChars(row: Fact): nat {
    |row.kind| + 9 + (if |row.content| <= 300 then |row.content| else 300)
  }

  /** The line of this fact: its kind, its confidence to the nearest hundredth, and its content, cut
      after 299 characters if there are more than 300. */
  predicate IsLineOf(line: string, row: Fact) {
    |line| == LineChars(row)
    && (0.0 <= row.confidence <= 1.0 ==> ShowsFact(line, row.kind, row.confidence, row.content))
  }

  predicate InProfile(facts: Facts, ctx: Ctx, id: Id) {
    Readable(facts, ctx, id) && ProfileKind(facts[id].kind)
  }

  /** The first profile fact, in the promised order, that is not listed. */
  ghost predicate FirstLeftOut(facts: Facts, ctx: Ctx, ids: seq<Id>, x: Id) {
    && InProfile(facts, ctx, x) && x !in ids
    && forall y | InProfile(facts, ctx, y) && y !in ids && y != x :: ProfileBefore(facts, x, y)
  }

  /** The readable identity facts, oldest first, then preferences and styles, surest first; at most
      thirty and, with seven tokens for the header, at most 400 tokens; and the next one would be
      too many. */
  ghost predicate ProfileResult(facts: Facts, ctx: Ctx, ids: seq<Id>, lines: seq<string>) {
    && |lines| == |ids| <= 30 && 7 + Tokens(lines) <= 400
    && (forall i | 0 <= i < |ids| :: InProfile(facts, ctx, ids[i]) && IsLineOf(lines[i], facts[ids[i]]))
    && (forall i, j | 0 <= i < j < |ids| ::
          ids[i] in facts && ids[j] in facts && ProfileBefore(facts, ids[i], ids[j]))
    && (forall i, x | 0 <= i < |ids| && InProfile(facts, ctx, x) && x !in ids ::
          ids[i] in facts && ProfileBefore(facts, ids[i], x))
    && (forall x | FirstLeftOut(facts, ctx, ids, x) ::
          |ids| == 30 || 7 + Tokens(lines) + (LineChars(facts[x]) + 3) / 4 > 400)
  }

  lemma {:induction false} CostIsTokens(lines: seq<string>)
    ensures Cost(lines) == 7 + Tokens(lines)
  {
    if lines == [] {
    } else {
      CostIsTokens(lines[..|lines| - 1]);
    }
  }

  /** The two sorted pages that the candidates are cut from. */
  lemma PagesLead(facts: Facts, ctx: Ctx) returns (a: seq<Id>, b: seq<Id>)
    ensures var view := ActiveView(facts, ctx, ctx.scopes);
      && ProfileCandidates(facts, ctx) == Limit(a + b, 30)
      && Leads(OfKind(view, {"identity"}), Oldest, 30, a)
      && Leads(OfKind(view, {"preference", "style"}), Surest, 30, b)
    ensures forall id | id in a + b :: InProfile(facts, ctx, id)
    ensures |a| < 30 && |b| < 30 ==> forall x | InProfile(facts, ctx, x) :: x in a + b
  {
    var view := ActiveView(facts, ctx, ctx.scopes);
    var identity, preferences := OfKind(view, {"identity"}), OfKind(view, {"preference", "style"});
    PageLeads(identity, Oldest, 30);
    PageLeads(preferences, Surest, 30);
    PageRows(identity, Oldest, 30);
    PageRows(preferences, Surest, 30);
    a, b := Page(identity, Oldest, 30), Page(preferences, Surest, 30);
    forall id ensures InProfile(facts, ctx, id) <==> id in identity || id in preferences {
      ProfileRowsIff(facts, ctx, id);
    }
  }

  lemma ProfileRowsIff(facts: Facts, ctx: Ctx, id: Id)
    ensures var view := ActiveView(facts, ctx, ctx.scopes);
      InProfile(facts, ctx, id) <==> id in OfKind(view, {"identity"}) || id in OfKind(view, {"preference", "style"})
  {
    ActiveIff(facts, ctx, ctx.scopes);
  }

  lemma CandidatesLead(facts: Facts, ctx: Ctx)
    ensures var ids := ProfileCandidates(facts, ctx);
      && |ids| <= 30 && LeadsProfile(ActiveView(facts, ctx, ctx.scopes), ids)
      && (forall id | id in ids :: InProfile(facts, ctx, id))
      && (|ids| < 30 ==> forall x | InProfile(facts, ctx, x) :: x in ids)
  {
    var a, b := PagesLead(facts, ctx);
    PrefixLeadsProfile(ActiveView(facts, ctx, ctx.scopes), 30, a, b, Limit(a + b, 30));
    forall id | id in Limit(a + b, 30) ensures id in a + b {}
  }

  lemma LineIsShown(row: Fact)
    ensures IsLineOf(LineOf(row), row)
  {
  }

  lemma NextLineExceeds(lines: seq<string>, n: nat)
    requires LongestFit(lines, n) && n < |lines|
    ensures 7 + Tokens(lines[..n]) + (|lines[n]| + 3) / 4 > 400
  {
    assert Exceeds(lines, n + 1);
    CostIsTokens(lines[..n]);
    assert lines[..n + 1][..n] == lines[..n];
  }

  /** The candidates in order, and nothing left out before them. */
  lemma CandidatesInOrder(facts: Facts, ctx: Ctx, i: nat, j: nat)
    requires i < j < |ProfileCandidates(facts, ctx)|
    ensures var ids := ProfileCandidates(facts, ctx);
      ids[i] in facts && ids[j] in facts && ProfileBefore(facts, ids[i], ids[j])
  {
    ActiveIff(facts, ctx, ctx.scopes);
    CandidatesLead(facts, ctx);
  }

  lemma PastPrefix(ids: seq<Id>, n: nat, j: nat)
    requires n <= |ids| && j < |ids| && ids[j] !in ids[..n]
    ensures j >= n
  {
  }

  lemma LeftOutOfPrefix(facts: Facts, ctx: Ctx, n: nat, i: nat, x: Id)
    requires i < n <= |ProfileCandidates(facts, ctx)|
    requires InProfile(facts, ctx, x) && x !in ProfileCandidates(facts, ctx)[..n]
    ensures var ids := ProfileCandidates(facts, ctx); ids[i] in facts && ProfileBefore(facts, ids[i], x)
  {
    var ids := ProfileCandidates(facts, ctx);
    if x in ids {
      var j :| 0 <= j < |ids| && ids[j] == x;
      PastPrefix(ids, n, j);
      CandidatesInOrder(facts, ctx, i, j);
    } else {
      ActiveIff(facts, ctx, ctx.scopes);
      CandidatesLead(facts, ctx);
    }
  }

  lemma ShownLine(facts: Facts, ctx: Ctx, i: nat)
    requires i < |ProfileCandidates(facts, ctx)|
    ensures var id := ProfileCandidates(facts, ctx)[i];
      InProfile(facts, ctx, id) && IsLineOf(ProfileLines(facts, ctx)[i], facts[id])
  {
    CandidatesLead(facts, ctx);
    assert ProfileCandidates(facts, ctx)[i] in ProfileCandidates(facts, ctx);
    LineIsShown(facts[ProfileCandidates(facts, ctx)[i]]);
  }

  /** The first fact left out is the next candidate, if there is one. */
  lemma NextIsTooMuch(facts: Facts, ctx: Ctx, n: nat, x: Id)
    requires LongestFit(ProfileLines(facts, ctx), n)
    requires FirstLeftOut(facts, ctx, ProfileCandidates(facts, ctx)[..n], x)
    ensures n == 30 || 7 + Tokens(ProfileLines(facts, ctx)[..n]) + (LineChars(facts[x]) + 3) / 4 > 400
  {
    var ids, lines := ProfileCandidates(facts, ctx), ProfileLines(facts, ctx);
    CandidatesLead(facts, ctx);
    if n < |ids| {
      var next := ids[n];
      assert next !in ids[..n] by {
        if k: nat :| k < n && ids[k] == next {
          CandidatesInOrder(facts, ctx, k, n);
        }
      }
      ShownLine(facts, ctx, n);
      if x != next {
        assert ProfileBefore(facts, x, next);
        if x in ids {
          var j :| 0 <= j < |ids| && ids[j] == x;
          PastPrefix(ids, n, j);
          CandidatesInOrder(facts, ctx, n, j);
        } else {
          assert ids[..n + 1][n] == next;
          LeftOutOfPrefix(facts, ctx, |ids|, n, x);
        }
      }
      NextLineExceeds(lines, n);
    }
  }

  lemma PrefixIsResult(facts: Facts, ctx: Ctx, n: nat)
    requires LongestFit(ProfileLines(facts, ctx), n)
    ensures ProfileResult(facts, ctx, ProfileCandidates(facts, ctx)[..n], ProfileLines(facts, ctx)[..n])
  {
    var all, lines := ProfileCandidates(facts, ctx), ProfileLines(facts, ctx);
    var ids := all[..n];
    ProfileCandidatesAreVisible(facts, ctx);
    CostIsTokens(lines[..n]);
    assert !Exceeds(lines, n);
    forall i | 0 <= i < n ensures InProfile(facts, ctx, ids[i]) && IsLineOf(lines[i], facts[ids[i]]) {
      ShownLine(facts, ctx, i);
    }
    forall i, j | 0 <= i < j < n ensures ids[i] in facts && ids[j] in facts && ProfileBefore(facts, ids[i], ids[j]) {
      CandidatesInOrder(facts, ctx, i, j);
    }
    forall i, x | 0 <= i < n && InProfile(facts, ctx, x) && x !in ids
      ensures ids[i] in facts && ProfileBefore(facts, ids[i], x)
    {
      LeftOutOfPrefix(facts, ctx, n, i, x);
    }
    forall x | FirstLeftOut(facts, ctx, ids, x)
      ensures n == 30 || 7 + Tokens(lines[..n]) + (LineChars(facts[x]) + 3) / 4 > 400
    {
      NextIsTooMuch(facts, ctx, n, x);
    }
  }

  /** `get_profile` answers with the lines of the profile and audits its facts. */
  lemma GetProfileAnswers(facts: Facts, ctx: Ctx, first: Id)
    ensures var o := Act(facts, ctx, first, GetProfile);
      && o.reply.Profile? && o == Outcome(facts, o.ids, Profile(o.reply.lines), true)
      && ProfileResult(facts, ctx, o.ids, o.reply.lines)
  {
    PrefixIsResult(facts, ctx, Fit(ProfileLines(facts, ctx)));
  }
}
