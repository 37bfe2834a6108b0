/** When the profile text outgrows its budget, and a facts table for which it does. */
module ProfileOverrun {
  import opened Schema
  import opened Selection
  import opened Tools
  import opened ProfileBudget

  /** The text `get_profile` returns is within the budget exactly when every prefix of the rendered
      candidates that the loop's estimate admits leaves room for its newlines. */
  lemma ProfileWithinBudgetIff(facts: Facts, ctx: Ctx)
    ensures var lines := ProfileLines(facts, ctx);
      EstimateTokens(Render(ReadProfile(facts, ctx).reply.lines)) <= PROFILE_TOKEN_BUDGET <==>
        forall m: nat | m <= |lines| && Cost(lines[..m]) <= PROFILE_TOKEN_BUDGET :: Length(lines[..m]) + m <= 1573
  {
    ShownWithinBudgetIff(ProfileLines(facts, ctx));
  }

  // ---------------------------------------------------------------- thirty facts

  function Text(n: nat): (s: string)
    ensures |s| == n
  {
    seq(n, _ => 'x')
  }

  /** The `i`th identity fact: 35 characters of content, the last one 47. */
  function Person(i: nat): Fact {
    Fact("acme", "ann", "identity", Text(if i < 29 then 35 else 47), 1.0, ["account"], "user_manual",
         None, None, Active, None)
  }

  function People(n: nat): Facts {
    map i: nat | i < n :: Id(i, 0) := Person(i)
  }

  const ANN := Ctx("ann", "acme", Owner, {"acme"}, Id(99, 0), ["account"], None)

  lemma {:induction false} HowManyPeople(n: nat)
    ensures |People(n)| == n
  {
    if n == 0 {
    } else {
      HowManyPeople(n - 1);
      assert People(n).Keys == People(n - 1).Keys + {Id(n - 1, 0)};
    }
  }

  lemma AnnSeesPeople(n: nat)
    ensures ActiveView(People(n), ANN, ANN.scopes) == People(n)
    ensures OfKind(People(n), {"identity"}) == People(n)
    ensures OfKind(People(n), {"preference", "style"}) == map[]
  {
    var scopes := EffectiveScopes(Owner, ["account"]);
    assert "account" in scopes;
    forall id | id in People(n) ensures Shows(People(n)[id], {"acme"}, Active, scopes) {
      assert "account" in People(n)[id].tags;
    }
    assert forall id :: id in ActiveView(People(n), ANN, ANN.scopes) <==> id in People(n);
  }

  /** `n` people listed oldest first are listed by number. */
  lemma {:induction false} ListedByNumber(ids: seq<Id>, n: nat, i: nat)
    requires Sorted(People(n), Oldest, ids) && |ids| == n && i < n
    ensures ids[i] == Id(i, 0)
  {
    AtLeast(ids, n, i);
    AtMost(ids, n, i);
    assert ids[i] in People(n);
  }

  lemma {:induction false} AtLeast(ids: seq<Id>, n: nat, i: nat)
    requires Sorted(People(n), Oldest, ids) && |ids| == n && i < n
    ensures ids[i].call >= i
  {
    if i == 0 {
    } else {
      AtLeast(ids, n, i - 1);
      assert Precedes(People(n), Oldest, ids[i - 1], ids[i]);
    }
  }

  lemma {:induction false} AtMost(ids: seq<Id>, n: nat, i: nat)
    requires Sorted(People(n), Oldest, ids) && |ids| == n && i < n
    ensures ids[i].call <= i
    decreases n - i
  {
    assert ids[i] in People(n);
    if i == n - 1 {
    } else {
      AtMost(ids, n, i + 1);
      assert Precedes(People(n), Oldest, ids[i], ids[i + 1]);
    }
  }

  lemma PeopleAreCandidates(n: nat)
    requires n <= PROFILE_FACT_CAP
    ensures |ProfileCandidates(People(n), ANN)| == n
    ensures forall i :: 0 <= i < n ==> ProfileCandidates(People(n), ANN)[i] == Id(i, 0)
  {
    AnnSeesPeople(n);
    HowManyPeople(n);
    RankedListsRows(People(n), Oldest);
    RankedIsSorted(People(n), Oldest);
    var ids := Ranked(People(n), Oldest);
    assert Ranked(map[], Surest) == [];
    assert ProfileCandidates(People(n), ANN) == ids;
    forall i | 0 <= i < n ensures ids[i] == Id(i, 0) {
      ListedByNumber(ids, n, i);
    }
  }

  lemma PersonLine(i: nat)
    ensures |LineOf(Person(i))| == if i < 29 then 52 else 64
  {
    assert |"identity"| == 8;
  }

  lemma PeopleLines(n: nat)
    requires n <= PROFILE_FACT_CAP
    ensures |ProfileLines(People(n), ANN)| == n
    ensures forall i :: 0 <= i < n ==> ProfileLines(People(n), ANN)[i] == LineOf(Person(i))
  {
    PeopleAreCandidates(n);
    ProfileCandidatesAreVisible(People(n), ANN);
    forall i | 0 <= i < n ensures ProfileLines(People(n), ANN)[i] == LineOf(Person(i)) {
      assert ProfileCandidates(People(n), ANN)[i] == Id(i, 0);
    }
  }

  lemma Overruns(facts: Facts, ctx: Ctx, lines: seq<string>)
    requires lines == ProfileLines(facts, ctx) && |lines| == PROFILE_FACT_CAP && |lines[29]| == 64
    requires forall i :: 0 <= i < 29 ==> |lines[i]| == 52
    ensures ReadProfile(facts, ctx).reply == Profile(lines)
    ensures EstimateTokens(Render(lines)) == 408
  {
    RenderedBoundIsTight(lines);
    assert lines[..Fit(lines)] == lines;
  }

  /** Thirty identity facts whose profile is shown in full and comes to 408 estimated tokens. The
      number is a parameter, fixed at thirty, so that the verifier does not unroll thirty rows. */
  lemma ThirtyPeopleOverrun(n: nat)
    requires n == PROFILE_FACT_CAP
    ensures ReadProfile(People(n), ANN).reply == Profile(ProfileLines(People(n), ANN))
    ensures EstimateTokens(Render(ProfileLines(People(n), ANN))) == 408
  {
    PeopleLines(n);
    var lines := ProfileLines(People(n), ANN);
    forall i | 0 <= i < n ensures |lines[i]| == if i < 29 then 52 else 64 {
      PersonLine(i);
    }
    Overruns(People(n), ANN, lines);
  }
}
