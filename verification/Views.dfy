/** What the reading tools show, against each other, and the review queue. */
module Views {
  import opened Schema
  import opened Tools
  import opened ToolAnswers
  import opened ProfileAnswers
  import ProfileBudget

  /** Can this seat fetch this fact now? */
  predicate Fetchable(facts: Facts, ctx: Ctx, id: Id) {
    FetchFact(facts, ctx, Uuid(id)).reply.Fetched?
  }

  /** Fetching works exactly for active facts of the caller's orgs with a tag that the seat is granted
      and the role may see. */
  lemma FetchableIff(facts: Facts, ctx: Ctx, id: Id)
    ensures Fetchable(facts, ctx, id) <==> Readable(facts, ctx, id)
    ensures Fetchable(facts, ctx, id) ==> FetchFact(facts, ctx, Uuid(id)).reply == Fetched(id, facts[id])
  {
    FetchAnswers(facts, ctx, id, Uuid(id));
  }

  predicate Within(xs: seq<string>, ys: seq<string>) {
    forall x :: x in xs ==> x in ys
  }

  lemma PendingIsMonotone(facts: Facts, ctx: Ctx, wider: Ctx)
    requires ctx.orgs <= wider.orgs && (wider.role == ctx.role || wider.role == Owner)
    ensures Within(ctx.scopes, wider.scopes) ==> forall id | id in PendingView(facts, ctx) ::
      id in PendingView(facts, wider) && PendingView(facts, wider)[id] == facts[id]
  {
    var scopes, scopes' := EffectiveScopes(ctx.role, ctx.scopes), EffectiveScopes(wider.role, wider.scopes);
    if Within(ctx.scopes, wider.scopes) {
      forall id | id in PendingView(facts, ctx) ensures id in PendingView(facts, wider) {
        var t :| t in facts[id].tags && t in scopes;
        assert t in scopes';
      }
    }
  }

  /** Active and pending views grow with grants, and the owner's view contains every role's. */
  lemma ViewsAreMonotone(facts: Facts, ctx: Ctx, wider: Ctx, base: seq<string>, base': seq<string>)
    requires ctx.orgs <= wider.orgs && Within(base, base') && (wider.role == ctx.role || wider.role == Owner)
    ensures forall id | id in ActiveView(facts, ctx, base) ::
      id in ActiveView(facts, wider, base') && ActiveView(facts, wider, base')[id] == facts[id]
    ensures Within(ctx.scopes, wider.scopes) ==> forall id | id in PendingView(facts, ctx) ::
      id in PendingView(facts, wider) && PendingView(facts, wider)[id] == facts[id]
  {
    PendingIsMonotone(facts, ctx, wider);
    var scopes, scopes' := EffectiveScopes(ctx.role, base), EffectiveScopes(wider.role, base');
    forall id | id in ActiveView(facts, ctx, base) ensures id in ActiveView(facts, wider, base') {
      var t :| t in facts[id].tags && t in scopes;
      assert t in scopes';
    }
  }

  /** The tools that list facts. */
  predicate Lists(op: Op) {
    op.GetProfile? || op.SearchContext? || op.Search? || op.GetRecentActivity?
  }

  /** Whatever a listing tool shows, in any domain, the same seat can fetch in the same state. */
  lemma ListedFactsAreFetchable(facts: Facts, ctx: Ctx, first: Id, op: Op)
    requires Lists(op)
    ensures forall id :: id in Act(facts, ctx, first, op).ids ==> Fetchable(facts, ctx, id)
  {
    forall id ensures Fetchable(facts, ctx, id) <==> Readable(facts, ctx, id) {
      FetchableIff(facts, ctx, id);
    }
    match op
    case GetProfile => GetProfileAnswers(facts, ctx, first);
    case SearchContext(q) => SearchAnswers(facts, ctx, first, op, q);
    case Search(q) => SearchAnswers(facts, ctx, first, op, q);
    case GetRecentActivity(domain) => ActivityAnswers(facts, ctx, first, domain);
  }

  /** At least four profile lines, or all profile facts, are always shown: a line costs at most 80
      tokens. The rendered text comes to at most 408. */
  lemma ProfileShowsFour(facts: Facts, ctx: Ctx, first: Id)
    ensures var o := Act(facts, ctx, first, GetProfile);
      && o.reply.Profile? && (|ProfileBudget.Render(o.reply.lines)| + 3) / 4 <= 408
      && (|o.ids| >= 4 || forall id | InProfile(facts, ctx, id) :: id in o.ids)
  {
    var ids, lines := ProfileCandidates(facts, ctx), ProfileLines(facts, ctx);
    CandidatesLead(facts, ctx);
    forall i | 0 <= i < |lines| ensures |lines[i]| <= 320 {
      assert ids[i] in ids;
      LineIsShown(facts[ids[i]]);
    }
    var n := ProfileBudget.Fit(lines);
    ProfileBudget.FourLinesAlwaysFit(lines, n);
    ProfileBudget.RenderedBound(lines[..n]);
  }

  // ---------------------------------------------------------------- the review queue

  /** A decision takes exactly that fact out of every seat's queue; a promotion puts it before exactly
      the seats of its org with a tag that they may see, a rejection before nobody. */
  lemma DecisionMovesOneFact(
      facts: Facts, ctx: Ctx, first: Id, op: Op, id: Id, status: FactStatus, other: Ctx, base: seq<string>, x: Id)
    requires Reviews(op, Uuid(id), status) && ctx.role != Rep && Reviewable(facts, ctx, id)
    ensures var after := Act(facts, ctx, first, op).facts;
      && (Sees(after, other, base, PendingReview, x) <==> x != id && Sees(facts, other, base, PendingReview, x))
      && (Sees(after, other, base, Active, x) <==>
            || Sees(facts, other, base, Active, x)
            || (x == id && status == Active && facts[id].org in other.orgs
                && InScope(facts[id].tags, base, other.role)))
  {
    ReviewAnswers(facts, ctx, first, op, Uuid(id), status);
  }

  /** One round of reviewing: which of the listed facts to decide, and how. */
  datatype Choice = Choice(position: nat, promote: bool)

  function Verdict(id: Id, promote: bool): Op {
    if promote then PromoteFact(Uuid(id)) else RejectFact(Uuid(id), None)
  }

  /** Alternating `list_pending_facts` and a decision on one of the facts it lists. */
  ghost function Review(facts: Facts, ctx: Ctx, first: Id, limit: int, choices: seq<Choice>): Facts {
    if choices == [] then facts
    else
      var n := |choices| - 1;
      var now := Review(facts, ctx, first, limit, choices[..n]);
      var listed := Act(now, ctx, first, ListPendingFacts(limit)).ids;
      if listed == [] then now
      else Act(now, ctx, first, Verdict(listed[choices[n].position % |listed|], choices[n].promote)).facts
  }

  lemma DecisionShrinksQueue(facts: Facts, ctx: Ctx, first: Id, id: Id, promote: bool)
    requires ctx.role != Rep && Reviewable(facts, ctx, id)
    ensures |Queue(Act(facts, ctx, first, Verdict(id, promote)).facts, ctx)| == |Queue(facts, ctx)| - 1
  {
    ReviewAnswers(facts, ctx, first, Verdict(id, promote), Uuid(id), if promote then Active else Rejected);
    assert Queue(Act(facts, ctx, first, Verdict(id, promote)).facts, ctx) == Queue(facts, ctx) - {id};
  }

  /** Each round decides one pending fact until none is left, whichever listed facts are chosen,
      however they are decided and whatever limit is asked for: the queue drains in exactly as
      many decisions as it held facts. */
  lemma {:induction false} ReviewingDrainsQueue(
      facts: Facts, ctx: Ctx, first: Id, limit: int, choices: seq<Choice>)
    requires ctx.role != Rep
    ensures |Queue(Review(facts, ctx, first, limit, choices), ctx)| ==
      if |choices| <= |Queue(facts, ctx)| then |Queue(facts, ctx)| - |choices| else 0
  {
    if choices == [] {
    } else {
      var n := |choices| - 1;
      ReviewingDrainsQueue(facts, ctx, first, limit, choices[..n]);
      var now := Review(facts, ctx, first, limit, choices[..n]);
      var listed := Act(now, ctx, first, ListPendingFacts(limit)).ids;
      QueueAnswers(now, ctx, first, limit);
      if listed != [] {
        var id := listed[choices[n].position % |listed|];
        assert id in listed && id in Queue(now, ctx);
        DecisionShrinksQueue(now, ctx, first, id, choices[n].promote);
      }
    }
  }
}
