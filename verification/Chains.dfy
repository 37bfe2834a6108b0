/** Supersession links: when following them terminates, and what a dedupe collision does to them. */
module Chains {
  import opened Schema
  import opened Intake
  import opened Tools
  import opened Lifecycle

  /** Every link points to a later-created row of the same org. */
  ghost predicate ForwardLinks(facts: Facts) {
    forall id | id in facts && facts[id].supersededBy.Some? ::
      var link := facts[id].supersededBy.value;
      link in facts && facts[link].org == facts[id].org && Earlier(id, link)
  }

  ghost function Later(facts: Facts, id: Id): set<Id> {
    set x | x in facts && Earlier(id, x)
  }

  /** Following links forward ends at an unlinked fact of the same org. */
  ghost function ChainEnd(facts: Facts, id: Id): (end: Id)
    requires id in facts && ForwardLinks(facts)
    ensures end in facts && facts[end].supersededBy == None
    ensures facts[end].org == facts[id].org && (end == id || Earlier(id, end))
    decreases Later(facts, id)
  {
    if facts[id].supersededBy.None? then id
    else
      var link := facts[id].supersededBy.value;
      assert link in Later(facts, id) && link !in Later(facts, link);
      ChainEnd(facts, link)
  }

  /** The facts that already hold the key of this input. */
  ghost function KeyHolders(facts: Facts, org: OrgId, f: FactInput): set<Id> {
    if f.dedupeKey.Some? then Holders(facts, org, f.dedupeKey.value) else {}
  }

  /** What a caller can check before superseding: nobody holds the replacement's key, or only a
      fact newer than the one being retired does. */
  ghost predicate KeyIsFreeOrNewer(facts: Facts, org: OrgId, target: Id, f: FactInput) {
    forall h :: h in KeyHolders(facts, org, f) ==> Earlier(target, h)
  }

  /** What a successful supersede has done. */
  lemma SupersedeLinks(facts: Facts, ctx: Ctx, first: Id, target: Id, p: Payload)
    requires UniqueKeys(facts) && first !in facts && ctx.orgs == {ctx.org}
    requires Supersede(facts, ctx, first, Uuid(target), p).reply.Replaced?
    ensures var o := Supersede(facts, ctx, first, Uuid(target), p);
      && Validate(p).Some? && target in facts && facts[target].org == ctx.org
      && var f := Validate(p).value;
         var holders := KeyHolders(facts, ctx.org, f);
         var inserted := if holders == {} then facts[first := FactRow(ctx, f)] else facts;
         var link := o.reply.replacement;
         && holders == (if o.reply.wasDeduped then {link} else {}) && (holders == {} ==> link == first)
         && link in inserted && inserted[link].org == ctx.org
         && o.facts == inserted[target := facts[target].(status := Superseded, supersededBy := Some(link))]
         && o.reply.status == (if f.confidence >= 0.9 then Active else PendingReview)
  {
    var f := Validate(p).value;
    InsertFactGrows(facts, ctx, first, f);
    var w := InsertFact(facts, ctx, first, f);
    assert forall h :: h in KeyHolders(facts, ctx.org, f) && !w.created ==> h == w.id;
  }

  /** A successful supersede keeps all links pointing forward exactly under that condition. */
  lemma SupersedeKeepsForwardIff(facts: Facts, ctx: Ctx, first: Id, target: Id, p: Payload)
    requires UniqueKeys(facts) && AllBefore(facts, first.call) && ctx.orgs == {ctx.org} && ForwardLinks(facts)
    requires Supersede(facts, ctx, first, Uuid(target), p).reply.Replaced?
    ensures Validate(p).Some?
    ensures ForwardLinks(Supersede(facts, ctx, first, Uuid(target), p).facts) <==>
      KeyIsFreeOrNewer(facts, ctx.org, target, Validate(p).value)
  {
    SupersedeLinks(facts, ctx, first, target, p);
    var o := Supersede(facts, ctx, first, Uuid(target), p);
    var link := o.reply.replacement;
    assert o.facts[target].supersededBy == Some(link);
    assert ForwardLinks(o.facts) <==> Earlier(target, link);
  }

  predicate Reuses(reply: Reply) {
    reply.Replaced? && reply.wasDeduped
  }

  /** Did this event retire a fact in favour of a row that already existed? */
  ghost predicate ReusesRow(db: Db, e: Event) {
    Reuses(Step(db, e).reply)
  }

  lemma SupersedeKeepsForward(facts: Facts, ctx: Ctx, first: Id, arg: IdArg, p: Payload)
    requires UniqueKeys(facts) && AllBefore(facts, first.call) && ctx.orgs == {ctx.org} && ForwardLinks(facts)
    requires !Reuses(Supersede(facts, ctx, first, arg, p).reply)
    ensures ForwardLinks(Supersede(facts, ctx, first, arg, p).facts)
  {
    if arg.Uuid? && Supersede(facts, ctx, first, arg, p).reply.Replaced? {
      SupersedeKeepsForwardIff(facts, ctx, first, arg.id, p);
      SupersedeLinks(facts, ctx, first, arg.id, p);
    }
  }

  lemma ActKeepsForward(facts: Facts, ctx: Ctx, first: Id, op: Op)
    requires UniqueKeys(facts) && AllBefore(facts, first.call) && ctx.orgs == {ctx.org} && ForwardLinks(facts)
    requires !Reuses(Act(facts, ctx, first, op).reply)
    ensures ForwardLinks(Act(facts, ctx, first, op).facts)
  {
    match op
    case RememberFacts(items) => WriteBatchGrows(facts, ctx, first, items[..Clean(items)]);
    case SupersedeFact(arg, p) => SupersedeKeepsForward(facts, ctx, first, arg, p);
    case PromoteFact(arg) => DecideKeepsForward(facts, ctx, arg, Active);
    case RejectFact(arg, _) => DecideKeepsForward(facts, ctx, arg, Rejected);
    case _ =>
  }

  lemma DecideKeepsForward(facts: Facts, ctx: Ctx, arg: IdArg, status: FactStatus)
    requires ForwardLinks(facts)
    ensures ForwardLinks(Decide(facts, ctx, arg, status).facts)
  {
  }

  lemma StepKeepsForward(db: Db, e: Event)
    requires Indexed(db) && Before(db, e.first.call) && ForwardLinks(db.facts) && !ReusesRow(db, e)
    ensures ForwardLinks(Step(db, e).db.facts)
  {
    match e
    case Call(first, user, oauth, op) =>
      SingleMembership(db.members, user);
      var m := ResolveMembership(db.members, user);
      if m.Member? {
        var entry := Enter(db, m.org, m.role, first, user, oauth);
        if !entry.revoked {
          ActKeepsForward(db.facts, entry.ctx, first, op);
        }
      }
    case Admin(first, action) =>
      AdminKeepsIndex(db, first, action);
  }

  /** In a run where every supersede created its replacement, links always point forward, so
      every chain ends, even after repeated supersedes of the same fact. */
  lemma {:induction false} RunKeepsForward(db: Db, es: seq<Event>)
    requires Indexed(db) && Fresh(db, es) && ForwardLinks(db.facts)
    requires forall i :: 0 <= i < |es| ==> !ReusesRow(Run(db, es[..i]), es[i])
    ensures ForwardLinks(Run(db, es).facts)
  {
    if es == [] {
    } else {
      var n := |es| - 1;
      LastStepIsFresh(db, es);
      forall i | 0 <= i < n ensures !ReusesRow(Run(db, es[..n][..i]), es[..n][i]) {
        assert es[..n][..i] == es[..i] && es[..n][i] == es[i];
      }
      RunKeepsForward(db, es[..n]);
      StepKeepsForward(Run(db, es[..n]), es[n]);
    }
  }

  // ---------------------------------------------------------------- chains that need not point forward

  /** Following links from this fact reaches an unlinked one in at most `n` steps. */
  ghost predicate EndsWithin(facts: Facts, id: Id, n: nat)
    decreases n
  {
    id in facts
    && (facts[id].supersededBy.None? || (n > 0 && EndsWithin(facts, facts[id].supersededBy.value, n - 1)))
  }

  ghost predicate Ends(facts: Facts, id: Id) {
    exists n: nat :: EndsWithin(facts, id, n)
  }

  /** Every chain of supersessions ends. */
  ghost predicate AllEnd(facts: Facts) {
    forall id :: id in facts ==> Ends(facts, id)
  }

  ghost predicate LeadsWithin(facts: Facts, a: Id, b: Id, n: nat)
    decreases n
  {
    a == b || (n > 0 && a in facts && facts[a].supersededBy.Some?
               && LeadsWithin(facts, facts[a].supersededBy.value, b, n - 1))
  }

  /** Following links from `a` gets to `b`. */
  ghost predicate LeadsTo(facts: Facts, a: Id, b: Id) {
    exists n: nat :: LeadsWithin(facts, a, b, n)
  }

  /** The same links everywhere but at this fact. */
  ghost predicate AgreeBut(f: Facts, g: Facts, target: Id) {
    f.Keys == g.Keys && forall id | id in f && id != target :: g[id].supersededBy == f[id].supersededBy
  }

  lemma {:induction false} EndsLater(facts: Facts, id: Id, m: nat, n: nat)
    requires EndsWithin(facts, id, m) && m <= n
    ensures EndsWithin(facts, id, n)
    decreases n
  {
    if facts[id].supersededBy.None? {
    } else {
      EndsLater(facts, facts[id].supersededBy.value, m - 1, n - 1);
    }
  }

  /** A chain that passes the target before it ends leaves the target's own chain shorter. */
  lemma {:induction false} PassesTarget(f: Facts, g: Facts, target: Id, x: Id, k: nat, m: nat) returns (rest: nat)
    requires AgreeBut(f, g, target) && LeadsWithin(f, x, target, k) && EndsWithin(g, x, m)
    ensures rest <= m && EndsWithin(g, target, rest)
    decreases k
  {
    if x == target {
      rest := m;
    } else {
      rest := PassesTarget(f, g, target, f[x].supersededBy.value, k - 1, m - 1);
    }
  }

  /** Once the target links to a fact whose chain led to it, going round never ends. */
  lemma {:induction false} GoingRound(f: Facts, g: Facts, target: Id, link: Id, k: nat, m: nat)
    requires AgreeBut(f, g, target) && target in g && g[target].supersededBy == Some(link)
    requires LeadsWithin(f, link, target, k)
    ensures !EndsWithin(g, link, m)
    decreases m
  {
    if EndsWithin(g, link, m) {
      var rest := PassesTarget(f, g, target, link, k, m);
      GoingRound(f, g, target, link, k, rest - 1);
    }
  }

  /** A chain that does not lead to the target is as it was. */
  lemma {:induction false} StillEnds(f: Facts, g: Facts, target: Id, x: Id, n: nat)
    requires AgreeBut(f, g, target) && EndsWithin(f, x, n) && !LeadsTo(f, x, target)
    ensures EndsWithin(g, x, n)
    decreases n
  {
    assert LeadsWithin(f, target, target, 0);
    if f[x].supersededBy.None? {
    } else {
      var y := f[x].supersededBy.value;
      if LeadsTo(f, y, target) {
        var k: nat :| LeadsWithin(f, y, target, k);
        assert LeadsWithin(f, x, target, k + 1);
      }
      StillEnds(f, g, target, y, n - 1);
    }
  }

  /** If the target's new chain ends, so does every chain that ended before. */
  lemma {:induction false} EndsThroughTarget(f: Facts, g: Facts, target: Id, x: Id, n: nat)
    requires AgreeBut(f, g, target) && EndsWithin(f, x, n) && Ends(g, target)
    ensures Ends(g, x)
    decreases n
  {
    if x == target {
    } else if f[x].supersededBy.None? {
      assert EndsWithin(g, x, 0);
    } else {
      EndsThroughTarget(f, g, target, f[x].supersededBy.value, n - 1);
      var m: nat :| EndsWithin(g, f[x].supersededBy.value, m);
      assert EndsWithin(g, x, m + 1);
    }
  }

  lemma RelinkKeepsEndingsIff(f: Facts, g: Facts, target: Id, link: Id)
    requires AllEnd(f) && AgreeBut(f, g, target) && link in f && target in g && g[target].supersededBy == Some(link)
    ensures AllEnd(g) <==> !LeadsTo(f, link, target)
  {
    if LeadsTo(f, link, target) {
      var k: nat :| LeadsWithin(f, link, target, k);
      forall m: nat ensures !EndsWithin(g, link, m) {
        GoingRound(f, g, target, link, k, m);
      }
      assert !Ends(g, link);
    } else {
      var n: nat :| EndsWithin(f, link, n);
      StillEnds(f, g, target, link, n);
      assert EndsWithin(g, target, n + 1);
      forall x | x in g ensures Ends(g, x) {
        var m: nat :| EndsWithin(f, x, m);
        EndsThroughTarget(f, g, target, x, m);
      }
    }
  }

  /** Rows keep their links, and new rows have none. */
  ghost predicate SameLinks(f: Facts, g: Facts) {
    && (forall id | id in f :: id in g && g[id].supersededBy == f[id].supersededBy)
    && (forall id | id in g && id !in f :: g[id].supersededBy.None?)
  }

  lemma {:induction false} SameLinksEnd(f: Facts, g: Facts, x: Id, n: nat)
    requires SameLinks(f, g) && EndsWithin(f, x, n)
    ensures EndsWithin(g, x, n)
    decreases n
  {
    if f[x].supersededBy.None? {
    } else {
      SameLinksEnd(f, g, f[x].supersededBy.value, n - 1);
    }
  }

  lemma SameLinksKeepEndings(f: Facts, g: Facts)
    requires AllEnd(f) && SameLinks(f, g)
    ensures AllEnd(g)
  {
    forall x | x in g ensures Ends(g, x) {
      if x in f {
        var n: nat :| EndsWithin(f, x, n);
        SameLinksEnd(f, g, x, n);
      } else {
        assert EndsWithin(g, x, 0);
      }
    }
  }

  /** After a successful supersede every chain still ends if and only if the chain of the fact that
      already holds the replacement's key, if there is one, does not lead to the fact retired. */
  lemma SupersedeKeepsEndingsIff(facts: Facts, ctx: Ctx, first: Id, target: Id, p: Payload)
    requires UniqueKeys(facts) && AllBefore(facts, first.call) && ctx.orgs == {ctx.org} && AllEnd(facts)
    requires Supersede(facts, ctx, first, Uuid(target), p).reply.Replaced?
    ensures Validate(p).Some?
    ensures AllEnd(Supersede(facts, ctx, first, Uuid(target), p).facts) <==>
      forall h :: h in KeyHolders(facts, ctx.org, Validate(p).value) ==> !LeadsTo(facts, h, target)
  {
    SupersedeLinks(facts, ctx, first, target, p);
    var o := Supersede(facts, ctx, first, Uuid(target), p);
    var f, link := Validate(p).value, o.reply.replacement;
    var holders := KeyHolders(facts, ctx.org, f);
    if holders == {} {
      var inserted := facts[first := FactRow(ctx, f)];
      SameLinksKeepEndings(facts, inserted);
      forall n: nat ensures !LeadsWithin(inserted, first, target, n) {
        assert first != target && inserted[first].supersededBy.None?;
      }
      RelinkKeepsEndingsIff(inserted, o.facts, target, first);
    } else {
      assert holders == {link};
      RelinkKeepsEndingsIff(facts, o.facts, target, link);
    }
  }

  /** The event retires a fact in favour of one whose chain leads back to it. */
  ghost predicate ClosesCycle(db: Db, e: Event) {
    var r := Step(db, e).reply;
    r.Replaced? && LeadsTo(db.facts, r.replacement, r.retired)
  }

  lemma ActKeepsEndingsIff(facts: Facts, ctx: Ctx, first: Id, op: Op)
    requires UniqueKeys(facts) && AllBefore(facts, first.call) && ctx.orgs == {ctx.org} && AllEnd(facts)
    ensures var o := Act(facts, ctx, first, op);
      AllEnd(o.facts) <==> !(o.reply.Replaced? && LeadsTo(facts, o.reply.replacement, o.reply.retired))
  {
    var o := Act(facts, ctx, first, op);
    if o.reply.Replaced? {
      SupersedeKeepsEndingsIff(facts, ctx, first, op.target.id, op.replacement);
      SupersedeLinks(facts, ctx, first, op.target.id, op.replacement);
      if !o.reply.wasDeduped {
        NewRowLeadsNowhere(facts, first, op.target.id);
      }
    } else {
      OthersKeepLinks(facts, ctx, first, op);
      SameLinksKeepEndings(facts, o.facts);
    }
  }

  lemma NewRowLeadsNowhere(facts: Facts, id: Id, target: Id)
    requires id !in facts && target in facts
    ensures !LeadsTo(facts, id, target)
  {
    forall n: nat ensures !LeadsWithin(facts, id, target, n) {}
  }

  lemma OthersKeepLinks(facts: Facts, ctx: Ctx, first: Id, op: Op)
    requires UniqueKeys(facts) && AllBefore(facts, first.call) && !Act(facts, ctx, first, op).reply.Replaced?
    ensures SameLinks(facts, Act(facts, ctx, first, op).facts)
  {
    if op.RememberFacts? {
      WriteBatchGrows(facts, ctx, first, op.items[..Clean(op.items)]);
    }
  }

  /** Among all events, exactly those that close a cycle spoil the endings. */
  lemma StepKeepsEndingsIff(db: Db, e: Event)
    requires Indexed(db) && Before(db, e.first.call) && AllEnd(db.facts)
    ensures AllEnd(Step(db, e).db.facts) <==> !ClosesCycle(db, e)
  {
    match e
    case Call(first, user, oauth, op) =>
      SingleMembership(db.members, user);
      var m := ResolveMembership(db.members, user);
      if m.Member? {
        var entry := Enter(db, m.org, m.role, first, user, oauth);
        if !entry.revoked {
          ActKeepsEndingsIff(db.facts, entry.ctx, first, op);
        }
      }
    case Admin(first, action) =>
      AdminKeepsIndex(db, first, action);
  }

  /** In any run in which no supersede closes a cycle, deduped supersedes included, every chain ends. */
  lemma {:induction false} RunKeepsEndings(db: Db, es: seq<Event>)
    requires Indexed(db) && Fresh(db, es) && AllEnd(db.facts)
    requires forall i :: 0 <= i < |es| ==> !ClosesCycle(Run(db, es[..i]), es[i])
    ensures AllEnd(Run(db, es).facts)
  {
    if es == [] {
    } else {
      var n := |es| - 1;
      LastStepIsFresh(db, es);
      forall i | 0 <= i < n ensures !ClosesCycle(Run(db, es[..n][..i]), es[..n][i]) {
        assert es[..n][..i] == es[..i] && es[..n][i] == es[i];
      }
      RunKeepsEndings(db, es[..n]);
      StepKeepsEndingsIff(Run(db, es[..n]), es[n]);
    }
  }

  /** Correcting each of two facts under the other's key makes them supersede each other: a cycle
      from which no chain ends. */
  lemma TwoCorrectionsMakeACycle(
      facts: Facts, ctx: Ctx, first: Id, first': Id, a: Id, b: Id, p: Payload, q: Payload)
    requires UniqueKeys(facts) && AllBefore(facts, first.call) && first.call < first'.call && ctx.orgs == {ctx.org}
    requires a in facts && b in facts && a != b && facts[a].org == ctx.org && facts[b].org == ctx.org
    requires facts[a].dedupeKey.Some? && facts[b].dedupeKey.Some? && !Unstorable(p) && !Unstorable(q)
    requires Validate(p).Some? && Validate(p).value.dedupeKey == facts[b].dedupeKey
    requires Validate(q).Some? && Validate(q).value.dedupeKey == facts[a].dedupeKey
    ensures var once := Supersede(facts, ctx, first, Uuid(a), p);
      var twice := Supersede(once.facts, ctx, first', Uuid(b), q);
      && once.reply.Replaced? && twice.reply.Replaced? && a in twice.facts && b in twice.facts
      && twice.facts[a].supersededBy == Some(b) && twice.facts[b].supersededBy == Some(a)
      && !Ends(twice.facts, a) && !Ends(twice.facts, b)
  {
    var once := Supersede(facts, ctx, first, Uuid(a), p);
    assert b in Holders(facts, ctx.org, facts[b].dedupeKey.value);
    SupersedeLinks(facts, ctx, first, a, p);
    assert b in KeyHolders(facts, ctx.org, Validate(p).value);
    UpdateKeepsKeys(facts, a, facts[a].(status := Superseded, supersededBy := Some(b)), first'.call);
    assert a in Holders(once.facts, ctx.org, facts[a].dedupeKey.value);
    SupersedeLinks(once.facts, ctx, first', b, q);
    assert a in KeyHolders(once.facts, ctx.org, Validate(q).value);
    var twice := Supersede(once.facts, ctx, first', Uuid(b), q).facts;
    forall n: nat ensures !EndsWithin(twice, a, n) && !EndsWithin(twice, b, n) {
      PairNeverEnds(twice, a, b, n);
    }
  }

  lemma {:induction false} PairNeverEnds(facts: Facts, a: Id, b: Id, n: nat)
    requires a in facts && b in facts && facts[a].supersededBy == Some(b) && facts[b].supersededBy == Some(a)
    ensures !EndsWithin(facts, a, n) && !EndsWithin(facts, b, n)
  {
    if n == 0 {
    } else {
      PairNeverEnds(facts, a, b, n - 1);
    }
  }

  // ---------------------------------------------------------------- what a deduped supersede loses

  /** The row a successful supersede links to carries what was submitted if and only if every fact
      that already holds the key does; and that row is current, not itself retired, if and only if
      the holders are, and none of them is the fact just superseded. Otherwise the correction is
      stored nowhere by this call. */
  lemma CorrectionIsStoredIff(facts: Facts, ctx: Ctx, first: Id, target: Id, p: Payload)
    requires UniqueKeys(facts) && AllBefore(facts, first.call) && ctx.orgs == {ctx.org}
    requires Supersede(facts, ctx, first, Uuid(target), p).reply.Replaced?
    ensures var o := Supersede(facts, ctx, first, Uuid(target), p);
      && Validate(p).Some? && o.reply.replacement in o.facts
      && var f := Validate(p).value;
         var holders := KeyHolders(facts, ctx.org, f);
         var row := o.facts[o.reply.replacement];
         && (Submitted(row) == f <==> forall h :: h in holders ==> Submitted(facts[h]) == f)
         && (row.supersededBy.None? <==> forall h :: h in holders ==> h != target && facts[h].supersededBy.None?)
         && (holders != {} ==>
               && o.facts.Keys == facts.Keys
               && forall id :: id in facts ==> Submitted(o.facts[id]) == Submitted(facts[id]))
  {
    SupersedeLinks(facts, ctx, first, target, p);
  }

  /** A correction sent with the corrected fact's own dedupe key is swallowed: the fact is
      superseded by itself, the new content is stored nowhere, and no fact with that key is
      active in the org any more. */
  lemma SupersedingWithOwnKeyLosesTheFact(facts: Facts, ctx: Ctx, first: Id, target: Id, p: Payload)
    requires UniqueKeys(facts) && AllBefore(facts, first.call) && ctx.orgs == {ctx.org}
    requires target in facts && facts[target].org == ctx.org && facts[target].dedupeKey.Some? && !Unstorable(p)
    requires Validate(p).Some? && Validate(p).value.dedupeKey == facts[target].dedupeKey
    ensures var o := Supersede(facts, ctx, first, Uuid(target), p);
      && o.reply ==
           Replaced(target, target, if Validate(p).value.confidence >= 0.9 then Active else PendingReview, true)
      && o.facts == facts[target := facts[target].(status := Superseded, supersededBy := Some(target))]
      && forall id :: id in Holders(o.facts, ctx.org, facts[target].dedupeKey.value) ==> o.facts[id].status != Active
  {
    assert target in Holders(facts, ctx.org, facts[target].dedupeKey.value);
  }

  /** `new_status` in the reply is the replacement's stored status exactly when the row was
      created, or the row already holding the key is another fact that has that status. */
  lemma ReportedStatusIsStoredIff(facts: Facts, ctx: Ctx, first: Id, target: Id, p: Payload)
    requires UniqueKeys(facts) && AllBefore(facts, first.call) && ctx.orgs == {ctx.org}
    requires Supersede(facts, ctx, first, Uuid(target), p).reply.Replaced?
    ensures var o := Supersede(facts, ctx, first, Uuid(target), p);
      && Validate(p).Some? && o.reply.replacement in o.facts
      && var f := Validate(p).value;
         o.reply.status == o.facts[o.reply.replacement].status <==>
           forall h :: h in KeyHolders(facts, ctx.org, f) ==>
             h != target && facts[h].status == (if f.confidence >= 0.9 then Active else PendingReview)
  {
    SupersedeLinks(facts, ctx, first, target, p);
  }
}
