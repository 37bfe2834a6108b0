/** Which call made which fact, under interleaving: every new fact has exactly one maker, and it
    stores what that call submitted. */
module InterleavedCreation {
  import opened Schema
  import opened Intake
  import opened Tools
  import opened Interleaving
  import opened InterleavedAudit

  /** The answer says that the call created this fact. */
  predicate SaysMade(reply: Reply, id: Id) {
    || (reply.Remembered? && id in reply.created)
    || (reply.Replaced? && reply.replacement == id && !reply.wasDeduped)
  }

  /** The call has answered, and reported this fact as created. */
  predicate ReportsMade(p: Proc, id: Id) {
    p.Request? && p.pc.Answered? && SaysMade(p.pc.reply, id)
  }

  /** The call has made this fact, and will say so. */
  predicate HasMade(p: Proc, id: Id) {
    p.Request? &&
    match p.pc
    case InsertItem(_, _, _, done) => id in done.created
    case FindHolder(_, _, _, done) => id in done.created
    case UpdateTarget(_, _, _, link, isNew) => isNew && link == id
    case InsertAudit(_, _, reply) => SaysMade(reply, id)
    case Answered(_, _, reply) => SaysMade(reply, id)
    case _ => false
  }

  /** The item a call submitted for the fact with this id: a batch numbers its items by slot. */
  function Submission(op: Op, first: Id, id: Id): Option<FactInput> {
    match op
    case RememberFacts(items) =>
      if first.slot <= id.slot < first.slot + |items| then Validate(items[id.slot - first.slot]) else None
    case SupersedeFact(_, p) => if id == first then Validate(p) else None
    case _ => None
  }

  /** The row is the call's submission, stamped with its org and caller; only status and link may
      have moved on since. */
  predicate Stores(p: Proc, id: Id, row: Fact)
    requires p.Request?
  {
    && id.call == p.first.call && CtxOf(p.pc).Some?
    && Submission(p.op, p.first, id).Some?
    && Drifts(FactRow(CtxOf(p.pc).value, Submission(p.op, p.first, id).value), row)
  }

  predicate Ascending(ids: seq<Id>) {
    forall a, b :: 0 <= a < b < |ids| ==> ids[a].slot < ids[b].slot
  }

  predicate MadeInOrder(p: Proc) {
    p.Request? ==>
      match p.pc
      case InsertItem(_, _, _, done) => Ascending(done.created)
      case FindHolder(_, _, _, done) => Ascending(done.created)
      case InsertAudit(_, _, reply) => reply.Remembered? ==> Ascending(reply.created)
      case Answered(_, _, reply) => reply.Remembered? ==> Ascending(reply.created)
      case _ => true
  }

  ghost predicate MadeOk(facts: Facts, p: Proc) {
    && MadeInOrder(p)
    && forall id | HasMade(p, id) :: id in facts && Stores(p, id, facts[id])
  }

  // ---------------------------------------------------------------- one request

  lemma {:induction false} NextItemMakes(p: Proc, ctx: Ctx, items: seq<Payload>, done: Progress)
    requires p.Request? && Ascending(done.created)
    ensures var q := At(p, NextItem(ctx, items, done));
      && CtxOf(q.pc) == Some(ctx) && MadeInOrder(q) && forall id :: HasMade(q, id) <==> id in done.created
    decreases |items|
  {
    if items == [] {
    } else if Validate(items[0]).None? {
      NextItemMakes(p, ctx, items[1..], done.(next := done.next + 1, invalid := done.invalid + [done.next]));
    }
  }

  /** After its own request a call still stands for what it had made, and for what it has just
      made, unless the database cut it short. */
  ghost predicate Claims(db: Db, m: Move, p: Proc) {
    var q := At(p, m.pc);
    && MadeOk(m.db.facts, q)
    && forall id | id in m.db.facts && (id !in db.facts || HasMade(p, id)) :: HasMade(q, id) || CutShortBy(q, id)
  }

  lemma NewItemIsMade(db: Db, p: Proc)
    requires p.Request? && ProcOk(db, p) && MadeOk(db.facts, p) && p.pc.InsertItem?
    requires Storable(p.pc.f) && !KeyTaken(db.facts, p.pc.ctx.org, p.pc.f)
    ensures Claims(db, ProcMove(db, p), p)
  {
    var ctx, done := p.pc.ctx, p.pc.done;
    var id := NthId(p.first, done.next);
    forall a | 0 <= a < |done.created| ensures done.created[a].slot < id.slot {
      assert HasMade(p, done.created[a]);
    }
    NextItemMakes(p, ctx, p.pc.rest, Created(done, id));
    var m := ProcMove(db, p);
    assert m == Move(db.(facts := db.facts[id := FactRow(ctx, p.pc.f)]), NextItem(ctx, p.pc.rest, Created(done, id)));
    forall x | x in Created(done, id).created ensures x in m.db.facts && Stores(At(p, m.pc), x, m.db.facts[x]) {
      assert x == id || HasMade(p, x);
    }
  }

  lemma FoundItemIsNotMade(db: Db, p: Proc)
    requires p.Request? && ProcOk(db, p) && MadeOk(db.facts, p) && p.pc.FindHolder?
    ensures Claims(db, ProcMove(db, p), p)
  {
    var ctx, done := p.pc.ctx, p.pc.done;
    var holder := Pick(Holders(db.facts, ctx.org, p.pc.f.dedupeKey.value));
    NextItemMakes(p, ctx, p.pc.rest, Deduped(done, holder));
    var m := ProcMove(db, p);
    assert m == Move(db, NextItem(ctx, p.pc.rest, Deduped(done, holder)));
    forall x | x in done.created ensures x in m.db.facts && Stores(At(p, m.pc), x, m.db.facts[x]) {
      assert HasMade(p, x);
    }
  }

  lemma ItemClaims(db: Db, p: Proc)
    requires p.Request? && ProcOk(db, p) && MadeOk(db.facts, p) && (p.pc.InsertItem? || p.pc.FindHolder?)
    ensures Claims(db, ProcMove(db, p), p)
  {
    if p.pc.FindHolder? {
      FoundItemIsNotMade(db, p);
    } else if Storable(p.pc.f) && !KeyTaken(db.facts, p.pc.ctx.org, p.pc.f) {
      NewItemIsMade(db, p);
    }
  }

  lemma AdmitMakesNothing(db: Db, p: Proc, org: OrgId, role: Role, seat: Id, row: Seat)
    requires p.Request?
    ensures var q := At(p, Admit(db, p.user, p.op, org, role, seat, row));
      MadeInOrder(q) && forall id :: !HasMade(q, id)
  {
    if p.op.RememberFacts? {
      NextItemMakes(p, MakeCtx(db.members, p.user, org, role, seat, row), p.op.items, Progress(0, [], [], [], []));
    }
  }

  lemma SeatClaims(db: Db, p: Proc)
    requires p.Request? && (p.pc.SelectSeat? || p.pc.InsertSeat? || p.pc.ReselectSeat?)
    ensures Claims(db, ProcMove(db, p), p)
  {
    var rows := SeatRows(db.seats, p.pc.org, p.oauth);
    if rows != {} {
      AdmitMakesNothing(db, p, p.pc.org, p.pc.role, Pick(rows), db.seats[Pick(rows)]);
    }
    AdmitMakesNothing(db, p, p.pc.org, p.pc.role, p.first, FirstContactSeat(p.pc.org, p.user, p.oauth));
  }

  lemma ReadsMakeNothing(facts: Facts, ctx: Ctx, first: Id, op: Op, id: Id)
    requires !op.RememberFacts? && !op.SupersedeFact?
    ensures !SaysMade(Act(facts, ctx, first, op).reply, id) && !Act(facts, ctx, first, op).reply.Remembered?
  {
  }

  lemma ReadClaims(db: Db, p: Proc)
    requires p.Request? && ProcOk(db, p) && p.pc.SelectFacts?
    ensures Claims(db, ProcMove(db, p), p)
  {
    assert !p.op.RememberFacts? by {
      if p.op.RememberFacts? {
        NextItemShape(p.pc.ctx, p.op.items, Progress(0, [], [], [], []));
      }
    }
    forall id ensures !HasMade(At(p, ProcMove(db, p).pc), id) && MadeInOrder(At(p, ProcMove(db, p).pc)) {
      ReadsMakeNothing(db.facts, p.pc.ctx, p.first, p.op, id);
    }
  }

  lemma TargetClaims(db: Db, p: Proc)
    requires p.Request? && ProcOk(db, p) && (p.pc.SelectTarget? || p.pc.FindReplacement?)
    ensures Claims(db, ProcMove(db, p), p)
  {
  }

  lemma ReplacementClaims(db: Db, p: Proc)
    requires p.Request? && ProcOk(db, p) && p.pc.InsertReplacement?
    ensures Claims(db, ProcMove(db, p), p)
  {
    var q := At(p, UpdateTarget(p.pc.ctx, p.pc.target, p.pc.f, p.first, true));
    assert Stores(q, p.first, FactRow(p.pc.ctx, p.pc.f));
  }

  lemma RetirementClaims(db: Db, p: Proc)
    requires p.Request? && ProcOk(db, p) && MadeOk(db.facts, p) && p.pc.UpdateTarget?
    ensures Claims(db, ProcMove(db, p), p)
  {
  }

  lemma ReviewClaims(db: Db, p: Proc)
    requires p.Request? && ProcOk(db, p) && (p.pc.SelectMembers? || p.pc.SelectPending? || p.pc.UpdateStatus?)
    ensures Claims(db, ProcMove(db, p), p)
  {
  }

  lemma EndClaims(db: Db, p: Proc)
    requires p.Request? && ProcOk(db, p) && MadeOk(db.facts, p) && (p.pc.InsertAudit? || Final(p.pc))
    ensures Claims(db, ProcMove(db, p), p)
  {
  }

  lemma OperatorClaims(db: Db, p: Proc)
    requires p.Operator?
    ensures Claims(db, ProcMove(db, p), p)
  {
  }

  lemma MoveClaims(db: Db, p: Proc)
    requires ProcOk(db, p) && MadeOk(db.facts, p)
    ensures Claims(db, ProcMove(db, p), p)
  {
    if p.Operator? {
      OperatorClaims(db, p);
    } else if p.pc.InsertItem? || p.pc.FindHolder? {
      ItemClaims(db, p);
    } else if p.pc.SelectSeat? || p.pc.InsertSeat? || p.pc.ReselectSeat? {
      SeatClaims(db, p);
    } else if p.pc.SelectFacts? {
      ReadClaims(db, p);
    } else if p.pc.SelectTarget? || p.pc.FindReplacement? {
      TargetClaims(db, p);
    } else if p.pc.InsertReplacement? {
      ReplacementClaims(db, p);
    } else if p.pc.UpdateTarget? {
      RetirementClaims(db, p);
    } else if p.pc.SelectMembers? || p.pc.SelectPending? || p.pc.UpdateStatus? {
      ReviewClaims(db, p);
    } else {
      EndClaims(db, p);
    }
  }

  // ---------------------------------------------------------------- every schedule

  /** Every fact that is new since `start` has a call that stands for it. */
  ghost predicate AllClaimed(start: Facts, t: Sys) {
    && (forall i | 0 <= i < |t.procs| :: MadeOk(t.db.facts, t.procs[i]))
    && (forall id | id in t.db.facts && id !in start :: HasMaker(t, id))
  }

  ghost predicate HasMaker(t: Sys, id: Id) {
    exists i :: 0 <= i < |t.procs| && Makes(t.procs[i], id)
  }

  predicate Makes(p: Proc, id: Id) {
    HasMade(p, id) || CutShortBy(p, id)
  }

  lemma OthersStayMade(before: Db, after: Db, call: nat, p: Proc)
    requires MadeOk(before.facts, p) && Grows(before, after, call)
    ensures MadeOk(after.facts, p)
  {
  }

  lemma TurnClaims(start: Facts, t: Sys, i: nat)
    requires Sound(t) && i < |t.procs| && AllClaimed(start, t)
    ensures AllClaimed(start, Advance(t, i))
  {
    var u, p := Advance(t, i), t.procs[i];
    var m := ProcMove(t.db, p);
    MoveClaims(t.db, p);
    AdvanceKeepsSound(t, i);
    assert u.procs[i] == At(p, m.pc);
    forall j | 0 <= j < |u.procs| ensures MadeOk(u.db.facts, u.procs[j]) {
      if j != i {
        OthersStayMade(t.db, u.db, p.first.call, t.procs[j]);
      }
    }
    forall id | id in u.db.facts && id !in start ensures HasMaker(u, id) {
      if id in t.db.facts && !HasMade(p, id) {
        var k :| 0 <= k < |t.procs| && Makes(t.procs[k], id);
        assert Makes(u.procs[k], id);
      } else {
        assert Makes(u.procs[i], id);
      }
    }
  }

  lemma {:induction false} SchedulesClaim(s: Sys, schedule: seq<nat>)
    requires Initial(s)
    ensures AllClaimed(s.db.facts, Exec(s, schedule))
  {
    if schedule == [] {
    } else {
      var n := |schedule| - 1;
      SchedulesClaim(s, schedule[..n]);
      InitialIsSound(s);
      ExecIsSound(s, schedule[..n]);
      if schedule[n] < |Exec(s, schedule[..n]).procs| {
        TurnClaims(s.db.facts, Exec(s, schedule[..n]), schedule[n]);
      }
    }
  }

  /** Whoever stands for a fact owns its id. */
  lemma MakersOwn(facts: Facts, p: Proc, id: Id)
    requires MadeOk(facts, p) && Makes(p, id)
    ensures id.call == p.first.call
  {
  }

  /** A finished call that reported the fact as created, or a batch that the database cut short
      after creating it. */
  predicate AccountsFor(p: Proc, id: Id) {
    ReportsMade(p, id) || CutShortBy(p, id)
  }

  /** Exactly one call accounts for the fact. */
  ghost predicate OneAccount(t: Sys, id: Id) {
    exists i :: 0 <= i < |t.procs| && AccountsFor(t.procs[i], id) && NoOther(t.procs, i, id)
  }

  ghost predicate NoOther(procs: seq<Proc>, i: nat, id: Id) {
    forall j | 0 <= j < |procs| && j != i :: !AccountsFor(procs[j], id)
  }

  ghost predicate AllFinal(t: Sys) {
    forall i | 0 <= i < |t.procs| :: Final(t.procs[i].pc)
  }

  lemma FinalMakerAccounts(p: Proc, id: Id)
    requires Final(p.pc) && Makes(p, id)
    ensures AccountsFor(p, id)
  {
  }

  lemma OwnerIsUnique(facts: Facts, procs: seq<Proc>, i: nat, id: Id)
    requires OwnIds(procs) && i < |procs| && id.call == procs[i].first.call
    requires forall j | 0 <= j < |procs| :: MadeOk(facts, procs[j])
    ensures NoOther(procs, i, id)
  {
    forall j | 0 <= j < |procs| && j != i ensures !AccountsFor(procs[j], id) {
      if AccountsFor(procs[j], id) {
        MakersOwn(facts, procs[j], id);
        assert false;
      }
    }
  }

  lemma ClaimedOnce(start: Facts, t: Sys, id: Id)
    requires OwnIds(t.procs) && AllClaimed(start, t) && AllFinal(t) && id in t.db.facts && id !in start
    ensures OneAccount(t, id)
  {
    assert HasMaker(t, id);
    var i: nat :| i < |t.procs| && Makes(t.procs[i], id);
    FinalMakerAccounts(t.procs[i], id);
    MakersOwn(t.db.facts, t.procs[i], id);
    OwnerIsUnique(t.db.facts, t.procs, i, id);
  }

  /** Conservation: once all calls are final, whatever the schedule, each new fact is reported as
      created by exactly one call, or was left by exactly one batch that the database cut short. */
  lemma NewFactsHaveOneMaker(s: Sys, schedule: seq<nat>, id: Id)
    requires Initial(s) && AllFinal(Exec(s, schedule))
    requires id in Exec(s, schedule).db.facts && id !in s.db.facts
    ensures OneAccount(Exec(s, schedule), id)
  {
    SchedulesClaim(s, schedule);
    InitialIsSound(s);
    ExecIsSound(s, schedule);
    ClaimedOnce(s.db.facts, Exec(s, schedule), id);
  }

  /** What a call reports as created was not there before, is there now, in its org, under its
      caller's name, with the submitted content, once in the report. */
  lemma ReportedFactsAreStored(s: Sys, schedule: seq<nat>, i: nat, id: Id)
    requires Initial(s) && i < |Exec(s, schedule).procs| && ReportsMade(Exec(s, schedule).procs[i], id)
    ensures var t := Exec(s, schedule);
      && id !in s.db.facts && id in t.db.facts && Stores(t.procs[i], id, t.db.facts[id]) && MadeInOrder(t.procs[i])
  {
    SchedulesClaim(s, schedule);
    InitialIsSound(s);
    ExecIsSound(s, schedule);
    var p := Exec(s, schedule).procs[i];
    assert HasMade(p, id);
    assert s.procs[i].first.call == p.first.call;
  }
}
