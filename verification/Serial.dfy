/** The two models against each other: a call that runs alone, request by request, is the atomic
    call of `Tools`. */
module Serial {
  import opened Schema
  import opened Intake
  import opened Tools
  import opened Interleaving

  // ---------------------------------------------------------------- termination

  /** An upper bound on the requests a tool body sends. */
  function BodySteps(op: Op): nat {
    if op.RememberFacts? then 2 * |op.items| + 5 else 5
  }

  /** An upper bound on the requests a call still sends. */
  function Steps(op: Op, pc: Pc): nat {
    match pc
    case SelectMembers => BodySteps(op) + 4
    case SelectSeat(_, _) => BodySteps(op) + 3
    case InsertSeat(_, _) => BodySteps(op) + 2
    case ReselectSeat(_, _) => BodySteps(op) + 1
    case SelectFacts(_) => 2
    case InsertItem(_, _, rest, _) => 2 * |rest| + 3
    case FindHolder(_, _, rest, _) => 2 * |rest| + 2
    case SelectTarget(_, _, _) => 5
    case InsertReplacement(_, _, _) => 4
    case FindReplacement(_, _, _) => 3
    case UpdateTarget(_, _, _, _, _) => 2
    case SelectPending(_, _, _) => 3
    case UpdateStatus(_, _, _) => 2
    case InsertAudit(_, _, _) => 1
    case _ => 0
  }

  lemma {:induction false} NextItemSteps(op: Op, ctx: Ctx, items: seq<Payload>, done: Progress)
    ensures Steps(op, NextItem(ctx, items, done)) <= 2 * |items| + 1
  {
    if items == [] {
    } else if Validate(items[0]).None? {
      NextItemSteps(op, ctx, items[1..], done.(next := done.next + 1, invalid := done.invalid + [done.next]));
    }
  }

  lemma StartSteps(op: Op, ctx: Ctx)
    ensures Steps(op, Start(ctx, op)) <= BodySteps(op)
  {
    if op.RememberFacts? {
      NextItemSteps(op, ctx, op.items, Progress(0, [], [], [], []));
    }
  }

  lemma AdmitSteps(db: Db, user: UserId, oauth: string, op: Op, org: OrgId, role: Role)
    ensures var rows := SeatRows(db.seats, org, oauth);
      rows != {} ==> Steps(op, Admit(db, user, op, org, role, Pick(rows), db.seats[Pick(rows)])) <= BodySteps(op)
  {
    var rows := SeatRows(db.seats, org, oauth);
    if rows != {} {
      StartSteps(op, MakeCtx(db.members, user, org, role, Pick(rows), db.seats[Pick(rows)]));
    }
  }

  lemma SeatRequestsShrink(db: Db, first: Id, user: UserId, oauth: string, op: Op, pc: Pc)
    requires pc.SelectMembers? || pc.SelectSeat? || pc.InsertSeat? || pc.ReselectSeat?
    ensures Steps(op, RequestMove(db, first, user, oauth, op, pc).pc) < Steps(op, pc)
  {
    if !pc.SelectMembers? {
      AdmitSteps(db, user, oauth, op, pc.org, pc.role);
      StartSteps(op, MakeCtx(db.members, user, pc.org, pc.role, first, FirstContactSeat(pc.org, user, oauth)));
    }
  }

  lemma ItemRequestsShrink(db: Db, first: Id, user: UserId, oauth: string, op: Op, pc: Pc)
    requires pc.InsertItem? || pc.FindHolder?
    ensures Steps(op, RequestMove(db, first, user, oauth, op, pc).pc) < Steps(op, pc)
  {
    NextItemSteps(op, pc.ctx, pc.rest, Created(pc.done, NthId(first, pc.done.next)));
    if KeyTaken(db.facts, pc.ctx.org, pc.f) {
      NextItemSteps(op, pc.ctx, pc.rest, Deduped(pc.done, Pick(Holders(db.facts, pc.ctx.org, pc.f.dedupeKey.value))));
    }
  }

  /** Every request brings the call closer to its end: under any interleaving a call finishes
      after at most nine requests, plus two per item of a batch. */
  lemma RequestsShrink(db: Db, first: Id, user: UserId, oauth: string, op: Op, pc: Pc)
    requires Steps(op, pc) > 0
    ensures Steps(op, RequestMove(db, first, user, oauth, op, pc).pc) < Steps(op, pc)
  {
    if pc.SelectMembers? || pc.SelectSeat? || pc.InsertSeat? || pc.ReselectSeat? {
      SeatRequestsShrink(db, first, user, oauth, op, pc);
    } else if pc.InsertItem? || pc.FindHolder? {
      ItemRequestsShrink(db, first, user, oauth, op, pc);
    }
  }

  // ---------------------------------------------------------------- running alone

  /** A call's requests one after the other, with nothing in between. */
  ghost function Alone(db: Db, first: Id, user: UserId, oauth: string, op: Op, pc: Pc): Move
    decreases Steps(op, pc)
  {
    if Steps(op, pc) == 0 then Move(db, pc)
    else
      RequestsShrink(db, first, user, oauth, op, pc);
      var m := RequestMove(db, first, user, oauth, op, pc);
      Alone(m.db, first, user, oauth, op, m.pc)
  }

  lemma AloneStep(db: Db, first: Id, user: UserId, oauth: string, op: Op, pc: Pc)
    requires Steps(op, pc) > 0
    ensures var m := RequestMove(db, first, user, oauth, op, pc);
      Alone(db, first, user, oauth, op, pc) == Alone(m.db, first, user, oauth, op, m.pc)
  {
  }

  /** The answer a finished call gives. */
  function ReplyOf(pc: Pc): Reply {
    match pc
    case Answered(_, _, reply) => reply
    case Refusal(error) => Failed(error)
    case _ => Failed(DatabaseError)
  }

  /** What an outcome of the atomic model leaves behind. */
  ghost function Settled(db: Db, ctx: Ctx, op: Op, o: Outcome): Result {
    var audit := if o.audited then Audited(db.audit, ctx, op, o.ids) else db.audit;
    Result(Db(db.members, db.seats, o.facts, audit), o.reply)
  }

  ghost function AsResult(m: Move): Result {
    Result(m.db, ReplyOf(m.pc))
  }

  lemma AloneAudits(db: Db, first: Id, user: UserId, oauth: string, op: Op, ctx: Ctx, ids: seq<Id>, reply: Reply)
    ensures AsResult(Alone(db, first, user, oauth, op, InsertAudit(ctx, ids, reply))) ==
      Result(db.(audit := Audited(db.audit, ctx, op, ids)), reply)
  {
    var m := RequestMove(db, first, user, oauth, op, InsertAudit(ctx, ids, reply));
    assert Steps(op, m.pc) == 0;
  }

  /** Has the loop, at this point, done what `WriteBatch` does for the items before it? */
  ghost predicate Matches(db: Db, facts: Facts, ctx: Ctx, first: Id, items: seq<Payload>, done: Progress) {
    && done.next <= Clean(items)
    && WriteBatch(facts, ctx, first, items[..done.next]) ==
         Batch(db.facts, done.created, done.deduped, done.invalid, done.touched)
  }

  lemma MatchesNext(
      db: Db, facts: Facts, ctx: Ctx, first: Id, items: seq<Payload>, done: Progress, after: Db, done': Progress)
    requires Matches(db, facts, ctx, first, items, done) && done.next < |items| && done'.next == done.next + 1
    requires !Unstorable(items[done.next])
    requires WriteItem(Batch(db.facts, done.created, done.deduped, done.invalid, done.touched), ctx,
                       NthId(first, done.next), done.next, items[done.next])
      == Batch(after.facts, done'.created, done'.deduped, done'.invalid, done'.touched)
    ensures Matches(after, facts, ctx, first, items, done')
  {
    assert items[..done.next + 1][..done.next] == items[..done.next];
  }

  /** The request-by-request loop, left alone, computes the batch. */
  lemma {:induction false} AloneBatch(
      db: Db, facts: Facts, first: Id, user: UserId, oauth: string, op: Op, ctx: Ctx, rest: seq<Payload>,
      done: Progress)
    requires op.RememberFacts? && Matches(db, facts, ctx, first, op.items, done) && op.items[done.next..] == rest
    ensures AsResult(Alone(db, first, user, oauth, op, NextItem(ctx, rest, done))) ==
      Settled(db, ctx, op, Remember(facts, ctx, first, op.items))
    decreases |rest|
  {
    var n := done.next;
    if rest == [] {
      assert op.items[..n] == op.items;
      AloneAudits(db, first, user, oauth, op, ctx, done.touched,
                  Remembered(done.created, done.deduped, done.invalid, ctx.source));
    } else {
      assert rest[0] == op.items[n] && rest[1..] == op.items[n + 1..];
      var v := Validate(rest[0]);
      if v.None? {
        var done' := done.(next := n + 1, invalid := done.invalid + [n]);
        MatchesNext(db, facts, ctx, first, op.items, done, db, done');
        AloneBatch(db, facts, first, user, oauth, op, ctx, rest[1..], done');
      } else {
        AloneItem(db, facts, first, user, oauth, op, ctx, v.value, rest, done);
      }
    }
  }

  /** An item the database rejects ends the call there and then. */
  lemma AloneRejected(
      db: Db, facts: Facts, first: Id, user: UserId, oauth: string, op: Op, ctx: Ctx, f: FactInput,
      rest: seq<Payload>, done: Progress)
    requires op.RememberFacts? && Matches(db, facts, ctx, first, op.items, done) && done.next < |op.items|
    requires Validate(op.items[done.next]) == Some(f) && !Storable(f)
    ensures AsResult(Alone(db, first, user, oauth, op, InsertItem(ctx, f, rest, done))) ==
      Settled(db, ctx, op, Remember(facts, ctx, first, op.items))
  {
    AloneStep(db, first, user, oauth, op, InsertItem(ctx, f, rest, done));
    assert Clean(op.items) == done.next;
  }

  lemma AloneFinds(
      db: Db, first: Id, user: UserId, oauth: string, op: Op, ctx: Ctx, f: FactInput, rest: seq<Payload>,
      done: Progress)
    requires Storable(f) && KeyTaken(db.facts, ctx.org, f)
    ensures var done' := Deduped(done, Pick(Holders(db.facts, ctx.org, f.dedupeKey.value)));
      Alone(db, first, user, oauth, op, InsertItem(ctx, f, rest, done)) ==
        Alone(db, first, user, oauth, op, NextItem(ctx, rest, done'))
  {
    AloneStep(db, first, user, oauth, op, InsertItem(ctx, f, rest, done));
    AloneStep(db, first, user, oauth, op, FindHolder(ctx, f, rest, done));
  }

  lemma AloneInserts(
      db: Db, first: Id, user: UserId, oauth: string, op: Op, ctx: Ctx, f: FactInput, rest: seq<Payload>,
      done: Progress)
    requires Storable(f) && !KeyTaken(db.facts, ctx.org, f)
    ensures var id := NthId(first, done.next);
      var after := db.(facts := db.facts[id := FactRow(ctx, f)]);
      Alone(db, first, user, oauth, op, InsertItem(ctx, f, rest, done)) ==
        Alone(after, first, user, oauth, op, NextItem(ctx, rest, Created(done, id)))
  {
    AloneStep(db, first, user, oauth, op, InsertItem(ctx, f, rest, done));
  }

  lemma {:induction false} AloneItem(
      db: Db, facts: Facts, first: Id, user: UserId, oauth: string, op: Op, ctx: Ctx, f: FactInput,
      rest: seq<Payload>, done: Progress)
    requires op.RememberFacts? && Matches(db, facts, ctx, first, op.items, done) && op.items[done.next..] == rest
    requires rest != [] && Validate(rest[0]) == Some(f)
    ensures AsResult(Alone(db, first, user, oauth, op, InsertItem(ctx, f, rest[1..], done))) ==
      Settled(db, ctx, op, Remember(facts, ctx, first, op.items))
    decreases |rest|, 0
  {
    var n := done.next;
    assert rest[0] == op.items[n] && rest[1..] == op.items[n + 1..];
    if !Storable(f) {
      AloneRejected(db, facts, first, user, oauth, op, ctx, f, rest[1..], done);
    } else if KeyTaken(db.facts, ctx.org, f) {
      var done' := Deduped(done, Pick(Holders(db.facts, ctx.org, f.dedupeKey.value)));
      MatchesNext(db, facts, ctx, first, op.items, done, db, done');
      AloneFinds(db, first, user, oauth, op, ctx, f, rest[1..], done);
      AloneBatch(db, facts, first, user, oauth, op, ctx, rest[1..], done');
    } else {
      var done' := Created(done, NthId(first, n));
      var after := db.(facts := db.facts[NthId(first, n) := FactRow(ctx, f)]);
      MatchesNext(db, facts, ctx, first, op.items, done, after, done');
      AloneInserts(db, first, user, oauth, op, ctx, f, rest[1..], done);
      AloneBatch(after, facts, first, user, oauth, op, ctx, rest[1..], done');
    }
  }

  lemma AloneSupersede(
      db: Db, first: Id, user: UserId, oauth: string, op: Op, ctx: Ctx, target: Id, f: FactInput)
    requires op.SupersedeFact? && op.target == Uuid(target) && Validate(op.replacement) == Some(f)
    ensures AsResult(Alone(db, first, user, oauth, op, SelectTarget(ctx, op.target, f))) ==
      Settled(db, ctx, op, Supersede(db.facts, ctx, first, op.target, op.replacement))
  {
    AloneStep(db, first, user, oauth, op, SelectTarget(ctx, op.target, f));
    if target !in Visible(db.facts, ctx.orgs) {
      AloneAudits(db, first, user, oauth, op, ctx, [], NoSuchFact);
    } else if !Storable(f) {
      AloneStep(db, first, user, oauth, op, InsertReplacement(ctx, target, f));
    } else {
      var w := Tools.InsertFact(db.facts, ctx, first, f);
      var after := db.(facts := w.facts);
      AloneStep(db, first, user, oauth, op, InsertReplacement(ctx, target, f));
      if KeyTaken(db.facts, ctx.org, f) {
        AloneStep(db, first, user, oauth, op, FindReplacement(ctx, target, f));
        assert after == db;
      }
      AloneRetires(after, first, user, oauth, op, ctx, target, f, w.id, w.created);
    }
  }

  lemma AloneRetires(
      db: Db, first: Id, user: UserId, oauth: string, op: Op, ctx: Ctx, target: Id, f: FactInput, link: Id, isNew: bool)
    ensures AsResult(Alone(db, first, user, oauth, op, UpdateTarget(ctx, target, f, link, isNew))) ==
      Settled(db, ctx, op, Outcome(Retire(db.facts, ctx.orgs, target, link), [link, target],
                                   Replaced(target, link, FactStatusFor(f.confidence), !isNew), true))
  {
    AloneStep(db, first, user, oauth, op, UpdateTarget(ctx, target, f, link, isNew));
    AloneAudits(db.(facts := Retire(db.facts, ctx.orgs, target, link)), first, user, oauth, op, ctx, [link, target],
                Replaced(target, link, FactStatusFor(f.confidence), !isNew));
  }

  lemma AloneReview(db: Db, first: Id, user: UserId, oauth: string, op: Op, ctx: Ctx, arg: IdArg, status: FactStatus)
    requires MayReview(ctx.role) && !arg.NotUuid?
    ensures AsResult(Alone(db, first, user, oauth, op, SelectPending(ctx, arg, status))) ==
      Settled(db, ctx, op, Decide(db.facts, ctx, arg, status))
  {
    AloneStep(db, first, user, oauth, op, SelectPending(ctx, arg, status));
    if arg.Uuid? {
      if arg.id !in PendingView(db.facts, ctx) {
        AloneAudits(db, first, user, oauth, op, ctx, [], NotPending);
      } else {
        AloneStep(db, first, user, oauth, op, UpdateStatus(ctx, arg.id, status));
        AloneAudits(db.(facts := SetStatus(db.facts, ctx.orgs, arg.id, status)), first, user, oauth, op, ctx,
                    [arg.id], Decided(arg.id, status));
      }
    }
  }

  lemma AloneReads(db: Db, first: Id, user: UserId, oauth: string, op: Op, ctx: Ctx)
    requires !op.RememberFacts? && !op.SupersedeFact? && !op.PromoteFact? && !op.RejectFact?
    ensures AsResult(Alone(db, first, user, oauth, op, SelectFacts(ctx))) ==
      Settled(db, ctx, op, Act(db.facts, ctx, first, op))
  {
    var o := Act(db.facts, ctx, first, op);
    assert o.facts == db.facts;
    AloneStep(db, first, user, oauth, op, SelectFacts(ctx));
    if o.audited {
      AloneAudits(db, first, user, oauth, op, ctx, o.ids, o.reply);
    } else {
      assert o.reply == Failed(DatabaseError);
    }
  }

  /** A tool body that runs alone does what the atomic tool does. */
  lemma AloneActs(db: Db, first: Id, user: UserId, oauth: string, op: Op, ctx: Ctx)
    ensures AsResult(Alone(db, first, user, oauth, op, Start(ctx, op))) ==
      Settled(db, ctx, op, Act(db.facts, ctx, first, op))
  {
    var pc := Start(ctx, op);
    if pc.InsertAudit? && !op.RememberFacts? {
      AloneAudits(db, first, user, oauth, op, ctx, pc.ids, pc.reply);
      AuditsAtOnce(db.facts, ctx, first, op);
    } else if op.RememberFacts? {
      assert Matches(db, db.facts, ctx, first, op.items, Progress(0, [], [], [], []));
      AloneBatch(db, db.facts, first, user, oauth, op, ctx, op.items, Progress(0, [], [], [], []));
    } else if op.SupersedeFact? {
      if op.target.Uuid? {
        AloneSupersede(db, first, user, oauth, op, ctx, op.target.id, pc.f);
      } else {
        AloneStep(db, first, user, oauth, op, pc);
      }
    } else if op.PromoteFact? {
      AloneReview(db, first, user, oauth, op, ctx, op.arg, Active);
    } else if op.RejectFact? {
      AloneReview(db, first, user, oauth, op, ctx, op.arg, Rejected);
    } else {
      AloneReads(db, first, user, oauth, op, ctx);
    }
  }

  /** A tool that goes straight to its audit row has nothing to ask the database. */
  lemma AuditsAtOnce(facts: Facts, ctx: Ctx, first: Id, op: Op)
    requires Start(ctx, op).InsertAudit? && !op.RememberFacts?
    ensures Act(facts, ctx, first, op) == Reads(facts, Start(ctx, op).ids, Start(ctx, op).reply)
  {
  }

  /** Where a call that runs alone goes on after `_begin`. */
  function Entered(e: Entry, op: Op): Pc {
    if e.revoked then InsertAudit(e.ctx, [], Failed(SeatRevoked)) else Start(e.ctx, op)
  }

  lemma AloneAdmitted(db: Db, first: Id, user: UserId, oauth: string, op: Op, e: Entry)
    ensures AsResult(Alone(db, first, user, oauth, op, Entered(e, op))) ==
      Settled(db, e.ctx, op,
              if e.revoked then Reads(db.facts, [], Failed(SeatRevoked)) else Act(db.facts, e.ctx, first, op))
  {
    if e.revoked {
      AloneAudits(db, first, user, oauth, op, e.ctx, [], Failed(SeatRevoked));
    } else {
      AloneActs(db, first, user, oauth, op, e.ctx);
    }
  }

  lemma AloneEnters(db: Db, first: Id, user: UserId, oauth: string, op: Op, org: OrgId, role: Role)
    ensures var e := Enter(db, org, role, first, user, oauth);
      Alone(db, first, user, oauth, op, SelectSeat(org, role)) ==
        Alone(db.(seats := e.seats), first, user, oauth, op, Entered(e, op))
  {
    AloneStep(db, first, user, oauth, op, SelectSeat(org, role));
    if SeatRows(db.seats, org, oauth) == {} {
      AloneStep(db, first, user, oauth, op, InsertSeat(org, role));
    } else {
      assert db.(seats := db.seats) == db;
    }
  }

  /** Refinement: a call whose requests are not interleaved with anything is the atomic call of
      `Tools`, state and reply. */
  lemma AloneIsAtomic(db: Db, first: Id, user: UserId, oauth: string, op: Op)
    ensures AsResult(Alone(db, first, user, oauth, op, SelectMembers)) == StepCall(db, first, user, oauth, op)
  {
    AloneStep(db, first, user, oauth, op, SelectMembers);
    var m := ResolveMembership(db.members, user);
    if m.Member? {
      AloneEnters(db, first, user, oauth, op, m.org, m.role);
      var e := Enter(db, m.org, m.role, first, user, oauth);
      AloneAdmitted(db.(seats := e.seats), first, user, oauth, op, e);
    }
  }
}
