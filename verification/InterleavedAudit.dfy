/** The audit log under interleaving: one row per answered call, whatever the schedule. */
module InterleavedAudit {
  import opened Schema
  import opened Intake
  import opened Tools
  import opened Audit
  import opened Interleaving

  predicate IsAnswered(p: Proc) {
    p.Request? && p.pc.Answered?
  }

  /** The audit row an answered call owes; any other call owes none. */
  function Owed(p: Proc): multiset<AuditRow> {
    if IsAnswered(p) then multiset{AuditRow(p.pc.ctx.org, p.pc.ctx.user, p.pc.ctx.seat, ToolName(p.op), p.pc.ids)}
    else multiset{}
  }

  function AllOwed(procs: seq<Proc>): multiset<AuditRow> {
    if procs == [] then multiset{} else AllOwed(procs[..|procs| - 1]) + Owed(procs[|procs| - 1])
  }

  lemma {:induction false} OwedAfter(procs: seq<Proc>, i: nat, p: Proc)
    requires i < |procs| && !IsAnswered(procs[i])
    ensures AllOwed(procs[i := p]) == AllOwed(procs) + Owed(p)
  {
    var n := |procs| - 1;
    if i < n {
      OwedAfter(procs[..n], i, p);
      assert procs[i := p][..n] == procs[..n][i := p];
    } else {
      assert procs[i := p][..n] == procs[..n];
    }
  }

  lemma {:induction false} NoneOwed(procs: seq<Proc>)
    requires forall p :: p in procs ==> !IsAnswered(p)
    ensures AllOwed(procs) == multiset{}
  {
    if procs == [] {
    } else {
      NoneOwed(procs[..|procs| - 1]);
    }
  }

  lemma AdmitDoesNotAnswer(db: Db, user: UserId, op: Op, org: OrgId, role: Role, seat: Id, row: Seat)
    ensures !Admit(db, user, op, org, role, seat, row).Answered?
  {
    if op.RememberFacts? {
      NextItemShape(MakeCtx(db.members, user, org, role, seat, row), op.items, Progress(0, [], [], [], []));
    }
  }

  lemma ItemDoesNotAnswer(db: Db, first: Id, user: UserId, oauth: string, op: Op, pc: Pc)
    requires pc.InsertItem? || pc.FindHolder?
    ensures var m := RequestMove(db, first, user, oauth, op, pc); !m.pc.Answered? && m.db.audit == db.audit
  {
    NextItemShape(pc.ctx, pc.rest, Created(pc.done, NthId(first, pc.done.next)));
    if KeyTaken(db.facts, pc.ctx.org, pc.f) {
      NextItemShape(pc.ctx, pc.rest, Deduped(pc.done, Pick(Holders(db.facts, pc.ctx.org, pc.f.dedupeKey.value))));
    }
  }

  lemma SeatDoesNotAnswer(db: Db, first: Id, user: UserId, oauth: string, op: Op, pc: Pc)
    requires pc.SelectSeat? || pc.InsertSeat? || pc.ReselectSeat?
    ensures var m := RequestMove(db, first, user, oauth, op, pc); !m.pc.Answered? && m.db.audit == db.audit
  {
    var rows := SeatRows(db.seats, pc.org, oauth);
    if rows != {} {
      AdmitDoesNotAnswer(db, user, op, pc.org, pc.role, Pick(rows), db.seats[Pick(rows)]);
    }
    AdmitDoesNotAnswer(db, user, op, pc.org, pc.role, first, FirstContactSeat(pc.org, user, oauth));
  }

  lemma OperatorsLogNothing(db: Db, p: Proc)
    requires p.Operator?
    ensures ProcMove(db, p).db.audit == db.audit
  {
  }

  lemma BodyLogs(db: Db, first: Id, user: UserId, oauth: string, op: Op, pc: Pc)
    requires !pc.SelectSeat? && !pc.InsertSeat? && !pc.ReselectSeat? && !pc.InsertItem? && !pc.FindHolder?
    ensures var m := RequestMove(db, first, user, oauth, op, pc);
      if pc.InsertAudit? then
        m.pc == Answered(pc.ctx, pc.ids, pc.reply) && m.db.audit == Audited(db.audit, pc.ctx, op, pc.ids)
      else
        m.db.audit == db.audit && (m.pc.Answered? ==> pc.Answered?)
  {
  }

  /** One request logs exactly what it makes its call owe. */
  lemma MoveLogs(db: Db, p: Proc)
    requires !IsAnswered(p)
    ensures var m := ProcMove(db, p);
      db.audit <= m.db.audit && multiset(m.db.audit) == multiset(db.audit) + Owed(p.(pc := m.pc))
  {
    if p.Request? {
      if p.pc.SelectSeat? || p.pc.InsertSeat? || p.pc.ReselectSeat? {
        SeatDoesNotAnswer(db, p.first, p.user, p.oauth, p.op, p.pc);
      } else if p.pc.InsertItem? || p.pc.FindHolder? {
        ItemDoesNotAnswer(db, p.first, p.user, p.oauth, p.op, p.pc);
      } else {
        BodyLogs(db, p.first, p.user, p.oauth, p.op, p.pc);
      }
    } else {
      OperatorsLogNothing(db, p);
    }
  }

  lemma AnsweredStays(db: Db, p: Proc)
    requires IsAnswered(p)
    ensures ProcMove(db, p) == Move(db, p.pc)
  {
  }

  lemma TurnLogs(procs: seq<Proc>, i: nat, p: Proc, before: seq<AuditRow>, after: seq<AuditRow>)
    requires i < |procs| && !IsAnswered(procs[i]) && multiset(after) == multiset(before) + Owed(p)
    ensures multiset(after) + AllOwed(procs) == multiset(before) + AllOwed(procs[i := p])
  {
    OwedAfter(procs, i, p);
  }

  /** A turn logs as much as it makes the calls owe more. */
  lemma AdvanceLogs(s: Sys, i: nat)
    requires i < |s.procs|
    ensures var t := Advance(s, i);
      s.db.audit <= t.db.audit && multiset(t.db.audit) + AllOwed(s.procs) == multiset(s.db.audit) + AllOwed(t.procs)
  {
    var p := s.procs[i];
    var m := ProcMove(s.db, p);
    assert Advance(s, i) == Sys(m.db, s.procs[i := p.(pc := m.pc)]);
    if IsAnswered(p) {
      AnsweredStays(s.db, p);
      assert s.procs[i := p] == s.procs;
    } else {
      MoveLogs(s.db, p);
      TurnLogs(s.procs, i, p.(pc := m.pc), s.db.audit, m.db.audit);
    }
  }

  ghost predicate LogIs(before: seq<AuditRow>, after: seq<AuditRow>, owed: multiset<AuditRow>) {
    before <= after && multiset(after) == multiset(before) + owed
  }

  lemma LogsAddUp(
      a: seq<AuditRow>, b: seq<AuditRow>, c: seq<AuditRow>, owed: multiset<AuditRow>, owed': multiset<AuditRow>)
    requires LogIs(a, b, owed) && b <= c && multiset(c) + owed == multiset(b) + owed'
    ensures LogIs(a, c, owed')
  {
    assert multiset(c) + owed == (multiset(a) + owed') + owed;
    assert multiset(c) == (multiset(c) + owed) - owed;
  }

  /** Conservation: under every schedule the log is what it was, followed by one row for each call
      that has answered, naming its caller, org, seat, tool and fact ids, and nothing else. Calls
      still under way, refused without a membership, or crashed have logged nothing. */
  lemma {:induction false} LogMatchesAnswers(s: Sys, schedule: seq<nat>)
    requires Initial(s)
    ensures LogIs(s.db.audit, Exec(s, schedule).db.audit, AllOwed(Exec(s, schedule).procs))
  {
    if schedule == [] {
      NoneOwed(s.procs);
    } else {
      var n := |schedule| - 1;
      LogMatchesAnswers(s, schedule[..n]);
      var t, u := Exec(s, schedule[..n]), Exec(s, schedule);
      if schedule[n] < |t.procs| {
        AdvanceLogs(t, schedule[n]);
        LogsAddUp(s.db.audit, t.db.audit, u.db.audit, AllOwed(t.procs), AllOwed(u.procs));
      }
    }
  }

  // ---------------------------------------------------------------- the log explains the facts

  /** A call under way that has written this fact and will name it. */
  predicate WillName(p: Proc, id: Id, org: OrgId) {
    p.Request? &&
    match p.pc
    case InsertItem(ctx, _, _, done) => ctx.org == org && id in done.created && id in done.touched
    case FindHolder(ctx, _, _, done) => ctx.org == org && id in done.created && id in done.touched
    case UpdateTarget(ctx, _, _, link, _) => ctx.org == org && id == link
    case InsertAudit(ctx, ids, _) => ctx.org == org && id in ids
    case _ => false
  }

  /** A batch that created this fact and was then cut short by an item the database rejected. */
  predicate CutShortBy(p: Proc, id: Id) {
    p.Request? && p.op.RememberFacts? && p.pc.Crashed? && id.call == p.first.call
  }

  ghost predicate Differs(before: Facts, after: Facts, id: Id) {
    id in after && (id !in before || before[id] != after[id])
  }

  ghost predicate Covered(start: Db, t: Sys, id: Id)
    requires id in t.db.facts
  {
    || Named(t.db, |start.audit|, id)
    || (exists i :: 0 <= i < |t.procs| && WillName(t.procs[i], id, t.db.facts[id].org))
    || (exists i :: 0 <= i < |t.procs| && CutShortBy(t.procs[i], id))
  }

  /** The ids a batch under way has created are its own. */
  predicate CreatesOwn(p: Proc) {
    p.Request? ==>
      match p.pc
      case InsertItem(_, _, _, done) => forall id :: id in done.created ==> id.call == p.first.call
      case FindHolder(_, _, _, done) => forall id :: id in done.created ==> id.call == p.first.call
      case _ => true
  }

  /** What a call has yet to name, once it is past its own items. */
  lemma {:induction false} NextItemNames(p: Proc, ctx: Ctx, items: seq<Payload>, done: Progress)
    requires p.Request? && forall id :: id in done.created ==> id.call == p.first.call
    ensures var q := At(p, NextItem(ctx, items, done));
      CreatesOwn(q) && forall id :: id in done.created && id in done.touched ==> WillName(q, id, ctx.org)
    decreases |items|
  {
    if items == [] {
    } else if Validate(items[0]).None? {
      NextItemNames(p, ctx, items[1..], done.(next := done.next + 1, invalid := done.invalid + [done.next]));
    }
  }

  /** After its own request a call has named, will name, or was cut short of naming, what it would
      have named before and what it has just written. */
  ghost predicate Accounts(db: Db, m: Move, p: Proc, n: nat) {
    var q := At(p, m.pc);
    && CreatesOwn(q)
    && forall id | id in m.db.facts &&
         ((id in db.facts && WillName(p, id, db.facts[id].org)) || id !in db.facts || db.facts[id] != m.db.facts[id]) ::
         Named(m.db, n, id) || WillName(q, id, m.db.facts[id].org) || CutShortBy(q, id)
  }

  lemma NamesOnAudit(db: Db, p: Proc, n: nat)
    requires p.Request? && p.pc.InsertAudit? && n <= |db.audit|
    ensures Accounts(db, ProcMove(db, p), p, n)
  {
    var after := ProcMove(db, p).db;
    forall id | id in db.facts && WillName(p, id, db.facts[id].org) ensures Named(after, n, id) {
      assert id in after.audit[|db.audit|].factIds && after.audit[|db.audit|].org == db.facts[id].org;
    }
  }

  lemma ItemsAccount(db: Db, p: Proc, n: nat)
    requires p.Request? && ProcOk(db, p) && CreatesOwn(p) && (p.pc.InsertItem? || p.pc.FindHolder?)
    ensures Accounts(db, ProcMove(db, p), p, n)
  {
    var ctx, rest, done := p.pc.ctx, p.pc.rest, p.pc.done;
    NextItemNames(p, ctx, rest, Created(done, NthId(p.first, done.next)));
    if KeyTaken(db.facts, ctx.org, p.pc.f) {
      NextItemNames(p, ctx, rest, Deduped(done, Pick(Holders(db.facts, ctx.org, p.pc.f.dedupeKey.value))));
    }
  }

  lemma ReplacementAccounts(db: Db, p: Proc, n: nat)
    requires p.Request? && ProcOk(db, p) && p.pc.InsertReplacement?
    ensures Accounts(db, ProcMove(db, p), p, n)
  {
  }

  lemma RetirementAccounts(db: Db, p: Proc, n: nat)
    requires p.Request? && ProcOk(db, p) && p.pc.UpdateTarget?
    ensures Accounts(db, ProcMove(db, p), p, n)
  {
  }

  lemma DecisionAccounts(db: Db, p: Proc, n: nat)
    requires p.Request? && ProcOk(db, p) && p.pc.UpdateStatus?
    ensures Accounts(db, ProcMove(db, p), p, n)
  {
  }

  lemma ReadsAccount(db: Db, p: Proc, n: nat)
    requires p.Request? && CreatesOwn(p)
    requires p.pc.SelectMembers? || p.pc.SelectFacts? || p.pc.SelectTarget? || p.pc.FindReplacement?
      || p.pc.SelectPending? || Final(p.pc)
    ensures Accounts(db, ProcMove(db, p), p, n)
  {
  }

  lemma SeatsAccount(db: Db, p: Proc, n: nat)
    requires p.Request? && (p.pc.SelectSeat? || p.pc.InsertSeat? || p.pc.ReselectSeat?)
    ensures Accounts(db, ProcMove(db, p), p, n)
  {
    var rows := SeatRows(db.seats, p.pc.org, p.oauth);
    if rows != {} {
      AdmitCreatesNothing(db, p, p.pc.org, p.pc.role, Pick(rows), db.seats[Pick(rows)]);
    }
    AdmitCreatesNothing(db, p, p.pc.org, p.pc.role, p.first, FirstContactSeat(p.pc.org, p.user, p.oauth));
  }

  lemma AdmitCreatesNothing(db: Db, p: Proc, org: OrgId, role: Role, seat: Id, row: Seat)
    requires p.Request?
    ensures CreatesOwn(At(p, Admit(db, p.user, p.op, org, role, seat, row)))
  {
    if p.op.RememberFacts? {
      NextItemNames(p, MakeCtx(db.members, p.user, org, role, seat, row), p.op.items, Progress(0, [], [], [], []));
    }
  }

  lemma MoveAccounts(db: Db, p: Proc, n: nat)
    requires ProcOk(db, p) && CreatesOwn(p) && n <= |db.audit|
    ensures Accounts(db, ProcMove(db, p), p, n)
  {
    if p.Request? {
      if p.pc.InsertAudit? {
        NamesOnAudit(db, p, n);
      } else if p.pc.InsertItem? || p.pc.FindHolder? {
        ItemsAccount(db, p, n);
      } else if p.pc.InsertReplacement? {
        ReplacementAccounts(db, p, n);
      } else if p.pc.UpdateTarget? {
        RetirementAccounts(db, p, n);
      } else if p.pc.UpdateStatus? {
        DecisionAccounts(db, p, n);
      } else if p.pc.SelectSeat? || p.pc.InsertSeat? || p.pc.ReselectSeat? {
        SeatsAccount(db, p, n);
      } else {
        ReadsAccount(db, p, n);
      }
    }
  }

  ghost predicate AllCovered(start: Db, t: Sys) {
    && start.audit <= t.db.audit
    && (forall i | 0 <= i < |t.procs| :: CreatesOwn(t.procs[i]))
    && (forall id | Differs(start.facts, t.db.facts, id) :: Covered(start, t, id))
  }

  lemma AuditOnlyGrows(db: Db, p: Proc)
    requires ProcOk(db, p)
    ensures db.audit <= ProcMove(db, p).db.audit
  {
  }

  /** Whoever covered a fact that a turn leaves alone still does. */
  lemma StaysCovered(start: Db, t: Sys, i: nat, id: Id)
    requires Sound(t) && i < |t.procs| && AllCovered(start, t) && Differs(start.facts, t.db.facts, id)
    requires var u := Advance(t, i); id in u.db.facts && u.db.facts[id] == t.db.facts[id]
    requires Accounts(t.db, ProcMove(t.db, t.procs[i]), t.procs[i], |start.audit|)
    ensures Covered(start, Advance(t, i), id)
  {
    var u, p := Advance(t, i), t.procs[i];
    AuditOnlyGrows(t.db, p);
    var org := t.db.facts[id].org;
    if Named(t.db, |start.audit|, id) {
      StillNamed(t.db, u.db, |start.audit|, id);
    } else if k :| 0 <= k < |t.procs| && WillName(t.procs[k], id, org) {
      if k == i {
        assert u.procs[i] == At(p, ProcMove(t.db, p).pc);
      } else {
        assert u.procs[k] == t.procs[k];
      }
    } else {
      var k :| 0 <= k < |t.procs| && CutShortBy(t.procs[k], id);
      assert u.procs[k] == t.procs[k];
    }
  }

  lemma TurnCovers(start: Db, t: Sys, i: nat)
    requires Sound(t) && i < |t.procs| && AllCovered(start, t)
    ensures AllCovered(start, Advance(t, i))
  {
    var u, p := Advance(t, i), t.procs[i];
    MoveAccounts(t.db, p, |start.audit|);
    AuditOnlyGrows(t.db, p);
    assert u.procs[i] == At(p, ProcMove(t.db, p).pc);
    forall id | Differs(start.facts, u.db.facts, id) ensures Covered(start, u, id) {
      if id in t.db.facts && u.db.facts[id] == t.db.facts[id] {
        StaysCovered(start, t, i, id);
      }
    }
  }

  lemma {:induction false} SchedulesCover(s: Sys, schedule: seq<nat>)
    requires Initial(s)
    ensures AllCovered(s.db, Exec(s, schedule))
  {
    if schedule == [] {
    } else {
      var n := |schedule| - 1;
      SchedulesCover(s, schedule[..n]);
      InitialIsSound(s);
      ExecIsSound(s, schedule[..n]);
      var t := Exec(s, schedule[..n]);
      if schedule[n] < |t.procs| {
        TurnCovers(s.db, t, schedule[n]);
      }
    }
  }

  /** Once every call has finished, whatever the schedule, each fact that was created or differs from
      the start is named by a row of its own org written since; the only others were created by a
      batch that the database cut short. */
  lemma LogExplainsFacts(s: Sys, schedule: seq<nat>, id: Id)
    requires Initial(s)
    requires forall i | 0 <= i < |Exec(s, schedule).procs| :: Final(Exec(s, schedule).procs[i].pc)
    requires Differs(s.db.facts, Exec(s, schedule).db.facts, id)
    ensures var t := Exec(s, schedule);
      || Named(t.db, |s.db.audit|, id)
      || exists i :: 0 <= i < |t.procs| && CutShortBy(t.procs[i], id)
  {
    SchedulesCover(s, schedule);
    var t := Exec(s, schedule);
    assert Covered(s.db, t, id);
    assert forall i | 0 <= i < |t.procs| :: Final(t.procs[i].pc) ==> !WillName(t.procs[i], id, t.db.facts[id].org);
  }
}
