/** Calls on a schedule: enough turns finish a call, and calls scheduled one after the other are the
    run of atomic calls. */
module Schedules {
  import opened Schema
  import opened Tools
  import opened Interleaving
  import opened Serial

  /** How many turns a schedule gives to process `i`. */
  function Turns(schedule: seq<nat>, i: nat): nat {
    if schedule == [] then 0
    else Turns(schedule[..|schedule| - 1], i) + (if schedule[|schedule| - 1] == i then 1 else 0)
  }

  /** An upper bound on the requests a process still sends. */
  function StepsOf(p: Proc): nat {
    match p
    case Request(_, _, _, op, pc) => Steps(op, pc)
    case Operator(_, _, pc) =>
      match pc
      case AdminSelect => 2
      case AdminInsert => 1
      case AdminUpdate(_) => 1
      case _ => 0
  }

  // ---------------------------------------------------------------- every call finishes

  lemma MoveShrinks(db: Db, p: Proc)
    requires ProcOk(db, p)
    ensures var p' := p.(pc := ProcMove(db, p).pc);
      if Final(p.pc) then p' == p else StepsOf(p) > 0 && StepsOf(p') < StepsOf(p)
  {
    if p.Request? && !Final(p.pc) {
      RequestsShrink(db, p.first, p.user, p.oauth, p.op, p.pc);
    }
  }

  lemma {:induction false} TurnsShrink(s: Sys, schedule: seq<nat>, i: nat)
    requires Sound(s) && i < |s.procs|
    ensures var t := Exec(s, schedule);
      i < |t.procs| && (Final(t.procs[i].pc) || StepsOf(t.procs[i]) + Turns(schedule, i) <= StepsOf(s.procs[i]))
  {
    if schedule == [] {
    } else {
      var n := |schedule| - 1;
      TurnsShrink(s, schedule[..n], i);
      ExecIsSound(s, schedule[..n]);
      var t := Exec(s, schedule[..n]);
      if schedule[n] == i {
        MoveShrinks(t.db, t.procs[i]);
      }
    }
  }

  /** Under every schedule a tool call is finished after at most nine turns of its own, plus two for
      each item of a batch, and an operator action after two, whatever other calls do. */
  lemma EnoughTurnsFinish(s: Sys, schedule: seq<nat>, i: nat)
    requires Initial(s) && i < |s.procs|
    requires match s.procs[i]
      case Request(_, _, _, op, _) => Turns(schedule, i) >= 9 + (if op.RememberFacts? then 2 * |op.items| else 0)
      case Operator(_, _, _) => Turns(schedule, i) >= 2
    ensures i < |Exec(s, schedule).procs| && Final(Exec(s, schedule).procs[i].pc)
  {
    InitialIsSound(s);
    ExecIsSound(s, schedule);
    TurnsShrink(s, schedule, i);
    var t := Exec(s, schedule);
    MoveShrinks(t.db, t.procs[i]);
  }

  // ---------------------------------------------------------------- consecutive turns

  function Repeat(i: nat, k: nat): seq<nat> {
    seq(k, _ => i)
  }

  lemma {:induction false} ExecAppend(s: Sys, a: seq<nat>, b: seq<nat>)
    ensures Exec(s, a + b) == Exec(Exec(s, a), b)
  {
    if b == [] {
      assert a + b == a;
    } else {
      var n := |b| - 1;
      ExecAppend(s, a, b[..n]);
      assert (a + b)[..|a| + n] == a + b[..n];
    }
  }

  lemma FirstTurn(s: Sys, i: nat, k: nat)
    requires k > 0
    ensures Exec(s, Repeat(i, k)) == Exec(Advance(s, i), Repeat(i, k - 1))
  {
    assert Repeat(i, k) == [i] + Repeat(i, k - 1);
    ExecAppend(s, [i], Repeat(i, k - 1));
    assert [i][..0] == [];
    assert Exec(s, [i]) == Advance(s, i);
  }

  /** Process `i` of `s` has got this far, with this database. */
  ghost function Placed(s: Sys, i: nat, db: Db, pc: Pc): Sys
    requires i < |s.procs|
  {
    Sys(db, s.procs[i := s.procs[i].(pc := pc)])
  }

  lemma OneMoreTurn(s: Sys, schedule: seq<nat>, i: nat)
    ensures Exec(s, schedule + [i]) == Advance(Exec(s, schedule), i)
  {
    assert (schedule + [i])[..|schedule|] == schedule;
  }

  /** One more turn of a call that so far has had all its turns in a row. */
  lemma ThenTurn(s: Sys, schedule: seq<nat>, i: nat, before: Move, m: Move) returns (longer: seq<nat>)
    requires i < |s.procs| && s.procs[i].Request? && Exec(s, schedule) == Placed(s, i, before.db, before.pc)
    requires var p := s.procs[i]; RequestMove(before.db, p.first, p.user, p.oauth, p.op, before.pc) == m
    ensures Exec(s, longer) == Placed(s, i, m.db, m.pc)
  {
    var t := Placed(s, i, before.db, before.pc);
    RequestTurn(t, i, before.pc, m);
    OneMoreTurn(s, schedule, i);
    longer := schedule + [i];
  }

  lemma ContactMoves(db: Db, first: Id, user: UserId, oauth: string, op: Op, org: OrgId, role: Role)
    requires ResolveMembership(db.members, user) == Member(org, role) && SeatRows(db.seats, org, oauth) == {}
    ensures var e := Enter(db, org, role, first, user, oauth);
      RequestMove(db, first, user, oauth, op, InsertSeat(org, role)) == Move(db.(seats := e.seats), Entered(e, op))
  {
  }

  lemma MemberMoves(db: Db, first: Id, user: UserId, oauth: string, op: Op, org: OrgId, role: Role)
    requires ResolveMembership(db.members, user) == Member(org, role)
    ensures RequestMove(db, first, user, oauth, op, SelectMembers) == Move(db, SelectSeat(org, role))
    ensures var e := Enter(db, org, role, first, user, oauth);
      RequestMove(db, first, user, oauth, op, SelectSeat(org, role)) ==
        if SeatRows(db.seats, org, oauth) == {} then Move(db, InsertSeat(org, role))
        else Move(db.(seats := e.seats), Entered(e, op))
  {
    assert db.(seats := db.seats) == db;
  }

  /** The requests of `_begin`: two through a known seat, three on first contact. */
  lemma BeginTurns(s: Sys, i: nat) returns (schedule: seq<nat>)
    requires i < |s.procs| && s.procs[i].Request? && s.procs[i].pc == SelectMembers
    requires ResolveMembership(s.db.members, s.procs[i].user).Member?
    ensures var p := s.procs[i];
      var m := ResolveMembership(s.db.members, p.user);
      var e := Enter(s.db, m.org, m.role, p.first, p.user, p.oauth);
      Exec(s, schedule) == Placed(s, i, s.db.(seats := e.seats), Entered(e, p.op))
  {
    var p := s.procs[i];
    var m := ResolveMembership(s.db.members, p.user);
    var e := Enter(s.db, m.org, m.role, p.first, p.user, p.oauth);
    var begun := Move(s.db.(seats := e.seats), Entered(e, p.op));
    var known, unknown := Move(s.db, SelectSeat(m.org, m.role)), Move(s.db, InsertSeat(m.org, m.role));
    assert s.procs[i := p] == s.procs;
    MemberMoves(s.db, p.first, p.user, p.oauth, p.op, m.org, m.role);
    schedule := ThenTurn(s, [], i, Move(s.db, SelectMembers), known);
    if SeatRows(s.db.seats, m.org, p.oauth) != {} {
      schedule := ThenTurn(s, schedule, i, known, begun);
    } else {
      ContactMoves(s.db, p.first, p.user, p.oauth, p.op, m.org, m.role);
      schedule := ThenTurn(s, schedule, i, known, unknown);
      schedule := ThenTurn(s, schedule, i, unknown, begun);
    }
  }

  /** A turn of a tool call. */
  lemma RequestTurn(t: Sys, i: nat, pc: Pc, m: Move)
    requires i < |t.procs| && t.procs[i].Request? && t.procs[i].pc == pc
    requires RequestMove(t.db, t.procs[i].first, t.procs[i].user, t.procs[i].oauth, t.procs[i].op, pc) == m
    ensures Advance(t, i) == Placed(t, i, m.db, m.pc)
  {
  }

  /** A turn of an operator action. */
  lemma OperatorTurn(t: Sys, i: nat, pc: Pc, m: Move)
    requires i < |t.procs| && t.procs[i].Operator? && t.procs[i].pc == pc
    requires OperatorMove(t.db, t.procs[i].first, t.procs[i].action, pc) == m
    ensures Advance(t, i) == Placed(t, i, m.db, m.pc)
  {
  }

  lemma AdvanceIs(t: Sys, i: nat, m: Move)
    requires i < |t.procs| && m == ProcMove(t.db, t.procs[i])
    ensures Advance(t, i) == Placed(t, i, m.db, m.pc)
  {
  }

  /** Consecutive turns of a tool call are the call left alone. */
  lemma {:induction false} ConsecutiveTurns(s: Sys, i: nat, k: nat)
    requires i < |s.procs| && s.procs[i].Request? && k >= StepsOf(s.procs[i])
    ensures var p := s.procs[i];
      var m := Alone(s.db, p.first, p.user, p.oauth, p.op, p.pc);
      Exec(s, Repeat(i, k)) == Placed(s, i, m.db, m.pc)
    decreases k
  {
    var p := s.procs[i];
    if k == 0 {
      assert Repeat(i, k) == [] && s.procs[i := p] == s.procs;
    } else {
      FirstTurn(s, i, k);
      if StepsOf(p) > 0 {
        RequestsShrink(s.db, p.first, p.user, p.oauth, p.op, p.pc);
      } else {
        assert s.procs[i := p] == s.procs;
      }
      ConsecutiveTurns(Advance(s, i), i, k - 1);
    }
  }

  /** Two turns of an operator action are the action. */
  lemma OperatorTurns(s: Sys, i: nat)
    requires i < |s.procs| && s.procs[i].Operator? && s.procs[i].pc == AdminSelect
    ensures var r := StepAdmin(s.db, s.procs[i].first, s.procs[i].action);
      Exec(s, Repeat(i, 2)) == Placed(s, i, r.db, AdminDone(r.reply))
  {
    var p := s.procs[i];
    var m := OperatorMove(s.db, p.first, p.action, AdminSelect);
    var n := OperatorMove(m.db, p.first, p.action, m.pc);
    OperatorAlone(s.db, p.first, p.action);
    TwoTurns(s, i);
    OperatorTurn(s, i, AdminSelect, m);
    OperatorTurn(Placed(s, i, m.db, m.pc), i, m.pc, n);
  }

  lemma TwoTurns(s: Sys, i: nat)
    ensures Exec(s, Repeat(i, 2)) == Advance(Advance(s, i), i)
  {
    FirstTurn(s, i, 2);
    FirstTurn(Advance(s, i), i, 1);
    assert Repeat(i, 0) == [];
  }

  lemma OperatorAlone(db: Db, first: Id, action: AdminOp)
    ensures var m := OperatorMove(db, first, action, AdminSelect);
      var r := StepAdmin(db, first, action);
      OperatorMove(m.db, first, action, m.pc) == Move(r.db, AdminDone(r.reply))
  {
  }

  // ---------------------------------------------------------------- one call after another

  function EventOf(p: Proc): Event {
    match p
    case Request(first, user, oauth, op, _) => Call(first, user, oauth, op)
    case Operator(first, action, _) => Admin(first, action)
  }

  function Events(procs: seq<Proc>): seq<Event> {
    seq(|procs|, i requires 0 <= i < |procs| => EventOf(procs[i]))
  }

  /** The answer of a finished process. */
  function AnswerOf(p: Proc): Reply {
    if p.pc.AdminDone? then p.pc.reply else ReplyOf(p.pc)
  }

  predicate AtStart(p: Proc) {
    p.pc == if p.Request? then SelectMembers else AdminSelect
  }

  /** All turns of the first `n` calls, one call after the other. */
  function OneAfterAnother(procs: seq<Proc>, n: nat): seq<nat>
    requires n <= |procs|
  {
    if n == 0 then [] else OneAfterAnother(procs, n - 1) + Repeat(n - 1, StepsOf(procs[n - 1]))
  }

  /** A process at its start that gets all its turns in a row does its event. */
  lemma WholeCall(s: Sys, i: nat)
    requires i < |s.procs| && AtStart(s.procs[i])
    ensures var t := Exec(s, Repeat(i, StepsOf(s.procs[i])));
      var r := Step(s.db, EventOf(s.procs[i]));
      && t.db == r.db && |t.procs| == |s.procs| && AnswerOf(t.procs[i]) == r.reply
      && forall j | 0 <= j < |s.procs| && j != i :: t.procs[j] == s.procs[j]
  {
    var p := s.procs[i];
    if p.Request? {
      ConsecutiveTurns(s, i, StepsOf(p));
      AloneIsAtomic(s.db, p.first, p.user, p.oauth, p.op);
      AloneNeverAdmin(s.db, p.first, p.user, p.oauth, p.op, p.pc);
    } else {
      OperatorTurns(s, i);
    }
  }

  lemma {:induction false} AloneNeverAdmin(db: Db, first: Id, user: UserId, oauth: string, op: Op, pc: Pc)
    requires !pc.AdminDone?
    ensures !Alone(db, first, user, oauth, op, pc).pc.AdminDone?
    decreases Steps(op, pc)
  {
    if Steps(op, pc) == 0 {
    } else {
      RequestsShrink(db, first, user, oauth, op, pc);
      var m := RequestMove(db, first, user, oauth, op, pc);
      NeverAdmin(db, first, user, oauth, op, pc);
      AloneNeverAdmin(m.db, first, user, oauth, op, m.pc);
    }
  }

  lemma NeverAdmin(db: Db, first: Id, user: UserId, oauth: string, op: Op, pc: Pc)
    requires !pc.AdminDone?
    ensures !RequestMove(db, first, user, oauth, op, pc).pc.AdminDone?
  {
    if pc.InsertItem? || pc.FindHolder? {
      NextItemShape(pc.ctx, pc.rest, Created(pc.done, NthId(first, pc.done.next)));
      if KeyTaken(db.facts, pc.ctx.org, pc.f) {
        NextItemShape(pc.ctx, pc.rest, Deduped(pc.done, Pick(Holders(db.facts, pc.ctx.org, pc.f.dedupeKey.value))));
      }
    } else if pc.SelectSeat? || pc.InsertSeat? || pc.ReselectSeat? {
      var rows := SeatRows(db.seats, pc.org, oauth);
      if rows != {} {
        AdmitNeverAdmin(db, user, op, pc.org, pc.role, Pick(rows), db.seats[Pick(rows)]);
      }
      AdmitNeverAdmin(db, user, op, pc.org, pc.role, first, FirstContactSeat(pc.org, user, oauth));
    }
  }

  lemma AdmitNeverAdmin(db: Db, user: UserId, op: Op, org: OrgId, role: Role, seat: Id, row: Seat)
    ensures !Admit(db, user, op, org, role, seat, row).AdminDone?
  {
    if op.RememberFacts? {
      NextItemShape(MakeCtx(db.members, user, org, role, seat, row), op.items, Progress(0, [], [], [], []));
    }
  }

  /** Scheduling calls and operator actions one after the other is the run of their events: the same
      database, and every call gets the same answer. */
  lemma {:induction false} OneAfterAnotherIsRun(s: Sys, n: nat)
    requires n <= |s.procs| && forall i | 0 <= i < |s.procs| :: AtStart(s.procs[i])
    ensures DoneInOrder(s, n, Exec(s, OneAfterAnother(s.procs, n)))
  {
    if n == 0 {
    } else {
      var i := n - 1;
      OneAfterAnotherIsRun(s, i);
      ExecAppend(s, OneAfterAnother(s.procs, i), Repeat(i, StepsOf(s.procs[i])));
      NextInOrder(s, i, Exec(s, OneAfterAnother(s.procs, i)));
    }
  }

  lemma NextInOrder(s: Sys, i: nat, t: Sys)
    requires i < |s.procs| && DoneInOrder(s, i, t) && AtStart(s.procs[i])
    ensures DoneInOrder(s, i + 1, Exec(t, Repeat(i, StepsOf(s.procs[i]))))
  {
    assert t.procs[i] == s.procs[i];
    WholeCall(t, i);
    OneMoreCall(s, i, t, Exec(t, Repeat(i, StepsOf(s.procs[i]))));
  }

  /** The first `n` calls are done, and have done what their events do. */
  ghost predicate DoneInOrder(s: Sys, n: nat, t: Sys) {
    var es := Events(s.procs);
    && n <= |s.procs| == |t.procs| && t.db == Run(s.db, es[..n])
    && (forall i | 0 <= i < n :: AnswerOf(t.procs[i]) == Step(Run(s.db, es[..i]), es[i]).reply)
    && (forall i | n <= i < |s.procs| :: t.procs[i] == s.procs[i])
  }

  lemma OneMoreCall(s: Sys, i: nat, t: Sys, u: Sys)
    requires i < |s.procs| && DoneInOrder(s, i, t) && |u.procs| == |t.procs|
    requires var r := Step(t.db, EventOf(s.procs[i])); u.db == r.db && AnswerOf(u.procs[i]) == r.reply
    requires forall j | 0 <= j < |t.procs| && j != i :: u.procs[j] == t.procs[j]
    ensures DoneInOrder(s, i + 1, u)
  {
    var es := Events(s.procs);
    assert es[..i + 1][..i] == es[..i] && es[..i + 1][i] == EventOf(s.procs[i]);
  }
}
