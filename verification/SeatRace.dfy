/** The race of an operator's registration against first contacts: exactly when it fails. */
module SeatRace {
  import opened Schema
  import opened Tools
  import opened Interleaving
  import opened Schedules

  /** Process `i` gets no turn from position `k` up to `n`. */
  predicate NoTurn(schedule: seq<nat>, i: nat, k: nat, n: nat)
    requires n <= |schedule|
  {
    forall j :: k <= j < n ==> schedule[j] != i
  }

  lemma {:induction false} Unscheduled(s: Sys, schedule: seq<nat>, i: nat, k: nat, n: nat)
    requires i < |s.procs| && k <= n <= |schedule| && NoTurn(schedule, i, k, n)
    ensures var a, b := Exec(s, schedule[..k]), Exec(s, schedule[..n]);
      |a.procs| == |b.procs| == |s.procs| && b.procs[i] == a.procs[i]
  {
    HowMany(s, schedule[..k]);
    if k == n {
    } else {
      Unscheduled(s, schedule, i, k, n - 1);
      assert schedule[..n][..n - 1] == schedule[..n - 1];
    }
  }

  lemma {:induction false} HowMany(s: Sys, schedule: seq<nat>)
    ensures |Exec(s, schedule).procs| == |s.procs|
  {
    if schedule == [] {
    } else {
      HowMany(s, schedule[..|schedule| - 1]);
    }
  }

  /** The last turn of a prefix. */
  lemma PrefixTurn(s: Sys, schedule: seq<nat>, n: nat)
    requires 0 < n <= |schedule|
    ensures Exec(s, schedule[..n]) == Advance(Exec(s, schedule[..n - 1]), schedule[n - 1])
  {
    assert schedule[..n][..n - 1] == schedule[..n - 1];
  }

  ghost predicate IsAt(t: Sys, size: nat, i: nat, pc: Pc) {
    |t.procs| == size && i < size && t.procs[i].pc == pc
  }

  lemma TurnLeavesFinal(t: Sys, size: nat, j: nat, i: nat, pc: Pc)
    requires IsAt(t, size, i, pc) && Final(pc)
    ensures IsAt(Advance(t, j), size, i, pc)
  {
    FinalStays(t, j, i);
  }

  lemma {:induction false} StaysFinal(s: Sys, schedule: seq<nat>, i: nat, k: nat, n: nat, pc: Pc)
    requires k <= n <= |schedule| && IsAt(Exec(s, schedule[..k]), |s.procs|, i, pc) && Final(pc)
    ensures IsAt(Exec(s, schedule[..n]), |s.procs|, i, pc)
  {
    if k == n {
    } else {
      StaysFinal(s, schedule, i, k, n - 1, pc);
      PrefixTurn(s, schedule, n);
      TurnLeavesFinal(Exec(s, schedule[..n - 1]), |s.procs|, schedule[n - 1], i, pc);
    }
  }

  lemma FinalStays(t: Sys, j: nat, i: nat)
    requires i < |t.procs| && Final(t.procs[i].pc)
    ensures |Advance(t, j).procs| == |t.procs| && Advance(t, j).procs[i].pc == t.procs[i].pc
  {
    if j == i {
      FinalMove(t.db, t.procs[i]);
    }
  }

  lemma FinalMove(db: Db, p: Proc)
    requires Final(p.pc)
    ensures ProcMove(db, p) == Move(db, p.pc)
  {
  }

  /** The next turn of process `i`, if it has one. */
  lemma {:induction false} NextTurn(schedule: seq<nat>, i: nat, from: nat) returns (k: nat)
    requires from <= |schedule| && !NoTurn(schedule, i, from, |schedule|)
    ensures from <= k < |schedule| && schedule[k] == i && NoTurn(schedule, i, from, k)
    decreases |schedule| - from
  {
    if schedule[from] == i {
      k := from;
    } else {
      k := NextTurn(schedule, i, from + 1);
    }
  }

  lemma TakesTurn(s: Sys, schedule: seq<nat>, i: nat, k: nat)
    requires k < |schedule| && schedule[k] == i < |s.procs|
    ensures var a, b := Exec(s, schedule[..k]), Exec(s, schedule[..k + 1]);
      |a.procs| == |b.procs| == |s.procs| && b.db == ProcMove(a.db, a.procs[i]).db
      && b.procs[i] == a.procs[i].(pc := ProcMove(a.db, a.procs[i]).pc)
  {
    HowMany(s, schedule[..k]);
    assert schedule[..k + 1][..k] == schedule[..k];
  }

  /** The registration's first turn, the check, finds no seat, and at its second, the insert, there is
      one: somebody else has put it there in between. */
  ghost predicate SeatAppears(s: Sys, schedule: seq<nat>, i: nat, org: OrgId, oauth: string, k: nat, m: nat) {
    && k < m < |schedule| && schedule[k] == i && schedule[m] == i
    && NoTurn(schedule, i, 0, k) && NoTurn(schedule, i, k + 1, m)
    && SeatRows(Exec(s, schedule[..k]).db.seats, org, oauth) == {}
    && SeatRows(Exec(s, schedule[..m]).db.seats, org, oauth) != {}
  }

  ghost predicate LosesRace(s: Sys, schedule: seq<nat>, i: nat, org: OrgId, oauth: string) {
    exists k: nat, m: nat :: SeatAppears(s, schedule, i, org, oauth, k, m)
  }

  predicate Registration(p: Proc) {
    p.Operator? && p.action.RegisterConnector?
  }

  /** Check on one database, write on a later one. */
  lemma CheckThenWrite(a: Db, b: Db, first: Id, action: AdminOp)
    requires action.RegisterConnector?
    ensures var c := OperatorMove(a, first, action, AdminSelect).pc;
      (c.AdminUpdate? ==> c.id in b.seats) ==>
        var w := OperatorMove(b, first, action, c).pc;
        && Final(w) && !c.Crashed?
        && (w.Crashed? <==>
              && !Blank(action.source) && SeatRows(a.seats, action.org, action.oauth) == {}
              && SeatRows(b.seats, action.org, action.oauth) != {})
  {
  }

  /** The pc of a registration at its second turn. */
  lemma AtSecondTurn(s: Sys, schedule: seq<nat>, i: nat, k: nat, m: nat)
    requires Initial(s) && i < |s.procs| && Registration(s.procs[i])
    requires k < m <= |schedule| && schedule[k] == i
    requires NoTurn(schedule, i, 0, k) && NoTurn(schedule, i, k + 1, m)
    ensures |Exec(s, schedule[..m]).procs| == |s.procs|
    ensures var p := s.procs[i];
      var c := OperatorMove(Exec(s, schedule[..k]).db, p.first, p.action, AdminSelect).pc;
      && Exec(s, schedule[..m]).procs[i] == p.(pc := c)
      && (c.AdminUpdate? ==> c.id in Exec(s, schedule[..m]).db.seats)
  {
    assert schedule[..0] == [];
    Unscheduled(s, schedule, i, 0, k);
    TakesTurn(s, schedule, i, k);
    Unscheduled(s, schedule, i, k + 1, m);
    InitialIsSound(s);
    ExecIsSound(s, schedule[..m]);
    assert ProcOk(Exec(s, schedule[..m]).db, Exec(s, schedule[..m]).procs[i]);
  }

  /** Where a registration is after its first two turns, and hence for good. */
  lemma AfterTwoTurns(s: Sys, schedule: seq<nat>, i: nat, k: nat, m: nat)
    requires Initial(s) && i < |s.procs| && Registration(s.procs[i])
    requires k < m < |schedule| && schedule[k] == i && schedule[m] == i
    requires NoTurn(schedule, i, 0, k) && NoTurn(schedule, i, k + 1, m)
    ensures |Exec(s, schedule).procs| == |s.procs|
    ensures var a := s.procs[i].action;
      Exec(s, schedule).procs[i].pc.Crashed? <==>
        !Blank(a.source) && SeatRows(Exec(s, schedule[..k]).db.seats, a.org, a.oauth) == {}
        && SeatRows(Exec(s, schedule[..m]).db.seats, a.org, a.oauth) != {}
  {
    var p := s.procs[i];
    AtSecondTurn(s, schedule, i, k, m);
    CheckThenWrite(Exec(s, schedule[..k]).db, Exec(s, schedule[..m]).db, p.first, p.action);
    WritesAt(s, schedule, i, m, OperatorMove(Exec(s, schedule[..k]).db, p.first, p.action, AdminSelect).pc);
    FinalFromHere(s, schedule, i, m + 1);
  }

  lemma FinalFromHere(s: Sys, schedule: seq<nat>, i: nat, n: nat)
    requires i < |s.procs| && n <= |schedule| && |Exec(s, schedule[..n]).procs| == |s.procs|
    requires Final(Exec(s, schedule[..n]).procs[i].pc)
    ensures |Exec(s, schedule).procs| == |s.procs|
    ensures Exec(s, schedule).procs[i].pc == Exec(s, schedule[..n]).procs[i].pc
  {
    StaysFinal(s, schedule, i, n, |schedule|, Exec(s, schedule[..n]).procs[i].pc);
    assert schedule[..|schedule|] == schedule;
  }

  lemma WritesAt(s: Sys, schedule: seq<nat>, i: nat, m: nat, c: Pc)
    requires m < |schedule| && schedule[m] == i < |s.procs| == |Exec(s, schedule[..m]).procs| && s.procs[i].Operator?
    requires Exec(s, schedule[..m]).procs[i] == At(s.procs[i], c)
    ensures |Exec(s, schedule[..m + 1]).procs| == |s.procs|
    ensures Exec(s, schedule[..m + 1]).procs[i].pc ==
      OperatorMove(Exec(s, schedule[..m]).db, s.procs[i].first, s.procs[i].action, c).pc
  {
    TakesTurn(s, schedule, i, m);
  }

  /** A registration under any schedule fails if and only if its check finds no seat and another call
      inserts one before its write. */
  lemma RegistrationFailsIff(s: Sys, schedule: seq<nat>, i: nat)
    requires Initial(s) && i < |s.procs| && Registration(s.procs[i])
    ensures var a := s.procs[i].action;
      |Exec(s, schedule).procs| == |s.procs| &&
      (Exec(s, schedule).procs[i].pc.Crashed? <==> !Blank(a.source) && LosesRace(s, schedule, i, a.org, a.oauth))
  {
    var a, n := s.procs[i].action, |schedule|;
    HowMany(s, schedule);
    assert schedule[..0] == [] && schedule[..n] == schedule;
    if NoTurn(schedule, i, 0, n) {
      Unscheduled(s, schedule, i, 0, n);
    } else {
      var k := NextTurn(schedule, i, 0);
      if NoTurn(schedule, i, k + 1, n) {
        AtSecondTurn(s, schedule, i, k, n);
        CheckThenWrite(Exec(s, schedule[..k]).db, Exec(s, schedule).db, s.procs[i].first, a);
        forall k': nat, m': nat ensures !SeatAppears(s, schedule, i, a.org, a.oauth, k', m') {}
      } else {
        var m := NextTurn(schedule, i, k + 1);
        AfterTwoTurns(s, schedule, i, k, m);
        assert forall k': nat, m': nat :: SeatAppears(s, schedule, i, a.org, a.oauth, k', m') ==> k' == k && m' == m;
        assert SeatAppears(s, schedule, i, a.org, a.oauth, k, m) <==>
          SeatRows(Exec(s, schedule[..k]).db.seats, a.org, a.oauth) == {}
          && SeatRows(Exec(s, schedule[..m]).db.seats, a.org, a.oauth) != {};
      }
    }
  }

  /** The first three requests of a first contact. */
  lemma FirstContactMoves(db: Db, first: Id, user: UserId, oauth: string, op: Op, org: OrgId, role: Role)
    requires ResolveMembership(db.members, user) == Member(org, role) && SeatRows(db.seats, org, oauth) == {}
    ensures RequestMove(db, first, user, oauth, op, SelectMembers) == Move(db, SelectSeat(org, role))
    ensures RequestMove(db, first, user, oauth, op, SelectSeat(org, role)) == Move(db, InsertSeat(org, role))
    ensures SeatRows(RequestMove(db, first, user, oauth, op, InsertSeat(org, role)).db.seats, org, oauth) != {}
  {
    assert first in SeatRows(RequestMove(db, first, user, oauth, op, InsertSeat(org, role)).db.seats, org, oauth);
  }

  lemma WritesTooLate(a: Db, b: Db, first: Id, action: AdminOp)
    requires action.RegisterConnector? && !Blank(action.source)
    requires SeatRows(a.seats, action.org, action.oauth) == {} && SeatRows(b.seats, action.org, action.oauth) != {}
    ensures OperatorMove(a, first, action, AdminSelect) == Move(a, AdminInsert)
    ensures OperatorMove(b, first, action, AdminInsert) == Move(b, Crashed)
  {
  }

  lemma ContactBegins(t: Sys, j: nat, org: OrgId, role: Role)
    requires j < |t.procs| && t.procs[j].Request? && t.procs[j].pc == SelectMembers
    requires ResolveMembership(t.db.members, t.procs[j].user) == Member(org, role)
    requires SeatRows(t.db.seats, org, t.procs[j].oauth) == {}
    ensures Advance(Advance(t, j), j) == Placed(t, j, t.db, InsertSeat(org, role))
  {
    var c := t.procs[j];
    FirstContactMoves(t.db, c.first, c.user, c.oauth, c.op, org, role);
    RequestTurn(t, j, SelectMembers, Move(t.db, SelectSeat(org, role)));
    RequestTurn(Advance(t, j), j, SelectSeat(org, role), Move(t.db, InsertSeat(org, role)));
  }

  lemma ContactThenWrite(t: Sys, i: nat, j: nat, role: Role)
    requires i < |t.procs| && j < |t.procs| && i != j
    requires Registration(t.procs[i]) && !Blank(t.procs[i].action.source) && t.procs[i].pc == AdminInsert
    requires t.procs[j].Request? && t.procs[j].oauth == t.procs[i].action.oauth
    requires t.procs[j].pc == InsertSeat(t.procs[i].action.org, role)
    requires ResolveMembership(t.db.members, t.procs[j].user) == Member(t.procs[i].action.org, role)
    requires SeatRows(t.db.seats, t.procs[i].action.org, t.procs[j].oauth) == {}
    ensures Advance(Advance(t, j), i).procs[i].pc == Crashed
  {
    var a, c := t.procs[i], t.procs[j];
    FirstContactMoves(t.db, c.first, c.user, c.oauth, c.op, a.action.org, role);
    var seated := RequestMove(t.db, c.first, c.user, c.oauth, c.op, c.pc);
    WritesTooLate(t.db, seated.db, a.first, a.action);
    RequestTurn(t, j, c.pc, seated);
    OperatorTurn(Advance(t, j), i, AdminInsert, Move(seated.db, Crashed));
  }

  lemma ChecksFirst(s: Sys, i: nat)
    requires i < |s.procs| && Registration(s.procs[i]) && s.procs[i].pc == AdminSelect
    requires !Blank(s.procs[i].action.source)
    requires SeatRows(s.db.seats, s.procs[i].action.org, s.procs[i].action.oauth) == {}
    ensures Advance(s, i) == Placed(s, i, s.db, AdminInsert)
  {
    OperatorTurn(s, i, AdminSelect, Move(s.db, AdminInsert));
  }

  /** Registration `i` has checked, first contact `j` is about to insert the seat. */
  ghost predicate Colliding(s: Sys, u: Sys, i: nat, j: nat, role: Role)
    requires i < |s.procs| && j < |s.procs| && s.procs[i].Operator?
  {
    && |u.procs| == |s.procs| && u.db == s.db
    && u.procs[i] == At(s.procs[i], AdminInsert)
    && u.procs[j] == At(s.procs[j], InsertSeat(s.procs[i].action.org, role))
  }

  lemma RunIntoEachOther(s: Sys, i: nat, j: nat, role: Role) returns (schedule: seq<nat>)
    requires Initial(s) && i < |s.procs| && j < |s.procs| && i != j
    requires Registration(s.procs[i]) && !Blank(s.procs[i].action.source)
    requires s.procs[j].Request? && s.procs[j].oauth == s.procs[i].action.oauth
    requires ResolveMembership(s.db.members, s.procs[j].user) == Member(s.procs[i].action.org, role)
    requires SeatRows(s.db.seats, s.procs[i].action.org, s.procs[i].action.oauth) == {}
    ensures Colliding(s, Exec(s, schedule), i, j, role)
  {
    ChecksFirst(s, i);
    ContactBegins(Advance(s, i), j, s.procs[i].action.org, role);
    schedule := [i, j, j];
    assert schedule[..2] == [i, j] && schedule[..2][..1] == [i] && schedule[..2][..1][..0] == [];
    assert Exec(s, [i]) == Advance(s, i);
  }

  /** Any first contact of the client being registered can make the registration fail: it only has to
      come between check and write. */
  lemma FirstContactMakesRegistrationFail(s: Sys, i: nat, j: nat, role: Role)
    requires Initial(s) && i < |s.procs| && j < |s.procs| && i != j
    requires Registration(s.procs[i]) && !Blank(s.procs[i].action.source)
    requires s.procs[j].Request? && s.procs[j].oauth == s.procs[i].action.oauth
    requires ResolveMembership(s.db.members, s.procs[j].user) == Member(s.procs[i].action.org, role)
    requires SeatRows(s.db.seats, s.procs[i].action.org, s.procs[i].action.oauth) == {}
    ensures exists schedule :: |Exec(s, schedule).procs| == |s.procs| && Exec(s, schedule).procs[i].pc.Crashed?
  {
    var schedule := RunIntoEachOther(s, i, j, role);
    CollisionFails(s, schedule, i, j, role);
  }

  lemma CollisionFails(s: Sys, schedule: seq<nat>, i: nat, j: nat, role: Role)
    requires i < |s.procs| && j < |s.procs| && i != j
    requires Registration(s.procs[i]) && !Blank(s.procs[i].action.source)
    requires s.procs[j].Request? && s.procs[j].oauth == s.procs[i].action.oauth
    requires ResolveMembership(s.db.members, s.procs[j].user) == Member(s.procs[i].action.org, role)
    requires SeatRows(s.db.seats, s.procs[i].action.org, s.procs[i].action.oauth) == {}
    requires Colliding(s, Exec(s, schedule), i, j, role)
    ensures var after := schedule + [j] + [i];
      |Exec(s, after).procs| == |s.procs| && Exec(s, after).procs[i].pc.Crashed?
  {
    ContactThenWrite(Exec(s, schedule), i, j, role);
    TwoMoreTurns(s, schedule, j, i);
  }

  lemma TwoMoreTurns(s: Sys, schedule: seq<nat>, j: nat, i: nat)
    ensures Exec(s, schedule + [j] + [i]) == Advance(Advance(Exec(s, schedule), j), i)
    ensures |Exec(s, schedule + [j] + [i]).procs| == |s.procs|
  {
    OneMoreTurn(s, schedule, j);
    OneMoreTurn(s, schedule + [j], i);
    HowMany(s, schedule + [j] + [i]);
  }

  // ---------------------------------------------------------------- whether it can fail at all

  /** A call that may create the seat: one of the org's members coming through this client, or a
      registration of it. */
  ghost predicate MakesSeat(members: Members, p: Proc, org: OrgId, oauth: string) {
    match p
    case Request(_, user, c, _, _) =>
      c == oauth && ResolveMembership(members, user).Member? && ResolveMembership(members, user).org == org
    case Operator(_, action, _) =>
      action.RegisterConnector? && action.org == org && action.oauth == oauth && !Blank(action.source)
  }

  lemma OtherRequestMakesNoSeat(db: Db, p: Proc, org: OrgId, oauth: string)
    requires p.Request? && ProcOk(db, p)
    requires !MakesSeat(db.members, p, org, oauth) && SeatRows(db.seats, org, oauth) == {}
    ensures SeatRows(ProcMove(db, p).db.seats, org, oauth) == {}
  {
    if p.pc.InsertSeat? && SeatRows(db.seats, p.pc.org, p.oauth) == {} {
      SeatRowsWith(db.seats, p.first, FirstContactSeat(p.pc.org, p.user, p.oauth), org, oauth);
    } else {
      assert ProcMove(db, p).db.seats == db.seats;
    }
  }

  lemma SeatRowsWith(seats: Seats, id: Id, seat: Seat, org: OrgId, oauth: string)
    requires id !in seats || (seats[id].org == seat.org && seats[id].oauth == seat.oauth)
    ensures SeatRows(seats[id := seat], org, oauth) ==
      SeatRows(seats, org, oauth) + (if seat.org == org && seat.oauth == oauth then {id} else {})
  {
  }

  lemma UpdatedRows(seats: Seats, o: OrgId, c: string, change: SeatChange, org: OrgId, oauth: string)
    ensures SeatRows(UpdateSeats(seats, o, c, change), org, oauth) == SeatRows(seats, org, oauth)
  {
  }

  lemma OtherOperatorMakesNoSeat(db: Db, p: Proc, org: OrgId, oauth: string)
    requires p.Operator? && ProcOk(db, p)
    requires !MakesSeat(db.members, p, org, oauth) && SeatRows(db.seats, org, oauth) == {}
    ensures SeatRows(ProcMove(db, p).db.seats, org, oauth) == {}
  {
    var a := p.action;
    match p.pc
    case AdminSelect =>
      if a.SetConnectorSource? {
        UpdatedRows(db.seats, a.org, a.oauth, NewSource(a.source), org, oauth);
      } else if a.SetSeatStatus? {
        UpdatedRows(db.seats, a.org, a.oauth, NewStatus(a.status, p.first.call), org, oauth);
      }
    case AdminInsert =>
      SeatRowsWith(db.seats, p.first, NewConnector(a.org, a.oauth, a.source, a.registrant, a.displayName, a.scopes),
                   org, oauth);
    case AdminUpdate(id) =>
      SeatRowsWith(db.seats, id, Reregistered(db.seats[id], a.source, a.displayName, a.scopes), org, oauth);
    case _ =>
  }

  /** The registration is out of danger: its source is blank; or it has met the seat, or still will;
      or there is no seat as long as it has not written. */
  ghost predicate OutOfDanger(t: Sys, i: nat, blank: bool, seated: bool)
    requires i < |t.procs| && Registration(t.procs[i])
  {
    var a, pc := t.procs[i].action, t.procs[i].pc;
    var rows := SeatRows(t.db.seats, a.org, a.oauth);
    && !pc.Crashed?
    && (if blank then Blank(a.source) && !pc.AdminInsert?
        else if seated then rows != {} && !pc.AdminInsert?
        else (pc.AdminSelect? || pc.AdminInsert? ==> rows == {}) && !pc.AdminUpdate?)
  }

  lemma OwnTurnIsSafe(t: Sys, i: nat, blank: bool, seated: bool)
    requires Sound(t) && i < |t.procs| && Registration(t.procs[i]) && OutOfDanger(t, i, blank, seated)
    ensures |Advance(t, i).procs| == |t.procs| && Registration(Advance(t, i).procs[i])
    ensures OutOfDanger(Advance(t, i), i, blank, seated)
  {
    var p := t.procs[i];
    ProcMoveOk(t.db, p);
    var m := ProcMove(t.db, p);
    if seated && !blank {
      KeptSeat(t.db.seats, m.db.seats, p.first.call, p.action.org, p.action.oauth);
    }
    AdvanceIs(t, i, m);
  }

  lemma OtherTurnIsSafe(t: Sys, i: nat, j: nat, blank: bool, seated: bool)
    requires Sound(t) && i < |t.procs| && j < |t.procs| && i != j
    requires Registration(t.procs[i]) && OutOfDanger(t, i, blank, seated)
    requires !blank && !seated ==> !MakesSeat(t.db.members, t.procs[j], t.procs[i].action.org, t.procs[i].action.oauth)
    ensures |Advance(t, j).procs| == |t.procs| && Advance(t, j).procs[i] == t.procs[i]
    ensures OutOfDanger(Advance(t, j), i, blank, seated)
  {
    var a, p := t.procs[i].action, t.procs[j];
    ProcMoveOk(t.db, p);
    var m := ProcMove(t.db, p);
    if blank {
    } else if seated {
      KeptSeat(t.db.seats, m.db.seats, p.first.call, a.org, a.oauth);
    } else if SeatRows(t.db.seats, a.org, a.oauth) == {} {
      if p.Request? {
        OtherRequestMakesNoSeat(t.db, p, a.org, a.oauth);
      } else {
        OtherOperatorMakesNoSeat(t.db, p, a.org, a.oauth);
      }
    }
    AdvanceIs(t, j, m);
  }

  /** Some other call may create the seat. */
  ghost predicate HasRival(s: Sys, i: nat, org: OrgId, oauth: string) {
    exists j: nat :: j < |s.procs| && j != i && MakesSeat(s.db.members, s.procs[j], org, oauth)
  }

  lemma SameMaker(s: Sys, t: Sys, j: nat, org: OrgId, oauth: string)
    requires SameCalls(s, t) && j < |s.procs|
    ensures MakesSeat(s.db.members, t.procs[j], org, oauth) == MakesSeat(s.db.members, s.procs[j], org, oauth)
  {
  }

  lemma {:induction false} StaysSafe(s: Sys, schedule: seq<nat>, i: nat, blank: bool, seated: bool)
    requires Initial(s) && i < |s.procs| && Registration(s.procs[i])
    requires var a := s.procs[i].action;
      && OutOfDanger(s, i, blank, seated)
      && (!blank && !seated ==> !HasRival(s, i, a.org, a.oauth))
    ensures var t := Exec(s, schedule);
      && |t.procs| == |s.procs| && Registration(t.procs[i]) && t.procs[i].action == s.procs[i].action
      && OutOfDanger(t, i, blank, seated)
      && t.db.members == s.db.members
  {
    InitialIsSound(s);
    if schedule == [] {
    } else {
      var n := |schedule| - 1;
      StaysSafe(s, schedule[..n], i, blank, seated);
      ExecIsSound(s, schedule[..n]);
      var t, j := Exec(s, schedule[..n]), schedule[n];
      if j < |t.procs| {
        AdvanceKeepsSound(t, j);
        if j == i {
          OwnTurnIsSafe(t, i, blank, seated);
        } else {
          SameMaker(s, t, j, s.procs[i].action.org, s.procs[i].action.oauth);
          OtherTurnIsSafe(t, i, j, blank, seated);
        }
      }
    }
  }

  lemma InsertsTheSeat(db: Db, first: Id, action: AdminOp)
    requires action.RegisterConnector? && SeatRows(db.seats, action.org, action.oauth) == {}
    ensures var m := OperatorMove(db, first, action, AdminInsert);
      m.pc == AdminDone(Done) && SeatRows(m.db.seats, action.org, action.oauth) != {}
  {
    assert first in SeatRows(OperatorMove(db, first, action, AdminInsert).db.seats, action.org, action.oauth);
  }

  /** Another registration of the same connector can do the same: both check, one writes. */
  lemma RegistrationMakesRegistrationFail(s: Sys, i: nat, j: nat)
    requires Initial(s) && i < |s.procs| && j < |s.procs| && i != j
    requires Registration(s.procs[i]) && !Blank(s.procs[i].action.source)
    requires Registration(s.procs[j])
    requires MakesSeat(s.db.members, s.procs[j], s.procs[i].action.org, s.procs[i].action.oauth)
    requires SeatRows(s.db.seats, s.procs[i].action.org, s.procs[i].action.oauth) == {}
    ensures CanFail(s, i)
  {
    var schedule := BothCheck(s, i, j);
    BothChecked(s, schedule, i, j);
  }

  /** Two registrations of one connector have checked and are about to write. */
  ghost predicate BothWriting(u: Sys, i: nat, j: nat) {
    && i < |u.procs| && j < |u.procs| && i != j && Registration(u.procs[i]) && Registration(u.procs[j])
    && u.procs[i].pc == AdminInsert && u.procs[j].pc == AdminInsert && !Blank(u.procs[i].action.source)
    && u.procs[j].action.org == u.procs[i].action.org && u.procs[j].action.oauth == u.procs[i].action.oauth
    && SeatRows(u.db.seats, u.procs[i].action.org, u.procs[i].action.oauth) == {}
  }

  lemma BothCheck(s: Sys, i: nat, j: nat) returns (schedule: seq<nat>)
    requires i < |s.procs| && j < |s.procs| && i != j && Registration(s.procs[i]) && Registration(s.procs[j])
    requires s.procs[i].pc == AdminSelect && s.procs[j].pc == AdminSelect
    requires !Blank(s.procs[i].action.source) && !Blank(s.procs[j].action.source)
    requires s.procs[j].action.org == s.procs[i].action.org && s.procs[j].action.oauth == s.procs[i].action.oauth
    requires SeatRows(s.db.seats, s.procs[i].action.org, s.procs[i].action.oauth) == {}
    ensures BothWriting(Exec(s, schedule), i, j)
  {
    ChecksFirst(s, i);
    ChecksFirst(Placed(s, i, s.db, AdminInsert), j);
    TwoMoreTurns(s, [], i, j);
    schedule := [] + [i] + [j];
  }

  lemma BothChecked(s: Sys, schedule: seq<nat>, i: nat, j: nat)
    requires i < |s.procs| && BothWriting(Exec(s, schedule), i, j)
    ensures CanFail(s, i)
  {
    OneWrites(Exec(s, schedule), i, j);
    TwoMoreTurns(s, schedule, j, i);
  }

  lemma OneWrites(u: Sys, i: nat, j: nat)
    requires BothWriting(u, i, j)
    ensures Advance(Advance(u, j), i).procs[i].pc == Crashed
  {
    var a, b := u.procs[i], u.procs[j];
    InsertsTheSeat(u.db, b.first, b.action);
    var m := OperatorMove(u.db, b.first, b.action, AdminInsert);
    WritesTooLate(u.db, m.db, a.first, a.action);
    OperatorTurn(u, j, AdminInsert, m);
    OperatorTurn(Advance(u, j), i, AdminInsert, Move(m.db, Crashed));
  }

  ghost predicate CanFail(s: Sys, i: nat)
    requires i < |s.procs|
  {
    exists schedule :: |Exec(s, schedule).procs| == |s.procs| && Exec(s, schedule).procs[i].pc.Crashed?
  }

  /** Whether a registration can fail, told beforehand: some schedule makes it fail if and only if its
      source is not blank, the seat does not exist yet, and another call may create it, be it a member
      of the org coming through that client or another registration of it. */
  lemma RegistrationCanFailIff(s: Sys, i: nat)
    requires Initial(s) && i < |s.procs| && Registration(s.procs[i])
    ensures var a := s.procs[i].action;
      CanFail(s, i) <==>
        !Blank(a.source) && SeatRows(s.db.seats, a.org, a.oauth) == {} && HasRival(s, i, a.org, a.oauth)
  {
    var a := s.procs[i].action;
    var blank, seated := Blank(a.source), SeatRows(s.db.seats, a.org, a.oauth) != {};
    if !blank && !seated && HasRival(s, i, a.org, a.oauth) {
      RivalMakesItFail(s, i);
    } else {
      assert OutOfDanger(s, i, blank, seated);
      forall schedule: seq<nat>
        ensures |Exec(s, schedule).procs| == |s.procs| && !Exec(s, schedule).procs[i].pc.Crashed?
      {
        StaysSafe(s, schedule, i, blank, seated);
      }
    }
  }

  lemma RivalMakesItFail(s: Sys, i: nat)
    requires Initial(s) && i < |s.procs| && Registration(s.procs[i]) && !Blank(s.procs[i].action.source)
    requires SeatRows(s.db.seats, s.procs[i].action.org, s.procs[i].action.oauth) == {}
    requires HasRival(s, i, s.procs[i].action.org, s.procs[i].action.oauth)
    ensures CanFail(s, i)
  {
    var a := s.procs[i].action;
    var j: nat :| j < |s.procs| && j != i && MakesSeat(s.db.members, s.procs[j], a.org, a.oauth);
    if s.procs[j].Request? {
      FirstContactMakesRegistrationFail(s, i, j, ResolveMembership(s.db.members, s.procs[j].user).role);
    } else {
      RegistrationMakesRegistrationFail(s, i, j);
    }
  }
}
