/** Connector seats: revocation over runs, and its effect on everybody else. */
module Revocation {
  import opened Schema
  import opened Tools
  import opened Lifecycle

  /** A seat is revoked exactly when its revocation time is set. */
  ghost predicate Stamped(seats: Seats) {
    forall id | id in seats :: seats[id].status == Revoked <==> seats[id].revokedAt.Some?
  }

  lemma StepKeepsStamps(db: Db, e: Event)
    requires Stamped(db.seats)
    ensures Stamped(Step(db, e).db.seats)
  {
  }

  lemma {:induction false} RunKeepsStamps(db: Db, es: seq<Event>)
    requires Stamped(db.seats)
    ensures Stamped(Run(db, es).seats)
  {
    if es == [] {
    } else {
      RunKeepsStamps(db, es[..|es| - 1]);
      StepKeepsStamps(Run(db, es[..|es| - 1]), es[|es| - 1]);
    }
  }

  /** The operator actions that bring a seat back. */
  predicate Reactivates(e: Event, org: OrgId, oauth: string) {
    e.Admin? &&
    match e.action
    case RegisterConnector(o, c, source, _, _, _) => o == org && c == oauth && !Blank(source)
    case SetSeatStatus(o, c, status) => o == org && c == oauth && status == Live
    case _ => false
  }

  /** A call that resolves to this seat. */
  ghost predicate Through(members: Members, e: Event, org: OrgId, oauth: string) {
    e.Call? && e.oauth == oauth && ResolveMembership(members, e.user).Member?
    && ResolveMembership(members, e.user).org == org
  }

  ghost predicate HeldBy(seats: Seats, org: OrgId, oauth: string, sid: Id) {
    SeatRows(seats, org, oauth) == {sid}
  }

  /** Every call through a revoked seat, by any member, fails, changes no fact and no seat, and
      leaves one audit row without fact ids. */
  lemma RevokedSeatIsRefused(db: Db, e: Event, org: OrgId, oauth: string, sid: Id)
    requires HeldBy(db.seats, org, oauth, sid) && sid in db.seats && db.seats[sid].status == Revoked
    requires Through(db.members, e, org, oauth)
    ensures Step(db, e).reply == Failed(SeatRevoked)
    ensures Step(db, e).db == db.(audit := db.audit + [AuditRow(org, e.user, sid, ToolName(e.op), [])])
  {
    assert sid in SeatRows(db.seats, org, oauth);
  }

  lemma StillHeld(before: Seats, after: Seats, org: OrgId, oauth: string, sid: Id)
    requires HeldBy(before, org, oauth, sid) && SeatsPersist(before, after) && UniqueSeats(after)
    ensures HeldBy(after, org, oauth, sid)
  {
    assert sid in SeatRows(before, org, oauth);
    assert sid in SeatRows(after, org, oauth);
  }

  lemma CallKeepsStatus(db: Db, first: Id, user: UserId, oauth: string, op: Op, sid: Id)
    requires UniqueSeats(db.seats) && first !in db.seats && sid in db.seats
    ensures var seats := StepCall(db, first, user, oauth, op).db.seats; sid in seats && seats[sid] == db.seats[sid]
  {
    var m := ResolveMembership(db.members, user);
    if m.Member? {
      ResolveSeatGrows(db.seats, m.org, user, oauth, first);
    }
  }

  lemma AdminKeepsRevoked(db: Db, first: Id, action: AdminOp, org: OrgId, oauth: string, sid: Id)
    requires HeldBy(db.seats, org, oauth, sid) && first !in db.seats
    requires sid in db.seats && db.seats[sid].status == Revoked
    requires !Reactivates(Admin(first, action), org, oauth)
    ensures var seats := StepAdmin(db, first, action).db.seats; sid in seats && seats[sid].status == Revoked
  {
    assert sid in SeatRows(db.seats, org, oauth);
    if action.RegisterConnector? {
      var rows := SeatRows(db.seats, action.org, action.oauth);
      assert rows != {} ==> Pick(rows) in rows;
    }
  }

  /** Only operators reactivate: no request and no other operator action does. */
  lemma StaysRevoked(db: Db, e: Event, org: OrgId, oauth: string, sid: Id)
    requires Indexed(db) && Before(db, e.first.call)
    requires HeldBy(db.seats, org, oauth, sid) && sid in db.seats && db.seats[sid].status == Revoked
    requires !Reactivates(e, org, oauth)
    ensures var seats := Step(db, e).db.seats;
      HeldBy(seats, org, oauth, sid) && sid in seats && seats[sid].status == Revoked
  {
    StepEvolves(db, e);
    StillHeld(db.seats, Step(db, e).db.seats, org, oauth, sid);
    match e
    case Call(first, user, c, op) => CallKeepsStatus(db, first, user, c, op, sid);
    case Admin(first, action) => AdminKeepsRevoked(db, first, action, org, oauth, sid);
  }

  // ---------------------------------------------------------------- everybody else

  /** The log without the rows written through one seat. */
  function AuditWithout(rows: seq<AuditRow>, sid: Id): seq<AuditRow> {
    if rows == [] then []
    else AuditWithout(rows[..|rows| - 1], sid) + (if rows[|rows| - 1].seat == sid then [] else [rows[|rows| - 1]])
  }

  ghost predicate SeatsAlike(sid: Id, s: Seats, t: Seats) {
    && s.Keys == t.Keys && sid in s
    && s[sid].org == t[sid].org && s[sid].oauth == t[sid].oauth
    && (forall id | id in s && id != sid :: s[id] == t[id])
  }

  /** States that differ in nothing but one seat and what was logged through it. */
  ghost predicate AlikeBut(sid: Id, s: Db, t: Db) {
    && s.members == t.members && s.facts == t.facts && SeatsAlike(sid, s.seats, t.seats)
    && AuditWithout(s.audit, sid) == AuditWithout(t.audit, sid)
  }

  lemma AuditWithoutAppend(rows: seq<AuditRow>, row: AuditRow, sid: Id)
    ensures AuditWithout(rows + [row], sid) == AuditWithout(rows, sid) + (if row.seat == sid then [] else [row])
  {
    assert (rows + [row])[..|rows|] == rows;
  }

  lemma AlikeRows(sid: Id, s: Db, t: Db, org: OrgId, oauth: string)
    requires AlikeBut(sid, s, t)
    ensures SeatRows(s.seats, org, oauth) == SeatRows(t.seats, org, oauth)
  {
  }

  lemma EntryAlike(sid: Id, s: Db, t: Db, org: OrgId, role: Role, first: Id, user: UserId, oauth: string)
    requires AlikeBut(sid, s, t) && first !in s.seats
    requires s.seats[sid].org != org || s.seats[sid].oauth != oauth
    ensures var a, b := Enter(s, org, role, first, user, oauth), Enter(t, org, role, first, user, oauth);
      a.ctx.seat != sid && a.ctx == b.ctx && a.revoked == b.revoked && SeatsAlike(sid, a.seats, b.seats)
      && a.seats[sid] == s.seats[sid] && b.seats[sid] == t.seats[sid]
  {
    AlikeRows(sid, s, t, org, oauth);
    assert sid !in SeatRows(s.seats, org, oauth);
  }

  lemma LogAlike(sid: Id, s: Db, t: Db, s': Db, t': Db, row: AuditRow)
    requires AlikeBut(sid, s, t) && row.seat != sid
    requires s'.members == t'.members && s'.facts == t'.facts && SeatsAlike(sid, s'.seats, t'.seats)
    requires
      || (s'.audit == s.audit && t'.audit == t.audit)
      || (s'.audit == s.audit + [row] && t'.audit == t.audit + [row])
    ensures AlikeBut(sid, s', t')
  {
    AuditWithoutAppend(s.audit, row, sid);
    AuditWithoutAppend(t.audit, row, sid);
  }

  /** A call through another seat does the same in both states. */
  lemma OtherCallsAlike(sid: Id, s: Db, t: Db, first: Id, user: UserId, oauth: string, op: Op)
    requires AlikeBut(sid, s, t) && first !in s.seats
    requires !Through(s.members, Call(first, user, oauth, op), s.seats[sid].org, s.seats[sid].oauth)
    ensures AlikeBut(sid, StepCall(s, first, user, oauth, op).db, StepCall(t, first, user, oauth, op).db)
    ensures StepCall(s, first, user, oauth, op).reply == StepCall(t, first, user, oauth, op).reply
  {
    var m := ResolveMembership(s.members, user);
    if m.Member? {
      EntryAlike(sid, s, t, m.org, m.role, first, user, oauth);
      var a := Enter(s, m.org, m.role, first, user, oauth);
      var ids := if a.revoked then [] else Act(s.facts, a.ctx, first, op).ids;
      LogAlike(sid, s, t, StepCall(s, first, user, oauth, op).db, StepCall(t, first, user, oauth, op).db,
               AuditRow(m.org, user, a.ctx.seat, ToolName(op), ids));
    }
  }

  lemma RegisterAlike(sid: Id, s: Db, t: Db, first: Id, action: AdminOp)
    requires AlikeBut(sid, s, t) && first !in s.seats && action.RegisterConnector?
    ensures AlikeBut(sid, StepAdmin(s, first, action).db, StepAdmin(t, first, action).db)
    ensures StepAdmin(s, first, action).reply == StepAdmin(t, first, action).reply
  {
    AlikeRows(sid, s, t, action.org, action.oauth);
    var rows := SeatRows(s.seats, action.org, action.oauth);
    if !Blank(action.source) && rows != {} {
      var id := Pick(rows);
      assert id in s.seats && id in t.seats;
      if id != sid {
        assert s.seats[id] == t.seats[id];
      }
    }
  }

  lemma AdminAlike(sid: Id, s: Db, t: Db, first: Id, action: AdminOp)
    requires AlikeBut(sid, s, t) && first !in s.seats
    ensures AlikeBut(sid, StepAdmin(s, first, action).db, StepAdmin(t, first, action).db)
    ensures StepAdmin(s, first, action).reply == StepAdmin(t, first, action).reply
  {
    match action
    case RegisterConnector(_, _, _, _, _, _) => RegisterAlike(sid, s, t, first, action);
    case SetConnectorSource(org, oauth, source) =>
      UpdateAlike(sid, s.seats, t.seats, org, oauth, NewSource(source));
    case SetSeatStatus(org, oauth, status) =>
      UpdateAlike(sid, s.seats, t.seats, org, oauth, NewStatus(status, first.call));
    case _ =>
  }

  lemma UpdateAlike(sid: Id, s: Seats, t: Seats, org: OrgId, oauth: string, change: SeatChange)
    requires SeatsAlike(sid, s, t)
    ensures SeatsAlike(sid, UpdateSeats(s, org, oauth, change), UpdateSeats(t, org, oauth, change))
  {
  }

  /** The run without the calls through the seat. */
  ghost function Without(db: Db, es: seq<Event>, org: OrgId, oauth: string): seq<Event> {
    if es == [] then []
    else
      var n := |es| - 1;
      Without(db, es[..n], org, oauth) + (if Through(Run(db, es[..n]).members, es[n], org, oauth) then [] else [es[n]])
  }

  /** What every other event is answered. */
  ghost function OtherReplies(db: Db, es: seq<Event>, org: OrgId, oauth: string): seq<Reply> {
    if es == [] then []
    else
      var n := |es| - 1;
      var s := Run(db, es[..n]);
      OtherReplies(db, es[..n], org, oauth)
        + (if Through(s.members, es[n], org, oauth) then [] else [Step(s, es[n]).reply])
  }

  lemma {:induction false} RevokedRun(s: Db, t: Db, es: seq<Event>, org: OrgId, oauth: string, sid: Id)
    requires Indexed(s) && Fresh(s, es) && AlikeBut(sid, s, t)
    requires HeldBy(s.seats, org, oauth, sid) && s.seats[sid].status == Revoked
    requires s.seats[sid].org == org && s.seats[sid].oauth == oauth
    requires forall e :: e in es ==> !Reactivates(e, org, oauth)
    ensures AlikeBut(sid, Run(s, es), Run(t, Without(s, es, org, oauth)))
    ensures OtherReplies(s, es, org, oauth) == OtherReplies(t, Without(s, es, org, oauth), org, oauth)
    ensures var r := Run(s, es).seats;
      HeldBy(r, org, oauth, sid) && sid in r && r[sid].status == Revoked && r[sid].org == org && r[sid].oauth == oauth
  {
    if es == [] {
    } else {
      var n := |es| - 1;
      LastStepIsFresh(s, es);
      RevokedRun(s, t, es[..n], org, oauth, sid);
      var a, w := Run(s, es[..n]), Without(s, es[..n], org, oauth);
      var b := Run(t, w);
      StaysRevoked(a, es[n], org, oauth, sid);
      StepEvolves(a, es[n]);
      if Through(a.members, es[n], org, oauth) {
        RevokedSeatIsRefused(a, es[n], org, oauth, sid);
        AuditWithoutAppend(a.audit, AuditRow(org, es[n].user, sid, ToolName(es[n].op), []), sid);
        assert Without(s, es, org, oauth) == w;
      } else {
        assert (w + [es[n]])[..|w|] == w;
        match es[n]
        case Call(first, user, c, op) => OtherCallsAlike(sid, a, b, first, user, c, op);
        case Admin(first, action) => AdminAlike(sid, a, b, first, action);
      }
    }
  }

  lemma JustRevoked(db: Db, first: Id, es: seq<Event>, org: OrgId, oauth: string, sid: Id)
    requires Indexed(db) && HeldBy(db.seats, org, oauth, sid) && Fresh(db, es)
    ensures var revoked := Step(db, Admin(first, SetSeatStatus(org, oauth, Revoked))).db;
      && Indexed(revoked) && Fresh(revoked, es) && AlikeBut(sid, revoked, db)
      && HeldBy(revoked.seats, org, oauth, sid) && revoked.seats[sid].status == Revoked
      && revoked.seats[sid].org == org && revoked.seats[sid].oauth == oauth
  {
    var revoked := Step(db, Admin(first, SetSeatStatus(org, oauth, Revoked))).db;
    assert sid in SeatRows(db.seats, org, oauth);
    assert forall id :: id in SeatRows(revoked.seats, org, oauth) <==> id in SeatRows(db.seats, org, oauth);
    assert forall id | id in db.seats && id != sid :: id !in SeatRows(db.seats, org, oauth);
    forall i | 0 <= i < |es| ensures Before(revoked, es[i].first.call) {
      assert Before(db, es[i].first.call);
    }
  }

  /** From the revocation until a reactivation, every call through the seat, by any member and at
      any point of any run, is refused, changes no table but the log, and leaves one row without
      fact ids there. */
  lemma RevokedUntilReactivated(db: Db, first: Id, es: seq<Event>, i: nat, org: OrgId, oauth: string, sid: Id)
    requires Indexed(db) && HeldBy(db.seats, org, oauth, sid) && Fresh(db, es) && i < |es|
    requires forall e :: e in es[..i] ==> !Reactivates(e, org, oauth)
    requires var revoked := Step(db, Admin(first, SetSeatStatus(org, oauth, Revoked))).db;
      Through(Run(revoked, es[..i]).members, es[i], org, oauth)
    ensures var s := Run(Step(db, Admin(first, SetSeatStatus(org, oauth, Revoked))).db, es[..i]);
      var row := AuditRow(org, es[i].user, sid, ToolName(es[i].op), []);
      Step(s, es[i]) == Result(s.(audit := s.audit + [row]), Failed(SeatRevoked))
  {
    var revoked := Step(db, Admin(first, SetSeatStatus(org, oauth, Revoked))).db;
    JustRevoked(db, first, es, org, oauth, sid);
    FreshPrefix(revoked, es, i);
    RevokedRun(revoked, db, es[..i], org, oauth, sid);
    RevokedSeatIsRefused(Run(revoked, es[..i]), es[i], org, oauth, sid);
  }

  /** Revoking a seat silences that seat and nothing else: until it is reactivated, any run goes
      on exactly as the same run without the calls through that seat would have gone without the
      revocation: same facts, same other seats, same log of everyone else, same replies. */
  lemma RevocationSilencesOneSeat(db: Db, first: Id, es: seq<Event>, org: OrgId, oauth: string, sid: Id)
    requires Indexed(db) && HeldBy(db.seats, org, oauth, sid)
    requires forall e :: e in es ==> !Reactivates(e, org, oauth)
    requires Fresh(db, es)
    ensures var revoked := Step(db, Admin(first, SetSeatStatus(org, oauth, Revoked))).db;
      var others := Without(revoked, es, org, oauth);
      && AlikeBut(sid, Run(revoked, es), Run(db, others))
      && OtherReplies(revoked, es, org, oauth) == OtherReplies(db, others, org, oauth)
  {
    var revoked := Step(db, Admin(first, SetSeatStatus(org, oauth, Revoked))).db;
    JustRevoked(db, first, es, org, oauth, sid);
    RevokedRun(revoked, db, es, org, oauth, sid);
  }
}
