/** Operator actions: what they make of memberships and seats, and what undoes or repeats them. */
module Registration {
  import opened Schema
  import opened Tools
  import opened Lifecycle
  import opened Revocation

  // ---------------------------------------------------------------- members

  /** The user has no membership but possibly this one. */
  predicate OnlyIn(members: Members, user: UserId, org: OrgId) {
    forall k :: k in members && k.user == user ==> k.org == org
  }

  lemma OrgsAfterAdding(members: Members, org: OrgId, user: UserId, role: Role)
    ensures UserOrgIds(members[MemberKey(org, user) := role], user) == UserOrgIds(members, user) + {org}
  {
    var after := members[MemberKey(org, user) := role];
    forall o ensures o in UserOrgIds(after, user) <==> o in UserOrgIds(members, user) + {org} {
      OrgIffKey(members, user, o);
      OrgIffKey(after, user, o);
    }
  }

  lemma OrgsAfterRemoving(members: Members, org: OrgId, user: UserId)
    ensures UserOrgIds(members - {MemberKey(org, user)}, user) == UserOrgIds(members, user) - {org}
  {
    var after := members - {MemberKey(org, user)};
    forall o ensures o in UserOrgIds(after, user) <==> o in UserOrgIds(members, user) - {org} {
      OrgIffKey(members, user, o);
      OrgIffKey(after, user, o);
    }
  }

  /** Adding a member decides who they are served as: as that role, if they have no other org;
      with a second org they are refused altogether. Adding twice is adding once. */
  lemma AddedMemberResolves(db: Db, first: Id, first': Id, org: OrgId, user: UserId, role: Role)
    ensures var after := StepAdmin(db, first, AddMember(org, user, Some(role))).db;
      && ResolveMembership(after.members, user) ==
           (if OnlyIn(db.members, user, org) then Member(org, role) else Refused(MultiOrg))
      && StepAdmin(after, first', AddMember(org, user, Some(role))).db == after
      && forall u :: u != user ==> ResolveMembership(after.members, u) == ResolveMembership(db.members, u)
  {
    var after := StepAdmin(db, first, AddMember(org, user, Some(role))).db.members;
    var orgs := UserOrgIds(db.members, user);
    OrgsAfterAdding(db.members, org, user, role);
    assert orgs <= {org} <==> OnlyIn(db.members, user, org) by {
      assert forall k :: k in db.members && k.user == user ==> k.org in orgs;
    }
    if orgs <= {org} {
      assert orgs + {org} == {org};
    } else {
      var o :| o in orgs && o != org;
      TwoOrMore(orgs + {org}, org, o);
    }
    forall u | u != user ensures ResolveMembership(after, u) == ResolveMembership(db.members, u) {
      SameMemberships(db.members, after, u, org);
    }
  }

  /** Removing a member takes that org away and nothing else: refused if it was their only one, and
      served again as the member of the other if they had two. */
  lemma RemovedMemberResolves(db: Db, first: Id, org: OrgId, user: UserId)
    ensures var after := StepAdmin(db, first, RemoveMember(org, user)).db;
      && UserOrgIds(after.members, user) == UserOrgIds(db.members, user) - {org}
      && (UserOrgIds(db.members, user) <= {org} ==> ResolveMembership(after.members, user) == Refused(NoOrg))
      && (forall o | o != org && UserOrgIds(db.members, user) == {org, o} ::
            MemberKey(o, user) in db.members
            && ResolveMembership(after.members, user) == Member(o, db.members[MemberKey(o, user)]))
      && forall u :: u != user ==> ResolveMembership(after.members, u) == ResolveMembership(db.members, u)
  {
    var after := StepAdmin(db, first, RemoveMember(org, user)).db.members;
    var orgs := UserOrgIds(db.members, user);
    OrgsAfterRemoving(db.members, org, user);
    forall o | o != org && orgs == {org, o}
      ensures MemberKey(o, user) in db.members
      ensures ResolveMembership(after, user) == Member(o, db.members[MemberKey(o, user)])
    {
      assert orgs - {org} == {o};
      OrgIffKey(db.members, user, o);
    }
    forall u | u != user ensures ResolveMembership(after, u) == ResolveMembership(db.members, u) {
      SameMemberships(db.members, after, u, org);
    }
  }

  lemma OrgIffKey(members: Members, user: UserId, org: OrgId)
    ensures org in UserOrgIds(members, user) <==> MemberKey(org, user) in members
  {
  }

  lemma TwoOrMore<T>(s: set<T>, a: T, b: T)
    requires a in s && b in s && a != b
    ensures |s| > 1
  {
    assert s == {a, b} + (s - {a, b});
  }

  lemma SameMemberships(before: Members, after: Members, user: UserId, org: OrgId)
    requires forall k: MemberKey :: k.user == user ==> (k in before <==> k in after)
    requires forall k: MemberKey :: k.user == user && k in before && k in after ==> before[k] == after[k]
    ensures ResolveMembership(after, user) == ResolveMembership(before, user)
  {
    assert UserOrgIds(after, user) == UserOrgIds(before, user) by {
      forall o ensures o in UserOrgIds(after, user) <==> o in UserOrgIds(before, user) {
        OrgIffKey(before, user, o);
        OrgIffKey(after, user, o);
      }
    }
    SingleMembership(before, user);
  }

  // ---------------------------------------------------------------- seats

  /** The characters with the Unicode property White_Space, and the four ASCII separators that Python
      counts among them. */
  const WHITE_SPACE: string :=
    "\t\n\U{0b}\U{0c}\r\U{1c}\U{1d}\U{1e}\U{1f} \U{85}\U{a0}\U{1680}\U{2000}\U{2001}\U{2002}\U{2003}"
    + "\U{2004}\U{2005}\U{2006}\U{2007}\U{2008}\U{2009}\U{200a}\U{2028}\U{2029}\U{202f}\U{205f}\U{3000}"

  /** `register_connector` and `set_connector_source` refuse a source, and then change nothing, if and
      only if it has no character other than white space. */
  lemma SourceIsRefusedIff(db: Db, first: Id, action: AdminOp)
    requires action.RegisterConnector? || action.SetConnectorSource?
    ensures StepAdmin(db, first, action) == Result(db, Failed(BadArgument)) <==>
      forall c :: c in action.source ==> c in WHITE_SPACE
    ensures var r := StepAdmin(db, first, action); r.reply == Done || r == Result(db, Failed(BadArgument))
  {
    forall c: char ensures IsSpace(c) <==> c in WHITE_SPACE {
      SpacesListed(c);
    }
  }

  lemma SpacesListed(c: char)
    ensures IsSpace(c) <==> c in WHITE_SPACE
  {
  }

  /** A registration as an operator makes it. */
  datatype Registered = Registered(org: OrgId, oauth: string, source: string, registrant: UserId,
                                   displayName: Option<string>, scopes: Option<seq<string>>)

  function Register(r: Registered): AdminOp {
    RegisterConnector(r.org, r.oauth, r.source, r.registrant, r.displayName, r.scopes)
  }

  /** The row after registering: live, attributed, and overwritten only where a value was given. */
  predicate AsRegistered(seat: Seat, r: Registered) {
    && seat.org == r.org && seat.oauth == r.oauth && seat.status == Live && seat.revokedAt == None
    && seat.source == Some(r.source)
    && (r.displayName.Some? ==> seat.displayName == r.displayName.value)
    && (r.scopes.Some? ==> seat.scopes == r.scopes.value)
  }

  /** What registering leaves behind in the seats table. */
  ghost predicate Registers(before: Seats, after: Seats, r: Registered, sid: Id) {
    && SeatRows(after, r.org, r.oauth) == {sid} && sid in after && AsRegistered(after[sid], r)
    && after.Keys == before.Keys + {sid}
    && (forall id | id in before && id != sid :: after[id] == before[id])
    && (sid in before ==>
          && after[sid].registrant == before[sid].registrant
          && (r.displayName.None? ==> after[sid].displayName == before[sid].displayName)
          && (r.scopes.None? ==> after[sid].scopes == before[sid].scopes))
    && (sid !in before ==>
          && after[sid].registrant == r.registrant
          && (r.displayName.None? ==> after[sid].displayName == r.oauth)
          && (r.scopes.None? ==> after[sid].scopes == DEFAULT_SCOPES))
  }

  /** Registering creates the seat or updates the one there is, in place, and reactivates it. */
  lemma RegisteringSettlesTheSeat(db: Db, first: Id, r: Registered)
    requires Indexed(db) && Before(db, first.call) && !Blank(r.source)
    ensures var rows := SeatRows(db.seats, r.org, r.oauth);
      Registers(db.seats, StepAdmin(db, first, Register(r)).db.seats, r, if rows != {} then Pick(rows) else first)
  {
    var rows := SeatRows(db.seats, r.org, r.oauth);
    var sid := if rows != {} then Pick(rows) else first;
    var after := StepAdmin(db, first, Register(r)).db.seats;
    assert rows != {} ==> sid in rows;
    assert forall id :: id in db.seats && db.seats[id].org == r.org && db.seats[id].oauth == r.oauth ==> id in rows;
    assert forall id :: id in SeatRows(after, r.org, r.oauth) <==> id == sid;
  }

  /** Registering again with the same values changes nothing. */
  lemma RegisteringTwiceIsOnce(db: Db, first: Id, first': Id, r: Registered)
    requires Indexed(db) && Before(db, first.call)
    ensures var once := StepAdmin(db, first, Register(r)).db;
      StepAdmin(once, first', Register(r)).db == once
  {
    if !Blank(r.source) {
      RegisteringSettlesTheSeat(db, first, r);
      var once := StepAdmin(db, first, Register(r)).db;
      var rows := SeatRows(once.seats, r.org, r.oauth);
      var sid := Pick(rows);
      assert Reregistered(once.seats[sid], r.source, r.displayName, r.scopes) == once.seats[sid];
      assert once.seats[sid := once.seats[sid]] == once.seats;
    }
  }

  /** An operator action on this seat. */
  predicate OnSeat(e: Event, org: OrgId, oauth: string) {
    e.Admin? &&
    match e.action
    case RegisterConnector(o, c, _, _, _, _) => o == org && c == oauth
    case SetConnectorSource(o, c, _) => o == org && c == oauth
    case SetSeatStatus(o, c, _) => o == org && c == oauth
    case _ => false
  }

  lemma AdminKeepsSeat(db: Db, first: Id, action: AdminOp, org: OrgId, oauth: string, sid: Id)
    requires HeldBy(db.seats, org, oauth, sid) && first !in db.seats && !OnSeat(Admin(first, action), org, oauth)
    ensures var seats := StepAdmin(db, first, action).db.seats; sid in seats && seats[sid] == db.seats[sid]
  {
    assert sid in SeatRows(db.seats, org, oauth);
    if action.RegisterConnector? {
      var rows := SeatRows(db.seats, action.org, action.oauth);
      assert rows != {} ==> Pick(rows) in rows;
    }
  }

  lemma StepKeepsSeat(db: Db, e: Event, org: OrgId, oauth: string, sid: Id)
    requires Indexed(db) && Before(db, e.first.call) && HeldBy(db.seats, org, oauth, sid) && !OnSeat(e, org, oauth)
    ensures var seats := Step(db, e).db.seats;
      HeldBy(seats, org, oauth, sid) && sid in seats && sid in db.seats && seats[sid] == db.seats[sid]
  {
    assert sid in SeatRows(db.seats, org, oauth);
    StepEvolves(db, e);
    StillHeld(db.seats, Step(db, e).db.seats, org, oauth, sid);
    match e
    case Call(first, user, c, op) => CallKeepsStatus(db, first, user, c, op, sid);
    case Admin(first, action) => AdminKeepsSeat(db, first, action, org, oauth, sid);
  }

  lemma {:induction false} RunKeepsSeat(db: Db, es: seq<Event>, org: OrgId, oauth: string, sid: Id)
    requires Indexed(db) && Fresh(db, es) && HeldBy(db.seats, org, oauth, sid)
    requires forall e :: e in es ==> !OnSeat(e, org, oauth)
    ensures var seats := Run(db, es).seats;
      HeldBy(seats, org, oauth, sid) && sid in seats && sid in db.seats && seats[sid] == db.seats[sid]
  {
    if es == [] {
      assert sid in SeatRows(db.seats, org, oauth);
    } else {
      var n := |es| - 1;
      LastStepIsFresh(db, es);
      RunKeepsSeat(db, es[..n], org, oauth, sid);
      StepKeepsSeat(Run(db, es[..n]), es[n], org, oauth, sid);
    }
  }

  /** From its registration on, through any run without another operator action on this seat, a
      connector's calls go through the registered seat, with the granted scopes and attributed to the
      given source, without a first contact. */
  lemma RegisteredSeatServes(db: Db, first: Id, r: Registered, es: seq<Event>, role: Role, first': Id, user: UserId)
    requires Indexed(db) && Before(db, first.call) && !Blank(r.source)
    requires Fresh(StepAdmin(db, first, Register(r)).db, es) && forall e :: e in es ==> !OnSeat(e, r.org, r.oauth)
    ensures var rows := SeatRows(db.seats, r.org, r.oauth);
      var now := Run(StepAdmin(db, first, Register(r)).db, es);
      var e := Enter(now, r.org, role, first', user, r.oauth);
      && e.seats == now.seats && !e.revoked && e.ctx.seat == (if rows != {} then Pick(rows) else first)
      && e.ctx.source == Some(r.source) && (r.scopes.Some? ==> e.ctx.scopes == r.scopes.value)
  {
    var rows := SeatRows(db.seats, r.org, r.oauth);
    var after := StepAdmin(db, first, Register(r)).db;
    RegisteringSettlesTheSeat(db, first, r);
    AdminKeepsIndex(db, first, Register(r));
    RunKeepsSeat(after, es, r.org, r.oauth, if rows != {} then Pick(rows) else first);
  }

  /** Reinstating a live seat that was revoked restores the table exactly; revoking is idempotent up
      to its time stamp. */
  lemma ReinstateUndoesRevoke(db: Db, first: Id, first': Id, org: OrgId, oauth: string)
    requires Stamped(db.seats)
    requires forall id | id in SeatRows(db.seats, org, oauth) :: db.seats[id].status == Live
    ensures var revoked := StepAdmin(db, first, SetSeatStatus(org, oauth, Revoked)).db;
      && (forall id | id in SeatRows(db.seats, org, oauth) ::
            id in revoked.seats && revoked.seats[id].status == Revoked)
      && StepAdmin(revoked, first', SetSeatStatus(org, oauth, Live)).db == db
  {
    var revoked := StepAdmin(db, first, SetSeatStatus(org, oauth, Revoked)).db;
    var after := StepAdmin(revoked, first', SetSeatStatus(org, oauth, Live)).db;
    forall id | id in db.seats ensures after.seats[id] == db.seats[id] {
      if db.seats[id].org == org && db.seats[id].oauth == oauth {
        assert id in SeatRows(db.seats, org, oauth);
      }
    }
    assert after.seats == db.seats;
  }
}
