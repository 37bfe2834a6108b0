/** What interleaving can do that atomic calls cannot: the review decision checks that a fact is
    pending in one request and overwrites its status, whatever it is by then, in the next. */
module Race {
  import opened Schema
  import opened Intake
  import opened Tools
  import opened Lifecycle
  import opened Chains
  import opened Interleaving
  import opened Schedules
  import Prospects

  /** A fact that has been superseded and still says so. */
  predicate LinkedIsSuperseded(facts: Facts, id: Id) {
    id in facts && facts[id].supersededBy.Some? ==> facts[id].status == Superseded
  }

  /** A fact that has been superseded and is active or rejected all the same. */
  predicate Revived(facts: Facts, id: Id) {
    id in facts && facts[id].supersededBy.Some? && facts[id].status != Superseded
  }

  ghost predicate Reviews(p: Proc, id: Id) {
    p.Request? && (p.op == PromoteFact(Uuid(id)) || (p.op.RejectFact? && p.op.arg == Uuid(id)))
  }

  ghost predicate Supersedes(p: Proc, id: Id) {
    p.Request? && p.op.SupersedeFact? && p.op.target == Uuid(id)
  }

  // ---------------------------------------------------------------- when it cannot happen

  predicate UpdatesStatusOf(p: Proc, id: Id) {
    p.pc.UpdateStatus? && p.pc.id == id
  }

  predicate Retires(p: Proc, id: Id) {
    p.pc.UpdateTarget? && p.pc.target == id
  }

  /** A request that is not a review's update of this fact leaves it superseded if it was. */
  lemma MoveKeepsLinked(db: Db, p: Proc, id: Id)
    requires ProcOk(db, p) && !UpdatesStatusOf(p, id) && LinkedIsSuperseded(db.facts, id)
    ensures LinkedIsSuperseded(ProcMove(db, p).db.facts, id)
  {
  }

  /** A request that does not retire the fact leaves its link alone. */
  lemma MoveKeepsLink(db: Db, p: Proc, id: Id)
    requires ProcOk(db, p) && !Retires(p, id)
    ensures var after := ProcMove(db, p).db.facts;
      && (id in db.facts ==> id in after && after[id].supersededBy == db.facts[id].supersededBy)
      && (id !in db.facts && id in after ==> after[id].supersededBy.None?)
  {
  }

  /** A review that has checked the fact has found it unlinked. */
  predicate ChecksUnlinked(facts: Facts, p: Proc, id: Id) {
    UpdatesStatusOf(p, id) && id in facts ==> facts[id].supersededBy.None?
  }

  lemma CheckFindsUnlinked(db: Db, p: Proc, id: Id)
    requires ProcOk(db, p) && LinkedIsSuperseded(db.facts, id)
    requires ChecksUnlinked(db.facts, p, id) && !Retires(p, id)
    ensures var m := ProcMove(db, p); LinkedIsSuperseded(m.db.facts, id) && ChecksUnlinked(m.db.facts, At(p, m.pc), id)
  {
    MoveKeepsLink(db, p, id);
    if !UpdatesStatusOf(p, id) {
      MoveKeepsLinked(db, p, id);
      ReachesUpdate(db, p);
    }
  }

  /** The only way to a review's update is its check. */
  lemma ReachesUpdate(db: Db, p: Proc)
    requires ProcOk(db, p)
    ensures ProcMove(db, p).pc.UpdateStatus? ==> p.pc == ProcMove(db, p).pc || (p.Request? && p.pc.SelectPending?)
  {
    if p.Request? {
      Prospects.NeverStartsUpdating(db, p);
    }
  }

  ghost predicate NobodyUpdates(t: Sys, id: Id) {
    forall i | 0 <= i < |t.procs| :: !UpdatesStatusOf(t.procs[i], id)
  }

  ghost predicate NobodyRetires(t: Sys, id: Id) {
    forall i | 0 <= i < |t.procs| :: !Retires(t.procs[i], id)
  }

  /** At no point of the schedule is a call about to retire the fact. */
  ghost predicate NeverRetired(s: Sys, schedule: seq<nat>, id: Id) {
    forall n :: 0 <= n < |schedule| ==> NobodyRetires(Exec(s, schedule[..n]), id)
  }

  /** At no point of the schedule is a review about to update the fact. */
  ghost predicate NeverUpdated(s: Sys, schedule: seq<nat>, id: Id) {
    forall n :: 0 <= n < |schedule| ==> NobodyUpdates(Exec(s, schedule[..n]), id)
  }

  lemma NeverBefore(s: Sys, schedule: seq<nat>, n: nat, id: Id)
    requires n < |schedule|
    ensures NeverRetired(s, schedule, id) ==>
      NeverRetired(s, schedule[..n], id) && NobodyRetires(Exec(s, schedule[..n]), id)
    ensures NeverUpdated(s, schedule, id) ==>
      NeverUpdated(s, schedule[..n], id) && NobodyUpdates(Exec(s, schedule[..n]), id)
  {
    assert forall m | 0 <= m < n :: schedule[..n][..m] == schedule[..m];
  }

  lemma {:induction false} WithoutUpdates(s: Sys, schedule: seq<nat>, id: Id)
    requires Sound(s) && LinkedIsSuperseded(s.db.facts, id) && NeverUpdated(s, schedule, id)
    ensures LinkedIsSuperseded(Exec(s, schedule).db.facts, id)
  {
    if schedule == [] {
    } else {
      var n := |schedule| - 1;
      NeverBefore(s, schedule, n, id);
      WithoutUpdates(s, schedule[..n], id);
      ExecIsSound(s, schedule[..n]);
      var t := Exec(s, schedule[..n]);
      if schedule[n] < |t.procs| {
        MoveKeepsLinked(t.db, t.procs[schedule[n]], id);
      }
    }
  }

  ghost predicate AllCheckUnlinked(t: Sys, id: Id) {
    forall i | 0 <= i < |t.procs| :: ChecksUnlinked(t.db.facts, t.procs[i], id)
  }

  lemma TurnChecksUnlinked(t: Sys, i: nat, id: Id)
    requires Sound(t) && i < |t.procs| && LinkedIsSuperseded(t.db.facts, id) && AllCheckUnlinked(t, id)
    requires !Retires(t.procs[i], id)
    ensures var u := Advance(t, i); LinkedIsSuperseded(u.db.facts, id) && AllCheckUnlinked(u, id)
  {
    var p := t.procs[i];
    CheckFindsUnlinked(t.db, p, id);
    MoveKeepsLink(t.db, p, id);
    var m := ProcMove(t.db, p);
    assert Advance(t, i) == Sys(m.db, t.procs[i := At(p, m.pc)]);
  }

  lemma {:induction false} WithoutRetiring(s: Sys, schedule: seq<nat>, id: Id)
    requires Sound(s) && LinkedIsSuperseded(s.db.facts, id) && NobodyUpdates(s, id) && NeverRetired(s, schedule, id)
    ensures LinkedIsSuperseded(Exec(s, schedule).db.facts, id) && AllCheckUnlinked(Exec(s, schedule), id)
  {
    if schedule == [] {
    } else {
      var n := |schedule| - 1;
      NeverBefore(s, schedule, n, id);
      WithoutRetiring(s, schedule[..n], id);
      ExecIsSound(s, schedule[..n]);
      OneMoreTurnChecks(Exec(s, schedule[..n]), schedule[n], id);
    }
  }

  lemma OneMoreTurnChecks(t: Sys, i: nat, id: Id)
    requires Sound(t) && LinkedIsSuperseded(t.db.facts, id) && AllCheckUnlinked(t, id) && NobodyRetires(t, id)
    ensures var u := Advance(t, i); LinkedIsSuperseded(u.db.facts, id) && AllCheckUnlinked(u, id)
  {
    if i < |t.procs| {
      TurnChecksUnlinked(t, i, id);
    }
  }

  lemma InitialUpdatesNothing(s: Sys, id: Id)
    requires Initial(s)
    ensures NobodyUpdates(s, id) && NobodyRetires(s, id)
  {
  }

  /** If no call of the system reviews the fact, or none supersedes it, then under every schedule, of
      tool calls and operator actions alike, a linked fact is superseded. */
  lemma RevivalTakesBoth(s: Sys, schedule: seq<nat>, id: Id)
    requires Initial(s) && LinkedIsSuperseded(s.db.facts, id)
    requires (forall p :: p in s.procs ==> !Reviews(p, id)) || (forall p :: p in s.procs ==> !Supersedes(p, id))
    ensures !Revived(Exec(s, schedule).db.facts, id)
  {
    InitialIsSound(s);
    InitialUpdatesNothing(s, id);
    if forall p :: p in s.procs ==> !Reviews(p, id) {
      forall n | 0 <= n < |schedule| ensures NobodyUpdates(Exec(s, schedule[..n]), id) {
        ExecIsSound(s, schedule[..n]);
        NoReviewsNoUpdates(s, Exec(s, schedule[..n]), id);
      }
      WithoutUpdates(s, schedule, id);
    } else {
      forall n | 0 <= n < |schedule| ensures NobodyRetires(Exec(s, schedule[..n]), id) {
        ExecIsSound(s, schedule[..n]);
        NoSupersedesNoRetiring(s, Exec(s, schedule[..n]), id);
      }
      WithoutRetiring(s, schedule, id);
    }
  }

  lemma NoReviewsNoUpdates(s: Sys, t: Sys, id: Id)
    requires Sound(t) && SameCalls(s, t) && forall p :: p in s.procs ==> !Reviews(p, id)
    ensures NobodyUpdates(t, id)
  {
    forall i | 0 <= i < |t.procs| ensures !UpdatesStatusOf(t.procs[i], id) {
      assert s.procs[i] in s.procs && ProcOk(t.db, t.procs[i]);
    }
  }

  lemma NoSupersedesNoRetiring(s: Sys, t: Sys, id: Id)
    requires Sound(t) && SameCalls(s, t) && forall p :: p in s.procs ==> !Supersedes(p, id)
    ensures NobodyRetires(t, id)
  {
    forall i | 0 <= i < |t.procs| ensures !Retires(t.procs[i], id) {
      assert s.procs[i] in s.procs && ProcOk(t.db, t.procs[i]);
    }
  }

  // ---------------------------------------------------------------- when it can

  lemma CheckPasses(db: Db, first: Id, user: UserId, oauth: string, op: Op, ctx: Ctx, id: Id, status: FactStatus)
    requires id in PendingView(db.facts, ctx)
    ensures RequestMove(db, first, user, oauth, op, SelectPending(ctx, Uuid(id), status))
      == Move(db, UpdateStatus(ctx, id, status))
  {
  }

  lemma DecidedAlone(db: Db, first: Id, user: UserId, oauth: string, op: Op, id: Id)
    requires op == PromoteFact(Uuid(id)) || (op.RejectFact? && op.arg == Uuid(id))
    requires StepCall(db, first, user, oauth, op).reply.Decided?
    ensures var m := ResolveMembership(db.members, user);
      var e := Enter(db, m.org, m.role, first, user, oauth);
      var status := if op.PromoteFact? then Active else Rejected;
      && m.Member? && !e.revoked && MayReview(e.ctx.role) && id in PendingView(db.facts, e.ctx)
      && Start(e.ctx, op) == SelectPending(e.ctx, Uuid(id), status)
  {
  }

  /** The database once the other call has found or made its seat. */
  ghost predicate SeatedBy(db: Db, now: Db, org: OrgId, user: UserId, oauth: string, first: Id) {
    now == db.(seats := ResolveSeat(db.seats, org, user, oauth, first).0)
  }

  lemma ReplacesWithEither(facts: Facts, a: Ctx, b: Ctx, first: Id, arg: IdArg, p: Payload)
    requires a.org == b.org && a.user == b.user && a.orgs == b.orgs
    ensures Supersede(facts, a, first, arg, p) == Supersede(facts, b, first, arg, p)
  {
  }

  /** Somebody else's first contact does not stop a supersede that would succeed. */
  lemma StillReplaces(
      db: Db, now: Db, first: Id, user: UserId, oauth: string, arg: IdArg, p: Payload,
      org: OrgId, user': UserId, oauth': string, first': Id)
    requires Indexed(db) && first !in db.seats && first' !in db.seats && first != first'
    requires SeatedBy(db, now, org, user', oauth', first')
    requires StepCall(db, first, user, oauth, SupersedeFact(arg, p)).reply.Replaced?
    ensures StepCall(now, first, user, oauth, SupersedeFact(arg, p)).reply.Replaced?
    ensures StepCall(now, first, user, oauth, SupersedeFact(arg, p)).db.facts
      == StepCall(db, first, user, oauth, SupersedeFact(arg, p)).db.facts
  {
    var m := ResolveMembership(db.members, user);
    var a, b := Enter(db, m.org, m.role, first, user, oauth), Enter(now, m.org, m.role, first, user, oauth);
    ResolveSeatGrows(db.seats, org, user', oauth', first');
    RowsAfterContact(db.seats, now.seats, org, user', oauth', first', m.org, oauth);
    assert !b.revoked;
    ReplacesWithEither(db.facts, a.ctx, b.ctx, first, arg, p);
  }

  lemma RowsAfterContact(
      seats: Seats, now: Seats, org: OrgId, user: UserId, oauth: string, first: Id, org': OrgId, oauth': string)
    requires UniqueSeats(seats) && first !in seats && now == ResolveSeat(seats, org, user, oauth, first).0
    ensures SeatRows(now, org', oauth') == SeatRows(seats, org', oauth')
      || (SeatRows(seats, org', oauth') == {} && SeatRows(now, org', oauth') == {first} && now[first].status == Live)
  {
    if SeatRows(seats, org, oauth) == {} {
      NewSeatRows(seats, org, oauth, first, FirstContactSeat(org, user, oauth), org', oauth');
    }
  }

  lemma NewSeatRows(seats: Seats, org: OrgId, oauth: string, id: Id, seat: Seat, org': OrgId, oauth': string)
    requires id !in seats && seat.org == org && seat.oauth == oauth
    ensures SeatRows(seats[id := seat], org', oauth') ==
      SeatRows(seats, org', oauth') + (if org' == org && oauth' == oauth then {id} else {})
  {
  }

  /** What a successful supersede has made of its target. */
  lemma ReplacedTarget(db: Db, first: Id, user: UserId, oauth: string, id: Id, p: Payload)
    requires Indexed(db) && first !in db.facts
    requires StepCall(db, first, user, oauth, SupersedeFact(Uuid(id), p)).reply.Replaced?
    ensures var facts := StepCall(db, first, user, oauth, SupersedeFact(Uuid(id), p)).db.facts;
      && id in db.facts && id in facts && facts[id].org == db.facts[id].org && facts[id].supersededBy.Some?
  {
    SingleMembership(db.members, user);
    var m := ResolveMembership(db.members, user);
    SupersedeLinks(db.facts, Enter(db, m.org, m.role, first, user, oauth).ctx, first, id, p);
  }

  lemma LateUpdate(db: Db, p: Proc, id: Id)
    requires p.Request? && p.pc.UpdateStatus? && p.pc.id == id && p.pc.status != Superseded
    requires id in db.facts && db.facts[id].org in p.pc.ctx.orgs && db.facts[id].supersededBy.Some?
    ensures Revived(ProcMove(db, p).db.facts, id)
  {
  }

  /** Call `i` supersedes the fact and would succeed alone. */
  ghost predicate SupersedeSucceeds(s: Sys, i: nat, id: Id) {
    i < |s.procs| && Supersedes(s.procs[i], id) && Prospects.AloneReply(s.db, s.procs[i]).Replaced?
  }

  /** Call `i` reviews the fact and would succeed alone. */
  ghost predicate ReviewSucceeds(s: Sys, i: nat, id: Id) {
    i < |s.procs| && Reviews(s.procs[i], id) && Prospects.AloneReply(s.db, s.procs[i]).Decided?
  }

  /** Review `j` alone, up to its update. */
  lemma ReviewIsReady(s: Sys, j: nat, id: Id)
    returns (schedule: seq<nat>, now: Db, ctx: Ctx, status: FactStatus)
    requires j < |s.procs| && Reviews(s.procs[j], id) && s.procs[j].pc == SelectMembers
    requires Prospects.AloneReply(s.db, s.procs[j]).Decided?
    ensures var p := s.procs[j];
      var m := ResolveMembership(s.db.members, p.user);
      && m.Member? && SeatedBy(s.db, now, m.org, p.user, p.oauth, p.first)
      && ctx.orgs == UserOrgIds(s.db.members, p.user) && id in PendingView(s.db.facts, ctx)
      && status == (if p.op.PromoteFact? then Active else Rejected)
    ensures Exec(s, schedule) == Placed(s, j, now, UpdateStatus(ctx, id, status))
  {
    var p := s.procs[j];
    DecidedAlone(s.db, p.first, p.user, p.oauth, p.op, id);
    var m := ResolveMembership(s.db.members, p.user);
    var e := Enter(s.db, m.org, m.role, p.first, p.user, p.oauth);
    now, ctx, status := s.db.(seats := e.seats), e.ctx, if p.op.PromoteFact? then Active else Rejected;
    var begun := BeginTurns(s, j);
    CheckPasses(now, p.first, p.user, p.oauth, p.op, ctx, id, status);
    var checking, updating := Move(now, SelectPending(ctx, Uuid(id), status)), Move(now, UpdateStatus(ctx, id, status));
    schedule := ThenTurn(s, begun, j, checking, updating);
  }

  /** Supersede `i`, all of it, on a database that somebody else's first contact may have extended. */
  lemma SupersedeRunsThrough(db: Db, t: Sys, i: nat, id: Id, org: OrgId, user: UserId, oauth: string, first: Id)
    requires i < |t.procs| && Supersedes(t.procs[i], id) && AtStart(t.procs[i])
    requires Prospects.AloneReply(db, t.procs[i]).Replaced?
    requires Indexed(db) && SeatedBy(db, t.db, org, user, oauth, first) && first !in db.seats
    requires t.procs[i].first !in db.seats && t.procs[i].first !in db.facts && t.procs[i].first != first
    ensures var u := Exec(t, Repeat(i, StepsOf(t.procs[i])));
      && |u.procs| == |t.procs| && (forall j | 0 <= j < |t.procs| && j != i :: u.procs[j] == t.procs[j])
      && id in db.facts && id in u.db.facts && u.db.facts[id].org == db.facts[id].org
      && u.db.facts[id].supersededBy.Some?
  {
    var a := t.procs[i];
    StillReplaces(db, t.db, a.first, a.user, a.oauth, a.op.target, a.op.replacement, org, user, oauth, first);
    WholeCall(t, i);
    ReplacedTarget(db, a.first, a.user, a.oauth, id, a.op.replacement);
  }

  lemma ThenUpdates(s: Sys, before: seq<nat>, during: seq<nat>, j: nat, id: Id) returns (schedule: seq<nat>)
    requires var u := Exec(Exec(s, before), during);
      j < |u.procs| && u.procs[j].Request? && UpdatesStatusOf(u.procs[j], id) && u.procs[j].pc.status != Superseded
      && id in u.db.facts && u.db.facts[id].org in u.procs[j].pc.ctx.orgs && u.db.facts[id].supersededBy.Some?
    ensures Revived(Exec(s, schedule).db.facts, id)
  {
    ExecAppend(s, before, during);
    schedule := before + during + [j];
    assert schedule[..|schedule| - 1] == before + during;
    LateUpdate(Exec(s, before + during).db, Exec(s, before + during).procs[j], id);
  }

  lemma StartsFresh(s: Sys, i: nat)
    requires Initial(s) && i < |s.procs|
    ensures AtStart(s.procs[i]) && s.procs[i].first !in s.db.seats && s.procs[i].first !in s.db.facts
  {
  }

  /** Lost update: any supersede and any review of a fact that would each succeed alone can be
      scheduled, in any system of calls, so that the fact ends active or rejected although it has
      been superseded: the review checks, the supersede runs, the review updates. */
  lemma ReviewRevivesSupersededFact(s: Sys, i: nat, j: nat, id: Id) returns (schedule: seq<nat>)
    requires Initial(s) && i < |s.procs| && j < |s.procs|
    requires SupersedeSucceeds(s, i, id) && ReviewSucceeds(s, j, id)
    ensures Revived(Exec(s, schedule).db.facts, id)
  {
    var a, b := s.procs[i], s.procs[j];
    assert i != j && a.first.call != b.first.call;
    StartsFresh(s, i);
    StartsFresh(s, j);
    var before, now, ctx, status := ReviewIsReady(s, j, id);
    var t := Placed(s, j, now, UpdateStatus(ctx, id, status));
    assert t.procs[i] == a;
    SupersedeRunsThrough(s.db, t, i, id, ResolveMembership(s.db.members, b.user).org, b.user, b.oauth, b.first);
    schedule := ThenUpdates(s, before, Repeat(i, StepsOf(a)), j, id);
  }

  lemma SameAlone(s: Sys, t: Sys, i: nat)
    requires SameCalls(s, t) && i < |s.procs| && s.procs[i].Request?
    ensures Prospects.AloneReply(s.db, t.procs[i]) == Prospects.AloneReply(s.db, s.procs[i])
  {
  }

  lemma NoReviewSucceeds(s: Sys, schedule: seq<nat>, id: Id)
    requires Initial(s) && Prospects.OnlyRequests(s) && id in s.db.facts && LinkedIsSuperseded(s.db.facts, id)
    requires forall i: nat :: !ReviewSucceeds(s, i, id)
    ensures !Revived(Exec(s, schedule).db.facts, id)
  {
    InitialIsSound(s);
    forall n | 0 <= n < |schedule| ensures NobodyUpdates(Exec(s, schedule[..n]), id) {
      Prospects.SchedulesArePromising(s, schedule[..n], id);
      ExecIsSound(s, schedule[..n]);
      var t := Exec(s, schedule[..n]);
      forall i | 0 <= i < |t.procs| ensures !UpdatesStatusOf(t.procs[i], id) {
        assert s.procs[i] in s.procs && !ReviewSucceeds(s, i, id);
        if UpdatesStatusOf(t.procs[i], id) {
          Prospects.DecidesOnlyIfAlone(s.db, t.db, t.procs[i], id);
          SameAlone(s, t, i);
        }
      }
    }
    WithoutUpdates(s, schedule, id);
  }

  lemma NoSupersedeSucceeds(s: Sys, schedule: seq<nat>, id: Id)
    requires Initial(s) && Prospects.OnlyRequests(s) && id in s.db.facts && LinkedIsSuperseded(s.db.facts, id)
    requires forall i: nat :: !SupersedeSucceeds(s, i, id)
    ensures !Revived(Exec(s, schedule).db.facts, id)
  {
    InitialIsSound(s);
    InitialUpdatesNothing(s, id);
    forall n | 0 <= n < |schedule| ensures NobodyRetires(Exec(s, schedule[..n]), id) {
      Prospects.SchedulesArePromising(s, schedule[..n], id);
      ExecIsSound(s, schedule[..n]);
      var t := Exec(s, schedule[..n]);
      forall i | 0 <= i < |t.procs| ensures !Retires(t.procs[i], id) {
        assert s.procs[i] in s.procs && !SupersedeSucceeds(s, i, id);
        if Retires(t.procs[i], id) {
          Prospects.RetiresOnlyIfAlone(s.db, t.db, t.procs[i], id);
          SameAlone(s, t, i);
        }
      }
    }
    WithoutRetiring(s, schedule, id);
  }

  /** Some call supersedes the fact, some call reviews it, and each would succeed alone. */
  ghost predicate BothSucceedAlone(s: Sys, id: Id) {
    exists i: nat, j: nat :: SupersedeSucceeds(s, i, id) && ReviewSucceeds(s, j, id)
  }

  ghost predicate CanRevive(s: Sys, id: Id) {
    exists schedule :: Revived(Exec(s, schedule).db.facts, id)
  }

  lemma BothRevive(s: Sys, id: Id)
    requires Initial(s) && BothSucceedAlone(s, id)
    ensures CanRevive(s, id)
  {
    var i: nat, j: nat :| SupersedeSucceeds(s, i, id) && ReviewSucceeds(s, j, id);
    var schedule := ReviewRevivesSupersededFact(s, i, j, id);
  }

  lemma NothingRevives(s: Sys, schedule: seq<nat>, id: Id)
    requires Initial(s) && Prospects.OnlyRequests(s) && id in s.db.facts && LinkedIsSuperseded(s.db.facts, id)
    requires !BothSucceedAlone(s, id)
    ensures !Revived(Exec(s, schedule).db.facts, id)
  {
    if i: nat :| SupersedeSucceeds(s, i, id) {
      assert forall j: nat :: !ReviewSucceeds(s, j, id);
      NoReviewSucceeds(s, schedule, id);
    } else {
      NoSupersedeSucceeds(s, schedule, id);
    }
  }

  /** Exactly when a system of tool calls can revive a fact: when some call supersedes it and some
      call reviews it, and each of the two would succeed alone. */
  lemma RevivalIff(s: Sys, id: Id)
    requires Initial(s) && Prospects.OnlyRequests(s) && id in s.db.facts && LinkedIsSuperseded(s.db.facts, id)
    ensures CanRevive(s, id) <==> BothSucceedAlone(s, id)
  {
    if BothSucceedAlone(s, id) {
      BothRevive(s, id);
    } else {
      forall schedule: seq<nat> ensures !Revived(Exec(s, schedule).db.facts, id) {
        NothingRevives(s, schedule, id);
      }
    }
  }
}
