/** Why a fact is active, under interleaving: it was submitted with enough confidence, or an owner or
    office member checked and promoted it. */
module InterleavedProvenance {
  import opened Schema
  import opened Tools
  import opened Provenance
  import opened Interleaving
  import opened Schedules
  import opened InterleavedRevocation
  import Race
  import Prospects
  import Verdicts

  /** The next request of this call is the check of a promotion of `id`, and it passes: the caller is
      owner or office of the fact's org, and the fact is pending with tags in the seat's scopes. */
  ghost predicate PassesCheck(db: Db, p: Proc, id: Id) {
    && p.Request? && p.op == PromoteFact(Uuid(id)) && p.pc.SelectPending?
    && var ctx := p.pc.ctx;
       && ResolveMembership(db.members, p.user) == Member(ctx.org, ctx.role) && MayReview(ctx.role)
       && id in db.facts && db.facts[id].org == ctx.org && db.facts[id].status == PendingReview
       && Overlaps(db.facts[id].tags, EffectiveScopes(ctx.role, ctx.scopes))
  }

  /** Call `i` made that check, and passed it, at some turn of the schedule. */
  ghost predicate PassedCheck(s: Sys, schedule: seq<nat>, i: nat, id: Id) {
    schedule != [] &&
    var n := |schedule| - 1;
    var t := Exec(s, schedule[..n]);
    || (schedule[n] == i && i < |t.procs| && PassesCheck(t.db, t.procs[i], id))
    || PassedCheck(s, schedule[..n], i, id)
  }

  predicate Promoting(p: Proc, id: Id) {
    Race.UpdatesStatusOf(p, id) && p.pc.status == Active
  }

  // ---------------------------------------------------------------- promotions were checked

  lemma CheckPasses(db: Db, p: Proc, row: Seat, id: Id)
    requires p.Request? && ProcOk(db, p) && Within(db.members, p, row) && p.pc.SelectPending?
    requires Promoting(At(p, ProcMove(db, p).pc), id)
    ensures PassesCheck(db, p, id)
  {
    Prospects.PendingCheck(db, p);
  }

  /** Whoever is at, or past, the update of a promotion has passed its check. */
  lemma MoveWasChecked(db: Db, p: Proc, row: Seat, id: Id)
    requires p.Request? && ProcOk(db, p) && (CtxOf(p.pc).Some? ==> Within(db.members, p, row))
    requires var q := At(p, ProcMove(db, p).pc); Promoting(q, id) || Verdicts.HasDecided(q, id, Active)
    ensures Promoting(p, id) || Verdicts.HasDecided(p, id, Active) || PassesCheck(db, p, id)
  {
    var q := At(p, ProcMove(db, p).pc);
    if Promoting(q, id) {
      Prospects.NeverStartsUpdating(db, p);
      if p.pc.SelectPending? {
        CheckPasses(db, p, row, id);
      }
    } else {
      Verdicts.OnlyUpdatesDecide(db, p, id, Active);
    }
  }

  ghost predicate WasChecked(s: Sys, schedule: seq<nat>, i: nat, id: Id) {
    var t := Exec(s, schedule);
    i < |t.procs| && (Promoting(t.procs[i], id) || Verdicts.HasDecided(t.procs[i], id, Active)) ==>
      PassedCheck(s, schedule, i, id)
  }

  lemma {:induction false} PromotionsWereChecked(s: Sys, schedule: seq<nat>, i: nat, id: Id)
    requires Initial(s) && i < |s.procs|
    ensures WasChecked(s, schedule, i, id)
  {
    if schedule == [] {
    } else {
      var n := |schedule| - 1;
      PromotionsWereChecked(s, schedule[..n], i, id);
      InitialIsSound(s);
      ExecIsSound(s, schedule[..n]);
      CallsRunOnTheRowTheyRead(s, schedule[..n], i);
      TurnWasChecked(s, schedule, i, id);
    }
  }

  lemma TurnWasChecked(s: Sys, schedule: seq<nat>, i: nat, id: Id)
    requires schedule != [] && i < |s.procs| && WasChecked(s, schedule[..|schedule| - 1], i, id)
    requires Sound(Exec(s, schedule[..|schedule| - 1]))
    requires OnItsRow(s.db.members, Exec(s, schedule[..|schedule| - 1]), i, RowRead(s, schedule[..|schedule| - 1], i))
    ensures WasChecked(s, schedule, i, id)
  {
    var n := |schedule| - 1;
    var t, k := Exec(s, schedule[..n]), schedule[n];
    if k < |t.procs| {
      AdvanceIs(t, k, ProcMove(t.db, t.procs[k]));
      var q := Advance(t, k).procs[i];
      if k == i && t.procs[i].Request? && (Promoting(q, id) || Verdicts.HasDecided(q, id, Active)) {
        var row := RowRead(s, schedule[..n], i);
        MoveWasChecked(t.db, t.procs[i], if row.Some? then row.value else FirstContactSeat("", "", ""), id);
      }
    }
  }

  // ---------------------------------------------------------------- only promotions activate

  /** One request turns a low-confidence fact active only if it is a promotion's update. */
  lemma MoveActivates(db: Db, p: Proc, id: Id)
    requires ProcOk(db, p) && !IsActive(db.facts, id) && IsActive(ProcMove(db, p).db.facts, id)
    requires ProcMove(db, p).db.facts[id].confidence < 0.9
    ensures Promoting(p, id) && Verdicts.HasDecided(At(p, ProcMove(db, p).pc), id, Active)
  {
  }

  lemma DecisionStays(db: Db, p: Proc, id: Id)
    requires Verdicts.HasDecided(p, id, Active)
    ensures Verdicts.HasDecided(At(p, ProcMove(db, p).pc), id, Active)
  {
  }

  ghost predicate HasPromoter(t: Sys, id: Id) {
    exists i :: 0 <= i < |t.procs| && Verdicts.HasDecided(t.procs[i], id, Active)
  }

  lemma PromoterStays(t: Sys, k: nat, id: Id)
    requires k < |t.procs| && HasPromoter(t, id)
    ensures HasPromoter(Advance(t, k), id)
  {
    var i :| 0 <= i < |t.procs| && Verdicts.HasDecided(t.procs[i], id, Active);
    AdvanceIs(t, k, ProcMove(t.db, t.procs[k]));
    DecisionStays(t.db, t.procs[i], id);
    assert Verdicts.HasDecided(Advance(t, k).procs[i], id, Active);
  }

  lemma TurnActivates(t: Sys, k: nat, id: Id)
    requires Sound(t) && k < |t.procs| && !IsActive(t.db.facts, id) && IsActive(Advance(t, k).db.facts, id)
    requires Advance(t, k).db.facts[id].confidence < 0.9
    ensures HasPromoter(Advance(t, k), id)
  {
    var m := ProcMove(t.db, t.procs[k]);
    AdvanceIs(t, k, m);
    MoveActivates(t.db, t.procs[k], id);
    assert Advance(t, k).procs[k] == At(t.procs[k], m.pc);
  }

  lemma {:induction false} ActivationHasPromoter(s: Sys, schedule: seq<nat>, id: Id)
    requires Initial(s) && !IsActive(s.db.facts, id) && IsActive(Exec(s, schedule).db.facts, id)
    requires Exec(s, schedule).db.facts[id].confidence < 0.9
    ensures HasPromoter(Exec(s, schedule), id)
  {
    if schedule == [] {
    } else {
      var n := |schedule| - 1;
      InitialIsSound(s);
      ExecIsSound(s, schedule[..n]);
      var t := Exec(s, schedule[..n]);
      if schedule[n] >= |t.procs| {
        ActivationHasPromoter(s, schedule[..n], id);
      } else {
        AdvanceKeepsSound(t, schedule[n]);
        if IsActive(t.db.facts, id) {
          ActivationHasPromoter(s, schedule[..n], id);
          PromoterStays(t, schedule[n], id);
        } else {
          TurnActivates(t, schedule[n], id);
        }
      }
    }
  }

  /** Call `i` promoted the fact: it passed the check at some turn, on a seat row that was live when
      the call read it, and has answered, or is about to, that the fact is active. */
  ghost predicate Promoted(s: Sys, schedule: seq<nat>, i: nat, id: Id) {
    var t := Exec(s, schedule);
    && i < |t.procs| && Verdicts.HasDecided(t.procs[i], id, Active) && PassedCheck(s, schedule, i, id)
    && RowRead(s, schedule, i).Some? && RowRead(s, schedule, i).value.status != Revoked
    && t.procs[i].pc.ctx.scopes == RowRead(s, schedule, i).value.scopes
  }

  /** Under every schedule of any calls and operator actions, a fact submitted below the threshold
      has become active only through a promotion by an owner or office member of its org, who saw it
      pending within the scopes of a seat that was live when they came in. */
  lemma ActiveOnlyByPromotion(s: Sys, schedule: seq<nat>, id: Id)
    requires Initial(s) && !IsActive(s.db.facts, id) && IsActive(Exec(s, schedule).db.facts, id)
    requires Exec(s, schedule).db.facts[id].confidence < 0.9
    ensures exists i :: Promoted(s, schedule, i, id)
  {
    ActivationHasPromoter(s, schedule, id);
    InitialIsSound(s);
    ExecIsSound(s, schedule);
    var i: nat :| i < |Exec(s, schedule).procs| && Verdicts.HasDecided(Exec(s, schedule).procs[i], id, Active);
    PromotionsWereChecked(s, schedule, i, id);
    CallsRunOnTheRowTheyRead(s, schedule, i);
    assert Promoted(s, schedule, i, id);
  }
}
