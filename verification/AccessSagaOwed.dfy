/** Crash-safe bookkeeping: whatever stops, stalls or lands late, access that no active
    grant stands behind is owed a removal by a row. The workflow keeps this at every step
    but a few, and this module says exactly which. */
module AccessSagaOwed {
  import opened Wrappers
  import opened AccessRows
  import opened AccessSaga
  import opened AccessSagaInvariants
  import opened AccessSagaEffects
  import opened AccessSagaGateway
  import opened AccessSagaCoverage
  import opened AccessSagaHistory

  /* ── The rows themselves ───────────────────────────────────────────────── */

  /** Access without a grant is owed a job of this pair, or the account's teardown. */
  ghost predicate Owed(s: State) {
    Exposed(s) && NoActive(s.db) ==> s.db.jobs != map[] || s.teardown.Some?
  }

  /** No job of this pair and no teardown is on the books. */
  predicate NoRows(s: State) {
    s.db.jobs == map[] && s.teardown.None?
  }

  /** Whether `p` owns the only job of this pair, and no teardown is on the books. */
  predicate HoldsLastRow(s: State, p: nat) {
    && p in s.procs && OwnsRow(s.db, s.procs[p])
    && s.db.jobs.Keys == {ClaimOf(s.procs[p]).value.subject} && s.teardown.None?
  }

  /** The steps after which access without a grant is owed nothing: a re-enable that
      cancels the only row; a disable sweep with no teardown left to rely on; a rebuild that
      writes, under the current tag, the groups of a grant that is gone; and a process that
      deletes the last row while such access is there. */
  ghost predicate Loses(s: State, step: Step) {
    match step
    case StepEnable => Exposed(s) && NoActive(s.db) && s.db.jobs == map[]
    case StepSweep(_, _, _, _) => Exposed(s) && NoRows(s)
    case StepIssueRebuild(p) =>
      && p in s.procs && s.procs[p].phase.HasRead? && s.procs[p].phase.tag == s.tag
      && s.procs[p].work.Rebuild? && s.procs[p].work.found.Some? && s.procs[p].work.found.value.Some?
      && NoActive(s.db) && NoRows(s)
    case StepCloseJob(p) => Exposed(s) && NoActive(s.db) && HoldsLastRow(s, p) && s.procs[p].phase == Closing(true)
    case StepFinish(p) => Exposed(s) && NoActive(s.db) && HoldsLastRow(s, p)
    case StepTornDown(p) =>
      && Exposed(s) && NoActive(s.db) && s.db.jobs == map[]
      && p in s.procs && s.teardown == Some(s.procs[p].generation)
    case _ => false
  }

  /** The state without its history of cover. */
  function Bare(s: State): State {
    s.(armed := {}, teardownArmed := false)
  }

  /** `h` is `s` with another such history. */
  predicate Retells(h: State, s: State) {
    h == s.(armed := h.armed, teardownArmed := h.teardownArmed)
  }

  /** `step` does the same to the rows, the processes and the gateway in `h` as in `s`. */
  ghost predicate Ignores(s: State, h: State, step: Step) {
    Next(h, step).Some? && Next(s, step).Some? && Bare(Next(h, step).value) == Bare(Next(s, step).value)
  }

  /** The same outcome, but for the history. */
  ghost predicate Alike(a: Option<State>, b: Option<State>) {
    a.Some? ==> b.Some? && Bare(a.value) == Bare(b.value)
  }

  lemma StartIgnores(s: State, h: State, step: Step)
    requires Retells(h, s) && StartsWork(step) && Next(s, step).Some?
    ensures Ignores(s, h, step)
  {}

  lemma ReadOneIgnores(s: State, h: State, p: nat, held: bool)
    requires Retells(h, s)
    ensures Alike(DoLook(s, p), DoLook(h, p)) && Alike(DoReadGrants(s, p), DoReadGrants(h, p))
    ensures Alike(DoEnter(s, p, held), DoEnter(h, p, held)) && Alike(DoRefused(s, p), DoRefused(h, p))
    ensures Alike(DoRead(s, p), DoRead(h, p))
  {}

  lemma LandIgnores(s: State, h: State, q: nat)
    requires Retells(h, s)
    ensures Alike(DoLand(s, q), DoLand(h, q)) && Alike(DoOtherApi(s), DoOtherApi(h))
  {}

  lemma ReadIgnores(s: State, h: State, step: Step)
    requires Retells(h, s) && ReadsConsumer(step) && Next(s, step).Some?
    ensures Ignores(s, h, step)
  {
    hide DoLook, DoReadGrants, DoEnter, DoRefused, DoRead, DoLand, DoOtherApi, NextStart, NextIssue, NextAfter;
    match step {
      case StepLand(q) => LandIgnores(s, h, q);
      case StepOtherApi => LandIgnores(s, h, 0);
      case StepEnter(p, held) => ReadOneIgnores(s, h, p, held);
      case StepLook(p) => ReadOneIgnores(s, h, p, true);
      case StepReadGrants(p) => ReadOneIgnores(s, h, p, true);
      case StepRefused(p) => ReadOneIgnores(s, h, p, true);
      case StepRead(p) => ReadOneIgnores(s, h, p, true);
    }
  }

  /** What the steps that decide on a write are put together from. */
  lemma PartsIgnore(s: State, h: State, p: nat)
    requires Retells(h, s) && p in s.procs && s.procs[p].phase.HasRead?
    ensures h.db == s.db && h.procs == s.procs
    ensures forall x: State, armed: set<Subject> :: Bare(x.(armed := armed)) == Bare(x)
    ensures forall groups: set<Group>, settles: bool, strips: Option<nat> ::
              Bare(Emit(s, p, groups, settles, strips)) == Bare(Emit(h, p, groups, settles, strips))
    ensures forall phase :: Bare(Goto(Leave(s, p), p, phase)) == Bare(Goto(Leave(h, p), p, phase))
    ensures forall phase :: Bare(Goto(Disarm(Leave(s, p), p), p, phase)) == Bare(Goto(Disarm(Leave(h, p), p), p, phase))
    ensures Bare(End(s, p)) == Bare(End(h, p))
  {}

  lemma IssueAddIgnores(s: State, h: State, p: nat)
    requires Retells(h, s)
    ensures Alike(DoIssueAdd(s, p), DoIssueAdd(h, p))
  {
    if Poised(s, p, Forward) {
      PartsIgnore(s, h, p);
      hide Bare, Emit, Leave, End, Goto;
    }
  }

  lemma IssueRevokeIgnores(s: State, h: State, p: nat)
    requires Retells(h, s)
    ensures Alike(DoIssueRevoke(s, p), DoIssueRevoke(h, p))
    ensures Alike(DoIssueTeardown(s, p), DoIssueTeardown(h, p))
    ensures Alike(DoIssueSweep(s, p), DoIssueSweep(h, p))
  {
    if Poised(s, p, Forward) {
      PartsIgnore(s, h, p);
      hide Bare, Emit, Leave, End, Goto, Disarm;
    }
  }

  lemma IssueUndoIgnores(s: State, h: State, p: nat)
    requires Retells(h, s)
    ensures Alike(DoIssueRemoveAll(s, p), DoIssueRemoveAll(h, p))
    ensures Alike(DoIssueReconcile(s, p), DoIssueReconcile(h, p))
  {
    if Poised(s, p, RemoveAll) || Poised(s, p, Reconcile) {
      PartsIgnore(s, h, p);
      hide Bare, Emit, Leave, End, Goto, Disarm, Reconciled;
    }
  }

  lemma IssueStripIgnores(s: State, h: State, p: nat)
    requires Retells(h, s)
    ensures Alike(DoIssueStripTools(s, p), DoIssueStripTools(h, p))
  {}

  lemma IssueLastIgnores(s: State, h: State, p: nat)
    requires Retells(h, s)
    ensures Alike(DoIssueRecovery(s, p), DoIssueRecovery(h, p))
    ensures Alike(DoIssueRebuild(s, p), DoIssueRebuild(h, p))
  {}

  lemma IssueIgnores(s: State, h: State, step: Step)
    requires Retells(h, s) && Issues(step) && Next(s, step).Some?
    ensures Ignores(s, h, step)
  {
    hide DoIssueAdd, DoIssueRemoveAll, DoIssueStripTools, DoIssueReconcile, DoIssueRevoke;
    hide DoIssueRecovery, DoIssueRebuild, DoIssueTeardown, DoIssueSweep, Bare;
    var p := step.p;
    IssueAddIgnores(s, h, p);
    IssueRevokeIgnores(s, h, p);
    IssueUndoIgnores(s, h, p);
    IssueStripIgnores(s, h, p);
    IssueLastIgnores(s, h, p);
  }

  lemma CommitIgnores(s: State, h: State, p: nat, g: Id)
    requires Retells(h, s)
    ensures Alike(DoCommit(s, p, g), DoCommit(h, p, g))
    ensures Alike(DoCommitFails(s, p), DoCommitFails(h, p))
  {}

  lemma CloseIgnores(s: State, h: State, p: nat)
    requires Retells(h, s)
    ensures Alike(DoCloseJob(s, p), DoCloseJob(h, p))
    ensures Alike(DoGiveUp(s, p), DoGiveUp(h, p))
    ensures Alike(DoTornDown(s, p), DoTornDown(h, p))
  {}

  lemma RestoreIgnores(s: State, h: State, p: nat, acknowledged: bool)
    requires Retells(h, s)
    ensures Alike(DoRestore(s, p, acknowledged), DoRestore(h, p, acknowledged))
  {
    hide Restore;
  }

  lemma FinishIgnores(s: State, h: State, p: nat)
    requires Retells(h, s)
    ensures Alike(DoFinish(s, p), DoFinish(h, p))
  {
    hide SettleApproval, DeleteClaimed, Owns;
  }

  lemma DisarmIgnores(s: State, h: State, p: nat)
    requires Retells(h, s) && p in s.procs
    ensures Bare(Disarm(s, p)) == Bare(s) && Bare(Disarm(h, p)) == Bare(s)
    ensures Disarm(s, p).procs == s.procs && Disarm(h, p).procs == s.procs
  {}

  lemma ObserveApproveIgnores(s: State, h: State, p: nat, unreadable: bool, grantUnreadable: bool)
    requires Retells(h, s) && p in s.procs && s.procs[p].work.Approve?
    ensures Alike(DoObserve(s, p, unreadable, grantUnreadable), DoObserve(h, p, unreadable, grantUnreadable))
  {
    DisarmIgnores(s, h, p);
    hide Disarm, AfterWidening;
  }

  lemma ObserveWidenIgnores(s: State, h: State, p: nat, unreadable: bool, grantUnreadable: bool)
    requires Retells(h, s) && p in s.procs && s.procs[p].work.Widen?
    ensures Alike(DoObserve(s, p, unreadable, grantUnreadable), DoObserve(h, p, unreadable, grantUnreadable))
  {
    DisarmIgnores(s, h, p);
    hide Disarm, AfterWidening, Goto;
  }

  lemma ObserveIgnores(s: State, h: State, p: nat, unreadable: bool, grantUnreadable: bool)
    requires Retells(h, s)
    ensures Alike(DoObserve(s, p, unreadable, grantUnreadable), DoObserve(h, p, unreadable, grantUnreadable))
  {
    if p in s.procs && s.procs[p].work.Approve? {
      ObserveApproveIgnores(s, h, p, unreadable, grantUnreadable);
    } else if p in s.procs && s.procs[p].work.Widen? {
      ObserveWidenIgnores(s, h, p, unreadable, grantUnreadable);
    }
  }

  lemma SettleIgnores(s: State, h: State, p: nat, stored: bool)
    requires Retells(h, s)
    ensures Alike(DoSettle(s, p, stored), DoSettle(h, p, stored))
  {}

  lemma PresenceIgnores(s: State, h: State, p: nat, unreadable: bool)
    requires Retells(h, s)
    ensures Alike(DoPresence(s, p, unreadable), DoPresence(h, p, unreadable))
  {}

  lemma GotoIgnores(s: State, h: State, p: nat)
    requires Retells(h, s) && p in s.procs
    ensures forall phase :: Bare(Goto(s, p, phase)) == Bare(Goto(h, p, phase))
    ensures forall phase :: Bare(Goto(Leave(s, p), p, phase)) == Bare(Goto(Leave(h, p), p, phase))
    ensures Bare(End(s, p)) == Bare(End(h, p))
    ensures h.procs == s.procs && Leave(s, p).procs == s.procs && Leave(h, p).procs == s.procs
  {}

  lemma AckIgnores(s: State, h: State, p: nat)
    requires Retells(h, s)
    ensures Alike(DoAck(s, p), DoAck(h, p))
  {
    if p in s.procs {
      GotoIgnores(s, h, p);
      hide Goto, Leave, End, Bare;
    }
  }

  lemma FailIgnores(s: State, h: State, p: nat)
    requires Retells(h, s)
    ensures Alike(DoFail(s, p), DoFail(h, p))
  {
    if p in s.procs {
      GotoIgnores(s, h, p);
      hide Goto, Leave, End, Bare;
    }
  }

  lemma EndIgnores(s: State, h: State, p: nat)
    requires Retells(h, s)
    ensures Bare(End(s, p)) == Bare(End(h, p)) && Bare(s.(key := None)) == Bare(h.(key := None))
  {}

  lemma AfterIgnores(s: State, h: State, step: Step)
    requires Retells(h, s) && !StartsWork(step) && !ReadsConsumer(step) && !Issues(step) && Next(s, step).Some?
    ensures Ignores(s, h, step)
  {
    hide DoAck, DoFail, DoCommit, DoCommitFails, DoObserve, DoSettle, DoCloseJob, DoPresence, DoRestore;
    hide DoGiveUp, DoFinish, DoTornDown, NextStart, NextRead, NextIssue;
    match step {
      case StepCommit(p, g) => CommitIgnores(s, h, p, g);
      case StepCommitFails(p) => CommitIgnores(s, h, p, 0);
      case StepCloseJob(p) => CloseIgnores(s, h, p);
      case StepGiveUp(p) => CloseIgnores(s, h, p);
      case StepTornDown(p) => CloseIgnores(s, h, p);
      case StepRestore(p, acknowledged) => RestoreIgnores(s, h, p, acknowledged);
      case StepFinish(p) => FinishIgnores(s, h, p);
      case StepObserve(p, unreadable, grantUnreadable) => ObserveIgnores(s, h, p, unreadable, grantUnreadable);
      case StepSettle(p, stored) => SettleIgnores(s, h, p, stored);
      case StepPresence(p, unreadable) => PresenceIgnores(s, h, p, unreadable);
      case StepAck(p) => AckIgnores(s, h, p);
      case StepFail(p) => FailIgnores(s, h, p);
      case StepCrash(p) => EndIgnores(s, h, p);
      case StepLoseKey => EndIgnores(s, h, 0);
    }
  }

  lemma StepIgnores(s: State, h: State, step: Step)
    requires Retells(h, s) && Next(s, step).Some?
    ensures Ignores(s, h, step)
  {
    hide Ignores, Next;
    if StartsWork(step) {
      StartIgnores(s, h, step);
    } else if ReadsConsumer(step) {
      ReadIgnores(s, h, step);
    } else if Issues(step) {
      IssueIgnores(s, h, step);
    } else {
      AfterIgnores(s, h, step);
    }
  }

  lemma BareKeeps(s: State)
    requires Inv(s) && Seen(s)
    ensures Inv(Bare(s)) && Seen(Bare(s)) && Exposed(Bare(s)) == Exposed(s)
  {
    forall p | p in s.procs ensures TracksWrite(Bare(s), p) && Sees(Bare(s), p) {
      assert TracksWrite(s, p) && Sees(s, p);
    }
  }

  /** Without a row on the books, what is armed is nothing, and coverage is the promise itself. */
  lemma BareCovered(s: State)
    requires ArmedOwed(s) && NoRows(s)
    ensures Covered(s) == Owed(s)
  {
    assert s.armed == {};
  }

  /** A step taken without a row, and leaving none, loses the promise exactly at a gap. */
  lemma BareOwes(s: State, step: Step)
    requires Inv(s) && Seen(s) && Owed(s) && NoRows(s) && Next(s, step).Some? && NoRows(Next(s, step).value)
    ensures Owed(Next(s, step).value) <==> !Uncovers(Bare(s), step)
  {
    BareKeeps(s);
    StepIgnores(s, Bare(s), step);
    hide Next, Seen, Gap;
    var t, s' := Next(Bare(s), step).value, Next(s, step).value;
    BareCovered(Bare(s));
    StepKeeps(Bare(s), step);
    StepCovers(Bare(s), step);
    assert Bare(t) == Bare(s');
    SameExposure(t, s');
    BareCovered(t);
  }

  lemma SameExposure(t: State, s: State)
    requires Bare(t) == Bare(s)
    ensures Exposed(t) == Exposed(s) && Owed(t) == Owed(s) && NoRows(t) == NoRows(s)
  {
    assert t.groups == Bare(s).groups == s.groups && t.tag == Bare(s).tag == s.tag && t.puts == Bare(s).puts == s.puts;
    assert t.db == Bare(s).db == s.db && t.teardown == Bare(s).teardown == s.teardown;
  }

  lemma BareGap(s: State, step: Step)
    requires Owed(s) && NoRows(s) && Next(s, step).Some?
    ensures Uncovers(Bare(s), step) ==> Loses(s, step)
    ensures Loses(s, step) && NoRows(Next(s, step).value) ==> Uncovers(Bare(s), step)
  {
    assert Exposed(Bare(s)) == Exposed(s);
  }

  /** How the last row goes: with the re-enable, with the teardown, or with its owner, whose
      access stays as it was. */
  lemma LastRowGoes(s: State, step: Step)
    requires Inv(s) && Next(s, step).Some? && !NoRows(s) && NoRows(Next(s, step).value)
    ensures Owed(Next(s, step).value) <==> !Loses(s, step)
  {
    CountedOf(s);
    if StartsWork(step) {
      StartIsQuiet(s, step);
      QuietExposes(s, Next(s, step).value);
      StartRows(s, step);
      hide Exposed;
    } else {
      hide Next, Inv;
      StepActs(s, step);
      TransactionRows(s, step);
      ActsLastRow(s, step, Next(s, step).value);
    }
  }

  lemma ActsLastRow(s: State, step: Step, s': State)
    requires !StartsWork(step) && Acts(s, step, s') && LeavesRows(s, step, s') && !NoRows(s) && NoRows(s')
    ensures Owed(s') <==> !Loses(s, step)
  {
    if Inert(step) { QuietExposes(s, s'); }
    if step.StepCloseJob? || step.StepFinish? {
      assert s.db.jobs != map[];
      assert Deletes(s, step, step.p);
      var c := ClaimOf(s.procs[step.p]).value.subject;
      assert s.db.jobs.Keys - {c} == {};
      assert s.db.jobs.Keys == {c};
    }
  }

  lemma StartRows(s: State, step: Step)
    requires StartsWork(step) && Next(s, step).Some?
    ensures s.db.jobs != map[] ==> Next(s, step).value.db.jobs != map[]
    ensures s.teardown.Some? && !step.StepEnable? ==> Next(s, step).value.teardown.Some?
    ensures step.StepEnable? ==> Next(s, step).value.db.grants == s.db.grants
  {}

  /** Whether `p` has the last word on its own job. */
  predicate Deletes(s: State, step: Step, p: nat) {
    && p in s.procs && OwnsRow(s.db, s.procs[p])
    && ((step == StepCloseJob(p) && s.procs[p].phase == Closing(true)) || step == StepFinish(p))
  }

  /** What each closing transaction leaves of the job table. */
  ghost predicate LeavesRows(s: State, step: Step, s': State) {
    && (step.StepCommit? || (step.StepRestore? && s'.db.jobs != s.db.jobs) ==> !NoActive(s'.db))
    && (step.StepSettle? ==> s'.db.jobs == s.db.jobs)
    && (step.StepCloseJob? || step.StepFinish? ==>
          s'.db.jobs.Keys == if Deletes(s, step, step.p) then s.db.jobs.Keys - {ClaimOf(s.procs[step.p]).value.subject}
              else s.db.jobs.Keys)
    && (step.StepTornDown? ==>
          step.p in s.procs && s'.teardown == if s.teardown == Some(s.procs[step.p].generation) then None
              else s.teardown)
  }

  lemma CommitLeaves(s: State, p: nat, g: Id)
    requires DoCommit(s, p, g).Some?
    ensures LeavesRows(s, StepCommit(p, g), DoCommit(s, p, g).value)
  {
    assert IsActive(DoCommit(s, p, g).value.db, g);
  }

  lemma RestoreLeaves(s: State, p: nat, acknowledged: bool)
    requires DoRestore(s, p, acknowledged).Some?
    ensures LeavesRows(s, StepRestore(p, acknowledged), DoRestore(s, p, acknowledged).value)
  {
    var s' := DoRestore(s, p, acknowledged).value;
    if s'.db.jobs != s.db.jobs {
      assert IsActive(s'.db, s.procs[p].work.grant);
    }
  }

  lemma SettleLeaves(s: State, p: nat, stored: bool)
    ensures DoSettle(s, p, stored).Some? ==> LeavesRows(s, StepSettle(p, stored), DoSettle(s, p, stored).value)
    ensures DoCloseJob(s, p).Some? ==> LeavesRows(s, StepCloseJob(p), DoCloseJob(s, p).value)
    ensures DoTornDown(s, p).Some? ==> LeavesRows(s, StepTornDown(p), DoTornDown(s, p).value)
  {}

  lemma FinishLeaves(s: State, p: nat)
    requires DoFinish(s, p).Some?
    ensures LeavesRows(s, StepFinish(p), DoFinish(s, p).value)
  {}

  lemma TransactionRows(s: State, step: Step)
    requires !StartsWork(step) && Next(s, step).Some?
    ensures LeavesRows(s, step, Next(s, step).value)
  {
    hide DoAck, DoFail, DoCommit, DoCommitFails, DoObserve, DoSettle, DoCloseJob, DoPresence, DoRestore;
    hide DoGiveUp, DoFinish, DoTornDown, NextStart, NextRead, NextIssue;
    match step {
      case StepCommit(p, g) => CommitLeaves(s, p, g);
      case StepRestore(p, acknowledged) => RestoreLeaves(s, p, acknowledged);
      case StepSettle(p, stored) => SettleLeaves(s, p, stored);
      case StepCloseJob(p) => SettleLeaves(s, p, true);
      case StepTornDown(p) => SettleLeaves(s, p, true);
      case StepFinish(p) => FinishLeaves(s, p);
      case _ =>
    }
  }

  /** From any state that a run without a loss reaches, the promise is kept by a step
      exactly when the step is not one of those above. */
  lemma StepOwes(s: State, step: Step)
    requires Inv(s) && Seen(s) && Owed(s) && Next(s, step).Some?
    ensures Owed(Next(s, step).value) <==> !Loses(s, step)
  {
    hide Inv, Seen, Exposed;
    var s' := Next(s, step).value;
    if !NoRows(s') {
      RowsLeft(s, step);
    } else if NoRows(s) {
      BareOwes(s, step);
      BareGap(s, step);
    } else {
      LastRowGoes(s, step);
    }
  }

  lemma RowsLeft(s: State, step: Step)
    requires Next(s, step).Some? && !NoRows(Next(s, step).value)
    ensures !Loses(s, step)
  {
    if Loses(s, step) && !StartsWork(step) {
      TransactionRows(s, step);
    }
  }

  lemma StartExposesNothing()
    ensures !Exposed(Start)
  {}

  lemma RunStepOwes(states: seq<State>, steps: seq<Step>, j: nat)
    requires Run(states, steps) && j < |steps| && Owed(states[j])
    ensures Owed(states[j + 1]) <==> !Loses(states[j], steps[j])
  {
    hide Run, Next, Inv, Seen, Owed, Loses, Counted, Tracked;
    RunShape(states, steps);
    Always(states, steps, j);
    AlwaysSeen(states, steps, j);
    RunStep(states, steps, j);
    StepOwes(states[j], steps[j]);
  }

  /** Every state of a run keeps the promise exactly when the run takes no such step. */
  lemma {:induction false} OwedThroughout(states: seq<State>, steps: seq<Step>, n: nat)
    requires Run(states, steps) && n < |states|
    ensures (forall i :: 0 <= i <= n ==> Owed(states[i])) <==> (forall i :: 0 <= i < n ==> !Loses(states[i], steps[i]))
  {
    hide Run, Loses, Exposed;
    RunShape(states, steps);
    if n == 0 {
      StartExposesNothing();
    } else {
      OwedThroughout(states, steps, n - 1);
      if Owed(states[n - 1]) {
        RunStepOwes(states, steps, n - 1);
      }
    }
  }

  /* ── Rows that are still relied on ─────────────────────────────────────── */

  /** Whether the process that owns the job of `c` is past the point where that job stood
      for anything. */
  ghost predicate DoneWith(s: State, c: Subject) {
    exists p :: p in s.procs && Clear(s.procs[p]) && OwnsRow(s.db, s.procs[p]) && ClaimOf(s.procs[p]).value.subject == c
  }

  /** The jobs that a process will still act on before it lets them go. */
  ghost function Backing(s: State): set<Subject> {
    set c | c in s.db.jobs && !DoneWith(s, c)
  }

  /** Whether `p` carries out the current teardown and has emptied the consumer. */
  ghost predicate HasTornDown(s: State, p: nat) {
    p in s.procs && s.procs[p].work.Strip? && HasLanded(s.procs[p]) && s.teardown == Some(s.procs[p].generation)
  }

  ghost predicate TeardownBacks(s: State) {
    s.teardown.Some? && forall p :: p in s.procs ==> !HasTornDown(s, p)
  }

  /** Access that no active grant stands behind has a job that a process will still act on,
      or a teardown that has not emptied the consumer yet. */
  ghost predicate Backed(s: State) {
    Exposed(s) && NoActive(s.db) ==> Backing(s) != {} || TeardownBacks(s)
  }

  /** The steps after which such access has neither: a re-enable cancels the teardown that
      was to remove it; a disable sweep that outlived its disable claims a grant without a
      job; a rebuild writes, under the current tag, the groups of a grant that was revoked
      since it read it; and an approval refused for a disabled account gives up the job it
      took over from an earlier attempt. */
  ghost predicate Gap(s: State, step: Step) {
    match step
    case StepEnable => Exposed(s) && NoActive(s.db) && Backing(s) == {}
    case StepSweep(_, _, _, _) => Exposed(s) && Backing(s) == {} && !TeardownBacks(s)
    case StepIssueRebuild(p) =>
      && p in s.procs && s.procs[p].phase.HasRead? && s.procs[p].phase.tag == s.tag
      && s.procs[p].work.Rebuild? && s.procs[p].work.found.Some? && s.procs[p].work.found.value.Some?
      && NoActive(s.db) && Backing(s) == {} && !TeardownBacks(s)
    case StepObserve(p, _, _) =>
      && p in s.procs && s.procs[p].phase == Failed(false) && OwnsRow(s.db, s.procs[p])
      && Exposed(s) && NoActive(s.db) && Backing(s) == {ClaimOf(s.procs[p]).value.subject} && !TeardownBacks(s)
    case _ => false
  }

  /** The state with the history that counts as cover exactly what is still relied on. */
  ghost function Counting(s: State): State {
    s.(armed := Backing(s), teardownArmed := TeardownBacks(s))
  }

  lemma CountingKeeps(s: State)
    requires Inv(s) && Seen(s)
    ensures Inv(Counting(s)) && Seen(Counting(s))
  {
    var h := Counting(s);
    forall p | p in h.procs ensures TracksWrite(h, p) && Sees(h, p) {
      assert TracksWrite(s, p) && Sees(s, p);
      assert h.teardownArmed ==> !HasTornDown(s, p);
    }
  }

  lemma CountingMeans(s: State, step: Step)
    ensures Exposed(Counting(s)) == Exposed(s) && Covered(Counting(s)) == Backed(s)
    ensures Uncovers(Counting(s), step) == Gap(s, step)
  {
    assert Exposed(Counting(s)) == Exposed(s);
  }

  /** Whatever a history counts as cover is still relied on. */
  lemma CoverIsRelied(s: State)
    requires Inv(s) && Seen(s)
    ensures s.armed <= Backing(s) && (s.teardownArmed ==> TeardownBacks(s))
    ensures Covered(s) ==> Backed(s)
  {
    forall c | c in s.armed ensures c in Backing(s) {
      assert !DoneWith(s, c);
    }
    forall p | p in s.procs ensures s.teardownArmed ==> !HasTornDown(s, p) {
      assert Sees(s, p);
    }
  }

  lemma SameBacking(t: State, s: State)
    requires Bare(t) == Bare(s)
    ensures Backed(t) == Backed(s) && Exposed(t) == Exposed(s)
  {
    SameExposure(t, s);
    assert t.procs == Bare(s).procs == s.procs && t.db == Bare(s).db == s.db
      && t.teardown == Bare(s).teardown == s.teardown;
    assert forall c :: DoneWith(t, c) == DoneWith(s, c);
    assert forall p :: HasTornDown(t, p) == HasTornDown(s, p);
    assert Backing(t) == Backing(s);
  }

  /** Where the jobs are the same and the processes before go on as they were, or end up done
      with their job, no other job is relied on. */
  lemma BackingShrinks(s: State, s': State)
    requires s'.db.jobs == s.db.jobs && s.procs.Keys <= s'.procs.Keys
    requires forall p :: p in s.procs && Clear(s.procs[p]) && OwnsRow(s.db, s.procs[p]) ==> s'.procs[p] == s.procs[p]
    ensures Backing(s') <= Backing(s)
  {
    forall c | c in s.db.jobs && DoneWith(s, c) ensures DoneWith(s', c) {
      var p :| p in s.procs && Clear(s.procs[p]) && OwnsRow(s.db, s.procs[p]) && ClaimOf(s.procs[p]).value.subject == c;
      assert s'.procs[p] == s.procs[p];
    }
  }

  lemma EnableUnbacks(s: State)
    requires Inv(s) && DoEnable(s).Some? && Gap(s, StepEnable)
    ensures !Backed(DoEnable(s).value)
  {
    var s' := DoEnable(s).value;
    assert s.next !in s.procs;
    BackingShrinks(s, s');
    StartIsQuiet(s, StepEnable);
    QuietExposes(s, s');
  }

  lemma SweepUnbacks(s: State, g: Id, actor: Id, at: nat, note: Option<string>)
    requires Inv(s) && DoSweep(s, g, actor, at, note).Some? && Gap(s, StepSweep(g, actor, at, note))
    ensures !Backed(DoSweep(s, g, actor, at, note).value)
  {
    var s' := DoSweep(s, g, actor, at, note).value;
    assert s.next !in s.procs;
    BackingShrinks(s, s');
    StartIsQuiet(s, StepSweep(g, actor, at, note));
    QuietExposes(s, s');
    WithdrawLeavesNone(s.db, g, actor, at, note);
    TornDownStays(s, s');
  }

  /** A teardown that was carried out is so as long as its process is there. */
  lemma TornDownStays(s: State, s': State)
    requires !TeardownBacks(s) && s'.teardown == s.teardown
    requires forall p :: HasTornDown(s, p) ==> p in s'.procs && s'.procs[p] == s.procs[p]
    ensures !TeardownBacks(s')
  {
    if s.teardown.Some? {
      var p :| p in s.procs && HasTornDown(s, p);
      assert HasTornDown(s', p);
    }
  }

  lemma RebuildUnbacks(s: State, p: nat)
    requires Inv(s) && Seen(s) && DoIssueRebuild(s, p).Some? && Gap(s, StepIssueRebuild(p))
    ensures !Backed(DoIssueRebuild(s, p).value)
  {
    CountedOf(s);
    RebuildExposes(s, p);
    var s' := DoIssueRebuild(s, p).value;
    BackingShrinks(s, s');
    TornDownStays(s, s');
  }

  /** An approval refused before it wrote is done with the job when it has looked. */
  lemma ObserveUnbacks(s: State, p: nat, unreadable: bool, grantUnreadable: bool)
    requires DoObserve(s, p, unreadable, grantUnreadable).Some? && Gap(s, StepObserve(p, unreadable, grantUnreadable))
    ensures !Backed(DoObserve(s, p, unreadable, grantUnreadable).value)
  {
    var s' := DoObserve(s, p, unreadable, grantUnreadable).value;
    ObserveDone(s, p, unreadable, grantUnreadable);
    ObserveActs(s, p, unreadable, grantUnreadable);
    QuietExposes(s, s');
    hide DoObserve;
    BackingShrinks(s, s');
    TornDownStays(s, s');
    assert DoneWith(s', ClaimOf(s.procs[p]).value.subject);
  }

  lemma ObserveDone(s: State, p: nat, unreadable: bool, grantUnreadable: bool)
    requires DoObserve(s, p, unreadable, grantUnreadable).Some? && s.procs[p].phase == Failed(false) && NoActive(s.db)
    ensures
      var s' := DoObserve(s, p, unreadable, grantUnreadable).value;
      && s'.db == s.db && s'.teardown == s.teardown && s'.procs.Keys == s.procs.Keys
      && (forall r :: r in s.procs && r != p ==> s'.procs[r] == s.procs[r])
      && s'.procs[p].phase == Settling(true) && ClaimOf(s'.procs[p]) == ClaimOf(s.procs[p])
  {}

  lemma GapUnbacks(s: State, step: Step)
    requires Inv(s) && Seen(s) && Next(s, step).Some? && Gap(s, step)
    ensures !Backed(Next(s, step).value)
  {
    hide Next;
    GapStepIs(s, step);
    hide Inv, Seen, Backed, Gap, DoEnable, DoSweep, DoIssueRebuild, DoObserve;
    match step {
      case StepEnable => EnableUnbacks(s);
      case StepSweep(g, actor, at, note) => SweepUnbacks(s, g, actor, at, note);
      case StepIssueRebuild(p) => RebuildUnbacks(s, p);
      case StepObserve(p, unreadable, grantUnreadable) => ObserveUnbacks(s, p, unreadable, grantUnreadable);
    }
  }

  lemma GapStepIs(s: State, step: Step)
    requires Gap(s, step)
    ensures step.StepEnable? || step.StepSweep? || step.StepIssueRebuild? || step.StepObserve?
    ensures step.StepEnable? ==> Next(s, step) == DoEnable(s)
    ensures step.StepSweep? ==> Next(s, step) == DoSweep(s, step.grant, step.actor, step.at, step.note)
    ensures step.StepIssueRebuild? ==> Next(s, step) == DoIssueRebuild(s, step.p)
    ensures step.StepObserve? ==> Next(s, step) == DoObserve(s, step.p, step.unreadable, step.grantUnreadable)
  {
    hide DoEnable, DoSweep, DoIssueRebuild, DoObserve, NextRead;
  }

  /** A step leaves such access without a row to rely on exactly when it is a gap. */
  lemma StepBacks(s: State, step: Step)
    requires Inv(s) && Seen(s) && Backed(s) && Next(s, step).Some?
    ensures Backed(Next(s, step).value) <==> !Gap(s, step)
  {
    hide Next, Inv, Seen, Gap, Backed, Covered, Uncovers;
    var h, s' := Counting(s), Next(s, step).value;
    CountingKeeps(s);
    CountingMeans(s, step);
    if Gap(s, step) {
      GapUnbacks(s, step);
    } else {
      StepIgnores(s, h, step);
      var t := Next(h, step).value;
      StepCovers(h, step);
      StepKeeps(h, step);
      StepSees(h, step);
      CoverIsRelied(t);
      SameBacking(t, s');
    }
  }

  lemma RunStepBacks(states: seq<State>, steps: seq<Step>, j: nat)
    requires Run(states, steps) && j < |steps| && Backed(states[j])
    ensures Backed(states[j + 1]) <==> !Gap(states[j], steps[j])
  {
    hide Run, Next, Inv, Seen, Backed, Gap, Counted, Tracked;
    RunShape(states, steps);
    Always(states, steps, j);
    AlwaysSeen(states, steps, j);
    RunStep(states, steps, j);
    StepBacks(states[j], steps[j]);
  }

  /** Every state of a run has such a row for such access exactly when the run takes no gap. */
  lemma {:induction false} BackedThroughout(states: seq<State>, steps: seq<Step>, n: nat)
    requires Run(states, steps) && n < |states|
    ensures (forall i :: 0 <= i <= n ==> Backed(states[i])) <==> (forall i :: 0 <= i < n ==> !Gap(states[i], steps[i]))
  {
    hide Run, Gap, Exposed;
    RunShape(states, steps);
    if n == 0 {
      StartExposesNothing();
    } else {
      BackedThroughout(states, steps, n - 1);
      if Backed(states[n - 1]) {
        RunStepBacks(states, steps, n - 1);
      }
    }
  }

  /** Deleting the last row, or tearing down, loses the promise only in a run that took a
      gap before: in a run without a gap every state keeps it. */
  lemma AccessIsOwed(states: seq<State>, steps: seq<Step>, n: nat)
    requires Run(states, steps) && n < |states|
    requires forall i :: 0 <= i < n ==> !Gap(states[i], steps[i])
    ensures Owed(states[n])
    ensures forall i :: 0 <= i < n ==> !Loses(states[i], steps[i])
  {
    BackedThroughout(states, steps, n);
    forall i | 0 <= i <= n ensures Owed(states[i]) {
      BackedOwes(states[i]);
    }
    OwedThroughout(states, steps, n);
  }

  lemma BackedOwes(s: State)
    requires Backed(s)
    ensures Owed(s)
  {
    if Backing(s) != {} {
      var c :| c in Backing(s);
      assert c in s.db.jobs;
    }
  }

  /** An approved plain request that no grant was ever made from has its job, in every run. */
  lemma ApprovalIsOwed(states: seq<State>, steps: seq<Step>, n: nat, r: Id)
    requires Run(states, steps) && n < |states|
    requires r in states[n].db.requests && states[n].db.requests[r].status == Approved
    requires states[n].db.requests[r].widens.None? && !EverGranted(states[n].db, r)
    ensures OfRequest(r) in states[n].db.jobs
  {
    Always(states, steps, n);
    assert NeedsJob(states[n].db, r);
  }
}
