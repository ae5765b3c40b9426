/** Which step loses the cover of access that no active grant stands behind: the step by
    step argument, over the jobs and the teardown that a state's history counts as cover. */
module AccessSagaCoverage {
  import opened Wrappers
  import opened AccessRows
  import opened AccessSaga
  import opened AccessSagaInvariants
  import opened AccessSagaEffects
  import opened AccessSagaGateway

  /** The steps after which nothing covers such access:
      a re-enable cancels the teardown that was to remove it; a disable sweep that
      outlived its disable claims a grant without a job; a rebuild writes the groups
      of a grant it read before that grant was revoked; and an approval refused
      because the account was disabled drops a job it took over from an earlier attempt. */
  ghost predicate Uncovers(s: State, step: Step) {
    match step
    case StepEnable =>
      Exposed(s) && NoActive(s.db) && s.armed == {}
    case StepSweep(_, _, _, _) =>
      Exposed(s) && s.armed == {} && !s.teardownArmed
    case StepIssueRebuild(p) =>
      && p in s.procs && s.procs[p].phase.HasRead? && s.procs[p].phase.tag == s.tag
      && s.procs[p].work.Rebuild? && s.procs[p].work.found.Some? && s.procs[p].work.found.value.Some?
      && NoActive(s.db) && s.armed == {} && !s.teardownArmed
    case StepObserve(p, _, _) =>
      && p in s.procs && s.procs[p].phase == Failed(false) && OwnsRow(s.db, s.procs[p])
      && Exposed(s) && NoActive(s.db) && s.armed == {ClaimOf(s.procs[p]).value.subject} && !s.teardownArmed
    case _ => false
  }

  lemma CountedOf(s: State)
    requires Inv(s)
    ensures Counted(s)
  {}

  lemma QuietExposes(s: State, s': State)
    requires Quiet(s, s')
    ensures Exposed(s') == Exposed(s)
  {}

  /* ── Steps that start work ─────────────────────────────────────────────── */

  lemma WithdrawLeavesNone(db: Db, g: Id, actor: Id, at: nat, note: Option<string>)
    requires WellFormed(db) && WithdrawRows(db, g, actor, at, note).Some?
    ensures NoActive(WithdrawRows(db, g, actor, at, note).value.db)
  {
    var rev := WithdrawRows(db, g, actor, at, note).value;
    forall h | h in rev.db.grants ensures rev.db.grants[h].status != Active {
      assert h in db.grants;
    }
  }

  lemma StartCovers(s: State, step: Step)
    requires Inv(s) && Covered(s) && StartsWork(step) && !step.StepEnable? && !step.StepSweep? && !step.StepRevoke?
    requires Next(s, step).Some?
    ensures Covered(Next(s, step).value)
  {
    CountedOf(s);
    StartKeepsOwed(s, step);
    StartIsQuiet(s, step);
    hide Next, Inv;
    QuietExposes(s, Next(s, step).value);
  }

  lemma StartKeepsOwed(s: State, step: Step)
    requires StartsWork(step) && !step.StepEnable? && !step.StepSweep? && !step.StepRevoke? && Next(s, step).Some?
    ensures
      var s' := Next(s, step).value;
      s'.db.grants == s.db.grants && s.armed <= s'.armed && (s.teardownArmed ==> s'.teardownArmed)
  {
    hide NextRead, NextIssue, NextAfter, DoEnable, DoSweep, DoRevoke, WithdrawRows, Decided, Waiting, Holder, Within;
  }

  lemma EnableCovers(s: State)
    requires Inv(s) && Covered(s) && DoEnable(s).Some?
    ensures Covered(DoEnable(s).value) <==> !Uncovers(s, StepEnable)
  {
    StartIsQuiet(s, StepEnable);
    QuietExposes(s, DoEnable(s).value);
    assert DoEnable(s).value.db.grants == s.db.grants;
  }

  lemma RevokeCovers(s: State, g: Id, actor: Id, at: nat, note: Option<string>)
    requires DoRevoke(s, g, actor, at, note).Some?
    ensures Covered(DoRevoke(s, g, actor, at, note).value)
  {
    assert OfGrant(g) in DoRevoke(s, g, actor, at, note).value.armed;
  }

  lemma SweepCovers(s: State, g: Id, actor: Id, at: nat, note: Option<string>)
    requires Inv(s) && Covered(s) && DoSweep(s, g, actor, at, note).Some?
    ensures Covered(DoSweep(s, g, actor, at, note).value) <==> !Uncovers(s, StepSweep(g, actor, at, note))
  {
    StartIsQuiet(s, StepSweep(g, actor, at, note));
    QuietExposes(s, DoSweep(s, g, actor, at, note).value);
    WithdrawLeavesNone(s.db, g, actor, at, note);
  }

  /* ── Reads, landings and acknowledgements ──────────────────────────────── */

  lemma ReadCovers(s: State, p: nat)
    requires Covered(s) && DoRead(s, p).Some?
    ensures Covered(DoRead(s, p).value)
  {
    assert Exposed(DoRead(s, p).value) == Exposed(s);
  }

  lemma AckCovers(s: State, p: nat)
    requires Covered(s) && DoAck(s, p).Some?
    ensures Covered(DoAck(s, p).value)
  {
    AckShape(s, p);
    assert Exposed(DoAck(s, p).value) == Exposed(s);
  }

  lemma OtherApiCovers(s: State)
    requires Counted(s) && Covered(s)
    ensures Covered(DoOtherApi(s).value)
  {
    assert Exposed(DoOtherApi(s).value) ==> Exposed(s);
  }

  /** A write that takes effect leaves exactly its own groups, and everything else
      in flight under the old tag is dead. */
  lemma LandCovers(s: State, q: nat)
    requires Counted(s) && Seen(s) && Covered(s) && q in s.puts
    ensures Covered(DoLand(s, q).value)
  {
    var s' := DoLand(s, q).value;
    if Exposed(s') {
      if s.puts[q].tag == s.tag {
        assert s'.groups == s.puts[q].groups != {};
        assert Exposed(s);
      } else {
        assert s'.groups == s.groups && s'.tag == s.tag;
        assert Exposed(s);
      }
    }
  }

  /* ── Issuing a write ───────────────────────────────────────────────────── */

  /** A write of groups nobody had put there is what makes access new. */
  lemma EmitExposes(s: State, p: nat, s': State, put: Put)
    requires Counted(s) && Seen(s) && Emits(s, p, s', put)
    ensures Exposed(s') <==> Exposed(s) || (put.tag == s.tag && put.groups != {})
  {
    if put.tag == s.tag && put.groups != {} {
      assert s.next in s'.puts && s'.puts[s.next] == put;
    }
    if Exposed(s) && s.groups == {} {
      var q :| q in s.puts && s.puts[q].tag == s.tag && s.puts[q].groups != {};
      assert q in s'.puts && s'.puts[q] == s.puts[q];
    }
  }

  lemma IssueAddCovers(s: State, p: nat)
    requires Inv(s) && Seen(s) && Covered(s) && DoIssueAdd(s, p).Some?
    ensures Covered(DoIssueAdd(s, p).value)
  {
    CountedOf(s);
    hide Inv, WellFormed;
    var s' := DoIssueAdd(s, p).value;
    IssueAddEmits(s, p);
    if Quiet(s, s') {
      QuietExposes(s, s');
    } else {
      assert ClaimOf(s.procs[p]).value.subject in s'.armed;
    }
  }

  lemma IssueRemoveAllCovers(s: State, p: nat)
    requires Inv(s) && Seen(s) && Covered(s) && DoIssueRemoveAll(s, p).Some?
    ensures Covered(DoIssueRemoveAll(s, p).value)
  {
    CountedOf(s);
    hide Inv, WellFormed;
    var s' := DoIssueRemoveAll(s, p).value;
    IssueRemoveAllEmits(s, p);
    if Quiet(s, s') {
      QuietExposes(s, s');
    } else {
      EmitExposes(s, p, s', s'.puts[s.next]);
    }
  }

  lemma IssueReconcileCovers(s: State, p: nat)
    requires Inv(s) && Seen(s) && Covered(s) && DoIssueReconcile(s, p).Some?
    ensures Covered(DoIssueReconcile(s, p).value)
  {
    CountedOf(s);
    hide Inv, WellFormed;
    var s' := DoIssueReconcile(s, p).value;
    IssueReconcileEmits(s, p);
    if Quiet(s, s') {
      QuietExposes(s, s');
    } else {
      EmitExposes(s, p, s', s'.puts[s.next]);
    }
  }

  lemma IssueRevokeCovers(s: State, p: nat)
    requires Inv(s) && Seen(s) && Covered(s) && DoIssueRevoke(s, p).Some?
    ensures Covered(DoIssueRevoke(s, p).value)
  {
    CountedOf(s);
    hide Inv, WellFormed;
    var s' := DoIssueRevoke(s, p).value;
    IssueRevokeEmits(s, p);
    if Quiet(s, s') {
      QuietExposes(s, s');
    } else {
      EmitExposes(s, p, s', s'.puts[s.next]);
    }
  }

  lemma IssueStripCovers(s: State, p: nat)
    requires Inv(s) && Seen(s) && Covered(s) && DoIssueStripTools(s, p).Some?
    ensures Covered(DoIssueStripTools(s, p).value)
  {
    CountedOf(s);
    hide Inv, WellFormed;
    var s' := DoIssueStripTools(s, p).value;
    IssueStripToolsEmits(s, p);
    assert Sees(s, p);
    assert s'.armed == s.armed && s'.db == s.db && s'.teardownArmed == s.teardownArmed;
    if Quiet(s, s') {
      QuietExposes(s, s');
    } else {
      EmitExposes(s, p, s', s'.puts[s.next]);
    }
  }

  lemma IssueRecoveryCovers(s: State, p: nat)
    requires Inv(s) && Seen(s) && Covered(s) && DoIssueRecovery(s, p).Some?
    ensures Covered(DoIssueRecovery(s, p).value)
  {
    CountedOf(s);
    hide Inv, WellFormed;
    var s' := DoIssueRecovery(s, p).value;
    if Holder(s.db).Some? {
      assert s'.db == s.db;
    } else {
      IssueRecoveryEmits(s, p);
      assert s'.armed == s.armed && s'.db == s.db && s'.teardownArmed == s.teardownArmed;
      if Quiet(s, s') {
        QuietExposes(s, s');
      } else {
        EmitExposes(s, p, s', s'.puts[s.next]);
      }
    }
  }

  lemma IssueTeardownCovers(s: State, p: nat)
    requires Inv(s) && Seen(s) && Covered(s) && DoIssueTeardown(s, p).Some?
    ensures Covered(DoIssueTeardown(s, p).value)
  {
    CountedOf(s);
    hide Inv, WellFormed;
    var s' := DoIssueTeardown(s, p).value;
    IssueTeardownEmits(s, p);
    if Quiet(s, s') {
      QuietExposes(s, s');
    } else {
      EmitExposes(s, p, s', s'.puts[s.next]);
    }
  }

  lemma IssueSweepCovers(s: State, p: nat)
    requires Inv(s) && Seen(s) && Covered(s) && DoIssueSweep(s, p).Some?
    ensures Covered(DoIssueSweep(s, p).value)
  {
    CountedOf(s);
    hide Inv, WellFormed;
    var s' := DoIssueSweep(s, p).value;
    IssueSweepEmits(s, p);
    if Quiet(s, s') {
      QuietExposes(s, s');
    } else {
      EmitExposes(s, p, s', s'.puts[s.next]);
    }
  }

  /** What a rebuild's write makes of the exposure. */
  lemma RebuildExposes(s: State, p: nat)
    requires Counted(s) && Seen(s) && DoIssueRebuild(s, p).Some?
    ensures
      var s' := DoIssueRebuild(s, p).value;
      && s'.armed == s.armed && s'.db == s.db && s'.teardownArmed == s.teardownArmed
      && (Exposed(s') <==> Exposed(s) || (s.procs[p].work.found.value.Some? && s.procs[p].phase.tag == s.tag))
  {
    var s' := DoIssueRebuild(s, p).value;
    IssueRebuildEmits(s, p);
    if Quiet(s, s') {
      QuietExposes(s, s');
    } else {
      EmitExposes(s, p, s', s'.puts[s.next]);
      var found := s.procs[p].work.found.value;
      assert found.Some? ==> Rest in Covers(found.value);
    }
  }

  lemma IssueRebuildCovers(s: State, p: nat)
    requires Inv(s) && Seen(s) && Covered(s) && DoIssueRebuild(s, p).Some?
    ensures Covered(DoIssueRebuild(s, p).value) <==> !Uncovers(s, StepIssueRebuild(p))
  {
    CountedOf(s);
    RebuildExposes(s, p);
    hide Inv, Seen, Exposed, Emit, NoActive;
  }

  /* ── After the write ───────────────────────────────────────────────────── */

  /** Dropping a job that a process is done with takes nothing out of `armed`. */
  lemma ClearDropsNothing(s: State, p: nat)
    requires Inv(s) && p in s.procs && Clear(s.procs[p]) && OwnsRow(s.db, s.procs[p])
    ensures s.armed - {ClaimOf(s.procs[p]).value.subject} == s.armed
  {}

  lemma CloseJobCovers(s: State, p: nat)
    requires Inv(s) && Covered(s) && DoCloseJob(s, p).Some?
    ensures Covered(DoCloseJob(s, p).value)
  {
    var s' := DoCloseJob(s, p).value;
    CloseJobActs(s, p);
    QuietExposes(s, s');
    if OwnsRow(s.db, s.procs[p]) && s.procs[p].phase.done {
      ClearDropsNothing(s, p);
    }
    assert s.armed <= s'.armed;
    assert s'.db.grants == s.db.grants;
  }

  lemma FinishFrame(s: State, p: nat)
    requires DoFinish(s, p).Some?
    ensures
      var s' := DoFinish(s, p).value;
      && s'.db.grants == s.db.grants && s'.teardownArmed == s.teardownArmed
      && Clear(s.procs[p])
      && s'.armed == if OwnsRow(s.db, s.procs[p]) then s.armed - {ClaimOf(s.procs[p]).value.subject} else s.armed
  {}

  lemma FinishCovers(s: State, p: nat)
    requires Inv(s) && Covered(s) && DoFinish(s, p).Some?
    ensures Covered(DoFinish(s, p).value)
  {
    FinishFrame(s, p);
    FinishActs(s, p);
    QuietExposes(s, DoFinish(s, p).value);
    if OwnsRow(s.db, s.procs[p]) {
      ClearDropsNothing(s, p);
    }
  }

  lemma TornDownCovers(s: State, p: nat)
    requires Inv(s) && Seen(s) && Covered(s) && DoTornDown(s, p).Some?
    ensures Covered(DoTornDown(s, p).value)
  {
    var s' := DoTornDown(s, p).value;
    TornDownActs(s, p);
    QuietExposes(s, s');
    assert Sees(s, p);
  }

  lemma CommitCovers(s: State, p: nat, g: Id)
    requires Inv(s) && DoCommit(s, p, g).Some?
    ensures Covered(DoCommit(s, p, g).value)
  {
    var s' := DoCommit(s, p, g).value;
    assert g in s'.db.grants && s'.db.grants[g].status == Active;
  }

  lemma RestoreCovers(s: State, p: nat, acknowledged: bool)
    requires Inv(s) && Covered(s) && DoRestore(s, p, acknowledged).Some?
    ensures Covered(DoRestore(s, p, acknowledged).value)
  {
    var s' := DoRestore(s, p, acknowledged).value;
    RestoreActs(s, p, acknowledged);
    QuietExposes(s, s');
    var w := s.procs[p].work;
    RestoreExactly(s.db, w.grant, w.who, w.at, w.moved, w.cancelled, s.procs[p].phase.present);
    var out := Restore(s.db, w.grant, w.who, w.at, w.moved, w.cancelled, s.procs[p].phase.present);
    if s.key == Some(p) && out.Some? && out.value.restored {
      assert IsActive(s'.db, w.grant);
    } else {
      assert s'.db == s.db && s'.armed == s.armed;
    }
  }

  lemma ObserveFrame(s: State, p: nat, unreadable: bool, grantUnreadable: bool)
    requires DoObserve(s, p, unreadable, grantUnreadable).Some?
    ensures
      var s' := DoObserve(s, p, unreadable, grantUnreadable).value;
      && s'.db == s.db && s'.teardownArmed == s.teardownArmed
      && (Holder(s.db).None? ==>
            s'.armed == if s.procs[p].phase.attempted || !OwnsRow(s.db, s.procs[p]) then s.armed
                        else s.armed - {ClaimOf(s.procs[p]).value.subject})
  {}

  /** Dropping what `p`'s job stood for uncovers access only if nothing else stands for it. */
  lemma DropCovers(s: State, s': State, p: nat, unreadable: bool, grantUnreadable: bool)
    requires Covered(s) && p in s.procs && s.procs[p].phase.Failed?
    requires Exposed(s') == Exposed(s) && s'.db == s.db && s'.teardownArmed == s.teardownArmed
    requires Holder(s.db).None? ==>
               s'.armed == if s.procs[p].phase.attempted || !OwnsRow(s.db, s.procs[p]) then s.armed
                           else s.armed - {ClaimOf(s.procs[p]).value.subject}
    ensures Covered(s') <==> !Uncovers(s, StepObserve(p, unreadable, grantUnreadable))
  {
    if OwnsRow(s.db, s.procs[p]) {
      var c := ClaimOf(s.procs[p]).value.subject;
      assert s.armed - {c} == {} <==> s.armed == {} || s.armed == {c};
    }
  }

  lemma ObserveCovers(s: State, p: nat, unreadable: bool, grantUnreadable: bool)
    requires Covered(s) && DoObserve(s, p, unreadable, grantUnreadable).Some?
    ensures Covered(DoObserve(s, p, unreadable, grantUnreadable).value)
            <==> !Uncovers(s, StepObserve(p, unreadable, grantUnreadable))
  {
    var s' := DoObserve(s, p, unreadable, grantUnreadable).value;
    assert Exposed(s') == Exposed(s) by {
      ObserveActs(s, p, unreadable, grantUnreadable);
      QuietExposes(s, s');
    }
    ObserveFrame(s, p, unreadable, grantUnreadable);
    DropCovers(s, s', p, unreadable, grantUnreadable);
  }

  /** Nothing that coverage depends on is different. */
  ghost predicate Same(s: State, s': State) {
    s'.armed == s.armed && s'.teardownArmed == s.teardownArmed && s'.db.grants == s.db.grants
  }

  lemma SameCovers(s: State, s': State)
    requires Covered(s) && Same(s, s') && Exposed(s') == Exposed(s)
    ensures Covered(s')
  {}

  /** The rest of a process's steps touch neither grants nor what is owed. */
  lemma IdleCovers(s: State, step: Step)
    requires Covered(s) && Idle(step) && Next(s, step).Some?
    ensures Covered(Next(s, step).value)
  {
    hide Next, Covered, Exposed, Quiet;
    StepActs(s, step);
    QuietExposes(s, Next(s, step).value);
    SameCovers(s, Next(s, step).value);
  }

  /* ── Every step, and every run ─────────────────────────────────────────── */

  lemma EndCovers(s: State, step: Step)
    requires Inv(s) && Seen(s) && Covered(s) && Next(s, step).Some?
    requires step.StepCloseJob? || step.StepFinish? || step.StepTornDown?
    ensures Covered(Next(s, step).value) && !Uncovers(s, step)
  {
    hide Inv, Seen, Covered, DoCloseJob, DoFinish, DoTornDown;
    match step {
      case StepCloseJob(p) => CloseJobCovers(s, p);
      case StepFinish(p) => FinishCovers(s, p);
      case StepTornDown(p) => TornDownCovers(s, p);
    }
  }

  lemma AfterCovers(s: State, step: Step)
    requires Inv(s) && Seen(s) && Covered(s) && Inert(step) && Next(s, step).Some?
    ensures Covered(Next(s, step).value) <==> !Uncovers(s, step)
  {
    hide Inv, Seen, Covered, DoCommit, DoRestore, DoObserve, NextStart, NextRead, NextIssue;
    if Idle(step) {
      IdleCovers(s, step);
    } else if step.StepCloseJob? || step.StepFinish? || step.StepTornDown? {
      EndCovers(s, step);
    } else {
      match step {
        case StepCommit(p, g) => CommitCovers(s, p, g);
        case StepRestore(p, acknowledged) => RestoreCovers(s, p, acknowledged);
        case StepObserve(p, unreadable, grantUnreadable) => ObserveCovers(s, p, unreadable, grantUnreadable);
      }
    }
  }

  lemma IssueCovers(s: State, step: Step)
    requires Inv(s) && Seen(s) && Covered(s) && Issues(step) && Next(s, step).Some?
    ensures Covered(Next(s, step).value) <==> !Uncovers(s, step)
  {
    hide Inv, Seen, Covered, DoIssueAdd, DoIssueRemoveAll, DoIssueStripTools, DoIssueReconcile, DoIssueRevoke;
    hide DoIssueRecovery, DoIssueRebuild, DoIssueTeardown, DoIssueSweep;
    match step {
      case StepIssueAdd(p) => IssueAddCovers(s, p);
      case StepIssueRemoveAll(p) => IssueRemoveAllCovers(s, p);
      case StepIssueStripTools(p) => IssueStripCovers(s, p);
      case StepIssueReconcile(p) => IssueReconcileCovers(s, p);
      case StepIssueRevoke(p) => IssueRevokeCovers(s, p);
      case StepIssueRecovery(p) => IssueRecoveryCovers(s, p);
      case StepIssueRebuild(p) => IssueRebuildCovers(s, p);
      case StepIssueTeardown(p) => IssueTeardownCovers(s, p);
      case StepIssueSweep(p) => IssueSweepCovers(s, p);
    }
  }

  /** A step loses coverage exactly when it is one of the four gaps. */
  lemma StepCovers(s: State, step: Step)
    requires Inv(s) && Seen(s) && Covered(s) && Next(s, step).Some?
    ensures Covered(Next(s, step).value) <==> !Uncovers(s, step)
  {
    hide Inv, Seen, Covered, DoEnable, DoSweep, DoRevoke, DoRead, DoOtherApi, DoAck;
    if Inert(step) {
      AfterCovers(s, step);
    } else if Issues(step) {
      IssueCovers(s, step);
    } else {
      match step {
        case StepEnable => EnableCovers(s);
        case StepSweep(g, actor, at, note) => SweepCovers(s, g, actor, at, note);
        case StepRevoke(g, actor, at, note) => RevokeCovers(s, g, actor, at, note);
        case StepRead(p) => ReadCovers(s, p);
        case StepLand(q) => assert Counted(s) by { CountedOf(s); } LandCovers(s, q);
        case StepOtherApi => assert Counted(s) by { CountedOf(s); } OtherApiCovers(s);
        case StepAck(p) => AckCovers(s, p);
        case _ => StartCovers(s, step);
      }
    }
  }
}
