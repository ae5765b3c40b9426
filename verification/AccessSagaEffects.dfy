/** What a step of a process in progress can change, whatever it is: its own place in its
    program, the write it makes, and the rows its transaction is for. */
module AccessSagaEffects {
  import opened Wrappers
  import opened AccessRows
  import opened AccessSaga
  import opened AccessSagaInvariants

  /* ── Kinds of steps ────────────────────────────────────────────────────── */

  /** The steps of a process before its read, after its write, and of the key alone. */
  predicate Inert(step: Step) {
    step.StepLook? || step.StepReadGrants? || step.StepEnter? || step.StepRefused? || step.StepFail? || step.StepCrash?
    || step.StepLoseKey? || step.StepCommit? || step.StepCommitFails? || step.StepObserve? || step.StepSettle?
    || step.StepCloseJob? || step.StepPresence? || step.StepRestore? || step.StepGiveUp? || step.StepFinish?
    || step.StepTornDown?
  }

  /** The steps that end in a transaction on requests, grants or jobs. */
  predicate Transacts(step: Step) {
    step.StepCommit? || step.StepSettle? || step.StepCloseJob? || step.StepRestore? || step.StepFinish?
  }

  /** The inert steps that leave what is owed as it was. */
  predicate Idle(step: Step) {
    Inert(step) && !step.StepObserve? && !step.StepCommit? && !step.StepCloseJob? && !step.StepRestore?
    && !step.StepFinish? && !step.StepTornDown?
  }

  /* ── What stays ────────────────────────────────────────────────────────── */

  predicate Unwritten(phase: Phase) {
    !phase.HasRead? && !phase.Issued? && !phase.Written?
  }

  /** The gateway and the writes in flight are left alone, and no process comes to believe
      that it has read or written. */
  ghost predicate Quiet(s: State, s': State) {
    && s'.groups == s.groups && s'.tag == s.tag && s'.puts == s.puts
    && (forall p :: p in s'.procs ==>
          || Unwritten(s'.procs[p].phase)
          || (p in s.procs && s'.procs[p].phase == s.procs[p].phase
              && s'.procs[p].generation == s.procs[p].generation && s'.procs[p].work == s.procs[p].work))
    && (forall p :: p in s'.procs && s'.key == Some(p) ==> s.key == Some(p) || Unwritten(s'.procs[p].phase))
    && ((s'.teardown == s.teardown && (s'.teardownArmed ==> s.teardownArmed))
        || s'.teardown.None? || s'.teardown.value >= s.next)
  }

  /** Tags and ids only grow, and a write in flight never changes. */
  ghost predicate Later(s: State, s': State) {
    && s.tag <= s'.tag && s.next <= s'.next
    && (forall q :: q in s'.puts && q < s.next ==> q in s.puts && s'.puts[q] == s.puts[q])
  }

  /** The subset an approval means to commit. */
  function Goal(w: Work): Subset
    requires IsAdd(w)
  {
    if w.Approve? then w.tools else Some(w.current + w.added)
  }

  /** The tools an approval records as approved. */
  function Agreed(w: Work): Subset
    requires IsAdd(w)
  {
    if w.Approve? then w.tools else Some(w.added)
  }

  /** The same approval at another point of its program. */
  predicate SameApproval(a: Proc, b: Proc) {
    && a.generation == b.generation
    && (IsAdd(a.work) ==> IsAdd(b.work) && a.work.request == b.work.request && a.work.Widen? == b.work.Widen?
                          && Agreed(a.work) == Agreed(b.work) && Goal(a.work) == Goal(b.work)
                          && (a.work.Widen? ==> a.work.grant == b.work.grant && a.work.current == b.work.current))
    && (b.phase.Closing? ==> a.phase.Closing?)
  }

  /** The same revocation or recovery, which may have read its request meanwhile. */
  predicate SameDuty(db: Db, a: Proc, b: Proc) {
    && (a.work.Revoke? ==> b.work == a.work)
    && (a.work.FinishApprove? ==>
          && b.work.FinishApprove? && b.work.request == a.work.request
          && (a.work.seen == b.work.seen
              || (a.work.request in db.requests && a.work.seen == Some(db.requests[a.work.request]))))
  }

  /** The read behind a rollback's judgement: one of the grant's groups was on, or the
      consumer could not be read. */
  ghost predicate Judged(s: State, step: Step, p: nat) {
    && step.StepPresence? && step.p == p && p in s.procs && s.procs[p].work.Revoke? && s.key.None?
    && s.procs[p].work.grant in s.db.grants
    && (step.unreadable || s.groups * Covers(s.db.grants[s.procs[p].work.grant].tools) != {})
  }

  /** A process goes on with the claim and the approval it had, and comes to judge a
      rollback only by reading. */
  ghost predicate Continues(s: State, step: Step, s': State, p: nat)
    requires p in s'.procs
  {
    && p in s.procs
    && ClaimOf(s'.procs[p]) == ClaimOf(s.procs[p])
    && SameApproval(s'.procs[p], s.procs[p]) && SameDuty(s.db, s'.procs[p], s.procs[p])
    && (s'.procs[p].phase == Judging(true) ==>
          s'.procs[p].work == s.procs[p].work && (s.procs[p].phase == Judging(true) || Judged(s, step, p)))
  }

  ghost predicate Acts(s: State, step: Step, s': State) {
    && Later(s, s')
    && (forall p :: p in s'.procs ==> Continues(s, step, s', p))
    && (Inert(step) ==> Quiet(s, s'))
    && (!Transacts(step) ==> s'.db == s.db)
    && (!step.StepCommit? && !step.StepRestore? ==> s'.db.grants == s.db.grants)
    && (Idle(step) ==> s'.armed == s.armed && s'.teardownArmed == s.teardownArmed)
    && (!step.StepTornDown? ==> s'.teardown == s.teardown)
  }

  /* ── One lemma a step ──────────────────────────────────────────────────── */

  /** `p` alone goes on, to a point where it has neither read nor written, or written. */
  ghost predicate MovesOne(s: State, s': State, p: nat) {
    && p in s.procs && p in s'.procs
    && s' == s.(procs := s.procs[p := s'.procs[p]], key := s'.key, armed := s'.armed)
    && (s'.key == s.key || s'.key == LeftKey(s, p))
    && ClaimOf(s'.procs[p]) == ClaimOf(s.procs[p]) && SameApproval(s'.procs[p], s.procs[p])
    && SameDuty(s.db, s'.procs[p], s.procs[p]) && !s'.procs[p].phase.Judging?
  }

  lemma MovesOneActs(s: State, step: Step, s': State, p: nat)
    requires MovesOne(s, s', p)
    requires Inert(step) ==> Unwritten(s'.procs[p].phase)
    requires Idle(step) ==> s'.armed == s.armed
    ensures Acts(s, step, s')
  {
    forall x | x in s'.procs ensures Continues(s, step, s', x) {}
    if Unwritten(s'.procs[p].phase) {
      MovesOneQuietly(s, s', p);
    }
    hide Continues, Quiet;
  }

  lemma MovesOneQuietly(s: State, s': State, p: nat)
    requires MovesOne(s, s', p) && Unwritten(s'.procs[p].phase)
    ensures Quiet(s, s')
  {}

  lemma EndActs(s: State, step: Step, p: nat)
    ensures Acts(s, step, End(s, p))
  {}

  lemma LoseKeyActs(s: State, step: Step)
    ensures Acts(s, step, s.(key := None))
  {}

  /** An acknowledged write's owner keeps what it wrote in mind, or forgets it. */
  lemma AckShape(s: State, p: nat)
    requires DoAck(s, p).Some?
    ensures
      var s' := DoAck(s, p).value;
      && s' == s.(procs := s'.procs, key := s'.key)
      && (s'.key == s.key || s'.key == LeftKey(s, p))
      && (s' == End(s, p)
          || (s'.procs == s.procs[p := s.procs[p].(phase := s'.procs[p].phase)] && !s'.procs[p].phase.Judging?
              && (Unwritten(s'.procs[p].phase)
                  || (s'.procs[p].phase == Written(s.procs[p].phase.base, s.procs[p].phase.wrote)
                      && (IsAdd(s.procs[p].work) ==> s.procs[p].phase.undo.Forward?)))))
  {}

  lemma AckActs(s: State, p: nat)
    requires DoAck(s, p).Some?
    ensures Acts(s, StepAck(p), DoAck(s, p).value)
  {
    AckShape(s, p);
    var s' := DoAck(s, p).value;
    if s' == End(s, p) { EndActs(s, StepAck(p), p); } else { MovesOneActs(s, StepAck(p), s', p); }
  }

  lemma FailShape(s: State, p: nat)
    requires DoFail(s, p).Some?
    ensures
      var s' := DoFail(s, p).value;
      s' == End(s, p) || (MovesOne(s, s', p) && Unwritten(s'.procs[p].phase) && s'.armed == s.armed)
  {}

  lemma FailActs(s: State, p: nat)
    requires DoFail(s, p).Some?
    ensures Acts(s, StepFail(p), DoFail(s, p).value)
  {
    hide MovesOne, Acts;
    FailShape(s, p);
    var s' := DoFail(s, p).value;
    if s' == End(s, p) { EndActs(s, StepFail(p), p); } else { MovesOneActs(s, StepFail(p), s', p); }
  }

  lemma ObserveShape(s: State, p: nat, unreadable: bool, grantUnreadable: bool)
    requires DoObserve(s, p, unreadable, grantUnreadable).Some?
    ensures
      var s' := DoObserve(s, p, unreadable, grantUnreadable).value;
      MovesOne(s, s', p) && Unwritten(s'.procs[p].phase)
  {}

  lemma ObserveActs(s: State, p: nat, unreadable: bool, grantUnreadable: bool)
    requires DoObserve(s, p, unreadable, grantUnreadable).Some?
    ensures Acts(s, StepObserve(p, unreadable, grantUnreadable), DoObserve(s, p, unreadable, grantUnreadable).value)
  {
    hide MovesOne, Acts;
    ObserveShape(s, p, unreadable, grantUnreadable);
    MovesOneActs(s, StepObserve(p, unreadable, grantUnreadable), DoObserve(s, p, unreadable, grantUnreadable).value, p);
  }

  lemma LookActs(s: State, p: nat)
    requires DoLook(s, p).Some?
    ensures Acts(s, StepLook(p), DoLook(s, p).value)
  {}

  lemma ReadGrantsActs(s: State, p: nat)
    requires DoReadGrants(s, p).Some?
    ensures Acts(s, StepReadGrants(p), DoReadGrants(s, p).value)
  {}

  lemma EnterActs(s: State, p: nat, held: bool)
    requires DoEnter(s, p, held).Some?
    ensures Acts(s, StepEnter(p, held), DoEnter(s, p, held).value)
  {}

  lemma RefusedActs(s: State, p: nat)
    requires DoRefused(s, p).Some?
    ensures Acts(s, StepRefused(p), DoRefused(s, p).value)
  {}

  lemma ReadActs(s: State, p: nat)
    requires DoRead(s, p).Some?
    ensures Acts(s, StepRead(p), DoRead(s, p).value)
  {}

  lemma EmitActs(s: State, step: Step, p: nat, groups: set<Group>, settles: bool, strips: Option<nat>)
    requires p in s.procs && s.procs[p].phase.HasRead? && Issues(step)
    ensures Acts(s, step, Emit(s, p, groups, settles, strips))
  {}

  /** What a step that may arm a job leaves armed is its own affair. */
  lemma ArmedActs(s: State, step: Step, s': State, armed: set<Subject>)
    requires Acts(s, step, s') && !Inert(step)
    ensures Acts(s, step, s'.(armed := armed))
  {
    forall p | p in s'.procs ensures Continues(s, step, s'.(armed := armed), p) {
      assert Continues(s, step, s', p);
    }
    hide Continues;
  }

  lemma IssueAddActs(s: State, p: nat)
    requires DoIssueAdd(s, p).Some?
    ensures Acts(s, StepIssueAdd(p), DoIssueAdd(s, p).value)
  {
    var proc := s.procs[p];
    hide HeldByAnother;
    if !OwnsRow(s.db, proc) {
      EndActs(s, StepIssueAdd(p), p);
    } else if HeldByAnother(s.db, proc.work) {
      MovesOneActs(s, StepIssueAdd(p), DoIssueAdd(s, p).value, p);
    } else {
      var tools := if proc.work.Approve? then proc.work.tools else Some(proc.work.current + proc.work.added);
      EmitActs(s, StepIssueAdd(p), p, Covers(tools), false, None);
      ArmedActs(s, StepIssueAdd(p), Emit(s, p, Covers(tools), false, None), s.armed + {ClaimOf(proc).value.subject});
    }
  }

  lemma IssueRemoveAllActs(s: State, p: nat)
    requires DoIssueRemoveAll(s, p).Some?
    ensures Acts(s, StepIssueRemoveAll(p), DoIssueRemoveAll(s, p).value)
  {
    if Holder(s.db).None? {
      EmitActs(s, StepIssueRemoveAll(p), p, {}, true, None);
    } else {
      var s' := DoIssueRemoveAll(s, p).value;
      DisarmedMoves(s, p, s'.procs[p].phase);
      hide DoIssueRemoveAll, MovesOne, Disarm, Holder;
      MovesOneActs(s, StepIssueRemoveAll(p), s', p);
    }
  }

  lemma DisarmedMoves(s: State, p: nat, phase: Phase)
    requires p in s.procs && !s.procs[p].phase.Closing? && !phase.Judging?
    ensures MovesOne(s, Goto(Disarm(Leave(s, p), p), p, phase), p)
  {}

  lemma IssueStripToolsActs(s: State, p: nat)
    requires DoIssueStripTools(s, p).Some?
    ensures Acts(s, StepIssueStripTools(p), DoIssueStripTools(s, p).value)
  {}

  lemma IssueReconcileActs(s: State, p: nat)
    requires DoIssueReconcile(s, p).Some?
    ensures Acts(s, StepIssueReconcile(p), DoIssueReconcile(s, p).value)
  {}

  lemma IssueRevokeActs(s: State, p: nat)
    requires DoIssueRevoke(s, p).Some?
    ensures Acts(s, StepIssueRevoke(p), DoIssueRevoke(s, p).value)
  {}

  lemma IssueRecoveryActs(s: State, p: nat)
    requires DoIssueRecovery(s, p).Some?
    ensures Acts(s, StepIssueRecovery(p), DoIssueRecovery(s, p).value)
  {
    hide Reconciled, HeldBy, HeldGrant, Holder, OwnsRow, Owns;
  }

  lemma IssueTeardownActs(s: State, p: nat)
    requires DoIssueTeardown(s, p).Some?
    ensures Acts(s, StepIssueTeardown(p), DoIssueTeardown(s, p).value)
  {}

  lemma IssueRebuildActs(s: State, p: nat)
    requires DoIssueRebuild(s, p).Some?
    ensures Acts(s, StepIssueRebuild(p), DoIssueRebuild(s, p).value)
  {}

  lemma IssueSweepActs(s: State, p: nat)
    requires DoIssueSweep(s, p).Some?
    ensures Acts(s, StepIssueSweep(p), DoIssueSweep(s, p).value)
  {}

  lemma LandActs(s: State, q: nat)
    requires DoLand(s, q).Some?
    ensures Acts(s, StepLand(q), DoLand(s, q).value)
  {}

  lemma OtherApiActs(s: State)
    requires DoOtherApi(s).Some?
    ensures Acts(s, StepOtherApi, DoOtherApi(s).value)
  {}

  lemma CommitActs(s: State, p: nat, g: Id)
    requires DoCommit(s, p, g).Some?
    ensures Acts(s, StepCommit(p, g), DoCommit(s, p, g).value)
  {}

  lemma CommitFailsActs(s: State, p: nat)
    requires DoCommitFails(s, p).Some?
    ensures Acts(s, StepCommitFails(p), DoCommitFails(s, p).value)
  {}

  lemma SettleActs(s: State, p: nat, stored: bool)
    requires DoSettle(s, p, stored).Some?
    ensures Acts(s, StepSettle(p, stored), DoSettle(s, p, stored).value)
  {}

  lemma CloseJobActs(s: State, p: nat)
    requires DoCloseJob(s, p).Some?
    ensures Acts(s, StepCloseJob(p), DoCloseJob(s, p).value)
  {}

  lemma PresenceActs(s: State, p: nat, unreadable: bool)
    requires DoPresence(s, p, unreadable).Some?
    ensures Acts(s, StepPresence(p, unreadable), DoPresence(s, p, unreadable).value)
  {}

  lemma RestoreHeldActs(s: State, p: nat, acknowledged: bool)
    requires DoRestore(s, p, acknowledged).Some? && s.key == Some(p)
    ensures Acts(s, StepRestore(p, acknowledged), DoRestore(s, p, acknowledged).value)
  {
    hide Restore;
  }

  lemma RestoreActs(s: State, p: nat, acknowledged: bool)
    requires DoRestore(s, p, acknowledged).Some?
    ensures Acts(s, StepRestore(p, acknowledged), DoRestore(s, p, acknowledged).value)
  {
    if s.key == Some(p) {
      RestoreHeldActs(s, p, acknowledged);
    } else {
      MovesOneActs(s, StepRestore(p, acknowledged), DoRestore(s, p, acknowledged).value, p);
    }
  }

  lemma GiveUpActs(s: State, p: nat)
    requires DoGiveUp(s, p).Some?
    ensures Acts(s, StepGiveUp(p), DoGiveUp(s, p).value)
  {}

  lemma FinishActs(s: State, p: nat)
    requires DoFinish(s, p).Some?
    ensures Acts(s, StepFinish(p), DoFinish(s, p).value)
  {
    var s' := DoFinish(s, p).value;
    assert s' == End(s, p).(db := s'.db, armed := s'.armed) && s'.db.grants == s.db.grants;
    hide DoFinish;
    EndsActs(s, StepFinish(p), p, s'.db, s'.armed);
  }

  /** A process that ends with a transaction on requests and jobs. */
  lemma EndsActs(s: State, step: Step, p: nat, db: Db, armed: set<Subject>)
    requires Transacts(step) && !Idle(step) && db.grants == s.db.grants
    ensures Acts(s, step, End(s, p).(db := db, armed := armed))
  {}

  lemma TornDownActs(s: State, p: nat)
    requires DoTornDown(s, p).Some?
    ensures Acts(s, StepTornDown(p), DoTornDown(s, p).value)
  {}

  lemma ReadStepActs(s: State, step: Step)
    requires ReadsConsumer(step) && Next(s, step).Some?
    ensures Acts(s, step, Next(s, step).value)
  {
    hide Acts, DoLook, DoReadGrants, DoEnter, DoRefused, DoRead, DoLand, DoOtherApi, NextStart, NextIssue, NextAfter;
    match step {
      case StepLook(p) => LookActs(s, p);
      case StepReadGrants(p) => ReadGrantsActs(s, p);
      case StepEnter(p, held) => EnterActs(s, p, held);
      case StepRefused(p) => RefusedActs(s, p);
      case StepRead(p) => ReadActs(s, p);
      case StepLand(q) => LandActs(s, q);
      case StepOtherApi => OtherApiActs(s);
    }
  }

  lemma UndoStepActs(s: State, step: Step)
    requires step.StepIssueRemoveAll? || step.StepIssueStripTools? || step.StepIssueReconcile?
    requires Next(s, step).Some?
    ensures Acts(s, step, Next(s, step).value)
  {
    hide Acts, DoIssueRemoveAll, DoIssueStripTools, DoIssueReconcile;
    match step {
      case StepIssueRemoveAll(p) => IssueRemoveAllActs(s, p);
      case StepIssueStripTools(p) => IssueStripToolsActs(s, p);
      case StepIssueReconcile(p) => IssueReconcileActs(s, p);
    }
  }

  lemma IssueStepActs(s: State, step: Step)
    requires Issues(step) && Next(s, step).Some?
    ensures Acts(s, step, Next(s, step).value)
  {
    hide Acts, DoIssueAdd, DoIssueRevoke, DoIssueRecovery, DoIssueTeardown, DoIssueRebuild, DoIssueSweep;
    match step {
      case StepIssueAdd(p) => IssueAddActs(s, p);
      case StepIssueRevoke(p) => IssueRevokeActs(s, p);
      case StepIssueRecovery(p) => IssueRecoveryActs(s, p);
      case StepIssueTeardown(p) => IssueTeardownActs(s, p);
      case StepIssueRebuild(p) => IssueRebuildActs(s, p);
      case StepIssueSweep(p) => IssueSweepActs(s, p);
      case _ => UndoStepActs(s, step);
    }
  }

  /** Every step of a process in progress changes only what it is for. */
  lemma StepActs(s: State, step: Step)
    requires !StartsWork(step) && Next(s, step).Some?
    ensures Acts(s, step, Next(s, step).value)
  {
    hide Acts, DoAck, DoFail, DoCommit, DoCommitFails, DoObserve, DoSettle, DoCloseJob, DoPresence, DoRestore;
    hide DoGiveUp, DoFinish, DoTornDown;
    if ReadsConsumer(step) {
      ReadStepActs(s, step);
    } else if Issues(step) {
      IssueStepActs(s, step);
    } else {
      match step {
        case StepAck(p) => AckActs(s, p);
        case StepFail(p) => FailActs(s, p);
        case StepCommit(p, g) => CommitActs(s, p, g);
        case StepCommitFails(p) => CommitFailsActs(s, p);
        case StepObserve(p, unreadable, grantUnreadable) => ObserveActs(s, p, unreadable, grantUnreadable);
        case StepSettle(p, stored) => SettleActs(s, p, stored);
        case StepCloseJob(p) => CloseJobActs(s, p);
        case StepPresence(p, unreadable) => PresenceActs(s, p, unreadable);
        case StepRestore(p, acknowledged) => RestoreActs(s, p, acknowledged);
        case StepGiveUp(p) => GiveUpActs(s, p);
        case StepFinish(p) => FinishActs(s, p);
        case StepTornDown(p) => TornDownActs(s, p);
        case StepCrash(p) => EndActs(s, step, p);
        case StepLoseKey => LoseKeyActs(s, step);
      }
    }
  }

  /** A step that starts work leaves the gateway, the writes and every process alone. */
  lemma StartIsQuiet(s: State, step: Step)
    requires Counted(s) && StartsWork(step) && Next(s, step).Some?
    ensures Quiet(s, Next(s, step).value)
  {}

  lemma StartIsLater(s: State, step: Step)
    requires StartsWork(step) && Next(s, step).Some?
    ensures Later(s, Next(s, step).value)
  {}
}
