/** Who may change what: a process whose claim was replaced changes no row, a job
    ends only by its current claim or by its grant's return, and a grant becomes
    active only by its approval's commit or by the rollback of its own revocation. */
module AccessSagaOwnership {
  import opened Wrappers
  import opened AccessRows
  import opened AccessSaga
  import opened AccessSagaInvariants
  import opened AccessSagaEffects
  import opened AccessSagaFencing

  /** The process that takes a step. */
  function ActorOf(step: Step): Option<nat> {
    match step
    case StepLook(p) => Some(p)
    case StepReadGrants(p) => Some(p)
    case StepEnter(p, _) => Some(p)
    case StepRefused(p) => Some(p)
    case StepRead(p) => Some(p)
    case StepIssueAdd(p) => Some(p)
    case StepIssueRemoveAll(p) => Some(p)
    case StepIssueStripTools(p) => Some(p)
    case StepIssueReconcile(p) => Some(p)
    case StepIssueRevoke(p) => Some(p)
    case StepIssueRecovery(p) => Some(p)
    case StepIssueTeardown(p) => Some(p)
    case StepIssueRebuild(p) => Some(p)
    case StepIssueSweep(p) => Some(p)
    case StepAck(p) => Some(p)
    case StepFail(p) => Some(p)
    case StepCrash(p) => Some(p)
    case StepCommit(p, _) => Some(p)
    case StepCommitFails(p) => Some(p)
    case StepObserve(p, _, _) => Some(p)
    case StepSettle(p, _) => Some(p)
    case StepCloseJob(p) => Some(p)
    case StepPresence(p, _) => Some(p)
    case StepRestore(p, _) => Some(p)
    case StepGiveUp(p) => Some(p)
    case StepFinish(p) => Some(p)
    case StepTornDown(p) => Some(p)
    case _ => None
  }

  /* ── One step ──────────────────────────────────────────────────────────── */

  /** A job row is re-owned only under a new generation. */
  ghost predicate OwnersAreNew(s: State, s': State) {
    forall j :: j in s'.db.jobs ==> SameOwner(s, s'.db, j)
  }

  /** A process keeps its claim for life, and its id is never reused. */
  ghost predicate ClaimsPersist(s: State, s': State) {
    forall p :: p in s'.procs && p != s.next ==> p in s.procs && ClaimOf(s'.procs[p]) == ClaimOf(s.procs[p])
  }

  /** The step is the last word of the job's current owner. */
  ghost predicate EndedByClaim(s: State, step: Step, j: Subject) {
    && ActorOf(step).Some? && ActorOf(step).value in s.procs
    && OwnsRow(s.db, s.procs[ActorOf(step).value]) && ClaimOf(s.procs[ActorOf(step).value]).value.subject == j
  }

  /** The step puts the job's grant back to `active`. */
  ghost predicate EndedByRestore(step: Step, s': State, j: Subject) {
    step.StepRestore? && j.OfGrant? && IsActive(s'.db, j.grant)
  }

  ghost predicate JobsEndRightly(s: State, step: Step, s': State) {
    forall j :: j in s.db.jobs && j !in s'.db.jobs ==> EndedByClaim(s, step, j) || EndedByRestore(step, s', j)
  }

  /** The step commits the grant `g` for an approval that owns its job under the key. */
  ghost predicate Granting(s: State, step: Step, g: Id) {
    && step.StepCommit? && step.grant == g && g !in s.db.grants && NoActive(s.db)
    && step.p in s.procs && s.procs[step.p].work.Approve? && s.key == Some(step.p) && OwnsRow(s.db, s.procs[step.p])
  }

  /** The step rolls back the very revocation that left `g` revoked, with its grantee
      active and its group found still on (or unreadable). */
  ghost predicate RollingBack(s: State, step: Step, g: Id) {
    && step.StepRestore? && step.p in s.procs && s.procs[step.p].work.Revoke?
    && s.procs[step.p].phase == Judging(true) && s.key == Some(step.p)
    && var w := s.procs[step.p].work;
       w.grant == g && Carries(s.db, g, w.who, w.at) && s.db.accountActive && NoActive(s.db)
  }

  ghost predicate ActivatedRightly(s: State, step: Step, s': State) {
    forall g :: IsActive(s'.db, g) && !IsActive(s.db, g) ==> Granting(s, step, g) || RollingBack(s, step, g)
  }

  ghost predicate Rightly(s: State, step: Step, s': State) {
    OwnersAreNew(s, s') && ClaimsPersist(s, s') && JobsEndRightly(s, step, s') && ActivatedRightly(s, step, s')
  }

  lemma StartRightly(s: State, step: Step)
    requires StartsWork(step) && Next(s, step).Some?
    ensures Rightly(s, step, Next(s, step).value)
  {
    match step {
      case StepFile(r, tools, actor, at) => FileChanges(s.db, r, tools, actor, at);
      case StepRevoke(g, actor, at, note) => WithdrawNeeds(s.db, g, actor, at, note);
      case StepSweep(g, actor, at, note) => WithdrawNeeds(s.db, g, actor, at, note);
      case _ =>
    }
  }

  /** A step that leaves the rows alone and forgets no claim. */
  lemma UntouchedRightly(s: State, step: Step, s': State)
    requires s'.db == s.db && ClaimsPersist(s, s')
    ensures Rightly(s, step, s')
  {}

  lemma CommitRightly(s: State, p: nat, g: Id)
    requires DoCommit(s, p, g).Some?
    ensures Rightly(s, StepCommit(p, g), DoCommit(s, p, g).value)
  {}

  lemma CloseJobRightly(s: State, p: nat)
    requires DoCloseJob(s, p).Some?
    ensures Rightly(s, StepCloseJob(p), DoCloseJob(s, p).value)
  {}

  lemma FinishRightly(s: State, p: nat)
    requires DoFinish(s, p).Some?
    ensures Rightly(s, StepFinish(p), DoFinish(s, p).value)
  {}

  lemma SettleRightly(s: State, p: nat, stored: bool)
    requires DoSettle(s, p, stored).Some?
    ensures Rightly(s, StepSettle(p, stored), DoSettle(s, p, stored).value)
  {
    var s' := DoSettle(s, p, stored).value;
    assert s'.db.jobs == s.db.jobs && s'.db.grants == s.db.grants && ClaimsPersist(s, s');
  }

  lemma RestoreHeldRightly(s: State, p: nat, acknowledged: bool)
    requires DoRestore(s, p, acknowledged).Some? && s.key == Some(p)
    ensures Rightly(s, StepRestore(p, acknowledged), DoRestore(s, p, acknowledged).value)
  {
    var w := s.procs[p].work;
    if Restore(s.db, w.grant, w.who, w.at, w.moved, w.cancelled, s.procs[p].phase.present).Some? {
      RestoreNeeds(s.db, w.grant, w.who, w.at, w.moved, w.cancelled, s.procs[p].phase.present);
    }
  }

  lemma RestoreRightly(s: State, p: nat, acknowledged: bool)
    requires DoRestore(s, p, acknowledged).Some?
    ensures Rightly(s, StepRestore(p, acknowledged), DoRestore(s, p, acknowledged).value)
  {
    if s.key == Some(p) {
      RestoreHeldRightly(s, p, acknowledged);
    } else {
      UntouchedRightly(s, StepRestore(p, acknowledged), DoRestore(s, p, acknowledged).value);
    }
  }

  /** Every step re-owns jobs, ends them and activates grants only as it should. */
  lemma StepRightly(s: State, step: Step)
    requires Next(s, step).Some?
    ensures Rightly(s, step, Next(s, step).value)
  {
    if StartsWork(step) {
      StartRightly(s, step);
    } else if Transacts(step) {
      hide Rightly;
      match step {
        case StepCommit(p, g) => CommitRightly(s, p, g);
        case StepCloseJob(p) => CloseJobRightly(s, p);
        case StepFinish(p) => FinishRightly(s, p);
        case StepSettle(p, stored) => SettleRightly(s, p, stored);
        case StepRestore(p, acknowledged) => RestoreRightly(s, p, acknowledged);
      }
    } else {
      hide Next, Rightly;
      ActsKeepClaims(s, step);
      UntouchedRightly(s, step, Next(s, step).value);
    }
  }

  lemma ActsKeepClaims(s: State, step: Step)
    requires !StartsWork(step) && Next(s, step).Some?
    ensures ClaimsPersist(s, Next(s, step).value)
    ensures !Transacts(step) ==> Next(s, step).value.db == s.db
  {
    hide Next;
    StepActs(s, step);
    var s' := Next(s, step).value;
    forall p | p in s'.procs ensures p in s.procs && ClaimOf(s'.procs[p]) == ClaimOf(s.procs[p]) {
      assert Continues(s, step, s', p);
    }
  }

  /* ── A process whose claim was replaced ────────────────────────────────── */

  /** `p` has a claim, and the claim is not the current one. */
  ghost predicate Superseded(s: State, p: nat) {
    p in s.procs && ClaimOf(s.procs[p]).Some? && !OwnsRow(s.db, s.procs[p])
  }

  lemma SupersededCloses(s: State, p: nat)
    requires Superseded(s, p)
    ensures DoCloseJob(s, p).Some? ==> DoCloseJob(s, p).value.db == s.db
    ensures DoFinish(s, p).Some? ==> DoFinish(s, p).value.db == s.db
  {}

  lemma SupersededSettles(s: State, p: nat, stored: bool, g: Id)
    requires Superseded(s, p)
    ensures DoSettle(s, p, stored).Some? ==> DoSettle(s, p, stored).value.db == s.db
    ensures DoCommit(s, p, g).None?
  {}

  /** A process without a current claim changes no row. */
  lemma SupersededChangesNothing(s: State, step: Step, p: nat)
    requires Next(s, step).Some? && Superseded(s, p) && ActorOf(step) == Some(p) && !step.StepRestore?
    ensures Next(s, step).value.db == s.db
  {
    hide Superseded;
    if !Transacts(step) {
      ActsKeepClaims(s, step);
    } else {
      match step {
        case StepCloseJob(_) => SupersededCloses(s, p);
        case StepFinish(_) => SupersededCloses(s, p);
        case StepSettle(_, stored) => SupersededSettles(s, p, stored, 0);
        case StepCommit(_, g) => SupersededSettles(s, p, true, g);
      }
    }
  }

  /* ── Over a run ────────────────────────────────────────────────────────── */

  lemma StaysSuperseded(s: State, step: Step, p: nat)
    requires Inv(s) && Next(s, step).Some? && Superseded(s, p) && p in Next(s, step).value.procs
    ensures Superseded(Next(s, step).value, p)
  {
    StepRightly(s, step);
    var s' := Next(s, step).value;
    var c := ClaimOf(s.procs[p]).value;
    assert ClaimOf(s'.procs[p]) == Some(c);
    assert Owns(s'.db, c) ==> SameOwner(s, s'.db, c.subject);
  }

  lemma GoneStaysGone(s: State, step: Step, p: nat)
    requires Next(s, step).Some? && p < s.next && p !in s.procs
    ensures p !in Next(s, step).value.procs
  {
    StepRightly(s, step);
  }

  /** A process that is gone stays gone, and one that lost its claim never has it back. */
  lemma {:induction false} SupersededForGood(states: seq<State>, steps: seq<Step>, i: nat, j: nat, p: nat)
    requires Run(states, steps) && i <= j < |states| && Superseded(states[i], p)
    ensures p < states[j].next && (p in states[j].procs ==> Superseded(states[j], p))
  {
    hide Inv, Next, Superseded;
    if i < j {
      SupersededForGood(states, steps, i, j - 1, p);
      Always(states, steps, j - 1);
      assert Next(states[j - 1], steps[j - 1]) == Some(states[j]);
      SupersededStep(states[j - 1], steps[j - 1], states[j], p);
    } else {
      Always(states, steps, j);
      IdIsBelow(states[j], p);
    }
  }

  lemma IdIsBelow(s: State, p: nat)
    requires Inv(s) && Superseded(s, p)
    ensures p < s.next
  {}

  lemma SupersededStep(s: State, step: Step, s': State, p: nat)
    requires Inv(s) && Next(s, step) == Some(s') && p < s.next && (p in s.procs ==> Superseded(s, p))
    ensures p < s'.next && (p in s'.procs ==> Superseded(s', p))
  {
    StepIsLater(s, step);
    if p !in s.procs {
      GoneStaysGone(s, step, p);
    } else if p in s'.procs {
      StaysSuperseded(s, step, p);
    }
  }

  lemma ActorsExist(s: State, step: Step)
    requires Next(s, step).Some? && ActorOf(step).Some?
    ensures ActorOf(step).value in s.procs
  {}

  /** Whether the step rolls a revocation back. */
  ghost predicate RollsBack(s: State, step: Step) {
    exists g :: RollingBack(s, step, g)
  }

  /** From the moment its claim is replaced, nothing a process does changes a request, a
      grant or a job, whatever else happens meanwhile, except a rollback of its own
      revocation: that one changes the rows exactly when the grant still carries the
      process's own stamp, the account is active, no other grant is, and the process holds
      the key under which it found a group on, or the consumer unreadable. */
  lemma StaleOwnersAreHarmless(states: seq<State>, steps: seq<Step>, i: nat, j: nat, p: nat)
    requires Run(states, steps) && i <= j < |steps| && Superseded(states[i], p)
    requires ActorOf(steps[j]) == Some(p)
    ensures states[j + 1].db != states[j].db <==> RollsBack(states[j], steps[j])
  {
    assert Next(states[j], steps[j]) == Some(states[j + 1]);
    ActorsExist(states[j], steps[j]);
    SupersededForGood(states, steps, i, j, p);
    if steps[j].StepRestore? {
      RestoreOrNothing(states[j], p, steps[j].acknowledged);
    } else {
      SupersededChangesNothing(states[j], steps[j], p);
    }
  }

  lemma RestoreOrNothing(s: State, p: nat, acknowledged: bool)
    requires DoRestore(s, p, acknowledged).Some?
    ensures
      var s', g := DoRestore(s, p, acknowledged).value, s.procs[p].work.grant;
      && (s'.db != s.db <==> RollingBack(s, StepRestore(p, acknowledged), g))
      && (RollsBack(s, StepRestore(p, acknowledged)) <==> RollingBack(s, StepRestore(p, acknowledged), g))
  {
    var s', g := DoRestore(s, p, acknowledged).value, s.procs[p].work.grant;
    if RollingBack(s, StepRestore(p, acknowledged), g) {
      assert s'.db.grants[g].status == Active;
    }
  }

  /** In every run a job row ends only by its current claim or by its grant's return. */
  lemma JobsEndOnlyRightly(states: seq<State>, steps: seq<Step>, i: nat, j: Subject)
    requires Run(states, steps) && i < |steps|
    requires j in states[i].db.jobs && j !in states[i + 1].db.jobs
    ensures EndedByClaim(states[i], steps[i], j) || EndedByRestore(steps[i], states[i + 1], j)
  {
    assert Next(states[i], steps[i]) == Some(states[i + 1]);
    StepRightly(states[i], steps[i]);
  }

  ghost predicate NoneBut(db: Db, g: Id) {
    forall h :: h in db.grants && db.grants[h].status == Active ==> h == g
  }

  /** In every run a grant becomes active only by its commit or its own rollback, and is
      then the only one: two active grants of one identity never coexist. */
  lemma OneActiveGrant(states: seq<State>, steps: seq<Step>, i: nat, g: Id)
    requires Run(states, steps) && i < |steps|
    requires IsActive(states[i + 1].db, g)
    ensures NoneBut(states[i + 1].db, g)
    ensures !IsActive(states[i].db, g) ==> Granting(states[i], steps[i], g) || RollingBack(states[i], steps[i], g)
  {
    Always(states, steps, i + 1);
    assert Next(states[i], steps[i]) == Some(states[i + 1]);
    StepRightly(states[i], steps[i]);
  }

  /* ── What a rollback acted on ──────────────────────────────────────────── */

  lemma JudgementIsFresh(s: State, step: Step, s': State, p: nat)
    requires Next(s, step) == Some(s') && p in s'.procs && s'.procs[p].phase == Judging(true)
    ensures p in s.procs && s'.procs[p].work == s.procs[p].work
            && (s.procs[p].phase == Judging(true) || Judged(s, step, p))
  {
    if StartsWork(step) {
      StartJudgesNothing(s, step, p);
    } else {
      hide Next;
      StepActs(s, step);
      assert Continues(s, step, s', p);
    }
  }

  lemma StartJudgesNothing(s: State, step: Step, p: nat)
    requires StartsWork(step) && Next(s, step).Some? && p in Next(s, step).value.procs
    ensures Next(s, step).value.procs[p].phase.Judging? ==> p in s.procs && Next(s, step).value.procs[p] == s.procs[p]
  {}
}
