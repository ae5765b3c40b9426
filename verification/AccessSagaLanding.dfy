/** What a late write can still do when it takes effect: to an active grant's groups, after
    an approval's commit, and behind a rollback's judgement. */
module AccessSagaLanding {
  import opened Wrappers
  import opened AccessRows
  import opened AccessSaga
  import opened AccessSagaInvariants
  import opened AccessSagaEffects
  import opened AccessSagaGateway
  import opened AccessSagaCoverage
  import opened AccessSagaFencing
  import opened AccessSagaHistory
  import opened AccessSagaOwnership
  import opened AccessSagaRecovery
  import opened AccessSagaTools

  /* ── The key and the grants a rebuild read ─────────────────────────────── */

  /** The key is taken only by entering a section or by judging a rollback. */
  ghost predicate KeyComes(s: State, step: Step, s': State) {
    s'.key == s.key || s'.key.None? || ((step.StepEnter? || step.StepPresence?) && s'.key == Some(step.p))
  }

  lemma StartKeyComes(s: State, step: Step)
    requires StartsWork(step) && Next(s, step).Some?
    ensures KeyComes(s, step, Next(s, step).value)
  {}

  lemma ReadKeyComes(s: State, step: Step)
    requires (ReadsConsumer(step) || Issues(step)) && Next(s, step).Some?
    ensures KeyComes(s, step, Next(s, step).value)
  {}

  lemma AfterKeyComes(s: State, step: Step)
    requires !StartsWork(step) && !ReadsConsumer(step) && !Issues(step) && Next(s, step).Some?
    ensures KeyComes(s, step, Next(s, step).value)
  {}

  lemma StepKeyComes(s: State, step: Step)
    requires Next(s, step).Some?
    ensures KeyComes(s, step, Next(s, step).value)
  {
    hide Next, KeyComes;
    if StartsWork(step) {
      StartKeyComes(s, step);
    } else if ReadsConsumer(step) || Issues(step) {
      ReadKeyComes(s, step);
    } else {
      AfterKeyComes(s, step);
    }
  }

  /** While a rebuild holds the key it took, the grant that it read is the active one if any is. */
  ghost predicate Fresh(s: State, p: nat)
    requires p in s.procs
  {
    s.procs[p].work.Rebuild? && s.procs[p].work.found.Some? ==>
      && !s.procs[p].phase.Ready?
      && (s.key == Some(p) ==> forall g :: IsActive(s.db, g) ==>
          s.procs[p].work.found.value == Some(s.db.grants[g].tools))
  }

  /** A rebuild's read changes only when it reads, and it never starts over. */
  ghost predicate RebuildGoesOn(s: State, step: Step, s': State, p: nat)
    requires p in s'.procs
  {
    s'.procs[p].work.Rebuild? && s'.procs[p].work.found.Some? ==>
      && p in s.procs && s.procs[p].work.Rebuild?
      && (s'.procs[p].phase.Ready? ==> s.procs[p].phase.Ready?)
      && (s'.procs[p].work == s.procs[p].work
          || (step == StepReadGrants(p) && s'.procs[p].phase.Entered? && s'.db == s.db
              && s'.procs[p].work.found
                 == Some(if Holder(s.db).Some? then Some(s.db.grants[Holder(s.db).value].tools) else None)))
  }

  lemma StartRebuilds(s: State, step: Step, p: nat)
    requires StartsWork(step) && Next(s, step).Some? && p in Next(s, step).value.procs
    ensures RebuildGoesOn(s, step, Next(s, step).value, p)
  {}

  lemma ReadRebuilds(s: State, step: Step, p: nat)
    requires ReadsConsumer(step) && Next(s, step).Some? && p in Next(s, step).value.procs
    ensures RebuildGoesOn(s, step, Next(s, step).value, p)
  {}

  lemma RebuildIssues(s: State, p: nat, x: nat)
    requires NextIssue(s, StepIssueRebuild(p)).Some? && x in NextIssue(s, StepIssueRebuild(p)).value.procs
    ensures RebuildGoesOn(s, StepIssueRebuild(p), NextIssue(s, StepIssueRebuild(p)).value, x)
  {}

  lemma UndoRebuilds(s: State, step: Step, p: nat)
    requires step.StepIssueRemoveAll? || step.StepIssueStripTools? || step.StepIssueReconcile?
             || step.StepIssueRecovery?
    requires NextIssue(s, step).Some? && p in NextIssue(s, step).value.procs
    ensures RebuildGoesOn(s, step, NextIssue(s, step).value, p)
  {
    hide Reconciled, Uncovered, HeldBy, HeldGrant, Holder, OwnsRow;
  }

  lemma OtherIssues(s: State, step: Step, p: nat)
    requires step.StepIssueAdd? || step.StepIssueRevoke? || step.StepIssueTeardown? || step.StepIssueSweep?
    requires NextIssue(s, step).Some? && p in NextIssue(s, step).value.procs
    ensures RebuildGoesOn(s, step, NextIssue(s, step).value, p)
  {
    hide Covers, HeldByAnother, Holder, OwnsRow;
  }

  lemma IssueRebuilds(s: State, step: Step, p: nat)
    requires Issues(step) && Next(s, step).Some? && p in Next(s, step).value.procs
    ensures RebuildGoesOn(s, step, Next(s, step).value, p)
  {
    hide NextIssue, NextStart, NextRead, NextAfter, RebuildGoesOn;
    match step {
      case StepIssueRebuild(x) => RebuildIssues(s, x, p);
      case StepIssueAdd(_) => OtherIssues(s, step, p);
      case StepIssueRevoke(_) => OtherIssues(s, step, p);
      case StepIssueTeardown(_) => OtherIssues(s, step, p);
      case StepIssueSweep(_) => OtherIssues(s, step, p);
      case _ => UndoRebuilds(s, step, p);
    }
  }

  lemma AfterRebuilds(s: State, step: Step, p: nat)
    requires !StartsWork(step) && !ReadsConsumer(step) && !Issues(step) && Next(s, step).Some?
             && p in Next(s, step).value.procs
    ensures RebuildGoesOn(s, step, Next(s, step).value, p)
  {
    hide CommitGrant, WidenGrant, AfterWidening, SettleOwnRequest, DeleteClaimed, Requeue, Restore, SettleApproval;
    hide Holder, OwnsRow, Owns, Covers;
  }

  lemma StepRebuilds(s: State, step: Step, p: nat)
    requires Next(s, step).Some? && p in Next(s, step).value.procs
    ensures RebuildGoesOn(s, step, Next(s, step).value, p)
  {
    hide Next, RebuildGoesOn;
    if StartsWork(step) {
      StartRebuilds(s, step, p);
    } else if ReadsConsumer(step) {
      ReadRebuilds(s, step, p);
    } else if Issues(step) {
      IssueRebuilds(s, step, p);
    } else {
      AfterRebuilds(s, step, p);
    }
  }

  lemma EnteredAnew(s: State, step: Step, s': State)
    requires (step.StepEnter? || step.StepPresence?) && Next(s, step) == Some(s')
    ensures step.p in s.procs && step.p in s'.procs && !HasLanded(s'.procs[step.p])
    ensures s.procs[step.p].phase.Ready? || s.procs[step.p].work.Revoke?
    ensures s'.procs[step.p].work == s.procs[step.p].work
  {}

  /** Nobody else activates a grant, or changes its tools, while a rebuild holds the key. */
  lemma StepFresh(s: State, step: Step, s': State, p: nat)
    requires Inv(s) && Next(s, step) == Some(s') && (p in s.procs ==> Fresh(s, p)) && p in s'.procs
    ensures Fresh(s', p)
  {
    StepRebuilds(s, step, p);
    StepKeyComes(s, step);
    if step.StepEnter? || step.StepPresence? { EnteredAnew(s, step, s'); }
    hide Next, Inv;
    if s'.key == Some(p) && s'.procs[p].work.Rebuild? && s'.procs[p].work.found.Some? {
      forall g | IsActive(s'.db, g) ensures s'.procs[p].work.found.value == Some(s'.db.grants[g].tools) {
        ActiveAsBefore(s, step, s', p, g);
        if step == StepReadGrants(p) { HolderOf(s, g); }
      }
    }
  }

  lemma HolderOf(s: State, g: Id)
    requires Inv(s) && IsActive(s.db, g)
    ensures Holder(s.db) == Some(g)
  {
    HolderIs(s.db, g);
  }

  lemma ActiveAsBefore(s: State, step: Step, s': State, p: nat, g: Id)
    requires Inv(s) && Next(s, step) == Some(s') && p in s.procs && s.procs[p].work.Rebuild? && s.key == Some(p)
    requires IsActive(s'.db, g)
    ensures IsActive(s.db, g) && s'.db.grants[g].tools == s.db.grants[g].tools
  {
    hide Next, Inv, OwnersAreNew, ClaimsPersist, JobsEndRightly, Carries, NoActive;
    if step.StepCommit? {
      CommitNeedsKey(s, step.p, step.grant);
    } else {
      StepRightly(s, step);
      StepSameTools(s, step);
    }
  }

  lemma CommitNeedsKey(s: State, p: nat, g: Id)
    requires Next(s, StepCommit(p, g)).Some?
    ensures s.key == Some(p) && p in s.procs && !s.procs[p].work.Rebuild?
  {}

  lemma {:induction false} AlwaysFresh(states: seq<State>, steps: seq<Step>, i: nat, p: nat)
    requires Run(states, steps) && i < |states| && p in states[i].procs
    ensures Fresh(states[i], p)
  {
    hide Run;
    RunShape(states, steps);
    if i > 0 {
      if p in states[i - 1].procs { AlwaysFresh(states, steps, i - 1, p); }
      Always(states, steps, i - 1);
      RunStep(states, steps, i - 1);
      hide Next, Inv, Fresh, Counted, Tracked;
      StepFresh(states[i - 1], steps[i - 1], states[i], p);
    }
  }

  /* ── To an active grant ────────────────────────────────────────────────── */

  /** The work whose writes are guarded by the rows: an approval, its compensation, a
      revocation, a worker's recovery of either, and a re-enable's rebuild. */
  predicate Guarded(w: Work) {
    IsAdd(w) || w.Revoke? || w.FinishRevoke? || w.FinishApprove? || w.Rebuild?
  }

  /** `p` has just put a write in flight that keeps what `g` covers of the groups it read. */
  ghost predicate Keeps(s: State, s': State, p: nat, g: Id) {
    p in s.procs && s.procs[p].phase.HasRead? && s.next in s'.puts && g in s.db.grants
    && s.procs[p].phase.groups * Covers(s.db.grants[g].tools) <= s'.puts[s.next].groups
  }

  /** An approval finds no grant active but the one it widens: its own would have ended its job. */
  lemma AddKeeps(s: State, p: nat, g: Id)
    requires Inv(s) && Standing(s) && DoIssueAdd(s, p).Some? && s.next in DoIssueAdd(s, p).value.puts
             && IsActive(s.db, g)
    ensures Keeps(s, DoIssueAdd(s, p).value, p, g)
  {
    HolderIs(s.db, g);
    var w := s.procs[p].work;
    if w.Approve? {
      NotGranted(s.db, w.request);
    } else {
      assert s.db.grants[g].tools == Some(w.current);
      CoversGrow(Some(w.current), Some(w.current + w.added));
    }
  }

  lemma RemovalKeeps(s: State, p: nat, g: Id)
    requires Inv(s) && IsActive(s.db, g)
    ensures DoIssueRemoveAll(s, p).Some? ==> s.next !in DoIssueRemoveAll(s, p).value.puts
    ensures DoIssueRevoke(s, p).Some? ==> s.next !in DoIssueRevoke(s, p).value.puts
  {
    HolderIs(s.db, g);
    RemovalsNeedNoGrant(s, p);
  }

  lemma StripKeeps(s: State, p: nat, g: Id)
    requires Inv(s) && DoIssueStripTools(s, p).Some? && IsActive(s.db, g)
    ensures Keeps(s, DoIssueStripTools(s, p).value, p, g)
  {
    StripSparesTheGrant(s, p, g);
  }

  lemma ReconcileKeeps(s: State, p: nat, g: Id)
    requires Inv(s) && IsActive(s.db, g)
    ensures DoIssueReconcile(s, p).Some? ==> Keeps(s, DoIssueReconcile(s, p).value, p, g)
    ensures DoIssueRecovery(s, p).Some? ==> Keeps(s, DoIssueRecovery(s, p).value, p, g)
  {
    HolderIs(s.db, g);
  }

  /** A rebuild under the key writes the groups of the active grant. */
  lemma RebuildSpares(s: State, p: nat, g: Id)
    requires DoIssueRebuild(s, p).Some? && s.next in DoIssueRebuild(s, p).value.puts && IsActive(s.db, g)
    requires p in s.procs && Fresh(s, p) && s.key == Some(p)
    ensures Keeps(s, DoIssueRebuild(s, p).value, p, g)
  {}

  lemma GuardedIssue(s: State, step: Step)
    requires Issues(step) && Next(s, step).Some? && step.p in s.procs && Guarded(s.procs[step.p].work)
    ensures Next(s, step) == NextIssue(s, step)
    ensures !step.StepIssueTeardown? && !step.StepIssueSweep?
  {}

  lemma GuardKeeps(s: State, step: Step, s': State, g: Id)
    requires Inv(s) && Standing(s) && Issues(step) && Next(s, step) == Some(s') && s.next in s'.puts
             && IsActive(s.db, g)
    requires step.p in s.procs && Guarded(s.procs[step.p].work) && Fresh(s, step.p) && s.key == Some(step.p)
    ensures Keeps(s, s', step.p, g)
  {
    GuardedIssue(s, step);
    hide Next, Inv, Standing, Keeps, Guarded, IsActive, Fresh;
    hide DoIssueAdd, DoIssueRemoveAll, DoIssueStripTools, DoIssueReconcile, DoIssueRevoke, DoIssueRecovery;
    hide DoIssueTeardown, DoIssueRebuild, DoIssueSweep;
    match step {
      case StepIssueAdd(p) => AddKeeps(s, p, g);
      case StepIssueStripTools(p) => StripKeeps(s, p, g);
      case StepIssueReconcile(p) => ReconcileKeeps(s, p, g);
      case StepIssueRecovery(p) => ReconcileKeeps(s, p, g);
      case StepIssueRemoveAll(p) => RemovalKeeps(s, p, g);
      case StepIssueRevoke(p) => RemovalKeeps(s, p, g);
      case StepIssueRebuild(p) => RebuildSpares(s, p, g);
    }
  }

  /** No approval commits while a write issued under the key can still take effect. */
  lemma NoCommitBefore(states: seq<State>, steps: seq<Step>, i: nat, j: nat, q: nat, k: nat)
    requires Run(states, steps) && i <= k < j < |steps| && q < states[i].next
    requires TakesEffect(states[j], steps[j], q) && states[j].puts[q].fenced
    ensures !steps[k].StepCommit?
  {
    hide Run;
    RunShape(states, steps);
    RunIsLater(states, steps, i, k);
    WriteStays(states, steps, k, j, q);
    RunIsLater(states, steps, k, j);
    AlwaysSeen(states, steps, k);
    RunStep(states, steps, k);
    if steps[k].StepCommit? {
      CommitOvertakes(states[k], steps[k].p, steps[k].grant, q);
    }
  }

  /** Without a commit in between a grant covers what it did. */
  lemma {:induction false} SameToolsBetween(states: seq<State>, steps: seq<Step>, i: nat, j: nat, g: Id)
    requires Run(states, steps) && i <= j < |states| && forall k :: i <= k < j ==> !steps[k].StepCommit?
    requires g in states[i].db.grants
    ensures g in states[j].db.grants && states[j].db.grants[g].tools == states[i].db.grants[g].tools
  {
    hide Run;
    RunShape(states, steps);
    if i < j {
      SameToolsBetween(states, steps, i, j - 1, g);
      RunStep(states, steps, j - 1);
      StepSameTools(states[j - 1], steps[j - 1]);
    }
  }

  /** Some rollback puts `g` back from `i` on, before `j`. */
  ghost predicate RolledBackBetween(states: seq<State>, steps: seq<Step>, i: nat, j: nat, g: Id)
    requires |states| == |steps| + 1 && j < |states|
  {
    exists k :: i <= k < j && RollingBack(states[k], steps[k], g)
  }

  lemma {:induction false} ActiveByRollback(states: seq<State>, steps: seq<Step>, i: nat, j: nat, g: Id)
    requires Run(states, steps) && i <= j < |states| && forall k :: i <= k < j ==> !steps[k].StepCommit?
    requires IsActive(states[j].db, g) && !IsActive(states[i].db, g)
    ensures RolledBackBetween(states, steps, i, j, g)
  {
    hide Run;
    RunShape(states, steps);
    if i < j {
      if IsActive(states[j - 1].db, g) {
        ActiveByRollback(states, steps, i, j - 1, g);
        RolledBackLater(states, steps, i, j - 1, g);
      } else {
        OneActiveGrant(states, steps, j - 1, g);
        assert RollingBack(states[j - 1], steps[j - 1], g);
      }
    }
  }

  lemma RolledBackLater(states: seq<State>, steps: seq<Step>, i: nat, j: nat, g: Id)
    requires |states| == |steps| + 1 && i <= j < |steps| && RolledBackBetween(states, steps, i, j, g)
    ensures RolledBackBetween(states, steps, i, j + 1, g)
  {}

  /** In every run, when a guarded write issued under the key takes effect, no approval has
      committed since it was issued, and it takes off no group that an active grant covers,
      unless that grant was put back by a rollback after the write was issued. */
  lemma LandedWriteSpares(states: seq<State>, steps: seq<Step>, i: nat, j: nat, p: nat, q: nat, g: Id)
    requires Run(states, steps) && i < j < |steps| && IssuedAt(states, steps, i, p, q)
    requires p in states[i].procs && Guarded(states[i].procs[p].work) && states[i + 1].puts[q].fenced
    requires TakesEffect(states[j], steps[j], q) && IsActive(states[j].db, g)
    ensures forall k :: i <= k < j ==> !steps[k].StepCommit?
    ensures IsActive(states[i].db, g) ==>
            states[j].groups * Covers(states[j].db.grants[g].tools) <= states[j + 1].groups
    ensures !IsActive(states[i].db, g) ==> RolledBackBetween(states, steps, i, j, g)
  {
    hide Run;
    RunShape(states, steps);
    IssuedInTime(states, steps, i, p, q);
    WriteStays(states, steps, i + 1, j, q);
    forall k | i <= k < j ensures !steps[k].StepCommit? {
      if k > i { NoCommitBefore(states, steps, i + 1, j, q, k); }
    }
    if IsActive(states[i].db, g) {
      SpareWhenIssued(states, steps, i, j, p, q, g);
    } else {
      ActiveByRollback(states, steps, i, j, g);
    }
  }

  lemma SpareWhenIssued(states: seq<State>, steps: seq<Step>, i: nat, j: nat, p: nat, q: nat, g: Id)
    requires Run(states, steps) && i < j < |steps| && IssuedAt(states, steps, i, p, q)
    requires p in states[i].procs && Guarded(states[i].procs[p].work) && states[i + 1].puts[q].fenced
    requires TakesEffect(states[j], steps[j], q) && states[j].puts[q] == states[i + 1].puts[q]
    requires IsActive(states[i].db, g) && forall k :: i <= k < j ==> !steps[k].StepCommit?
    ensures g in states[j].db.grants && states[j].groups * Covers(states[j].db.grants[g].tools) <= states[j + 1].groups
  {
    hide Run;
    RunShape(states, steps);
    SameToolsBetween(states, steps, i, j, g);
    ReadIsCurrent(states, steps, i, j, p, q);
    Always(states, steps, i);
    AlwaysStands(states, steps, i);
    AlwaysFresh(states, steps, i, p);
    RunStep(states, steps, i);
    RunStep(states, steps, j);
    FencedByIssuer(states[i], p, states[i + 1], states[i + 1].puts[q]);
    hide Next, Inv, Standing, Emits, Counted, Tracked, Fresh;
    GuardKeeps(states[i], steps[i], states[i + 1], g);
    EffectIs(states[j], steps[j], states[j + 1], q);
  }

  /* ── A sweep's removal ─────────────────────────────────────────────────── */

  /** Some commit or rollback activates `g` after `i` and before `j`. */
  ghost predicate ActivatedBetween(states: seq<State>, steps: seq<Step>, i: nat, j: nat, g: Id)
    requires |states| == |steps| + 1 && j < |states|
  {
    exists k :: i < k < j && (Granting(states[k], steps[k], g) || RollingBack(states[k], steps[k], g))
  }

  lemma {:induction false} ActiveSince(states: seq<State>, steps: seq<Step>, i: nat, j: nat, g: Id)
    requires Run(states, steps) && i < j < |states| && !IsActive(states[i + 1].db, g) && IsActive(states[j].db, g)
    ensures ActivatedBetween(states, steps, i, j, g)
  {
    hide Run;
    RunShape(states, steps);
    assert j > i + 1;
    if IsActive(states[j - 1].db, g) {
      ActiveSince(states, steps, i, j - 1, g);
    } else {
      OneActiveGrant(states, steps, j - 1, g);
    }
  }

  lemma SweepEmpties(s: State, step: Step, s': State, p: nat)
    requires Counted(s) && Issues(step) && step.p == p && Next(s, step) == Some(s') && p in s.procs
             && s.procs[p].work.Sweep?
    ensures s.next in s'.puts ==> s'.puts[s.next].groups == {}
  {}

  lemma SweepLeavesNone(s: State, step: Step, s': State)
    requires Inv(s) && step.StepSweep? && Next(s, step) == Some(s')
    ensures NoActive(s'.db)
  {
    InvIsWellFormed(s);
    hide WellFormed, Inv;
    WithdrawLeavesNone(s.db, step.grant, step.actor, step.at, step.note);
  }

  /** A disable sweep takes every group off, whatever the rows have come to say since its
      claim. An active grant that it strips so became active after that claim. */
  lemma SweepStripsLater(states: seq<State>, steps: seq<Step>, c: nat, i: nat, j: nat, p: nat, q: nat, g: Id)
    requires Run(states, steps) && c < i < j < |steps| && steps[c].StepSweep? && states[c].next == p
    requires IssuedAt(states, steps, i, p, q) && p in states[i].procs && states[i].procs[p].work.Sweep?
    requires TakesEffect(states[j], steps[j], q)
    ensures states[j + 1].groups == {}
    ensures IsActive(states[j].db, g) ==> ActivatedBetween(states, steps, c, j, g)
  {
    hide Run;
    RunShape(states, steps);
    IssuedInTime(states, steps, i, p, q);
    WriteStays(states, steps, i + 1, j, q);
    RunStep(states, steps, i);
    RunStep(states, steps, j);
    RunStep(states, steps, c);
    SweepEmpties(states[i], steps[i], states[i + 1], p);
    EffectIs(states[j], steps[j], states[j + 1], q);
    Always(states, steps, c);
    SweepLeavesNone(states[c], steps[c], states[c + 1]);
    hide Next, Emits, Inv;
    if IsActive(states[j].db, g) {
      ActiveSince(states, steps, c, j, g);
    }
  }

  /* ── What an approval commits on ───────────────────────────────────────── */

  /** `p` has the key, and the landed write that it has in `later`. */
  ghost predicate Holds(s: State, p: nat, later: State) {
    && p in s.procs && p in later.procs && HasLanded(s.procs[p]) && HasLanded(later.procs[p])
    && s.key == Some(p) && Base(s.procs[p]) == Base(later.procs[p])
  }

  /** `p`'s write `q` took effect at `k`, and `p` has held the key since. */
  ghost predicate HeldSince(states: seq<State>, steps: seq<Step>, k: nat, j: nat, p: nat, q: nat)
    requires |states| == |steps| + 1 && j < |states|
  {
    && k < j && TakesEffect(states[k], steps[k], q) && states[k].puts[q].owner == p
    && (forall m :: k < m <= j ==> Holds(states[m], p, states[j]))
  }

  /** A process with the key whose write has landed had both before this step, or the write
      takes effect now. */
  lemma StillHolds(s: State, step: Step, s': State, p: nat)
    requires p in s'.procs && HasLanded(s'.procs[p]) && s'.key == Some(p)
    requires Tracked(s) && Next(s, step) == Some(s') && CameToWrite(s, step, s', p) && KeyComes(s, step, s')
    ensures p in s.procs && (s.procs[p].phase.Issued? || s.procs[p].phase.Written?)
    ensures s.procs[p].phase.base == s'.procs[p].phase.base && s.procs[p].phase.wrote == s'.procs[p].phase.wrote
    ensures
      || Holds(s, p, s')
      || (s.procs[p].phase.Issued? && TakesEffect(s, step, s.procs[p].phase.put)
          && s.puts[s.procs[p].phase.put].owner == p && s.puts[s.procs[p].phase.put].groups == s.procs[p].phase.wrote)
  {
    if p in s.procs && s.procs[p].phase.Issued? { assert TracksWrite(s, p); }
    if step.StepEnter? || step.StepPresence? { EnteredAnew(s, step, s'); }
  }

  lemma {:induction false} LandedUnderKey(states: seq<State>, steps: seq<Step>, j: nat, p: nat) returns (k: nat, q: nat)
    requires Run(states, steps) && j < |states|
    requires p in states[j].procs && HasLanded(states[j].procs[p]) && states[j].key == Some(p)
    ensures HeldSince(states, steps, k, j, p, q) && states[k].puts[q].groups == states[j].procs[p].phase.wrote
  {
    hide Run, Next, Counted, Tracked, CameToWrite, KeyComes;
    RunShape(states, steps);
    assert j > 0;
    RunStep(states, steps, j - 1);
    StepCame(states[j - 1], steps[j - 1], states[j], p);
    StepKeyComes(states[j - 1], steps[j - 1]);
    StillHolds(states[j - 1], steps[j - 1], states[j], p);
    if Holds(states[j - 1], p, states[j]) {
      k, q := LandedUnderKey(states, steps, j - 1, p);
    } else {
      k, q := j - 1, states[j - 1].procs[p].phase.put;
    }
  }

  /** Nothing issued under the key takes effect while `p` holds it with its write landed. */
  lemma OnlyUnfencedLand(s: State, step: Step, p: nat, later: State, q: nat)
    requires Seen(s) && Holds(s, p, later) && TakesEffect(s, step, q)
    ensures !s.puts[q].fenced
  {
    assert Sees(s, p);
  }

  /** An approval commits on its own write: it took effect at `k`, as the groups of the grant
      it means to commit; whatever took effect since was issued without the key; and without
      such a write those are the groups on the gateway when the grant becomes active. */
  lemma CommitLeavesItsGroups(states: seq<State>, steps: seq<Step>, i: nat) returns (k: nat, own: nat)
    requires Run(states, steps) && i < |steps| && steps[i].StepCommit?
    ensures k < i && TakesEffect(states[k], steps[k], own) && states[k].puts[own].owner == steps[i].p
    ensures forall m, q :: k < m < i && TakesEffect(states[m], steps[m], q) ==> !states[m].puts[q].fenced
    ensures
      var p, g := steps[i].p, steps[i].grant;
      && p in states[i].procs && IsAdd(states[i].procs[p].work)
      && IsActive(states[i + 1].db, g) && states[i + 1].db.grants[g].tools == Goal(states[i].procs[p].work)
      && states[k + 1].groups == Covers(states[i + 1].db.grants[g].tools)
      && (states[i + 1].groups == states[k + 1].groups || LandsBetween(states, steps, k + 1, i))
  {
    hide Run;
    RunShape(states, steps);
    RunStep(states, steps, i);
    AlwaysSeen(states, steps, i);
    var p := steps[i].p;
    CommitIs(states[i], p, steps[i].grant, states[i + 1]);
    hide Next;
    k, own := LandedUnderKey(states, steps, i, p);
    OnOwnWrite(states, steps, k, i, p, own);
    GroupsUntilLanding(states, steps, k + 1, i);
  }

  lemma CommitIs(s: State, p: nat, g: Id, s': State)
    requires Seen(s) && Next(s, StepCommit(p, g)) == Some(s')
    ensures p in s.procs && IsAdd(s.procs[p].work) && s.procs[p].phase.Written? && s.key == Some(p)
    ensures s.procs[p].phase.wrote == Covers(Goal(s.procs[p].work)) && s'.groups == s.groups
    ensures IsActive(s'.db, g) && s'.db.grants[g].tools == Goal(s.procs[p].work)
  {
    assert Sees(s, p);
  }

  lemma OnOwnWrite(states: seq<State>, steps: seq<Step>, k: nat, j: nat, p: nat, own: nat)
    requires Run(states, steps) && j < |states| && HeldSince(states, steps, k, j, p, own)
    ensures states[k + 1].groups == states[k].puts[own].groups
    ensures forall m, q :: k < m < j && TakesEffect(states[m], steps[m], q) ==> !states[m].puts[q].fenced
  {
    hide Run;
    RunShape(states, steps);
    RunStep(states, steps, k);
    EffectIs(states[k], steps[k], states[k + 1], own);
    hide Next;
    forall m, q | k < m < j && TakesEffect(states[m], steps[m], q) ensures !states[m].puts[q].fenced {
      AlwaysSeen(states, steps, m);
      OnlyUnfencedLand(states[m], steps[m], p, states[j], q);
    }
  }

  /* ── After an approval's commit ────────────────────────────────────────── */

  /** Whether `q` takes effect at some step after `i`. */
  ghost predicate TakesEffectAfter(states: seq<State>, steps: seq<Step>, i: nat, q: nat)
    requires |states| == |steps| + 1
  {
    exists j :: i < j < |steps| && TakesEffect(states[j], steps[j], q)
  }

  /** The run `later` goes on from the run up to step `i` so that the write `q` takes effect. */
  ghost predicate LetsLand(states: seq<State>, steps: seq<Step>, i: nat, q: nat, later: seq<State>, taken: seq<Step>)
    requires |states| == |steps| + 1 && i < |steps|
  {
    Run(later, taken) && states[..i + 2] <= later && steps[..i + 1] <= taken && TakesEffectAfter(later, taken, i, q)
  }

  ghost predicate MayStillLand(states: seq<State>, steps: seq<Step>, i: nat, q: nat)
    requires |states| == |steps| + 1 && i < |steps|
  {
    exists later, taken :: LetsLand(states, steps, i, q, later, taken)
  }

  lemma RunPrefix(states: seq<State>, steps: seq<Step>, i: nat)
    requires Run(states, steps) && i < |steps|
    ensures Run(states[..i + 2], steps[..i + 1])
  {
    var front, taken := states[..i + 2], steps[..i + 1];
    forall k | 0 <= k < |taken| ensures Next(front[k], taken[k]) == Some(front[k + 1]) {
      assert Next(states[k], steps[k]) == Some(states[k + 1]);
    }
  }

  lemma RunOn(states: seq<State>, steps: seq<Step>, step: Step, s: State)
    requires Run(states, steps) && Next(states[|steps|], step) == Some(s)
    ensures Run(states + [s], steps + [step])
  {}

  /** A write that may still land after the step `i` names the current tag, if it was in
      flight before it. */
  lemma LandsOnlyByTag(states: seq<State>, steps: seq<Step>, i: nat, j: nat, q: nat)
    requires Run(states, steps) && i < j < |steps| && q in states[i].puts && TakesEffect(states[j], steps[j], q)
    ensures states[i].puts[q].tag == states[i].tag
  {
    hide Run;
    RunShape(states, steps);
    Always(states, steps, i);
    RunIsLater(states, steps, i, j);
  }

  lemma CommitLeavesTheGateway(s: State, p: nat, g: Id)
    requires DoCommit(s, p, g).Some?
    ensures DoCommit(s, p, g).value.tag == s.tag && DoCommit(s, p, g).value.puts == s.puts
  {}

  /** Exactly which writes in flight at an approval's commit can still take effect: those
      that name the tag current at that moment. Such a write was not issued under the key,
      and its process cannot have read the consumer before the approval's own write had
      taken effect. */
  lemma LandsAfterCommit(states: seq<State>, steps: seq<Step>, i: nat, q: nat) returns (k: nat, own: nat)
    requires Run(states, steps) && i < |steps| && steps[i].StepCommit? && q in states[i].puts
    ensures MayStillLand(states, steps, i, q) <==> states[i].puts[q].tag == states[i].tag
    ensures states[i].puts[q].tag == states[i].tag ==> !states[i].puts[q].fenced
    ensures k < i && TakesEffect(states[k], steps[k], own) && states[k].puts[own].owner == steps[i].p
    ensures states[i].puts[q].tag == states[i].tag ==> forall m :: 0 <= m <= k ==> states[m].tag < states[i].puts[q].tag
  {
    hide Run;
    RunShape(states, steps);
    RunStep(states, steps, i);
    AlwaysSeen(states, steps, i);
    CommitIs(states[i], steps[i].p, steps[i].grant, states[i + 1]);
    if states[i].puts[q].tag == states[i].tag {
      NotFenced(states[i], steps[i].p, steps[i].grant, q);
    }
    hide Next, Counted, Tracked, Seen;
    k, own := LandedUnderKey(states, steps, i, steps[i].p);
    EffectRaisesTag(states, steps, k, i, own);
    MayStillLandExactly(states, steps, i, q);
  }

  lemma MayStillLandExactly(states: seq<State>, steps: seq<Step>, i: nat, q: nat)
    requires Run(states, steps) && i < |steps| && steps[i].StepCommit? && q in states[i].puts
    ensures MayStillLand(states, steps, i, q) <==> states[i].puts[q].tag == states[i].tag
  {
    hide Run, MayStillLand;
    RunShape(states, steps);
    if states[i].puts[q].tag == states[i].tag {
      CommitLandsNext(states, steps, i, q);
    } else if MayStillLand(states, steps, i, q) {
      NeverWithoutTheTag(states, steps, i, q);
    }
  }

  lemma EffectRaisesTag(states: seq<State>, steps: seq<Step>, k: nat, i: nat, q: nat)
    requires Run(states, steps) && k < i < |states| && TakesEffect(states[k], steps[k], q)
    ensures forall m :: 0 <= m <= k ==> states[m].tag < states[i].tag
  {
    hide Run;
    RunShape(states, steps);
    RunIsLater(states, steps, k + 1, i);
    RunStep(states, steps, k);
    EffectIs(states[k], steps[k], states[k + 1], q);
    hide Next;
    forall m | 0 <= m <= k ensures states[m].tag < states[i].tag {
      RunIsLater(states, steps, m, k);
    }
  }

  lemma NotFenced(s: State, p: nat, g: Id, q: nat)
    requires Seen(s) && DoCommit(s, p, g).Some? && q in s.puts && s.puts[q].tag == s.tag
    ensures !s.puts[q].fenced
  {
    assert Sees(s, p);
  }

  lemma LandIs(s: State, q: nat)
    requires q in s.puts
    ensures Next(s, StepLand(q)) == Some(DoLand(s, q).value)
  {}

  lemma CommitLandsNext(states: seq<State>, steps: seq<Step>, i: nat, q: nat)
    requires Run(states, steps) && i < |steps| && steps[i].StepCommit? && q in states[i].puts
             && states[i].puts[q].tag == states[i].tag
    ensures MayStillLand(states, steps, i, q)
  {
    hide Run;
    RunShape(states, steps);
    RunPrefix(states, steps, i);
    CommitKeepsTag(states, steps, i);
    LandIs(states[i + 1], q);
    hide Next;
    var s := DoLand(states[i + 1], q).value;
    var later, taken := states[..i + 2] + [s], steps[..i + 1] + [StepLand(q)];
    assert states[..i + 2][|steps[..i + 1]|] == states[i + 1];
    RunOn(states[..i + 2], steps[..i + 1], StepLand(q), s);
    assert later[i + 1] == states[i + 1] && taken[i + 1] == StepLand(q);
    assert TakesEffect(later[i + 1], taken[i + 1], q);
    assert LetsLand(states, steps, i, q, later, taken);
  }

  lemma CommitKeepsTag(states: seq<State>, steps: seq<Step>, i: nat)
    requires Run(states, steps) && i < |steps| && steps[i].StepCommit?
    ensures states[i + 1].tag == states[i].tag && states[i + 1].puts == states[i].puts
  {
    hide Run;
    RunShape(states, steps);
    RunStep(states, steps, i);
    CommitLeavesTheGateway(states[i], steps[i].p, steps[i].grant);
  }

  lemma NeverWithoutTheTag(states: seq<State>, steps: seq<Step>, i: nat, q: nat)
    requires Run(states, steps) && i < |steps| && q in states[i].puts && MayStillLand(states, steps, i, q)
    ensures states[i].puts[q].tag == states[i].tag
  {
    hide Run;
    RunShape(states, steps);
    var later, taken :| LetsLand(states, steps, i, q, later, taken);
    RunShape(later, taken);
    var j :| i < j < |taken| && TakesEffect(later[j], taken[j], q);
    assert later[i] == states[..i + 2][i] == states[i];
    LandsOnlyByTag(later, taken, i, j, q);
  }

  /* ── Behind a rollback's judgement ─────────────────────────────────────── */

  /** A process that judges a rollback under the key and goes on has held it since its read. */
  lemma StillJudging(s: State, step: Step, s': State, p: nat)
    requires Next(s, step) == Some(s') && p in s'.procs && s'.procs[p].phase == Judging(true) && s'.key == Some(p)
    ensures p in s.procs && s.procs[p].work == s'.procs[p].work
    ensures Judged(s, step, p) || (s.procs[p].phase == Judging(true) && s.key == Some(p))
  {
    JudgementIsFresh(s, step, s', p);
    StepKeyComes(s, step);
  }

  /** `p` has been judging under the key ever since the read at `i`. */
  ghost predicate JudgingSince(states: seq<State>, steps: seq<Step>, i: nat, j: nat, p: nat)
    requires |states| == |steps| + 1 && j < |states|
  {
    && i < j && Judged(states[i], steps[i], p)
    && (forall m :: i < m <= j ==>
        p in states[m].procs && states[m].procs[p].phase == Judging(true) && states[m].key == Some(p))
  }

  lemma {:induction false} JudgedAt(states: seq<State>, steps: seq<Step>, j: nat, p: nat) returns (i: nat)
    requires Run(states, steps) && j < |states| && p in states[j].procs
    requires states[j].procs[p].phase == Judging(true) && states[j].key == Some(p)
    ensures JudgingSince(states, steps, i, j, p) && states[i].procs[p].work == states[j].procs[p].work
  {
    hide Run;
    RunShape(states, steps);
    assert j > 0;
    RunStep(states, steps, j - 1);
    hide Next, Counted, Tracked;
    StillJudging(states[j - 1], steps[j - 1], states[j], p);
    if Judged(states[j - 1], steps[j - 1], p) {
      i := j - 1;
    } else {
      i := JudgedAt(states, steps, j - 1, p);
    }
  }

  /** A write that takes effect between `i` and `j` and was in flight at `i` or issued
      without the key. */
  ghost predicate OverlookedBetween(states: seq<State>, steps: seq<Step>, i: nat, j: nat)
    requires |states| == |steps| + 1 && j < |states|
  {
    exists k, q :: i < k < j && TakesEffect(states[k], steps[k], q)
        && (q in states[i].puts || !states[k].puts[q].fenced)
  }

  /** A grant is put back only while one of its groups is still on, unless the consumer could
      not be read, or a write took effect since the read that was in flight at it or issued
      without the key. */
  lemma RollbackFindsGroup(states: seq<State>, steps: seq<Step>, j: nat, g: Id) returns (i: nat)
    requires Run(states, steps) && j < |steps| && RollingBack(states[j], steps[j], g)
    ensures i < j && Judged(states[i], steps[i], steps[j].p)
    ensures
      || steps[i].unreadable
      || states[j].groups * Covers(states[j].db.grants[g].tools) != {}
      || OverlookedBetween(states, steps, i, j)
  {
    hide Run;
    RunShape(states, steps);
    var p := steps[j].p;
    i := JudgedAt(states, steps, j, p);
    GroupsUntilLanding(states, steps, i, j);
    JudgedToolsStay(states, steps, i, j, p);
    if LandsBetween(states, steps, i, j) {
      Overlooked(states, steps, i, j, p);
    }
  }

  lemma Overlooked(states: seq<State>, steps: seq<Step>, i: nat, j: nat, p: nat)
    requires Run(states, steps) && j < |states| && JudgingSince(states, steps, i, j, p)
             && LandsBetween(states, steps, i, j)
    ensures OverlookedBetween(states, steps, i, j)
  {
    hide Run;
    RunShape(states, steps);
    var k, q :| i <= k < j && TakesEffect(states[k], steps[k], q);
    if q !in states[i].puts && states[k].puts[q].fenced {
      OnlyOthersIssue(states, steps, i, j, k, p, q);
    }
  }

  /** While `p` judges under the key nobody issues a fenced write. */
  lemma OnlyOthersIssue(states: seq<State>, steps: seq<Step>, i: nat, j: nat, k: nat, p: nat, q: nat)
    requires Run(states, steps) && j < |states| && JudgingSince(states, steps, i, j, p) && i < k < j
    requires q !in states[i].puts && q in states[k].puts
    ensures !states[k].puts[q].fenced
  {
    hide Run;
    RunShape(states, steps);
    hide JudgingSince;
    var m, x := PutWasIssued(states, steps, i, k, q);
    IssuedInTime(states, steps, m, x, q);
    WriteStays(states, steps, m + 1, k, q);
    FencedByIssuer(states[m], x, states[m + 1], states[m + 1].puts[q]);
    hide Emits;
    JudgesAt(states, steps, i, j, p, m, x);
  }

  lemma JudgesAt(states: seq<State>, steps: seq<Step>, i: nat, j: nat, p: nat, m: nat, x: nat)
    requires |states| == |steps| + 1 && j < |states| && JudgingSince(states, steps, i, j, p) && i <= m < j
             && Issues(steps[m])
    requires x in states[m].procs && states[m].procs[x].phase.HasRead?
    ensures states[m].key != Some(x)
  {
    assert m > i;
    assert states[m].procs[p].phase == Judging(true) && states[m].key == Some(p);
  }

  lemma FencedByIssuer(s: State, p: nat, s': State, put: Put)
    requires Emits(s, p, s', put)
    ensures p in s.procs && s.procs[p].phase.HasRead? && put.fenced == (s.key == Some(p))
  {}

  /** The grant covers, when it is put back, what it covered at the read. */
  lemma JudgedToolsStay(states: seq<State>, steps: seq<Step>, i: nat, j: nat, p: nat)
    requires Run(states, steps) && j < |states| && JudgingSince(states, steps, i, j, p)
    ensures
      var g := states[i].procs[p].work.grant;
      g in states[j].db.grants && states[j].db.grants[g].tools == states[i].db.grants[g].tools
  {
    hide Run;
    RunShape(states, steps);
    var g := states[i].procs[p].work.grant;
    forall k | i <= k < j ensures !steps[k].StepCommit? {
      RunStep(states, steps, k);
      if k > i { assert states[k].key == Some(p); }
    }
    SameToolsBetween(states, steps, i, j, g);
  }
}
