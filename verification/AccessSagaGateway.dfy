/** What every step keeps between the gateway and the writes in flight: what a
    process read, what it wrote, and which writes can still take effect. */
module AccessSagaGateway {
  import opened Wrappers
  import opened AccessSaga
  import opened AccessSagaInvariants
  import opened AccessSagaEffects

  /* ── The invariant ─────────────────────────────────────────────────────── */

  /** A write that settles a job or a teardown leaves none of the API's groups. */
  ghost predicate Emptying(s: State) {
    forall q :: q in s.puts && (s.puts[q].settles.Some? || s.puts[q].strips.Some?) ==> s.puts[q].groups == {}
  }

  /** Whether `p`'s write has landed, as far as `p` can know. */
  predicate HasLanded(p: Proc) {
    p.phase.Written? || (p.phase.Issued? && p.phase.landed)
  }

  function Base(p: Proc): nat
    requires p.phase.HasRead? || p.phase.Issued? || p.phase.Written?
  {
    if p.phase.HasRead? then p.phase.tag else p.phase.base
  }

  /** No write issued under the consumer key names a tag after `tag`. */
  ghost predicate FencedUpTo(s: State, tag: nat) {
    forall q :: q in s.puts && s.puts[q].fenced ==> s.puts[q].tag <= tag
  }

  /** What `p` knows of the gateway is so. */
  ghost predicate Sees(s: State, p: nat)
    requires p in s.procs
  {
    var proc := s.procs[p];
    && (proc.phase.HasRead? && proc.phase.tag == s.tag ==> proc.phase.groups == s.groups)
    && (HasLanded(proc) ==> Base(proc) < s.tag)
    && (HasLanded(proc) && proc.work.Strip? && s.teardown == Some(proc.generation) ==> !s.teardownArmed)
    && (proc.phase.Issued? && proc.phase.put in s.puts ==>
          s.puts[proc.phase.put].strips == if proc.work.Strip? then Some(proc.generation) else None)
    && (s.key == Some(p) && (proc.phase.HasRead? || proc.phase.Issued? || proc.phase.Written?) ==>
        FencedUpTo(s, Base(proc)))
    && (IsAdd(proc.work) && (proc.phase.Written? || (proc.phase.Issued? && proc.phase.undo.Forward?)) ==>
          proc.phase.wrote == Covers(Goal(proc.work)))
  }

  ghost predicate Seen(s: State) {
    && Emptying(s)
    && (forall p :: p in s.procs ==> Sees(s, p))
  }

  /* ── Steps that leave the gateway and the writes in flight alone ───────── */

  lemma QuietKeeps(s: State, s': State)
    requires Counted(s) && Seen(s) && Quiet(s, s')
    ensures Seen(s')
  {
    forall p | p in s'.procs ensures Sees(s', p) {
      if !Unwritten(s'.procs[p].phase) {
        assert Sees(s, p);
      }
    }
  }

  /* ── Reads, writes and their landing ───────────────────────────────────── */

  lemma ReadSees(s: State, p: nat)
    requires Counted(s) && Seen(s) && DoRead(s, p).Some?
    ensures Seen(DoRead(s, p).value)
  {
    var s' := DoRead(s, p).value;
    forall r | r in s'.procs ensures Sees(s', r) {
      assert Sees(s, r);
    }
  }

  /** `p` puts `put` in flight on what it read. */
  ghost predicate Emits(s: State, p: nat, s': State, put: Put) {
    && p in s.procs && s.procs[p].phase.HasRead?
    && s'.groups == s.groups && s'.tag == s.tag && s'.key == s.key
    && s'.teardown == s.teardown && s'.teardownArmed == s.teardownArmed
    && s'.puts == s.puts[s.next := put]
    && s'.procs.Keys == s.procs.Keys && (forall r :: r in s.procs && r != p ==> s'.procs[r] == s.procs[r])
    && s'.procs[p].phase == Issued(s.procs[p].phase.undo, s.next, s.procs[p].phase.tag, put.groups, false)
    && s'.procs[p].generation == s.procs[p].generation && s'.procs[p].work.Strip? == s.procs[p].work.Strip?
    && (IsAdd(s'.procs[p].work) && s.procs[p].phase.undo.Forward? ==> put.groups == Covers(Goal(s'.procs[p].work)))
    && put.tag == s.procs[p].phase.tag && put.fenced == (s.key == Some(p))
    && put.strips == (if s.procs[p].work.Strip? then Some(s.procs[p].generation) else None)
    && (put.settles.Some? || put.strips.Some? ==> put.groups == {})
  }

  lemma EmitSees(s: State, p: nat, s': State, put: Put)
    requires Counted(s) && Tracked(s) && Seen(s) && Emits(s, p, s', put)
    ensures Seen(s')
  {
    forall r | r in s'.procs ensures Sees(s', r) {
      assert Sees(s, r) && TracksWrite(s, r);
    }
  }

  /** `s'` gives a write up or has put one in flight for `p`. */
  ghost predicate IssuedOrQuiet(s: State, p: nat, s': State) {
    Quiet(s, s') || (p in s.procs && s.next in s'.puts && Emits(s, p, s', s'.puts[s.next]))
  }

  lemma IssueAddEmits(s: State, p: nat)
    requires DoIssueAdd(s, p).Some?
    ensures IssuedOrQuiet(s, p, DoIssueAdd(s, p).value)
  {}

  lemma IssueRemoveAllEmits(s: State, p: nat)
    requires DoIssueRemoveAll(s, p).Some?
    ensures IssuedOrQuiet(s, p, DoIssueRemoveAll(s, p).value)
  {}

  lemma IssueStripToolsEmits(s: State, p: nat)
    requires DoIssueStripTools(s, p).Some?
    ensures IssuedOrQuiet(s, p, DoIssueStripTools(s, p).value)
  {}

  lemma IssueReconcileEmits(s: State, p: nat)
    requires DoIssueReconcile(s, p).Some?
    ensures IssuedOrQuiet(s, p, DoIssueReconcile(s, p).value)
  {}

  lemma IssueRevokeEmits(s: State, p: nat)
    requires DoIssueRevoke(s, p).Some?
    ensures IssuedOrQuiet(s, p, DoIssueRevoke(s, p).value)
  {}

  lemma IssueTeardownEmits(s: State, p: nat)
    requires DoIssueTeardown(s, p).Some?
    ensures IssuedOrQuiet(s, p, DoIssueTeardown(s, p).value)
  {}

  lemma IssueRebuildEmits(s: State, p: nat)
    requires DoIssueRebuild(s, p).Some?
    ensures IssuedOrQuiet(s, p, DoIssueRebuild(s, p).value)
  {}

  lemma IssueSweepEmits(s: State, p: nat)
    requires DoIssueSweep(s, p).Some?
    ensures IssuedOrQuiet(s, p, DoIssueSweep(s, p).value)
  {}

  lemma IssueRecoveryEmits(s: State, p: nat)
    requires DoIssueRecovery(s, p).Some?
    ensures IssuedOrQuiet(s, p, DoIssueRecovery(s, p).value)
  {
    if HeldBy(s.db).None? {
      assert Reconciled(s.procs[p].phase.groups, HeldGrant(s.db), s.db.accountActive) == {};
    }
  }

  lemma IssueEmits(s: State, step: Step)
    requires Issues(step) && Next(s, step).Some?
    ensures IssuedOrQuiet(s, step.p, Next(s, step).value)
  {
    hide IssuedOrQuiet, NextStart, NextRead, NextAfter;
    match step {
      case StepIssueAdd(p) => IssueAddEmits(s, p);
      case StepIssueRemoveAll(p) => IssueRemoveAllEmits(s, p);
      case StepIssueStripTools(p) => IssueStripToolsEmits(s, p);
      case StepIssueReconcile(p) => IssueReconcileEmits(s, p);
      case StepIssueRevoke(p) => IssueRevokeEmits(s, p);
      case StepIssueTeardown(p) => IssueTeardownEmits(s, p);
      case StepIssueRebuild(p) => IssueRebuildEmits(s, p);
      case StepIssueSweep(p) => IssueSweepEmits(s, p);
      case StepIssueRecovery(p) => IssueRecoveryEmits(s, p);
    }
  }

  lemma LandSees(s: State, q: nat)
    requires Counted(s) && Tracked(s) && Seen(s) && q in s.puts
    ensures Seen(DoLand(s, q).value)
  {
    var s' := DoLand(s, q).value;
    forall r | r in s'.procs ensures Sees(s', r) {
      LandChanges(s, q, r);
      assert Sees(s, r) && TracksWrite(s, r);
    }
  }

  lemma OtherApiSees(s: State)
    requires Counted(s) && Tracked(s) && Seen(s)
    ensures Seen(DoOtherApi(s).value)
  {
    var s' := DoOtherApi(s).value;
    forall r | r in s'.procs ensures Sees(s', r) {
      assert Sees(s, r) && TracksWrite(s, r);
    }
  }

  lemma AckSees(s: State, p: nat)
    requires Counted(s) && Seen(s) && DoAck(s, p).Some?
    ensures Seen(DoAck(s, p).value)
  {
    AckShape(s, p);
    var s' := DoAck(s, p).value;
    forall r | r in s'.procs ensures Sees(s', r) {
      assert Sees(s, r);
    }
  }

  /* ── Every step, and every run ─────────────────────────────────────────── */

  lemma Basics(s: State)
    requires Inv(s)
    ensures Counted(s) && Tracked(s)
  {}

  lemma StepSees(s: State, step: Step)
    requires Inv(s) && Seen(s) && Next(s, step).Some?
    ensures Seen(Next(s, step).value)
  {
    hide Inv, Counted, Tracked, Seen, Quiet, Emits;
    Basics(s);
    if StartsWork(step) {
      StartIsQuiet(s, step);
      QuietKeeps(s, Next(s, step).value);
    } else if Inert(step) {
      StepActs(s, step);
      QuietKeeps(s, Next(s, step).value);
    } else if Issues(step) {
      IssueEmits(s, step);
      var s' := Next(s, step).value;
      if Quiet(s, s') {
        QuietKeeps(s, s');
      } else {
        EmitSees(s, step.p, s', s'.puts[s.next]);
      }
    } else {
      match step {
        case StepRead(p) => ReadSees(s, p);
        case StepLand(q) => LandSees(s, q);
        case StepOtherApi => OtherApiSees(s);
        case StepAck(p) => AckSees(s, p);
      }
    }
  }

  lemma {:induction false} AlwaysSeen(states: seq<State>, steps: seq<Step>, i: nat)
    requires Run(states, steps) && i < |states|
    ensures Seen(states[i])
  {
    hide Run;
    RunShape(states, steps);
    if i > 0 {
      AlwaysSeen(states, steps, i - 1);
      Always(states, steps, i - 1);
      RunTakes(states, steps, i - 1);
      hide Next, Inv, Seen;
      StepSees(states[i - 1], steps[i - 1]);
    }
  }
}
