/** Where a write came from, when it took effect, and what has become of it since: facts
    about the past of a run that the later results look back on. */
module AccessSagaHistory {
  import opened Wrappers
  import opened AccessSaga
  import opened AccessSagaInvariants
  import opened AccessSagaEffects
  import opened AccessSagaGateway
  import opened AccessSagaFencing

  /** The step lands the write `q`, and the tag it names is still the current one. */
  predicate TakesEffect(s: State, step: Step, q: nat) {
    step == StepLand(q) && q in s.puts && s.puts[q].tag == s.tag
  }

  /** Some write takes effect from `i` on, before `j`. */
  ghost predicate LandsBetween(states: seq<State>, steps: seq<Step>, i: nat, j: nat)
    requires |states| == |steps| + 1 && j < |states|
  {
    exists k, q :: i <= k < j && TakesEffect(states[k], steps[k], q)
  }

  /* ── The gateway between two moments ───────────────────────────────────── */

  /** Only a landing changes the groups, and every change of the groups changes the tag. */
  lemma GroupsStay(s: State, step: Step, s': State)
    requires Counted(s) && Next(s, step) == Some(s')
    requires s'.tag == s.tag || !step.StepLand? || !TakesEffect(s, step, step.put)
    ensures s'.groups == s.groups
  {
    if StartsWork(step) {
      StartIsQuiet(s, step);
    } else if Inert(step) {
      hide Next;
      StepActs(s, step);
    } else if Issues(step) {
      hide Next;
      IssueEmits(s, step);
    }
  }

  /** One step of a run, and what holds before it. */
  lemma RunStep(states: seq<State>, steps: seq<Step>, j: nat)
    requires Run(states, steps) && j < |steps|
    ensures Next(states[j], steps[j]) == Some(states[j + 1]) && Counted(states[j]) && Tracked(states[j])
  {
    Always(states, steps, j);
  }

  lemma LandsLater(states: seq<State>, steps: seq<Step>, i: nat, j: nat)
    requires |states| == |steps| + 1 && i <= j < |steps|
    requires LandsBetween(states, steps, i, j) || (steps[j].StepLand? && TakesEffect(states[j], steps[j], steps[j].put))
    ensures LandsBetween(states, steps, i, j + 1)
  {}

  /** Between two moments the groups stay as they were unless a write takes effect. */
  lemma {:induction false} GroupsUntilLanding(states: seq<State>, steps: seq<Step>, i: nat, j: nat)
    requires Run(states, steps) && i <= j < |states|
    ensures states[j].groups == states[i].groups || LandsBetween(states, steps, i, j)
  {
    hide Run;
    RunShape(states, steps);
    if i < j {
      GroupsUntilLanding(states, steps, i, j - 1);
      RunStep(states, steps, j - 1);
      hide Next, Counted, Tracked, LandsBetween;
      var s, step := states[j - 1], steps[j - 1];
      if LandsBetween(states, steps, i, j - 1) || (step.StepLand? && TakesEffect(s, step, step.put)) {
        LandsLater(states, steps, i, j - 1);
      } else {
        GroupsStay(s, step, states[j]);
      }
    }
  }

  /** While the tag is the same, so are the groups. */
  lemma {:induction false} SameTagSameGroups(states: seq<State>, steps: seq<Step>, i: nat, j: nat)
    requires Run(states, steps) && i <= j < |states| && states[i].tag == states[j].tag
    ensures states[i].groups == states[j].groups
  {
    hide Run;
    RunShape(states, steps);
    if i < j {
      RunIsLater(states, steps, i, j - 1);
      RunIsLater(states, steps, j - 1, j);
      RunStep(states, steps, j - 1);
      hide Next, Counted, Tracked;
      assert states[j - 1].tag == states[j].tag;
      SameTagSameGroups(states, steps, i, j - 1);
      GroupsStay(states[j - 1], steps[j - 1], states[j]);
    }
  }

  /* ── The past of one write ─────────────────────────────────────────────── */

  /** At step `i` the process `p` puts the write `q` in flight. */
  ghost predicate IssuedAt(states: seq<State>, steps: seq<Step>, i: nat, p: nat, q: nat)
    requires |states| == |steps| + 1
  {
    && i < |steps| && Issues(steps[i]) && steps[i].p == p && states[i].next == q && q in states[i + 1].puts
    && Emits(states[i], p, states[i + 1], states[i + 1].puts[q])
  }

  /** How a process comes to have a write in flight or behind it. */
  ghost predicate CameToWrite(s: State, step: Step, s': State, p: nat)
    requires p in s'.procs
  {
    || (p in s.procs && s'.procs[p].phase == s.procs[p].phase && s'.procs[p].work == s.procs[p].work)
    || (Issues(step) && step.p == p && s.next in s'.puts && Emits(s, p, s', s'.puts[s.next]))
    || (p in s.procs && s.procs[p].phase.Issued? && s'.procs[p].work == s.procs[p].work
        && TakesEffect(s, step, s.procs[p].phase.put) && s.puts[s.procs[p].phase.put].owner == p
        && s'.procs[p].phase == s.procs[p].phase.(landed := true))
    || (p in s.procs && s.procs[p].phase.Issued? && s.procs[p].phase.landed && s'.procs[p].work == s.procs[p].work
        && s'.procs[p].phase == Written(s.procs[p].phase.base, s.procs[p].phase.wrote))
  }

  predicate Wrote(phase: Phase) {
    phase.Issued? || phase.Written?
  }

  lemma IssueCame(s: State, step: Step, s': State, p: nat)
    requires Issues(step) && IssuedOrQuiet(s, step.p, s') && p in s'.procs && Wrote(s'.procs[p].phase)
    ensures CameToWrite(s, step, s', p)
  {}

  lemma LandCame(s: State, q: nat, p: nat)
    requires DoLand(s, q).Some? && p in DoLand(s, q).value.procs
    ensures CameToWrite(s, StepLand(q), DoLand(s, q).value, p)
  {}

  lemma ReadCame(s: State, p: nat, x: nat)
    requires DoRead(s, p).Some? && x in DoRead(s, p).value.procs && Wrote(DoRead(s, p).value.procs[x].phase)
    ensures CameToWrite(s, StepRead(p), DoRead(s, p).value, x)
  {}

  lemma AckCame(s: State, p: nat, x: nat)
    requires DoAck(s, p).Some? && x in DoAck(s, p).value.procs && Wrote(DoAck(s, p).value.procs[x].phase)
    ensures CameToWrite(s, StepAck(p), DoAck(s, p).value, x)
  {}

  lemma StepCame(s: State, step: Step, s': State, p: nat)
    requires Counted(s) && Next(s, step) == Some(s') && p in s'.procs && Wrote(s'.procs[p].phase)
    ensures CameToWrite(s, step, s', p)
  {
    hide CameToWrite;
    if StartsWork(step) {
      StartIsQuiet(s, step);
      QuietCame(s, step, s', p);
    } else if Inert(step) {
      StepActs(s, step);
      QuietCame(s, step, s', p);
    } else if Issues(step) {
      IssueEmits(s, step);
      IssueCame(s, step, s', p);
    } else {
      match step {
        case StepRead(x) => ReadCame(s, x, p);
        case StepLand(q) => LandCame(s, q, p);
        case StepOtherApi => OtherCame(s, step, s', p);
        case StepAck(x) => AckCame(s, x, p);
      }
    }
  }

  lemma QuietCame(s: State, step: Step, s': State, p: nat)
    requires Quiet(s, s') && p in s'.procs && Wrote(s'.procs[p].phase)
    ensures CameToWrite(s, step, s', p)
  {}

  lemma OtherCame(s: State, step: Step, s': State, p: nat)
    requires s'.procs == s.procs && p in s'.procs
    ensures CameToWrite(s, step, s', p)
  {}

  /** The whole past of a write that a process knows to have landed: issued at `i`, and
      taken effect at `k`. */
  ghost predicate WrittenBy(states: seq<State>, steps: seq<Step>, i: nat, k: nat, q: nat, p: nat, proc: Proc)
    requires |states| == |steps| + 1
  {
    && IssuedAt(states, steps, i, p, q) && i < k < |steps|
    && TakesEffect(states[k], steps[k], q) && states[k].puts[q] == states[i + 1].puts[q]
    && states[i + 1].procs[p].work == proc.work
    && (proc.phase.Issued? || proc.phase.Written?)
    && proc.phase.base == states[i + 1].puts[q].tag && proc.phase.wrote == states[i + 1].puts[q].groups
  }

  /** A process with a write in flight put it there. */
  lemma {:induction false} WriteWasIssued(states: seq<State>, steps: seq<Step>, j: nat, p: nat) returns (i: nat)
    requires Run(states, steps) && j < |states| && p in states[j].procs && states[j].procs[p].phase.Issued?
    ensures i < j && IssuedAt(states, steps, i, p, states[j].procs[p].phase.put)
    ensures
      var proc, put := states[j].procs[p], states[i + 1].puts[states[j].procs[p].phase.put];
      states[i + 1].procs[p].work == proc.work && proc.phase.base == put.tag && proc.phase.wrote == put.groups
  {
    hide Run;
    RunShape(states, steps);
    assert j > 0;
    RunStep(states, steps, j - 1);
    var s, step, s' := states[j - 1], steps[j - 1], states[j];
    hide Next, Counted;
    StepCame(s, step, s', p);
    if IssuedAt(states, steps, j - 1, p, s.next) {
      i := j - 1;
      EmittedNow(s, p, s', s'.puts[s.next]);
    } else {
      StillIssued(s, step, s', p);
      i := WriteWasIssued(states, steps, j - 1, p);
    }
  }

  lemma EmittedNow(s: State, p: nat, s': State, put: Put)
    requires Emits(s, p, s', put)
    ensures p in s'.procs && s'.procs[p].phase == Issued(s.procs[p].phase.undo, s.next, put.tag, put.groups, false)
  {}

  lemma StillIssued(s: State, step: Step, s': State, p: nat)
    requires p in s'.procs && CameToWrite(s, step, s', p) && s'.procs[p].phase.Issued?
    requires !(Issues(step) && step.p == p && s.next in s'.puts && Emits(s, p, s', s'.puts[s.next]))
    ensures p in s.procs && s.procs[p].phase.Issued? && s.procs[p].work == s'.procs[p].work
    ensures s.procs[p].phase == s'.procs[p].phase.(landed := s.procs[p].phase.landed)
  {}

  /** A process that knows its write to have landed issued it once, and it took effect once. */
  lemma {:induction false} WriteHistory(states: seq<State>, steps: seq<Step>, j: nat, p: nat)
      returns (i: nat, k: nat, q: nat)
    requires Run(states, steps) && j < |states| && p in states[j].procs && HasLanded(states[j].procs[p])
    ensures WrittenBy(states, steps, i, k, q, p, states[j].procs[p]) && k < j
  {
    hide Run;
    RunShape(states, steps);
    assert j > 0;
    RunStep(states, steps, j - 1);
    var s, step, s' := states[j - 1], steps[j - 1], states[j];
    hide Next, Counted;
    StepCame(s, step, s', p);
    if p in s.procs && HasLanded(s.procs[p]) {
      i, k, q := WriteHistory(states, steps, j - 1, p);
      HistoryGoesOn(states, steps, i, k, q, p, s.procs[p], s'.procs[p]);
    } else {
      hide CameToWrite;
      LandedNow(s, step, s', p);
      i := WriteWasIssued(states, steps, j - 1, p);
      k, q := j - 1, s.procs[p].phase.put;
      IssuedInTime(states, steps, i, p, q);
      WriteStays(states, steps, i + 1, k, q);
    }
  }

  lemma LandedNow(s: State, step: Step, s': State, p: nat)
    requires p in s'.procs && CameToWrite(s, step, s', p) && HasLanded(s'.procs[p])
             && !(p in s.procs && HasLanded(s.procs[p]))
    ensures p in s.procs && s.procs[p].phase.Issued? && s'.procs[p].work == s.procs[p].work
    ensures TakesEffect(s, step, s.procs[p].phase.put) && s'.procs[p].phase == s.procs[p].phase.(landed := true)
  {}

  lemma IssuedInTime(states: seq<State>, steps: seq<Step>, i: nat, p: nat, q: nat)
    requires Run(states, steps) && IssuedAt(states, steps, i, p, q)
    ensures q < states[i + 1].next
  {
    hide Run;
    RunShape(states, steps);
    Always(states, steps, i + 1);
  }

  lemma HistoryGoesOn(states: seq<State>, steps: seq<Step>, i: nat, k: nat, q: nat, p: nat, before: Proc, after: Proc)
    requires |states| == |steps| + 1 && WrittenBy(states, steps, i, k, q, p, before)
    requires after.work == before.work && Wrote(after.phase)
    requires after.phase.base == before.phase.base && after.phase.wrote == before.phase.wrote
    ensures WrittenBy(states, steps, i, k, q, p, after)
  {}

  /** A write still in flight is the one that was issued. */
  lemma WriteStays(states: seq<State>, steps: seq<Step>, i: nat, k: nat, q: nat)
    requires Run(states, steps) && i <= k < |states| && q < states[i].next && q in states[k].puts
    ensures q in states[i].puts && states[k].puts[q] == states[i].puts[q]
  {
    hide Run;
    RunShape(states, steps);
    RunIsLater(states, steps, i, k);
  }

  /** A write that was not in flight at `i` was issued since. */
  lemma {:induction false} PutWasIssued(states: seq<State>, steps: seq<Step>, i: nat, j: nat, q: nat)
      returns (m: nat, p: nat)
    requires Run(states, steps) && i <= j < |states| && q !in states[i].puts && q in states[j].puts
    ensures i <= m < j && IssuedAt(states, steps, m, p, q)
  {
    hide Run;
    RunShape(states, steps);
    RunStep(states, steps, j - 1);
    hide Next, Counted, Tracked, Emits;
    if q in states[j - 1].puts {
      m, p := PutWasIssued(states, steps, i, j - 1, q);
    } else {
      NewPut(states[j - 1], steps[j - 1], states[j], q);
      m, p := j - 1, steps[j - 1].p;
    }
  }

  lemma NewPut(s: State, step: Step, s': State, q: nat)
    requires Counted(s) && Next(s, step) == Some(s') && q in s'.puts && q !in s.puts
    ensures Issues(step) && q == s.next && Emits(s, step.p, s', s'.puts[q])
  {
    if StartsWork(step) {
      StartIsQuiet(s, step);
    } else if Inert(step) {
      hide Next;
      StepActs(s, step);
    } else if Issues(step) {
      hide Next;
      IssueEmits(s, step);
    }
  }
}
