/** Tool subsets over any run: what a grant covers grows only by what was requested
    and approved, and neither a concurrent write nor a compensation takes any of it off. */
module AccessSagaTools {
  import opened Wrappers
  import opened AccessRows
  import opened AccessSaga
  import opened AccessSagaInvariants
  import opened AccessSagaEffects
  import opened AccessSagaOwnership

  /** What an approval in progress was admitted for: its tools were requested, and until
      it is settled its request records them as approved. */
  ghost predicate Meant(s: State, p: nat)
    requires p in s.procs
  {
    var proc := s.procs[p];
    IsAdd(proc.work) ==>
      && proc.work.request in s.db.requests
      && var q, tools := s.db.requests[proc.work.request], Agreed(proc.work);
         && Within(tools, q.requestedTools)
         && (proc.work.Widen? ==>
               && q.widens == Some(proc.work.grant) && q.requestedTools.Some?
               && forall id :: id in proc.work.added ==> id !in proc.work.current)
         && (OwnsRow(s.db, proc) && !proc.phase.Closing? ==> q.approvedTools == tools)
  }

  ghost predicate AllMeant(s: State) {
    forall p :: p in s.procs ==> Meant(s, p)
  }

  /* ── Steps that change no request and no owner ─────────────────────────── */

  /** No process takes over another's approval, and none is un-settled. */
  ghost predicate SameApprovals(s: State, s': State) {
    forall p :: p in s'.procs ==> p in s.procs && SameApproval(s'.procs[p], s.procs[p])
  }

  /** Requests keep what was asked, and what was approved while its approval owns the job. */
  ghost predicate DecisionsHold(s: State, s': State) {
    && (forall r :: r in s.db.requests ==>
          r in s'.db.requests && s'.db.requests[r].widens == s.db.requests[r].widens
          && s'.db.requests[r].requestedTools == s.db.requests[r].requestedTools
          && (s'.db.requests[r].approvedTools == s.db.requests[r].approvedTools || OfRequest(r) !in s'.db.jobs
              || s'.db.jobs[OfRequest(r)].generation == s.next))
    && OwnersAreNew(s, s')
  }

  lemma MeantHolds(s: State, s': State, p: nat)
    requires Counted(s) && Distinct(s) && DecisionsHold(s, s')
    requires p in s.procs && p in s'.procs && SameApproval(s'.procs[p], s.procs[p]) && Meant(s, p)
    ensures Meant(s', p)
  {
    if IsAdd(s'.procs[p].work) && OwnsRow(s'.db, s'.procs[p]) {
      var c := ClaimOf(s'.procs[p]).value;
      assert SameOwner(s, s'.db, c.subject);
      assert OwnsRow(s.db, s.procs[p]);
    }
  }

  lemma MeantKept(s: State, s': State)
    requires Counted(s) && Distinct(s) && AllMeant(s) && SameApprovals(s, s') && DecisionsHold(s, s')
    ensures AllMeant(s')
  {
    forall p | p in s'.procs ensures Meant(s', p) {
      MeantHolds(s, s', p);
    }
  }

  /* ── Requests and claims ───────────────────────────────────────────────── */

  lemma ApproveMeans(s: State, r: Id, actor: Id, tools: Subset, at: nat, note: Option<string>)
    requires Counted(s) && Distinct(s) && AllMeant(s) && DoApprove(s, r, actor, tools, at, note).Some?
    ensures AllMeant(DoApprove(s, r, actor, tools, at, note).value)
  {
    var s' := DoApprove(s, r, actor, tools, at, note).value;
    assert DecisionsHold(s, s') && Meant(s', s.next) && s'.procs == s.procs[s.next := s'.procs[s.next]];
    hide DoApprove, DecisionsHold, Meant, Counted, Distinct;
    forall p | p in s'.procs ensures Meant(s', p) {
      if p != s.next {
        MeantHolds(s, s', p);
      }
    }
  }

  lemma ApproveToolsMeans(s: State, r: Id, actor: Id, added: seq<Id>, at: nat, note: Option<string>)
    requires Counted(s) && Distinct(s) && AllMeant(s) && DoApproveTools(s, r, actor, added, at, note).Some?
    ensures AllMeant(DoApproveTools(s, r, actor, added, at, note).value)
  {
    var s' := DoApproveTools(s, r, actor, added, at, note).value;
    assert added[0] in added;
    assert DecisionsHold(s, s') && Meant(s', s.next) && s'.procs == s.procs[s.next := s'.procs[s.next]];
    hide DoApproveTools, DecisionsHold, Meant, Counted, Distinct;
    forall p | p in s'.procs ensures Meant(s', p) {
      if p != s.next {
        MeantHolds(s, s', p);
      }
    }
  }

  lemma FiledHolds(s: State, r: Id, tools: Subset, actor: Id, at: nat)
    requires FileRequest(s.db, r, tools, actor, at).Some?
    ensures DecisionsHold(s, s.(db := FileRequest(s.db, r, tools, actor, at).value))
  {
    FileChanges(s.db, r, tools, actor, at);
  }

  lemma ClosedHolds(s: State, r: Id, g: Id, ids: seq<Id>, status: RequestStatus, actor: Id, at: nat,
      note: Option<string>)
    ensures FileToolRequest(s.db, r, g, ids).Some? ==>
              DecisionsHold(s, s.(db := FileToolRequest(s.db, r, g, ids).value))
    ensures CloseRequest(s.db, r, status, actor, at, note).Some? ==>
              DecisionsHold(s, s.(db := CloseRequest(s.db, r, status, actor, at, note).value))
  {}

  lemma FileHolds(s: State, step: Step)
    requires step.StepFile? || step.StepFileTools? || step.StepClose?
    requires Next(s, step).Some?
    ensures SameApprovals(s, Next(s, step).value) && DecisionsHold(s, Next(s, step).value)
  {
    hide FileRequest, FileToolRequest, CloseRequest, DecisionsHold;
    match step {
      case StepFile(r, tools, actor, at) => FiledHolds(s, r, tools, actor, at);
      case StepFileTools(r, g, ids) => ClosedHolds(s, r, g, ids, Cancelled, 0, 0, None);
      case StepClose(r, status, actor, at, note) => ClosedHolds(s, r, 0, [], status, actor, at, note);
    }
  }

  /** A step whose new process, if any, is not an approval. */
  ghost predicate SpawnsOther(s: State, s': State) {
    forall p :: p in s'.procs ==>
      (p in s.procs && s'.procs[p] == s.procs[p]) || !IsAdd(s'.procs[p].work)
  }

  lemma OtherMeans(s: State, s': State)
    requires Counted(s) && Distinct(s) && AllMeant(s) && SpawnsOther(s, s') && DecisionsHold(s, s')
    ensures AllMeant(s')
  {
    forall p | p in s'.procs ensures Meant(s', p) {
      if p in s.procs && s'.procs[p] == s.procs[p] {
        MeantHolds(s, s', p);
      }
    }
  }

  lemma RevokeHolds(s: State, g: Id, actor: Id, at: nat, note: Option<string>)
    requires DoRevoke(s, g, actor, at, note).Some?
    ensures SpawnsOther(s, DoRevoke(s, g, actor, at, note).value)
            && DecisionsHold(s, DoRevoke(s, g, actor, at, note).value)
  {}

  lemma SweepHolds(s: State, g: Id, actor: Id, at: nat, note: Option<string>)
    requires DoSweep(s, g, actor, at, note).Some?
    ensures SpawnsOther(s, DoSweep(s, g, actor, at, note).value)
            && DecisionsHold(s, DoSweep(s, g, actor, at, note).value)
  {}

  lemma AccountHolds(s: State, step: Step)
    requires StartsWork(step) && Next(s, step).Some?
    requires !(step.StepFile? || step.StepFileTools? || step.StepClose? || step.StepRevoke? || step.StepSweep?
               || step.StepApprove? || step.StepApproveTools?)
    ensures SpawnsOther(s, Next(s, step).value) && DecisionsHold(s, Next(s, step).value)
  {}

  /* ── The other steps ───────────────────────────────────────────────────── */

  lemma UnchangedHolds(s: State, s': State)
    requires s'.db == s.db
    ensures DecisionsHold(s, s')
  {}

  /** A recovery's end forgets what was approved only with the job. */
  lemma FinishHolds(s: State, p: nat)
    requires DoFinish(s, p).Some?
    ensures DecisionsHold(s, DoFinish(s, p).value)
  {
    var s' := DoFinish(s, p).value;
    assert OwnersAreNew(s, s') by { FinishRightly(s, p); }
    if s.procs[p].work.FinishApprove? {
      var w, c := s.procs[p].work, ClaimOf(s.procs[p]).value;
      if SettleApproval(s.db, c, w.request, w.seen.value, w.live).Some? {
        SettleApprovalKeepsAsked(s.db, c, w.request, w.seen.value, w.live);
      }
    }
  }

  lemma SettleApprovalKeepsAsked(db: Db, c: Claim, r: Id, q: Request, live: Option<(Id, Grant)>)
    requires SettleApproval(db, c, r, q, live).Some?
    ensures
      var out := SettleApproval(db, c, r, q, live).value;
      && c.subject !in out.jobs && out.requests.Keys == db.requests.Keys
      && (forall x :: x in db.requests ==>
            && out.requests[x].widens == db.requests[x].widens
            && out.requests[x].requestedTools == db.requests[x].requestedTools
            && (x != r ==> out.requests[x] == db.requests[x]))
  {}

  lemma RestoreHolds(s: State, p: nat, acknowledged: bool)
    requires DoRestore(s, p, acknowledged).Some?
    ensures DecisionsHold(s, DoRestore(s, p, acknowledged).value)
  {
    var s' := DoRestore(s, p, acknowledged).value;
    assert OwnersAreNew(s, s') by { RestoreRightly(s, p, acknowledged); }
    var w := s.procs[p].work;
    if Restore(s.db, w.grant, w.who, w.at, w.moved, w.cancelled, s.procs[p].phase.present).Some? {
      RestoreKeepsAsked(s.db, w.grant, w.who, w.at, w.moved, w.cancelled, s.procs[p].phase.present);
    }
  }

  lemma RestoreKeepsAsked(db: Db, g: Id, who: Id, at: nat, moved: Option<(Id, Request)>,
      cancelled: Option<(Id, Request)>, present: bool)
    requires Restore(db, g, who, at, moved, cancelled, present).Some?
    ensures
      var out := Restore(db, g, who, at, moved, cancelled, present).value.db;
      && out.requests.Keys == db.requests.Keys
      && forall r :: r in db.requests ==>
           out.requests[r].widens == db.requests[r].widens
               && out.requests[r].requestedTools == db.requests[r].requestedTools
           && out.requests[r].approvedTools == db.requests[r].approvedTools
  {}

  /** A compensation settles its own request, and closes with it. */
  lemma SettleMeans(s: State, p: nat, stored: bool)
    requires Counted(s) && Distinct(s) && AllMeant(s) && DoSettle(s, p, stored).Some?
    ensures AllMeant(DoSettle(s, p, stored).value)
  {
    var s' := DoSettle(s, p, stored).value;
    hide DoSettle, Meant, Counted;
    forall x | x in s'.procs ensures Meant(s', x) {
      SettleMeansOne(s, p, stored, x);
    }
  }

  lemma SettleMeansOne(s: State, p: nat, stored: bool, x: nat)
    requires Distinct(s) && DoSettle(s, p, stored).Some? && x in DoSettle(s, p, stored).value.procs
    requires x in s.procs ==> Meant(s, x)
    ensures Meant(DoSettle(s, p, stored).value, x)
  {
    if x != p && ClaimOf(s.procs[x]).Some? && ClaimOf(s.procs[p]).Some? {
      assert OwnsRow(s.db, s.procs[x]) && OwnsRow(s.db, s.procs[p])
             ==> ClaimOf(s.procs[x]).value.subject != ClaimOf(s.procs[p]).value.subject;
    }
  }

  /** The transactions behind the steps that start work on a request or a grant. */
  lemma StartIs(s: State, step: Step)
    requires StartsWork(step)
    ensures Next(s, step) == NextStart(s, step)
    ensures step.StepApprove? ==>
            Next(s, step) == DoApprove(s, step.request, step.actor, step.tools, step.at, step.note)
    ensures step.StepApproveTools? ==>
              Next(s, step) == DoApproveTools(s, step.request, step.actor, step.added, step.at, step.note)
    ensures step.StepRevoke? ==> Next(s, step) == DoRevoke(s, step.grant, step.actor, step.at, step.note)
    ensures step.StepSweep? ==> Next(s, step) == DoSweep(s, step.grant, step.actor, step.at, step.note)
  {
    hide DoApprove, DoApproveTools, DoRevoke, DoSweep;
  }

  lemma StartMeans(s: State, step: Step)
    requires Counted(s) && Distinct(s) && AllMeant(s) && StartsWork(step) && Next(s, step).Some?
    ensures AllMeant(Next(s, step).value)
  {
    StartIs(s, step);
    hide Next, NextStart, DoApprove, DoApproveTools, DoRevoke, DoSweep, Counted, Distinct, AllMeant;
    hide SameApprovals, SpawnsOther, DecisionsHold;
    var s' := Next(s, step).value;
    if step.StepApprove? {
      ApproveMeans(s, step.request, step.actor, step.tools, step.at, step.note);
    } else if step.StepApproveTools? {
      ApproveToolsMeans(s, step.request, step.actor, step.added, step.at, step.note);
    } else if step.StepFile? || step.StepFileTools? || step.StepClose? {
      FileHolds(s, step);
      MeantKept(s, s');
    } else {
      OthersHold(s, step);
      OtherMeans(s, s');
    }
  }

  lemma OthersHold(s: State, step: Step)
    requires StartsWork(step) && Next(s, step).Some?
    requires !(step.StepFile? || step.StepFileTools? || step.StepClose? || step.StepApprove? || step.StepApproveTools?)
    ensures SpawnsOther(s, Next(s, step).value) && DecisionsHold(s, Next(s, step).value)
  {
    StartIs(s, step);
    hide Next, NextStart, DoRevoke, DoSweep, SpawnsOther, DecisionsHold;
    if step.StepRevoke? {
      RevokeHolds(s, step.grant, step.actor, step.at, step.note);
    } else if step.StepSweep? {
      SweepHolds(s, step.grant, step.actor, step.at, step.note);
    } else {
      AccountHolds(s, step);
    }
  }

  lemma ActsKeepApprovals(s: State, step: Step)
    requires !StartsWork(step) && Next(s, step).Some?
    ensures SameApprovals(s, Next(s, step).value)
    ensures !Transacts(step) ==> Next(s, step).value.db == s.db
  {
    hide Next;
    StepActs(s, step);
    var s' := Next(s, step).value;
    forall p | p in s'.procs ensures p in s.procs && SameApproval(s'.procs[p], s.procs[p]) {
      assert Continues(s, step, s', p);
    }
  }

  /** The transactions that end a process hold the decisions. */
  lemma ClosingHolds(s: State, p: nat, g: Id)
    ensures DoCommit(s, p, g).Some? ==> DecisionsHold(s, DoCommit(s, p, g).value)
    ensures DoCloseJob(s, p).Some? ==> DecisionsHold(s, DoCloseJob(s, p).value)
  {}

  lemma TransactionHolds(s: State, step: Step)
    requires Transacts(step) && !step.StepSettle? && Next(s, step).Some?
    ensures DecisionsHold(s, Next(s, step).value)
  {
    hide DecisionsHold;
    match step {
      case StepCommit(p, g) => ClosingHolds(s, p, g);
      case StepCloseJob(p) => ClosingHolds(s, p, 0);
      case StepRestore(p, acknowledged) => RestoreHolds(s, p, acknowledged);
      case StepFinish(p) => FinishHolds(s, p);
    }
  }

  lemma CountedAndDistinct(s: State)
    requires Inv(s)
    ensures Counted(s) && Distinct(s)
  {}

  lemma StepMeans(s: State, step: Step)
    requires Inv(s) && AllMeant(s) && Next(s, step).Some?
    ensures AllMeant(Next(s, step).value)
  {
    hide Inv, Counted, Distinct, AllMeant, SameApprovals, DecisionsHold;
    CountedAndDistinct(s);
    if StartsWork(step) {
      StartMeans(s, step);
    } else if step.StepSettle? {
      SettleMeans(s, step.p, step.stored);
    } else {
      hide Next;
      ActsKeepApprovals(s, step);
      if Transacts(step) {
        TransactionHolds(s, step);
      } else {
        UnchangedHolds(s, Next(s, step).value);
      }
      MeantKept(s, Next(s, step).value);
    }
  }

  lemma {:induction false} AlwaysMeant(states: seq<State>, steps: seq<Step>, i: nat)
    requires Run(states, steps) && i < |states|
    ensures AllMeant(states[i])
  {
    hide Run;
    RunShape(states, steps);
    if i > 0 {
      AlwaysMeant(states, steps, i - 1);
      Always(states, steps, i - 1);
      RunTakes(states, steps, i - 1);
      hide Next, Inv, AllMeant;
      StepMeans(states[i - 1], steps[i - 1]);
    }
  }

  /* ── What is promised about tools ──────────────────────────────────────── */

  /** How the step widens `g`: an approval of a request for exactly these tools, none of
      them covered before, recorded as approved on the request. */
  ghost predicate Widening(s: State, step: Step, g: Id, added: seq<Id>) {
    && step.StepCommit? && step.grant == g && step.p in s.procs && s.procs[step.p].work.Widen?
    && IsActive(s.db, g) && s.db.grants[g].tools.Some?
    && s.procs[step.p].work.request in s.db.requests
    && var q := s.db.requests[s.procs[step.p].work.request];
       && q.widens == Some(g) && q.approvedTools == Some(added) && q.requestedTools.Some?
       && (forall id :: id in added ==> id in q.requestedTools.value && id !in s.db.grants[g].tools.value)
  }

  lemma CommitWidens(s: State, p: nat, g: Id)
    requires AllMeant(s) && DoCommit(s, p, g).Some? && s.procs[p].work.Widen?
    ensures
      var s' := DoCommit(s, p, g).value;
      exists added :: Widening(s, StepCommit(p, g), g, added)
                      && s'.db.grants[g] == s.db.grants[g].(tools := Some(s.db.grants[g].tools.value + added))
                      && s'.db.grants == s.db.grants[g := s'.db.grants[g]]
  {
    assert Meant(s, p);
    assert Widening(s, StepCommit(p, g), g, s.procs[p].work.added);
  }

  lemma CommitCreates(s: State, p: nat, g: Id)
    requires AllMeant(s) && DoCommit(s, p, g).Some? && s.procs[p].work.Approve?
    ensures
      var s' := DoCommit(s, p, g).value;
      && g !in s.db.grants && s'.db.grants == s.db.grants[g := s'.db.grants[g]]
      && s.procs[p].work.request in s.db.requests
      && var q := s.db.requests[s.procs[p].work.request];
         s'.db.grants[g].tools == q.approvedTools && Within(q.approvedTools, q.requestedTools)
  {
    assert Meant(s, p);
  }

  /** Outside a commit no grant's subset changes. */
  ghost predicate SameTools(s: State, s': State) {
    && s'.db.grants.Keys == s.db.grants.Keys
    && (forall g :: g in s.db.grants ==> s'.db.grants[g].tools == s.db.grants[g].tools)
  }

  lemma FileSameTools(s: State, step: Step)
    requires step.StepFile? || step.StepFileTools? || step.StepClose? || step.StepRecovering? || step.StepReleaseStale?
    requires NextStart(s, step).Some?
    ensures SameTools(s, NextStart(s, step).value)
  {
    hide Decided;
  }

  lemma ClaimSameTools(s: State, step: Step)
    requires step.StepApprove? || step.StepApproveTools? || step.StepRevoke? || step.StepSweep?
    requires NextStart(s, step).Some?
    ensures SameTools(s, NextStart(s, step).value)
  {
    hide Decided, Within;
  }

  lemma StartSameTools(s: State, step: Step)
    requires StartsWork(step) && Next(s, step).Some?
    ensures SameTools(s, Next(s, step).value)
  {
    hide DoApprove, DoApproveTools, DoRevoke, DoSweep, DoReleaseStale, FileRequest, FileToolRequest, CloseRequest;
    if step.StepFile? || step.StepFileTools? || step.StepClose? || step.StepRecovering? || step.StepReleaseStale? {
      FileSameTools(s, step);
    } else if step.StepApprove? || step.StepApproveTools? || step.StepRevoke? || step.StepSweep? {
      ClaimSameTools(s, step);
    }
  }

  lemma RestoreSameTools(s: State, p: nat, acknowledged: bool)
    requires DoRestore(s, p, acknowledged).Some?
    ensures SameTools(s, DoRestore(s, p, acknowledged).value)
  {}

  lemma StepSameTools(s: State, step: Step)
    requires !step.StepCommit? && Next(s, step).Some?
    ensures SameTools(s, Next(s, step).value)
  {
    if StartsWork(step) {
      StartSameTools(s, step);
    } else if step.StepRestore? {
      RestoreSameTools(s, step.p, step.acknowledged);
    } else {
      hide Next;
      StepActs(s, step);
    }
  }

  /** Whether a grant's subset grew, in order, and never between every tool and some. */
  predicate Grew(before: Subset, after: Subset) {
    if before.None? then after.None? else after.Some? && before.value <= after.value
  }

  lemma StepGrows(s: State, step: Step, s': State, g: Id)
    requires AllMeant(s) && Next(s, step) == Some(s') && g in s.db.grants
    ensures g in s'.db.grants && Grew(s.db.grants[g].tools, s'.db.grants[g].tools)
    ensures s'.db.grants[g].tools != s.db.grants[g].tools ==>
              exists added :: Widening(s, step, g, added)
                  && s'.db.grants[g].tools == Some(s.db.grants[g].tools.value + added)
  {
    if step.StepCommit? {
      if s.procs[step.p].work.Widen? {
        CommitWidens(s, step.p, step.grant);
      } else {
        CommitCreates(s, step.p, step.grant);
      }
    } else {
      StepSameTools(s, step);
    }
  }

  /** Every tool of `g` in state `j` that it did not cover in state `i` came from an
      approval in between. */
  ghost predicate Accounted(states: seq<State>, steps: seq<Step>, i: nat, j: nat, g: Id)
    requires i <= j < |states| && |steps| + 1 == |states|
    requires g in states[i].db.grants && g in states[j].db.grants
    requires Grew(states[i].db.grants[g].tools, states[j].db.grants[g].tools)
  {
    states[j].db.grants[g].tools.Some? ==>
      forall id :: id in states[j].db.grants[g].tools.value && id !in states[i].db.grants[g].tools.value
        ==> AddedBetween(states, steps, i, j, g, id)
  }

  ghost predicate AddedBetween(states: seq<State>, steps: seq<Step>, i: nat, j: nat, g: Id, id: Id)
    requires i <= j < |states| && |steps| + 1 == |states|
  {
    exists k, added :: i <= k < j && id in added && Widening(states[k], steps[k], g, added)
  }

  lemma AddedStays(states: seq<State>, steps: seq<Step>, i: nat, j: nat, g: Id, id: Id)
    requires i < j < |states| && |steps| + 1 == |states| && AddedBetween(states, steps, i, j - 1, g, id)
    ensures AddedBetween(states, steps, i, j, g, id)
  {}

  /** One more step accounts for what it adds. */
  lemma AccountedStep(states: seq<State>, steps: seq<Step>, i: nat, j: nat, g: Id)
    requires Run(states, steps) && i < j < |states|
    requires g in states[i].db.grants && g in states[j - 1].db.grants
    requires Grew(states[i].db.grants[g].tools, states[j - 1].db.grants[g].tools)
    requires Accounted(states, steps, i, j - 1, g)
    ensures g in states[j].db.grants && Grew(states[i].db.grants[g].tools, states[j].db.grants[g].tools)
    ensures Accounted(states, steps, i, j, g)
  {
    AlwaysMeant(states, steps, j - 1);
    assert Next(states[j - 1], steps[j - 1]) == Some(states[j]);
    StepGrows(states[j - 1], steps[j - 1], states[j], g);
    var old0, mid, now := states[i].db.grants[g].tools, states[j - 1].db.grants[g].tools, states[j].db.grants[g].tools;
    if now.Some? {
      forall id | id in now.value && id !in old0.value ensures AddedBetween(states, steps, i, j, g, id) {
        if id in mid.value {
          assert AddedBetween(states, steps, i, j - 1, g, id);
          AddedStays(states, steps, i, j, g, id);
        } else {
          var added :| Widening(states[j - 1], steps[j - 1], g, added) && now == Some(mid.value + added);
          assert id in added;
        }
      }
    }
  }

  /** Over any run a grant's subset only grows, and only by tools that one of its tool
      requests asked for and a provider approved. */
  lemma {:induction false} ToolsOnlyGrow(states: seq<State>, steps: seq<Step>, i: nat, j: nat, g: Id)
    requires Run(states, steps) && i <= j < |states| && g in states[i].db.grants
    ensures g in states[j].db.grants && Grew(states[i].db.grants[g].tools, states[j].db.grants[g].tools)
    ensures Accounted(states, steps, i, j, g)
  {
    if i < j {
      ToolsOnlyGrow(states, steps, i, j - 1, g);
      AccountedStep(states, steps, i, j, g);
    }
  }

  /** A grant starts with what its own request was approved for, never more than was asked. */
  lemma GrantsStartAsApproved(states: seq<State>, steps: seq<Step>, i: nat, g: Id)
    requires Run(states, steps) && i < |steps| && g !in states[i].db.grants && g in states[i + 1].db.grants
    ensures
      && steps[i].StepCommit? && steps[i].p in states[i].procs && states[i].procs[steps[i].p].work.Approve?
      && var r := states[i].procs[steps[i].p].work.request;
         && r in states[i].db.requests
         && states[i + 1].db.grants[g].tools == states[i].db.requests[r].approvedTools
         && Within(states[i].db.requests[r].approvedTools, states[i].db.requests[r].requestedTools)
  {
    AlwaysMeant(states, steps, i);
    assert Next(states[i], steps[i]) == Some(states[i + 1]);
    if steps[i].StepCommit? {
      if states[i].procs[steps[i].p].work.Approve? {
        CommitCreates(states[i], steps[i].p, steps[i].grant);
      } else {
        CommitWidens(states[i], steps[i].p, steps[i].grant);
      }
    } else {
      StepSameTools(states[i], steps[i]);
    }
  }

  /* ── What is promised about the groups ─────────────────────────────────── */

  /** A wider subset covers everything the narrower one did. */
  lemma CoversGrow(before: Subset, after: Subset)
    requires Grew(before, after)
    ensures Covers(before) <= Covers(after)
  {
    if before.Some? {
      forall x | x in Covers(before) ensures x in Covers(after) {
        if x != Rest {
          assert x.id in before.value;
          assert x.id in after.value;
        }
      }
    }
  }

  /** A compensation's write takes off no group of the identity's active grant: not the
      approval group, not a tool the grant covers when the write is guarded. */
  lemma StripSparesTheGrant(s: State, p: nat, g: Id)
    requires Inv(s) && DoIssueStripTools(s, p).Some? && IsActive(s.db, g)
    ensures
      var s' := DoIssueStripTools(s, p).value;
      && s.next in s'.puts
      && s.procs[p].phase.groups * Covers(s.db.grants[g].tools) <= s'.puts[s.next].groups <= s.procs[p].phase.groups
  {
    HolderIs(s.db, g);
    var off := set id | id in Uncovered(s.db, s.procs[p].phase.undo.ids) :: McpTool(id);
    forall x | x in s.procs[p].phase.groups * Covers(s.db.grants[g].tools) ensures x !in off {}
  }

  /** Every removal of all the API's groups, a revocation's or a compensation's, is issued
      only while no active grant stands behind them, and a revocation's only by the job's
      current owner. */
  lemma RemovalsNeedNoGrant(s: State, p: nat)
    ensures DoIssueRemoveAll(s, p).Some? && DoIssueRemoveAll(s, p).value.puts != s.puts ==> NoActive(s.db)
    ensures DoIssueRevoke(s, p).Some? && DoIssueRevoke(s, p).value.puts != s.puts ==>
            NoActive(s.db) && OwnsRow(s.db, s.procs[p])
  {}

  /** What recovery writes: exactly what the active grant covers while the account is
      active, only what of that is already there while it is disabled, and nothing
      without a grant. */
  lemma RecoveryConverges(s: State, p: nat)
    requires Inv(s) && DoIssueRecovery(s, p).Some?
    ensures
      var s' := DoIssueRecovery(s, p).value;
      && s.next in s'.puts
      && var wrote := s'.puts[s.next].groups;
         && (NoActive(s.db) ==> wrote == {})
         && (forall g :: g in s.db.grants && s.db.grants[g].status == Active ==>
               var canonical := Covers(s.db.grants[g].tools);
               wrote == if s.db.accountActive then canonical else s.procs[p].phase.groups * canonical)
  {
    var canonical := if HeldGrant(s.db).Some? then Covers(HeldGrant(s.db).value.tools) else {};
    assert Reconciled(s.procs[p].phase.groups, HeldGrant(s.db), s.db.accountActive)
        == if s.db.accountActive then canonical else s.procs[p].phase.groups * canonical;
  }

  /** How recovery leaves an approved request: approved exactly when the grant it found is
      the request's own or covers its tools; pending exactly when it could still be
      granted and no other request waits; cancelled otherwise. It never leaves two
      requests waiting. */
  lemma RecoverySettles(db: Db, c: Claim, r: Id, live: Option<(Id, Grant)>)
    requires WellFormed(db) && Owns(db, c) && r in db.requests && db.requests[r].status == Approved
    ensures
      var q := db.requests[r];
      var out := SettleApproval(db, c, r, q, live);
      && out.Some? && WellFormed(out.value) && c.subject !in out.value.jobs && out.value.grants == db.grants
      && r in out.value.requests
      && var status := out.value.requests[r].status;
         var stands := live.Some? && if q.widens.None? then live.value.1.origin == Some(r)
                                     else Some(live.value.0) == q.widens && Includes(live.value.1.tools, AddedTools(q));
         var hopeless := if q.widens.None? then live.Some? && live.value.1.origin != Some(r)
                         else live.None? || Some(live.value.0) != q.widens;
         && (status == Approved <==> stands)
         && (status == Pending
             <==> !stands && !hopeless && forall x :: x in db.requests ==> db.requests[x].status != Pending)
         && (status == Cancelled <==> status != Approved && status != Pending)
  {
    SettleKeepsWellFormed(db, c, r, db.requests[r], live);
  }
}
