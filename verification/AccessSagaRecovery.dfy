/** What finishing an interrupted approval leaves behind, on the gateway and in the rows. */
module AccessSagaRecovery {
  import opened Wrappers
  import opened AccessRows
  import opened AccessSaga
  import opened AccessSagaInvariants
  import opened AccessSagaEffects
  import opened AccessSagaGateway
  import opened AccessSagaFencing
  import opened AccessSagaHistory
  import opened AccessSagaTools

  /* ── Which requests may still be granted ───────────────────────────────── */

  /** A request that a grant was made from owes no job, is never asked for again, and reads
      `approved` only while that grant is active; and no two grants were made from one. */
  ghost predicate Origins(db: Db) {
    && (forall g :: g in db.grants && db.grants[g].origin.Some? ==> Granted(db, g, db.grants[g].origin.value))
    && (forall g, h ::
          g in db.grants && h in db.grants && db.grants[g].origin.Some? && db.grants[g].origin == db.grants[h].origin
          ==> g == h)
  }

  ghost predicate Granted(db: Db, g: Id, r: Id)
    requires g in db.grants
  {
    && r in db.requests && OfRequest(r) !in db.jobs
    && (db.requests[r].status == Approved || db.requests[r].status == Withdrawn)
    && (db.requests[r].status == Approved ==> db.grants[g].status == Active)
  }

  /** While a process owns its job its request is as it knows it to be, and a revocation
      remembers the request its own grant was made from. */
  ghost predicate Stands(db: Db, proc: Proc) {
    match proc.work
    case Approve(r, _) => OwnsRow(db, proc) && !proc.phase.Closing? ==>
        r in db.requests && db.requests[r].status == Approved
    case Revoke(g, _, _, moved, _) => g in db.grants && (moved.Some? ==> db.grants[g].origin == Some(moved.value.0))
    case FinishApprove(r, seen, _) => OwnsRow(db, proc) && seen.Some? ==>
        r in db.requests && SameDecision(seen.value, db.requests[r])
    case _ => true
  }

  /** Whether two readings of a request agree on whether, and for what, it is approved. */
  predicate SameDecision(a: Request, b: Request) {
    && (a.status == Approved <==> b.status == Approved)
    && (a.status == Approved ==> a.approvedTools == b.approvedTools && a.widens == b.widens)
  }

  ghost predicate Standing(s: State) {
    Origins(s.db) && forall p :: p in s.procs ==> Stands(s.db, s.procs[p])
  }

  /* ── Rows that change around a process ─────────────────────────────────── */

  /** No decision changes under a job whose owner stays. */
  ghost predicate OwnedHold(s: State, db: Db) {
    && (forall j :: j in db.jobs ==> SameOwner(s, db, j))
    && (forall g :: g in s.db.grants ==> g in db.grants && db.grants[g].origin == s.db.grants[g].origin)
    && (forall r :: r in s.db.requests && OfRequest(r) in db.jobs && OfRequest(r) in s.db.jobs
                    && db.jobs[OfRequest(r)] == s.db.jobs[OfRequest(r)]
          ==> r in db.requests && SameDecision(s.db.requests[r], db.requests[r]))
  }

  lemma StandsStill(s: State, db: Db, a: Proc, b: Proc, p: nat)
    requires Counted(s) && Distinct(s) && OwnedHold(s, db) && p in s.procs && s.procs[p] == b
    requires ClaimOf(a) == ClaimOf(b) && SameApproval(a, b) && SameDuty(s.db, a, b) && Stands(s.db, b)
    ensures Stands(db, a)
  {
    if ClaimOf(a).Some? && OwnsRow(db, a) {
      assert SameOwner(s, db, ClaimOf(a).value.subject);
      assert OwnsRow(s.db, b);
    }
  }

  lemma StandingKept(s: State, step: Step, s': State)
    requires Counted(s) && Distinct(s) && Standing(s) && OwnedHold(s, s'.db) && Origins(s'.db)
    requires forall p :: p in s'.procs ==> Continues(s, step, s', p)
    ensures Standing(s')
  {
    forall p | p in s'.procs ensures Stands(s'.db, s'.procs[p]) {
      assert Continues(s, step, s', p);
      StandsStill(s, s'.db, s'.procs[p], s.procs[p], p);
    }
  }

  lemma SpawnStands(s: State, s': State)
    requires Counted(s) && Distinct(s) && Standing(s) && OwnedHold(s, s'.db) && Origins(s'.db)
    requires forall p :: p in s'.procs ==> (p in s.procs && s'.procs[p] == s.procs[p]) || Stands(s'.db, s'.procs[p])
    ensures Standing(s')
  {
    forall p | p in s'.procs ensures Stands(s'.db, s'.procs[p]) {
      if p in s.procs && s'.procs[p] == s.procs[p] {
        StandsStill(s, s'.db, s.procs[p], s.procs[p], p);
      }
    }
  }

  /* ── What starts work ──────────────────────────────────────────────────── */

  /** Only requests change, and none that a grant was made from or an owner decided. */
  lemma RequestsOnly(s: State, db: Db)
    requires Origins(s.db) && db == s.db.(requests := db.requests) && s.db.requests.Keys <= db.requests.Keys
    requires forall r :: r in s.db.requests && db.requests[r] != s.db.requests[r]
                         ==> s.db.requests[r].status == Pending && db.requests[r].status != Approved
    ensures Origins(db) && OwnedHold(s, db)
  {
    forall g | g in db.grants && db.grants[g].origin.Some? ensures Granted(db, g, db.grants[g].origin.value) {
      assert Granted(s.db, g, db.grants[g].origin.value);
    }
  }

  lemma RequestsStand(s: State, step: Step)
    requires Inv(s) && Standing(s) && Next(s, step).Some? && (step.StepFile? || step.StepFileTools? || step.StepClose?)
    ensures Standing(Next(s, step).value)
  {
    var s' := Next(s, step).value;
    if step.StepFile? { FileChanges(s.db, step.request, step.tools, step.actor, step.at); FileMoves(s.db, step.request,
      step.tools, step.actor, step.at); }
    RequestsOnly(s, s'.db);
    CountedAndDistinct(s);
    SpawnStands(s, s');
  }

  lemma FileMoves(db: Db, r: Id, tools: Subset, actor: Id, at: nat)
    requires FileRequest(db, r, tools, actor, at).Some?
    ensures
      var filed := FileRequest(db, r, tools, actor, at).value;
      forall q :: q in db.requests && filed.requests[q] != db.requests[q] ==> db.requests[q].status == Pending
  {}

  lemma ClaimHolds(s: State, r: Id, actor: Id, tools: Subset, at: nat, note: Option<string>)
    requires Counted(s) && Origins(s.db) && ClaimApproval(s.db, r, actor, tools, at, note, s.next).Some?
    ensures
      var db := ClaimApproval(s.db, r, actor, tools, at, note, s.next).value;
      Origins(db) && OwnedHold(s, db)
  {
    var db := ClaimApproval(s.db, r, actor, tools, at, note, s.next).value;
    forall g | g in db.grants && db.grants[g].origin.Some? ensures Granted(db, g, db.grants[g].origin.value) {
      assert Granted(s.db, g, db.grants[g].origin.value);
    }
  }

  lemma ApproveStands(s: State, r: Id, actor: Id, tools: Subset, at: nat, note: Option<string>)
    requires Inv(s) && Standing(s) && DoApprove(s, r, actor, tools, at, note).Some?
    ensures Standing(DoApprove(s, r, actor, tools, at, note).value)
  {
    CountedAndDistinct(s);
    ClaimHolds(s, r, actor, tools, at, note);
    SpawnStands(s, DoApprove(s, r, actor, tools, at, note).value);
  }

  lemma ApproveToolsStands(s: State, r: Id, actor: Id, added: seq<Id>, at: nat, note: Option<string>)
    requires Inv(s) && Standing(s) && DoApproveTools(s, r, actor, added, at, note).Some?
    ensures Standing(DoApproveTools(s, r, actor, added, at, note).value)
  {
    CountedAndDistinct(s);
    ClaimHolds(s, r, actor, Some(added), at, note);
    SpawnStands(s, DoApproveTools(s, r, actor, added, at, note).value);
  }

  /** A revocation takes its own request out of `approved` along with the grant. */
  lemma WithdrawStands(s: State, g: Id, actor: Id, at: nat, note: Option<string>)
    requires Origins(s.db) && WithdrawRows(s.db, g, actor, at, note).Some?
    ensures
      var rev := WithdrawRows(s.db, g, actor, at, note).value;
      && Origins(rev.db) && OwnedHold(s, rev.db)
      && (rev.moved.Some? ==> rev.db.grants[g].origin == Some(rev.moved.value.0))
  {
    var rev := WithdrawRows(s.db, g, actor, at, note).value;
    forall h | h in rev.db.grants && rev.db.grants[h].origin.Some?
      ensures Granted(rev.db, h, rev.db.grants[h].origin.value) {
      assert Granted(s.db, h, s.db.grants[h].origin.value);
    }
    assert rev.db.jobs == s.db.jobs;
  }

  /** A job for a grant concerns no request. */
  lemma GrantJobHolds(s: State, rows: Db, g: Id, generation: nat)
    requires Origins(rows) && OwnedHold(s, rows) && generation == s.next
    ensures
      var db := rows.(jobs := rows.jobs[OfGrant(g) := Job(generation, Sending)]);
      Origins(db) && OwnedHold(s, db)
  {
    var db := rows.(jobs := rows.jobs[OfGrant(g) := Job(generation, Sending)]);
    forall h | h in db.grants && db.grants[h].origin.Some? ensures Granted(db, h, db.grants[h].origin.value) {
      assert Granted(rows, h, rows.grants[h].origin.value);
    }
  }

  lemma RevokeStands(s: State, g: Id, actor: Id, at: nat, note: Option<string>)
    requires Inv(s) && Standing(s) && DoRevoke(s, g, actor, at, note).Some?
    ensures Standing(DoRevoke(s, g, actor, at, note).value)
  {
    CountedAndDistinct(s);
    assert Origins(s.db);
    hide Inv, Origins, OwnedHold;
    WithdrawStands(s, g, actor, at, note);
    var s', rows := DoRevoke(s, g, actor, at, note).value, WithdrawRows(s.db, g, actor, at, note).value.db;
    GrantJobHolds(s, rows, g, s.next);
    assert s'.db == rows.(jobs := rows.jobs[OfGrant(g) := Job(s.next, Sending)]);
    hide WithdrawRows;
    SpawnStands(s, s');
  }

  lemma SweepStands(s: State, g: Id, actor: Id, at: nat, note: Option<string>)
    requires Inv(s) && Standing(s) && DoSweep(s, g, actor, at, note).Some?
    ensures Standing(DoSweep(s, g, actor, at, note).value)
  {
    CountedAndDistinct(s);
    WithdrawStands(s, g, actor, at, note);
    SpawnStands(s, DoSweep(s, g, actor, at, note).value);
  }

  /** Jobs may be re-owned or go, and flags change. */
  lemma JobsOnly(s: State, db: Db)
    requires Origins(s.db) && db.requests == s.db.requests && db.grants == s.db.grants && db.jobs.Keys <= s.db.jobs.Keys
    requires forall j :: j in db.jobs ==> SameOwner(s, db, j)
    ensures Origins(db) && OwnedHold(s, db)
  {
    forall g | g in db.grants && db.grants[g].origin.Some? ensures Granted(db, g, db.grants[g].origin.value) {
      assert Granted(s.db, g, db.grants[g].origin.value);
    }
  }

  /** The other steps that start work change no request and no grant, and spawn no approval
      and no revocation. */
  lemma AccountShape(s: State, step: Step)
    requires StartsWork(step) && Next(s, step).Some?
    requires !(step.StepFile? || step.StepFileTools? || step.StepClose? || step.StepRevoke? || step.StepSweep?
               || step.StepApprove? || step.StepApproveTools?)
    ensures
      var s' := Next(s, step).value;
      && s'.db.requests == s.db.requests && s'.db.grants == s.db.grants && s'.db.jobs.Keys == s.db.jobs.Keys
      && (forall j :: j in s'.db.jobs ==> SameOwner(s, s'.db, j))
      && (forall p :: p in s'.procs && !(p in s.procs && s'.procs[p] == s.procs[p]) ==>
            var w := s'.procs[p].work;
            !w.Approve? && !w.Revoke? && (w.FinishApprove? ==> w.seen.None?))
  {}

  lemma AccountStands(s: State, step: Step)
    requires Inv(s) && Standing(s) && StartsWork(step) && Next(s, step).Some?
    requires !(step.StepFile? || step.StepFileTools? || step.StepClose? || step.StepRevoke? || step.StepSweep?
               || step.StepApprove? || step.StepApproveTools?)
    ensures Standing(Next(s, step).value)
  {
    CountedAndDistinct(s);
    AccountShape(s, step);
    hide Next, Inv, Origins, Stands, OwnedHold;
    var s' := Next(s, step).value;
    JobsOnly(s, s'.db);
    forall p | p in s'.procs ensures (p in s.procs && s'.procs[p] == s.procs[p]) || Stands(s'.db, s'.procs[p]) {
      if !(p in s.procs && s'.procs[p] == s.procs[p]) {
        FreshStands(s'.db, s'.procs[p]);
      }
    }
    SpawnStands(s, s');
  }

  lemma FreshStands(db: Db, proc: Proc)
    requires !proc.work.Approve? && !proc.work.Revoke? && (proc.work.FinishApprove? ==> proc.work.seen.None?)
    ensures Stands(db, proc)
  {}

  lemma StartStands(s: State, step: Step)
    requires Inv(s) && Standing(s) && StartsWork(step) && Next(s, step).Some?
    ensures Standing(Next(s, step).value)
  {
    hide Inv, Standing;
    match step {
      case StepApprove(r, actor, tools, at, note) => ApproveStands(s, r, actor, tools, at, note);
      case StepApproveTools(r, actor, added, at, note) => ApproveToolsStands(s, r, actor, added, at, note);
      case StepRevoke(g, actor, at, note) => RevokeStands(s, g, actor, at, note);
      case StepSweep(g, actor, at, note) => SweepStands(s, g, actor, at, note);
      case StepFile(_, _, _, _) => RequestsStand(s, step);
      case StepFileTools(_, _, _) => RequestsStand(s, step);
      case StepClose(_, _, _, _, _) => RequestsStand(s, step);
      case _ => AccountStands(s, step);
    }
  }

  /* ── What transacts ────────────────────────────────────────────────────── */

  lemma CommitOrigins(s: State, p: nat, g: Id)
    requires Inv(s) && Standing(s) && DoCommit(s, p, g).Some?
    ensures Origins(DoCommit(s, p, g).value.db) && OwnedHold(s, DoCommit(s, p, g).value.db)
  {
    var s' := DoCommit(s, p, g).value;
    assert Stands(s.db, s.procs[p]) && Origins(s.db);
    hide Inv, Standing;
    if s.procs[p].work.Approve? {
      CreatedOrigins(s.db, ClaimOf(s.procs[p]).value, s.procs[p].work.request, g, s.procs[p].work.tools);
      CreatedHold(s, ClaimOf(s.procs[p]).value, s.procs[p].work.request, g, s.procs[p].work.tools);
    } else {
      WidenedOrigins(s, ClaimOf(s.procs[p]).value, g, s.procs[p].work.current, s.procs[p].work.added);
    }
  }

  lemma WidenedOrigins(s: State, c: Claim, g: Id, current: seq<Id>, added: seq<Id>)
    requires Origins(s.db) && WidenGrant(s.db, c, g, current, added).Some?
    ensures Origins(WidenGrant(s.db, c, g, current, added).value)
            && OwnedHold(s, WidenGrant(s.db, c, g, current, added).value)
  {
    var after := WidenGrant(s.db, c, g, current, added).value;
    forall h | h in after.grants && after.grants[h].origin.Some?
      ensures Granted(after, h, after.grants[h].origin.value) {
      assert Granted(s.db, h, s.db.grants[h].origin.value);
    }
  }

  lemma CreatedHold(s: State, c: Claim, r: Id, g: Id, tools: Subset)
    requires CommitGrant(s.db, c, r, g, tools).Some?
    ensures OwnedHold(s, CommitGrant(s.db, c, r, g, tools).value)
  {}

  lemma CreatedOrigins(db: Db, c: Claim, r: Id, g: Id, tools: Subset)
    requires Origins(db) && CommitGrant(db, c, r, g, tools).Some? && c.subject == OfRequest(r)
    requires r in db.requests && db.requests[r].status == Approved
    ensures Origins(CommitGrant(db, c, r, g, tools).value)
  {
    var after := CommitGrant(db, c, r, g, tools).value;
    forall h | h in after.grants && after.grants[h].origin.Some?
      ensures Granted(after, h, after.grants[h].origin.value) {
      if h in db.grants {
        assert Granted(db, h, db.grants[h].origin.value);
      }
    }
  }

  lemma ClosedRows(s: State, p: nat)
    requires DoCloseJob(s, p).Some?
    ensures
      var db := DoCloseJob(s, p).value.db;
      && db.requests == s.db.requests && db.grants == s.db.grants && db.jobs.Keys <= s.db.jobs.Keys
      && forall j :: j in db.jobs ==> SameOwner(s, db, j)
  {}

  lemma CloseOrigins(s: State, p: nat)
    requires Origins(s.db) && DoCloseJob(s, p).Some?
    ensures Origins(DoCloseJob(s, p).value.db) && OwnedHold(s, DoCloseJob(s, p).value.db)
  {
    ClosedRows(s, p);
    hide DoCloseJob, Origins, OwnedHold, SameOwner;
    JobsOnly(s, DoCloseJob(s, p).value.db);
  }

  /** A rollback puts back the grant together with the request it was made from. */
  lemma RestoreOrigins(s: State, g: Id, who: Id, at: nat, moved: Option<(Id, Request)>,
      cancelled: Option<(Id, Request)>, present: bool)
    requires Origins(s.db) && Restore(s.db, g, who, at, moved, cancelled, present).Some?
    requires moved.Some? ==>
               moved.value.1.status == Approved && g in s.db.grants && s.db.grants[g].origin == Some(moved.value.0)
    ensures
      var db := Restore(s.db, g, who, at, moved, cancelled, present).value.db;
      Origins(db) && OwnedHold(s, db)
  {
    var db := Restore(s.db, g, who, at, moved, cancelled, present).value.db;
    RestoreMoves(s.db, g, who, at, moved, cancelled, present);
    hide Restore;
    forall h | h in db.grants && db.grants[h].origin.Some? ensures Granted(db, h, db.grants[h].origin.value) {
      assert Granted(s.db, h, s.db.grants[h].origin.value);
    }
    if moved.Some? { assert Granted(s.db, g, moved.value.0); }
  }

  lemma RestoreMoves(db: Db, g: Id, who: Id, at: nat, moved: Option<(Id, Request)>, cancelled: Option<(Id, Request)>,
      present: bool)
    requires Restore(db, g, who, at, moved, cancelled, present).Some?
    ensures
      var out := Restore(db, g, who, at, moved, cancelled, present).value.db;
      && out.requests.Keys == db.requests.Keys && out.grants.Keys == db.grants.Keys
      && (forall j :: j in out.jobs ==> j in db.jobs && out.jobs[j] == db.jobs[j])
      && (forall h :: h in db.grants ==>
          out.grants[h].origin == db.grants[h].origin
          && (out.grants[h] == db.grants[h] || (h == g && out.grants[h].status == Active)))
      && (out.requests != db.requests ==> g in out.grants && out.grants[g].status == Active)
      && (forall r :: r in db.requests && out.requests[r] != db.requests[r] ==>
            || (moved.Some? && r == moved.value.0 && out.requests[r].status == moved.value.1.status
                && db.requests[r].status == Withdrawn)
            || (db.requests[r].status == Cancelled && out.requests[r].status == Pending)
            || (moved.Some? && r == moved.value.0 && moved.value.1.status == Cancelled
                && db.requests[r].status == Withdrawn))
  {}

  lemma RestoreStands(s: State, p: nat, acknowledged: bool)
    requires Inv(s) && Standing(s) && DoRestore(s, p, acknowledged).Some?
    ensures Origins(DoRestore(s, p, acknowledged).value.db) && OwnedHold(s, DoRestore(s, p, acknowledged).value.db)
  {
    var w := s.procs[p].work;
    assert Stands(s.db, s.procs[p]) && Recalls(s.db, w);
    if s.key == Some(p) && Restore(s.db, w.grant, w.who, w.at, w.moved, w.cancelled, s.procs[p].phase.present).Some? {
      RestoreOrigins(s, w.grant, w.who, w.at, w.moved, w.cancelled, s.procs[p].phase.present);
    } else {
      JobsOnly(s, s.db);
    }
  }

  lemma FinishOrigins(s: State, p: nat)
    requires Origins(s.db) && DoFinish(s, p).Some?
    ensures Origins(DoFinish(s, p).value.db) && OwnedHold(s, DoFinish(s, p).value.db)
  {
    var db, w := DoFinish(s, p).value.db, s.procs[p].work;
    if w.FinishApprove? && SettleApproval(s.db, ClaimOf(s.procs[p]).value, w.request, w.seen.value, w.live).Some? {
      SettleApprovalKeepsAsked(s.db, ClaimOf(s.procs[p]).value, w.request, w.seen.value, w.live);
      SettleApprovalRows(s.db, ClaimOf(s.procs[p]).value, w.request, w.seen.value, w.live);
      forall h | h in db.grants && db.grants[h].origin.Some? ensures Granted(db, h, db.grants[h].origin.value) {
        assert Granted(s.db, h, s.db.grants[h].origin.value);
      }
    } else {
      JobsOnly(s, db);
    }
  }

  lemma SettleApprovalRows(db: Db, c: Claim, r: Id, q: Request, live: Option<(Id, Grant)>)
    requires SettleApproval(db, c, r, q, live).Some?
    ensures
      var out := SettleApproval(db, c, r, q, live).value;
      Owns(db, c) && out == db.(requests := out.requests, jobs := db.jobs - {c.subject})
  {}

  lemma SettleOrigins(s: State, p: nat, stored: bool)
    requires Origins(s.db) && DoSettle(s, p, stored).Some?
    ensures Origins(DoSettle(s, p, stored).value.db)
  {
    var s' := DoSettle(s, p, stored).value;
    forall g | g in s'.db.grants && s'.db.grants[g].origin.Some?
      ensures Granted(s'.db, g, s'.db.grants[g].origin.value) {
      assert Granted(s.db, g, s.db.grants[g].origin.value);
    }
  }

  /** A compensation settles its own request, closes with it, and no other process owns its job. */
  lemma SettleStands(s: State, p: nat, stored: bool)
    requires Inv(s) && Standing(s) && DoSettle(s, p, stored).Some?
    ensures Standing(DoSettle(s, p, stored).value)
  {
    CountedAndDistinct(s);
    SettleOrigins(s, p, stored);
    hide Inv, Origins, Counted, DoSettle;
    var s' := DoSettle(s, p, stored).value;
    forall x | x in s'.procs ensures Stands(s'.db, s'.procs[x]) {
      SettleStandsOne(s, p, stored, x);
    }
  }

  lemma SettleStandsOne(s: State, p: nat, stored: bool, x: nat)
    requires Distinct(s) && DoSettle(s, p, stored).Some? && x in DoSettle(s, p, stored).value.procs
    requires x in s.procs ==> Stands(s.db, s.procs[x])
    ensures Stands(DoSettle(s, p, stored).value.db, DoSettle(s, p, stored).value.procs[x])
  {
    var s' := DoSettle(s, p, stored).value;
    if x != p && ClaimOf(s.procs[x]).Some? && ClaimOf(s.procs[p]).Some? {
      assert OwnsRow(s.db, s.procs[x]) && OwnsRow(s.db, s.procs[p])
             ==> ClaimOf(s.procs[x]).value.subject != ClaimOf(s.procs[p]).value.subject;
    }
  }

  lemma TransactionStands(s: State, step: Step)
    requires Inv(s) && Standing(s) && Transacts(step) && !step.StepSettle? && NextAfter(s, step).Some?
    ensures Origins(NextAfter(s, step).value.db) && OwnedHold(s, NextAfter(s, step).value.db)
  {
    assert Origins(s.db) by { StandingHas(s); }
    hide Inv, Standing, Origins, OwnedHold, DoCommit, DoCloseJob, DoRestore, DoFinish;
    match step {
      case StepCommit(p, g) => CommitOrigins(s, p, g);
      case StepCloseJob(p) => CloseOrigins(s, p);
      case StepRestore(p, acknowledged) => RestoreStands(s, p, acknowledged);
      case StepFinish(p) => FinishOrigins(s, p);
    }
  }

  lemma TransactionIs(s: State, step: Step)
    requires Transacts(step)
    ensures Next(s, step) == NextAfter(s, step)
  {
    hide NextStart, NextRead, NextIssue, NextAfter;
  }

  lemma StepStands(s: State, step: Step)
    requires Inv(s) && Standing(s) && Next(s, step).Some?
    ensures Standing(Next(s, step).value)
  {
    hide Inv, Standing, Origins, OwnedHold;
    if StartsWork(step) {
      StartStands(s, step);
    } else if step.StepSettle? {
      SettleStands(s, step.p, step.stored);
    } else {
      hide Next;
      CountedAndDistinct(s);
      StepActs(s, step);
      if Transacts(step) {
        TransactionIs(s, step);
        TransactionStands(s, step);
      } else {
        assert Origins(s.db) by { StandingHas(s); }
        JobsOnly(s, s.db);
      }
      StandingKept(s, step, Next(s, step).value);
    }
  }

  lemma StandingHas(s: State)
    requires Standing(s)
    ensures Origins(s.db)
  {}

  lemma StartHolds()
    ensures Standing(Start)
  {}

  lemma {:induction false} AlwaysStands(states: seq<State>, steps: seq<Step>, i: nat)
    requires Run(states, steps) && i < |states|
    ensures Standing(states[i])
  {
    hide Run, Next, Inv, Standing, Counted, Tracked;
    RunShape(states, steps);
    if i == 0 {
      StartHolds();
    } else {
      AlwaysStands(states, steps, i - 1);
      Always(states, steps, i - 1);
      RunStep(states, steps, i - 1);
      StepStands(states[i - 1], steps[i - 1]);
    }
  }

  /* ── The gateway when an approval's recovery ends ──────────────────────── */

  /** `wrote` is what recovery makes of `groups` when it reads the rows `db`: what the active
      grant covers while the account is active, what of that is there while it is disabled,
      and nothing without a grant. */
  ghost predicate Converged(groups: set<Group>, db: Db, wrote: set<Group>) {
    && (NoActive(db) ==> wrote == {})
    && (forall g :: g in db.grants && db.grants[g].status == Active ==>
          wrote == if db.accountActive then Covers(db.grants[g].tools) else groups * Covers(db.grants[g].tools))
  }

  /** The process is about to end the recovery of an approval whose job it owns. */
  predicate EndsApproval(s: State, p: nat) {
    p in s.procs && s.procs[p].work.FinishApprove? && OwnsRow(s.db, s.procs[p])
  }

  lemma OnlyRecoveryIssues(s: State, step: Step, s': State)
    requires Issues(step) && Next(s, step) == Some(s') && step.p in s'.procs && s'.procs[step.p].work.FinishApprove?
    ensures step == StepIssueRecovery(step.p)
  {}

  lemma IssueRecoveryIs(s: State, p: nat)
    ensures Next(s, StepIssueRecovery(p)) == DoIssueRecovery(s, p)
  {
    hide DoIssueRecovery;
  }

  lemma RecoveryIssues(s: State, p: nat, s': State)
    requires Inv(s) && DoIssueRecovery(s, p) == Some(s')
    ensures p in s'.procs && s'.procs[p].work.FinishApprove? && s'.procs[p].work.live == HeldBy(s.db)
    ensures s.next in s'.puts && Converged(s.procs[p].phase.groups, s.db, s'.puts[s.next].groups)
  {
    RecoveryConverges(s, p);
  }

  /** The step that issued recovery's write, and what it wrote. */
  lemma RecoveryIssuedAt(states: seq<State>, steps: seq<Step>, i: nat, p: nat, q: nat)
    requires Run(states, steps) && IssuedAt(states, steps, i, p, q) && p in states[i + 1].procs
             && states[i + 1].procs[p].work.FinishApprove?
    ensures steps[i] == StepIssueRecovery(p) && states[i + 1].procs[p].work.live == HeldBy(states[i].db)
    ensures p in states[i].procs && states[i].procs[p].phase.HasRead?
    ensures q in states[i + 1].puts
            && Converged(states[i].procs[p].phase.groups, states[i].db, states[i + 1].puts[q].groups)
  {
    hide Run;
    RunShape(states, steps);
    Always(states, steps, i);
    RunStep(states, steps, i);
    OnlyRecoveryIssues(states[i], steps[i], states[i + 1]);
    IssueRecoveryIs(states[i], p);
    hide Next, Inv, Counted, Tracked, Converged, DoIssueRecovery;
    RecoveryIssues(states[i], p, states[i + 1]);
  }

  /** A write that takes effect leaves its own groups. */
  lemma EffectIs(s: State, step: Step, s': State, q: nat)
    requires Next(s, step) == Some(s') && TakesEffect(s, step, q)
    ensures s'.groups == s.puts[q].groups && s'.tag == s.tag + 1
  {}

  /** A write that takes effect was made of the groups it replaces. */
  lemma ReadIsCurrent(states: seq<State>, steps: seq<Step>, i: nat, k: nat, p: nat, q: nat)
    requires Run(states, steps) && i < k < |steps| && IssuedAt(states, steps, i, p, q)
    requires TakesEffect(states[k], steps[k], q) && states[k].puts[q] == states[i + 1].puts[q]
    ensures states[i].procs[p].phase.HasRead? && states[k].groups == states[i].groups == states[i].procs[p].phase.groups
    ensures states[k].tag == states[i].tag
  {
    hide Run;
    RunShape(states, steps);
    RunIsLater(states, steps, i, k);
    Always(states, steps, i);
    AlwaysSeen(states, steps, i);
    assert Sees(states[i], p) && TracksWrite(states[i], p);
    SameTagSameGroups(states, steps, i, k);
  }

  /** When an approval's recovery ends, its write has taken effect once, on what the rows
      said at that write; and the groups are still those unless another write took effect
      since. */
  lemma RecoveryLeavesGroups(states: seq<State>, steps: seq<Step>, j: nat) returns (i: nat, k: nat)
    requires Run(states, steps) && j < |steps| && steps[j].StepFinish? && EndsApproval(states[j], steps[j].p)
    ensures i < k < j && steps[i] == StepIssueRecovery(steps[j].p) && steps[k].StepLand?
    ensures states[j].procs[steps[j].p].work.live == HeldBy(states[i].db)
    ensures Converged(states[k].groups, states[i].db, states[k + 1].groups)
    ensures states[j].groups == states[k + 1].groups || LandsBetween(states, steps, k + 1, j)
  {
    hide Run;
    RunShape(states, steps);
    var p := steps[j].p;
    FinishIsWritten(states, steps, j);
    var q: nat;
    i, k, q := WriteHistory(states, steps, j, p);
    RecoveryIssuedAt(states, steps, i, p, q);
    ReadIsCurrent(states, steps, i, k, p, q);
    RunStep(states, steps, k);
    GroupsUntilLanding(states, steps, k + 1, j);
    hide Next, Emits, Counted, Tracked, Converged, LandsBetween;
    EffectIs(states[k], steps[k], states[k + 1], q);
  }

  lemma FinishIsWritten(states: seq<State>, steps: seq<Step>, j: nat)
    requires Run(states, steps) && j < |steps| && steps[j].StepFinish?
    ensures steps[j].p in states[j].procs && states[j].procs[steps[j].p].phase.Written?
    ensures Next(states[j], steps[j]) == Some(states[j + 1]) && DoFinish(states[j], steps[j].p) == Some(states[j + 1])
  {
    hide Run;
    RunShape(states, steps);
    RunStep(states, steps, j);
  }

  /* ── The rows when an approval's recovery ends ─────────────────────────── */

  lemma SameVerdict(db: Db, c: Claim, r: Id, seen: Request, live: Option<(Id, Grant)>)
    requires Owns(db, c) && r in db.requests && SameDecision(seen, db.requests[r])
    ensures SettleApproval(db, c, r, seen, live) == SettleApproval(db, c, r, db.requests[r], live)
  {}

  /** Whether an approved request is kept: it asks for more tools, and when recovery read
      the rows the grant it widens was active and covered them. */
  predicate IsCovered(db: Db, q: Request) {
    q.widens.Some? && IsActive(db, q.widens.value) && Includes(db.grants[q.widens.value].tools, AddedTools(q))
  }

  /** Whether it could still be granted then. */
  ghost predicate IsOpen(db: Db, q: Request) {
    if q.widens.None? then NoActive(db) else IsActive(db, q.widens.value)
  }

  /** How the end of a recovery leaves the rows, when it read `readDb`. */
  ghost predicate Settled(before: Db, after: Db, r: Id, readDb: Db) {
    && r in before.requests && r in after.requests && OfRequest(r) !in after.jobs && after.grants == before.grants
    && (forall x :: x in before.requests && x != r ==> x in after.requests && after.requests[x] == before.requests[x])
    && (before.requests[r].status != Approved ==> after.requests[r] == before.requests[r])
    && (before.requests[r].status == Approved ==>
          && var q, status := before.requests[r], after.requests[r].status;
             && (status == Approved <==> IsCovered(readDb, q))
             && (status == Pending <==> !IsCovered(readDb, q) && IsOpen(readDb, q)
                                        && forall x :: x in before.requests ==> before.requests[x].status != Pending)
             && (status == Cancelled <==> status != Approved && status != Pending))
  }

  lemma NotGranted(db: Db, r: Id)
    requires Origins(db) && OfRequest(r) in db.jobs
    ensures forall g :: g in db.grants ==> db.grants[g].origin != Some(r)
  {}

  lemma FinishIs(s: State, p: nat)
    requires DoFinish(s, p).Some? && EndsApproval(s, p)
    ensures
      var w, c := s.procs[p].work, ClaimOf(s.procs[p]).value;
      && w.seen.Some? && c.subject == OfRequest(w.request)
      && SettleApproval(s.db, c, w.request, w.seen.value, w.live) == Some(DoFinish(s, p).value.db)
  {}

  lemma FinishSettles(s: State, p: nat, readDb: Db)
    requires Inv(s) && Standing(s) && DoFinish(s, p).Some? && EndsApproval(s, p)
    requires WellFormed(readDb) && s.procs[p].work.live == HeldBy(readDb)
    ensures Settled(s.db, DoFinish(s, p).value.db, s.procs[p].work.request, readDb)
  {
    var w, c := s.procs[p].work, ClaimOf(s.procs[p]).value;
    assert Stands(s.db, s.procs[p]) && Recalls(s.db, w);
    assert WellFormed(s.db) && Origins(s.db);
    FinishIs(s, p);
    NotGranted(s.db, w.request);
    hide Inv, Standing, Origins, DoFinish;
    SettlesLike(s.db, c, w.request, w.seen.value, w.live, readDb);
  }

  lemma SettlesLike(db: Db, c: Claim, r: Id, seen: Request, live: Option<(Id, Grant)>, readDb: Db)
    requires WellFormed(db) && WellFormed(readDb) && live == HeldBy(readDb)
    requires Owns(db, c) && c.subject == OfRequest(r) && r in db.requests && SameDecision(seen, db.requests[r])
    requires live.Some? ==> live.value.0 in db.grants && db.grants[live.value.0].origin == live.value.1.origin
    requires forall g :: g in db.grants ==> db.grants[g].origin != Some(r)
    ensures SettleApproval(db, c, r, seen, live).Some?
            && Settled(db, SettleApproval(db, c, r, seen, live).value, r, readDb)
  {
    SameVerdict(db, c, r, seen, live);
    SettleApprovalKeepsAsked(db, c, r, seen, live);
    SettleApprovalRows(db, c, r, seen, live);
    var q := db.requests[r];
    if q.status == Approved {
      RecoverySettles(db, c, r, live);
      hide SettleApproval;
      if q.widens.Some? && IsActive(readDb, q.widens.value) {
        HolderIs(readDb, q.widens.value);
      }
    }
  }

  lemma StartEndsByClaim(s: State, step: Step, g: Id)
    requires StartsWork(step) && Next(s, step).Some? && IsActive(s.db, g) && !IsActive(Next(s, step).value.db, g)
    ensures (step.StepRevoke? || step.StepSweep?) && step.grant == g
  {}

  lemma TransactionEndsNone(s: State, step: Step, g: Id)
    requires (step.StepCommit? || step.StepRestore?) && Next(s, step).Some? && IsActive(s.db, g)
    ensures IsActive(Next(s, step).value.db, g)
  {
    if step.StepRestore? {
      var w := s.procs[step.p].work;
      if s.key == Some(step.p)
        && Restore(s.db, w.grant, w.who, w.at, w.moved, w.cancelled, s.procs[step.p].phase.present).Some? {
        RestoreMoves(s.db, w.grant, w.who, w.at, w.moved, w.cancelled, s.procs[step.p].phase.present);
        hide Restore;
      }
    }
  }

  /** Only a revocation or a sweep of a grant ends it. */
  lemma EndsOnlyByClaim(s: State, step: Step, s': State, g: Id)
    requires Next(s, step) == Some(s') && IsActive(s.db, g) && !IsActive(s'.db, g)
    ensures (step.StepRevoke? || step.StepSweep?) && step.grant == g
  {
    hide Next;
    if StartsWork(step) {
      StartEndsByClaim(s, step, g);
    } else if step.StepRestore? || step.StepCommit? {
      TransactionEndsNone(s, step, g);
    } else {
      StepActs(s, step);
    }
  }

  /** Whether a revocation or a sweep has claimed `g` since `i`. */
  ghost predicate ClaimedSince(steps: seq<Step>, i: nat, j: nat, g: Id)
    requires j <= |steps|
  {
    exists m :: i <= m < j && (steps[m].StepRevoke? || steps[m].StepSweep?) && steps[m].grant == g
  }

  lemma {:induction false} ActiveUntilClaimed(states: seq<State>, steps: seq<Step>, i: nat, j: nat, g: Id)
    requires Run(states, steps) && i <= j < |states| && IsActive(states[i].db, g)
    ensures IsActive(states[j].db, g) || ClaimedSince(steps, i, j, g)
  {
    hide Run;
    RunShape(states, steps);
    if i < j {
      ActiveUntilClaimed(states, steps, i, j - 1, g);
      RunStep(states, steps, j - 1);
      hide Next, Counted, Tracked;
      if IsActive(states[j - 1].db, g) && !IsActive(states[j].db, g) {
        EndsOnlyByClaim(states[j - 1], steps[j - 1], states[j], g);
      }
    }
  }

  /** How an interrupted approval ends, in every run: the request stays approved if and only
      if it widens a grant that was active and covered its tools when recovery wrote, it goes
      back to `pending` if and only if it could still be granted and no request waits, and it
      is cancelled otherwise. A grant it is kept for still covers its tools at the end, and is
      still active unless it was claimed since. A request for access itself is never kept. */
  lemma RecoveryFinishes(states: seq<State>, steps: seq<Step>, j: nat) returns (i: nat)
    requires Run(states, steps) && j < |steps| && steps[j].StepFinish? && EndsApproval(states[j], steps[j].p)
    ensures i < j && steps[i] == StepIssueRecovery(steps[j].p)
    ensures Settled(states[j].db, states[j + 1].db, states[j].procs[steps[j].p].work.request, states[i].db)
    ensures WellFormed(states[j + 1].db)
    ensures
      var q := states[j].db.requests[states[j].procs[steps[j].p].work.request];
      q.status == Approved && IsCovered(states[i].db, q) ==>
        && q.widens.value in states[j].db.grants
        && Includes(states[j].db.grants[q.widens.value].tools, AddedTools(q))
        && (IsActive(states[j].db, q.widens.value) || ClaimedSince(steps, i, j, q.widens.value))
  {
    hide Run;
    RunShape(states, steps);
    var k: nat;
    i, k := RecoveryLeavesGroups(states, steps, j);
    FinishIsWritten(states, steps, j);
    RunFinishSettles(states, steps, i, j);
    var q := states[j].db.requests[states[j].procs[steps[j].p].work.request];
    if q.status == Approved && IsCovered(states[i].db, q) {
      KeptStillCovers(states, steps, i, j, q);
    }
  }

  lemma RunFinishSettles(states: seq<State>, steps: seq<Step>, i: nat, j: nat)
    requires Run(states, steps) && i < j < |steps| && steps[j].StepFinish? && EndsApproval(states[j], steps[j].p)
    requires states[j].procs[steps[j].p].work.live == HeldBy(states[i].db)
    ensures Settled(states[j].db, states[j + 1].db, states[j].procs[steps[j].p].work.request, states[i].db)
    ensures WellFormed(states[j + 1].db)
  {
    hide Run, Next, Inv, Standing, WellFormed, Settled;
    RunShape(states, steps);
    Always(states, steps, i);
    Always(states, steps, j);
    Always(states, steps, j + 1);
    InvIsWellFormed(states[i]);
    InvIsWellFormed(states[j + 1]);
    AlwaysStands(states, steps, j);
    FinishIsWritten(states, steps, j);
    FinishSettles(states[j], steps[j].p, states[i].db);
  }

  lemma InvIsWellFormed(s: State)
    requires Inv(s)
    ensures WellFormed(s.db)
  {}

  lemma KeptStillCovers(states: seq<State>, steps: seq<Step>, i: nat, j: nat, q: Request)
    requires Run(states, steps) && i < j < |steps| && IsCovered(states[i].db, q)
    ensures q.widens.value in states[j].db.grants && Includes(states[j].db.grants[q.widens.value].tools, AddedTools(q))
    ensures IsActive(states[j].db, q.widens.value) || ClaimedSince(steps, i, j, q.widens.value)
  {
    hide Run;
    RunShape(states, steps);
    ToolsOnlyGrow(states, steps, i, j, q.widens.value);
    GrewIncludes(states[i].db.grants[q.widens.value].tools, states[j].db.grants[q.widens.value].tools, AddedTools(q));
    ActiveUntilClaimed(states, steps, i, j, q.widens.value);
  }

  lemma GrewIncludes(before: Subset, after: Subset, ids: seq<Id>)
    requires Grew(before, after) && Includes(before, ids)
    ensures Includes(after, ids)
  {
    if before.Some? {
      forall id | id in ids ensures id in after.value {
        assert id in before.value;
      }
    }
  }
}
