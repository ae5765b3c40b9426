/** What every step of the access workflow keeps. */
module AccessSagaInvariants {
  import opened Wrappers
  import opened AccessRows
  import opened AccessSaga

  /* ── The invariant ─────────────────────────────────────────────────────── */

  /** Ids, generations and tags in use are below the counters that supply new ones. */
  ghost predicate Counted(s: State) {
    && (forall p :: p in s.procs ==> p < s.next && s.procs[p].generation < s.next)
    && (forall q :: q in s.puts ==> q < s.next && s.puts[q].tag <= s.tag)
    && (forall q :: q in s.puts && s.puts[q].settles.Some? ==> s.puts[q].settles.value.generation < s.next)
    && (forall j :: j in s.db.jobs ==> s.db.jobs[j].generation < s.next)
    && (s.teardown.Some? ==> s.teardown.value < s.next)
  }

  /** A process holds a claim only of the generation it was spawned under. */
  ghost predicate Distinct(s: State) {
    forall p :: p in s.procs && ClaimOf(s.procs[p]).Some? ==> s.procs[p].generation == p
  }

  /** Whether the landing of the write `p` has in flight ends what its job stood for. */
  predicate Settles(p: Proc)
    requires p.phase.Issued?
  {
    p.phase.undo.RemoveAll? || p.work.Revoke? || p.work.FinishRevoke? || (p.work.FinishApprove? && p.work.live.None?)
  }

  /** Which writes a kind of work can be making. */
  predicate Shaped(p: Proc) {
    && (p.phase.Ready? || p.phase.Entered? || p.phase.HasRead? || p.phase.Issued? ==>
          (p.phase.undo.RemoveAll? ==> IsAdd(p.work))
          && (p.phase.undo.StripTools? || p.phase.undo.Reconcile? ==> p.work.Widen?))
    && (p.phase.Settling? ==> IsAdd(p.work))
    && (p.phase.Failed? ==> IsAdd(p.work) || p.work.Revoke?)
    && (p.phase.Judging? ==> p.work.Revoke?)
    && (p.phase.Written? ==> !p.work.Revoke? && !p.work.Rebuild? && !p.work.Sweep?)
    && (p.phase.Closing? ==> ClaimOf(p).Some?)
    && (p.phase == Closing(true) ==> !p.work.FinishApprove?)
  }

  /** What `p` remembers of the consumer and of its write in flight is so. */
  ghost predicate TracksWrite(s: State, p: nat)
    requires p in s.procs
  {
    var proc := s.procs[p];
    && Shaped(proc)
    && (proc.phase.HasRead? ==> proc.phase.tag <= s.tag)
    && (proc.phase.Issued? ==> proc.phase.put < s.next && proc.phase.base <= s.tag)
    && (proc.phase.Issued? && proc.phase.put in s.puts ==>
          var put := s.puts[proc.phase.put];
          && put.owner == p
          && !proc.phase.landed
          && put.tag == proc.phase.base
          && put.groups == proc.phase.wrote
          && put.settles == (if Settles(proc) then ClaimOf(proc) else None)
          && (put.settles.Some? ==> put.groups == {}))
  }

  ghost predicate Tracked(s: State) {
    forall p :: p in s.procs ==> TracksWrite(s, p)
  }

  /** Whether a process is past the point where its job stood for anything. */
  predicate Clear(p: Proc) {
    match p.phase
    case Ready(undo) => undo.StripTools? || undo.Reconcile?
    case Entered(undo) => undo.StripTools? || undo.Reconcile?
    case HasRead(undo, _, _) => undo.StripTools? || undo.Reconcile?
    case Issued(undo, _, _, _, landed) =>
      undo.StripTools? || undo.Reconcile? || (p.work.FinishApprove? && p.work.live.Some?) || (Settles(p) && landed)
    case Written(_, _) => !IsAdd(p.work)
    case Failed(_) => false
    case Judging(_) => false
    case Settling(ok) => ok
    case Closing(done) => done
  }

  ghost predicate Cleared(s: State) {
    forall p :: p in s.procs && Clear(s.procs[p]) && OwnsRow(s.db, s.procs[p])
                ==> ClaimOf(s.procs[p]).value.subject !in s.armed
  }

  ghost predicate ArmedOwed(s: State) {
    && s.armed <= s.db.jobs.Keys
    && (s.teardownArmed ==> s.teardown.Some?)
  }

  /** What a process remembers about requests and grants is still so. */
  ghost predicate Recalls(db: Db, w: Work) {
    match w
    case Approve(r, _) => r in db.requests && db.requests[r].widens.None?
    case Widen(r, g, _, _, _, _) => r in db.requests && db.requests[r].widens == Some(g)
    case Revoke(_, _, _, moved, _) => moved.Some? ==> moved.value.1.status == Approved && EverGranted(db, moved.value.0)
    case FinishApprove(r, seen, live) =>
      && (live.Some? ==> live.value.0 in db.grants && db.grants[live.value.0].origin == live.value.1.origin)
      && (seen.Some? ==> r in db.requests && db.requests[r].widens == seen.value.widens)
    case _ => true
  }

  ghost predicate Remembered(s: State) {
    forall p :: p in s.procs ==> Recalls(s.db, s.procs[p].work)
  }

  /** Every approved request that no grant was made from still has its job, and the
      processes about to drop a job know that it is not such a request's. */
  ghost predicate JobsKept(s: State) {
    && (forall r :: NeedsJob(s.db, r) ==> OfRequest(r) in s.db.jobs)
    && (forall p :: p in s.procs && OwnsRow(s.db, s.procs[p]) && Answered(s.procs[p])
          ==> !NeedsJob(s.db, s.procs[p].work.request))
  }

  /** Whether a process knows that its request is not owed a grant. */
  predicate Answered(p: Proc) {
    || (p.work.Approve? && p.phase == Closing(true))
    || (p.work.FinishApprove? && p.work.seen.Some? && p.work.seen.value.status != Approved)
  }

  /** The identity's API groups are on the gateway, or a write in flight would put them there. */
  ghost predicate Exposed(s: State) {
    s.groups != {} || exists q :: q in s.puts && s.puts[q].tag == s.tag && s.puts[q].groups != {}
  }

  /** Some job, or the account's teardown, still stands for the access the gateway may carry. */
  ghost predicate Covered(s: State) {
    Exposed(s) && NoActive(s.db) ==> s.armed != {} || s.teardownArmed
  }

  ghost predicate Inv(s: State) {
    && WellFormed(s.db)
    && Counted(s)
    && Distinct(s)
    && Tracked(s)
    && Cleared(s)
    && ArmedOwed(s)
    && Remembered(s)
    && JobsKept(s)
  }

  /* ── Changes of one process, of the rows, of the writes in flight ──────── */

  /** `p` moves on without touching rows or writes; its job may stop standing for anything. */
  function Moved(s: State, p: nat, proc: Proc, key: Option<nat>, disarm: bool): State
    requires p in s.procs
  {
    (if disarm then Disarm(s, p) else s).(procs := s.procs[p := proc], key := key)
  }

  ghost predicate MayMove(s: State, p: nat, proc: Proc, disarm: bool) {
    && p in s.procs
    && proc.generation == s.procs[p].generation && ClaimOf(proc) == ClaimOf(s.procs[p])
    && Shaped(proc) && !proc.phase.Issued?
    && (proc.phase.HasRead? ==> proc.phase.tag <= s.tag)
    && Recalls(s.db, proc.work)
    && (Clear(proc) && OwnsRow(s.db, proc) ==> disarm || ClaimOf(proc).value.subject !in s.armed)
    && (OwnsRow(s.db, proc) && Answered(proc) ==> !NeedsJob(s.db, proc.work.request))
  }

  lemma MoveCounts(s: State, p: nat, proc: Proc, key: Option<nat>, disarm: bool)
    requires Counted(s) && Distinct(s) && MayMove(s, p, proc, disarm)
    ensures Counted(Moved(s, p, proc, key, disarm)) && Distinct(Moved(s, p, proc, key, disarm))
  {}

  lemma MoveTracks(s: State, p: nat, proc: Proc, key: Option<nat>, disarm: bool)
    requires Tracked(s) && MayMove(s, p, proc, disarm)
    ensures Tracked(Moved(s, p, proc, key, disarm))
  {}

  lemma MoveClears(s: State, p: nat, proc: Proc, key: Option<nat>, disarm: bool)
    requires Cleared(s) && ArmedOwed(s) && MayMove(s, p, proc, disarm)
    ensures Cleared(Moved(s, p, proc, key, disarm)) && ArmedOwed(Moved(s, p, proc, key, disarm))
  {
    var s' := Moved(s, p, proc, key, disarm);
    assert s'.armed <= s.armed && s'.db == s.db;
  }

  lemma MoveKeeps(s: State, p: nat, proc: Proc, key: Option<nat>, disarm: bool)
    requires Inv(s) && MayMove(s, p, proc, disarm)
    ensures Inv(Moved(s, p, proc, key, disarm))
  {
    MoveCounts(s, p, proc, key, disarm);
    MoveTracks(s, p, proc, key, disarm);
    MoveClears(s, p, proc, key, disarm);
    var s' := Moved(s, p, proc, key, disarm);
    assert s'.db == s.db;
    assert Remembered(s');
    assert JobsKept(s');
  }

  lemma EndKeeps(s: State, p: nat)
    requires Inv(s)
    ensures Inv(End(s, p))
  {}

  /** A new process under an id that was never used. */
  lemma SpawnTracks(s: State, id: nat, proc: Proc)
    requires Tracked(s) && id !in s.procs && proc.phase == Ready(Forward)
    ensures Tracked(s.(procs := s.procs[id := proc]))
  {
    var s' := s.(procs := s.procs[id := proc]);
    forall p | p in s'.procs ensures TracksWrite(s', p) {
      assert p != id ==> TracksWrite(s, p);
    }
  }

  lemma SpawnRemembers(s: State, id: nat, proc: Proc)
    requires Cleared(s) && Remembered(s) && JobsKept(s) && ArmedOwed(s)
    requires id !in s.procs && proc.phase == Ready(Forward) && Recalls(s.db, proc.work) && !Answered(proc)
    ensures
      var s' := s.(procs := s.procs[id := proc]);
      Cleared(s') && Remembered(s') && JobsKept(s') && ArmedOwed(s')
  {
    hide Recalls, Answered, NeedsJob, Owns;
  }

  lemma SpawnKeeps(s: State, id: nat, proc: Proc)
    requires Inv(s) && id < s.next && id !in s.procs
    requires proc.phase == Ready(Forward) && proc.generation < s.next
    requires ClaimOf(proc).Some? ==> proc.generation == id
    requires Recalls(s.db, proc.work) && !Answered(proc)
    ensures Inv(s.(procs := s.procs[id := proc]))
  {
    SpawnTracks(s, id, proc);
    SpawnRemembers(s, id, proc);
    hide WellFormed, Tracked, Cleared, Remembered, JobsKept, ArmedOwed;
  }

  lemma ArmKeeps(s: State, p: nat)
    requires Inv(s) && p in s.procs && OwnsRow(s.db, s.procs[p]) && !Clear(s.procs[p])
    ensures Inv(s.(armed := s.armed + {ClaimOf(s.procs[p]).value.subject}))
  {
    var s' := s.(armed := s.armed + {ClaimOf(s.procs[p]).value.subject});
    assert Cleared(s');
    assert Tracked(s') by {
      forall q | q in s'.procs ensures TracksWrite(s', q) { assert TracksWrite(s, q); }
    }
  }

  lemma TeardownKeeps(s: State, teardown: Option<nat>, armed: bool)
    requires Inv(s) && (teardown.Some? ==> teardown.value < s.next) && (armed ==> teardown.Some?)
    ensures Inv(s.(teardown := teardown, teardownArmed := armed))
  {
    var s' := s.(teardown := teardown, teardownArmed := armed);
    forall q | q in s'.procs ensures TracksWrite(s', q) { assert TracksWrite(s, q); }
  }

  lemma GatewayKeeps(s: State, tag: nat, key: Option<nat>)
    requires Inv(s) && s.tag <= tag
    ensures Inv(s.(tag := tag, key := key))
  {
    var s' := s.(tag := tag, key := key);
    forall q | q in s'.procs ensures TracksWrite(s', q) { assert TracksWrite(s, q); }
  }

  /** How the rows may change under the processes: nothing is forgotten, and a job is
      only re-owned under the generation `s.next`, which `next` then passes. */
  ghost predicate Evolves(s: State, db: Db, armed: set<Subject>, next: nat) {
    && WellFormed(db)
    && s.next <= next
    && (forall r :: r in s.db.requests ==> r in db.requests && db.requests[r].widens == s.db.requests[r].widens)
    && (forall g :: g in s.db.grants ==> g in db.grants && db.grants[g].origin == s.db.grants[g].origin)
    && (forall j :: j in db.jobs ==> db.jobs[j].generation < next && SameOwner(s, db, j))
    && armed <= db.jobs.Keys
    && (forall j :: j in armed ==> j in s.armed || db.jobs[j].status == Queued || db.jobs[j].generation == s.next)
    && (forall r :: NeedsJob(db, r) ==>
          OfRequest(r) in db.jobs && (NeedsJob(s.db, r) || db.jobs[OfRequest(r)].generation == s.next))
  }

  /** The row `j` of `db` is the one it was, or back in the queue, or newly owned. */
  predicate SameOwner(s: State, db: Db, j: Subject)
    requires j in db.jobs
  {
    (j in s.db.jobs && db.jobs[j] == s.db.jobs[j]) || db.jobs[j].status == Queued || db.jobs[j].generation == s.next
  }

  /** A process of before owns a row only if it owned it before, and the row is not newly armed. */
  lemma OwnersKeep(s: State, db: Db, armed: set<Subject>, next: nat, p: nat)
    requires Counted(s) && Evolves(s, db, armed, next) && p in s.procs && OwnsRow(db, s.procs[p])
    ensures OwnsRow(s.db, s.procs[p])
    ensures ClaimOf(s.procs[p]).value.subject in armed ==> ClaimOf(s.procs[p]).value.subject in s.armed
    ensures Answered(s.procs[p]) && NeedsJob(db, s.procs[p].work.request) ==> NeedsJob(s.db, s.procs[p].work.request)
  {}

  lemma RecallKeeps(s: State, db: Db, armed: set<Subject>, next: nat, w: Work)
    requires Evolves(s, db, armed, next) && Recalls(s.db, w)
    ensures Recalls(db, w)
  {}

  lemma RowsKeep(s: State, db: Db, armed: set<Subject>, next: nat)
    requires Inv(s) && Evolves(s, db, armed, next)
    ensures Inv(s.(db := db, armed := armed, next := next))
  {
    var s' := s.(db := db, armed := armed, next := next);
    forall p | p in s.procs && OwnsRow(db, s.procs[p])
      ensures Clear(s.procs[p]) ==> ClaimOf(s.procs[p]).value.subject !in armed
      ensures Answered(s.procs[p]) ==> !NeedsJob(db, s.procs[p].work.request)
    {
      OwnersKeep(s, db, armed, next, p);
    }
    forall p | p in s.procs ensures Recalls(db, s.procs[p].work) {
      RecallKeeps(s, db, armed, next, s.procs[p].work);
    }
    assert Counted(s') && Tracked(s') && Distinct(s');
    assert Cleared(s') && Remembered(s') && JobsKept(s');
  }

  /** A write of `groups` may go in flight for `p`. */
  ghost predicate MayEmit(s: State, p: nat, groups: set<Group>, settles: bool) {
    && p in s.procs && s.procs[p].phase.HasRead?
    && var issued := Posted(s, p, groups);
       && Shaped(issued)
       && settles == Settles(issued)
       && (settles ==> groups == {})
       && (Clear(issued) && OwnsRow(s.db, issued) ==> ClaimOf(issued).value.subject !in s.armed)
  }

  lemma EmitTracks(s: State, p: nat, groups: set<Group>, settles: bool, strips: Option<nat>)
    requires Counted(s) && Tracked(s) && MayEmit(s, p, groups, settles)
    ensures Tracked(Emit(s, p, groups, settles, strips))
  {
    var s' := Emit(s, p, groups, settles, strips);
    forall r | r in s'.procs ensures TracksWrite(s', r) {
      assert TracksWrite(s, r);
    }
  }

  lemma EmitKeeps(s: State, p: nat, groups: set<Group>, settles: bool, strips: Option<nat>)
    requires Inv(s) && MayEmit(s, p, groups, settles)
    ensures Inv(Emit(s, p, groups, settles, strips))
  {
    EmitTracks(s, p, groups, settles, strips);
    var s' := Emit(s, p, groups, settles, strips);
    assert s'.db == s.db && s'.armed == s.armed;
    assert TracksWrite(s, p);
    assert Counted(s') && Distinct(s');
    assert Cleared(s') && ArmedOwed(s');
    assert Remembered(s');
    assert JobsKept(s');
  }

  /** When a write lands, only its owner notices, and only if it is still waiting for it. */
  lemma LandChanges(s: State, q: nat, p: nat)
    requires q in s.puts && p in s.procs
    ensures
      var s' := DoLand(s, q).value;
      && s'.db == s.db && s'.puts == s.puts - {q} && s'.procs.Keys == s.procs.Keys && s'.armed <= s.armed
      && s.tag <= s'.tag
      && (s'.procs[p] == s.procs[p]
          || (s.procs[p].phase.Issued? && s.procs[p].phase.put == q
              && s'.procs[p] == s.procs[p].(phase := s.procs[p].phase.(landed := true))
              && (s.puts[q].settles.Some? && Owns(s.db, s.puts[q].settles.value)
                  ==> s.puts[q].settles.value.subject !in s'.armed)))
  {}

  lemma LandKeepsProc(s: State, q: nat, p: nat)
    requires Counted(s) && Tracked(s) && Cleared(s) && q in s.puts && p in s.procs
    ensures
      var s' := DoLand(s, q).value;
      && p in s'.procs && TracksWrite(s', p)
      && (Clear(s'.procs[p]) && OwnsRow(s'.db, s'.procs[p]) ==> ClaimOf(s'.procs[p]).value.subject !in s'.armed)
      && s'.procs[p].work == s.procs[p].work && s'.procs[p].generation == s.procs[p].generation
      && Answered(s'.procs[p]) == Answered(s.procs[p])
  {
    LandChanges(s, q, p);
    assert TracksWrite(s, p);
  }

  lemma LandCounts(s: State, q: nat)
    requires Counted(s) && Distinct(s) && q in s.puts
    ensures Counted(DoLand(s, q).value) && Distinct(DoLand(s, q).value)
  {}

  lemma LandKeeps(s: State, q: nat)
    requires Inv(s) && q in s.puts
    ensures Inv(DoLand(s, q).value)
  {
    LandCounts(s, q);
    var s' := DoLand(s, q).value;
    assert s'.db == s.db && s'.armed <= s.armed && s'.procs.Keys == s.procs.Keys && s'.teardown == s.teardown
           && (s'.teardownArmed ==> s.teardownArmed);
    forall p | p in s'.procs
      ensures TracksWrite(s', p)
      ensures Clear(s'.procs[p]) && OwnsRow(s'.db, s'.procs[p]) ==> ClaimOf(s'.procs[p]).value.subject !in s'.armed
      ensures Recalls(s'.db, s'.procs[p].work)
      ensures OwnsRow(s'.db, s'.procs[p]) && Answered(s'.procs[p]) ==> !NeedsJob(s'.db, s'.procs[p].work.request)
    {
      LandKeepsProc(s, q, p);
    }
  }

  /* ── How each transaction changes the rows ─────────────────────────────── */

  /** What the rows must satisfy for a transaction to be judged against them. */
  ghost predicate RowsReady(s: State) {
    && WellFormed(s.db)
    && (forall j :: j in s.db.jobs ==> s.db.jobs[j].generation < s.next)
    && s.armed <= s.db.jobs.Keys
    && (forall r :: NeedsJob(s.db, r) ==> OfRequest(r) in s.db.jobs)
  }

  lemma RowsAreReady(s: State)
    requires Inv(s)
    ensures RowsReady(s)
  {}

  lemma FileChanges(db: Db, r: Id, tools: Subset, actor: Id, at: nat)
    requires FileRequest(db, r, tools, actor, at).Some?
    ensures
      var filed := FileRequest(db, r, tools, actor, at).value;
      && filed == db.(requests := filed.requests)
      && r !in db.requests && filed.requests.Keys == db.requests.Keys + {r} && filed.requests[r].status == Pending
      && (forall q :: q in db.requests ==> filed.requests[q].widens == db.requests[q].widens
                                           && (filed.requests[q] == db.requests[q]
                                               || filed.requests[q].status == Cancelled))
  {}

  lemma FileEvolves(s: State, r: Id, tools: Subset, actor: Id, at: nat)
    requires RowsReady(s) && FileRequest(s.db, r, tools, actor, at).Some?
    ensures Evolves(s, FileRequest(s.db, r, tools, actor, at).value, s.armed, s.next)
  {
    FileKeepsWellFormed(s.db, r, tools, actor, at);
    FileChanges(s.db, r, tools, actor, at);
    var db := FileRequest(s.db, r, tools, actor, at).value;
    EvolvesByRequests(s, db);
  }

  /** Requests may be added or decided; none becomes `approved`. */
  lemma EvolvesByRequests(s: State, db: Db)
    requires RowsReady(s) && WellFormed(db) && db == s.db.(requests := db.requests)
    requires forall r :: r in s.db.requests ==> r in db.requests && db.requests[r].widens == s.db.requests[r].widens
    requires forall r :: r in db.requests && db.requests[r].status == Approved ==>
             r in s.db.requests && db.requests[r] == s.db.requests[r]
    ensures Evolves(s, db, s.armed, s.next)
  {
    forall q | NeedsJob(db, q) ensures NeedsJob(s.db, q) {
      assert EverGranted(db, q) == EverGranted(s.db, q);
    }
  }

  lemma FileToolsEvolves(s: State, r: Id, g: Id, ids: seq<Id>)
    requires RowsReady(s) && FileToolRequest(s.db, r, g, ids).Some?
    ensures Evolves(s, FileToolRequest(s.db, r, g, ids).value, s.armed, s.next)
  {
    FileToolsKeepsWellFormed(s.db, r, g, ids);
    var db := FileToolRequest(s.db, r, g, ids).value;
    forall q | NeedsJob(db, q) ensures NeedsJob(s.db, q) {
      assert EverGranted(db, q) == EverGranted(s.db, q);
    }
  }

  lemma CloseEvolves(s: State, r: Id, status: RequestStatus, actor: Id, at: nat, note: Option<string>)
    requires RowsReady(s) && CloseRequest(s.db, r, status, actor, at, note).Some?
    ensures Evolves(s, CloseRequest(s.db, r, status, actor, at, note).value, s.armed, s.next)
  {
    CloseKeepsWellFormed(s.db, r, status, actor, at, note);
    var db := CloseRequest(s.db, r, status, actor, at, note).value;
    forall q | NeedsJob(db, q) ensures NeedsJob(s.db, q) {
      assert EverGranted(db, q) == EverGranted(s.db, q);
    }
  }

  lemma ClaimEvolves(s: State, r: Id, actor: Id, tools: Subset, at: nat, note: Option<string>)
    requires RowsReady(s) && ClaimApproval(s.db, r, actor, tools, at, note, s.next).Some?
    ensures Evolves(s, ClaimApproval(s.db, r, actor, tools, at, note, s.next).value, s.armed, s.next + 1)
  {
    ClaimKeepsWellFormed(s.db, r, actor, tools, at, note, s.next);
    var db := ClaimApproval(s.db, r, actor, tools, at, note, s.next).value;
    assert db.grants == s.db.grants;
    forall q | NeedsJob(db, q) && q != r ensures NeedsJob(s.db, q) {
      assert EverGranted(db, q) == EverGranted(s.db, q);
    }
  }

  /** A revocation moves requests only away from `approved`, and forgets no origin. */
  lemma WithdrawNeeds(db: Db, g: Id, actor: Id, at: nat, note: Option<string>)
    requires WithdrawRows(db, g, actor, at, note).Some?
    ensures
      var rev := WithdrawRows(db, g, actor, at, note).value;
      && rev.db.jobs == db.jobs
      && (forall r :: r in db.requests ==> r in rev.db.requests && rev.db.requests[r].widens == db.requests[r].widens
                                           && (rev.db.requests[r] == db.requests[r]
                                               || rev.db.requests[r].status != Approved))
      && rev.db.requests.Keys == db.requests.Keys
      && rev.db.grants.Keys == db.grants.Keys
      && (forall h :: h in db.grants ==> rev.db.grants[h].origin == db.grants[h].origin)
  {}

  lemma WithdrawEvolves(s: State, g: Id, actor: Id, at: nat, note: Option<string>)
    requires RowsReady(s) && WithdrawRows(s.db, g, actor, at, note).Some?
    ensures Evolves(s, WithdrawRows(s.db, g, actor, at, note).value.db, s.armed, s.next + 1)
  {
    WithdrawKeepsWellFormed(s.db, g, actor, at, note);
    WithdrawNeeds(s.db, g, actor, at, note);
    var db := WithdrawRows(s.db, g, actor, at, note).value.db;
    forall q: Id | NeedsJob(db, q) ensures NeedsJob(s.db, q) {
      assert EverGranted(s.db, q) ==> EverGranted(db, q);
    }
  }

  lemma RevokeEvolves(s: State, g: Id, actor: Id, at: nat, note: Option<string>)
    requires RowsReady(s) && ClaimRevocation(s.db, g, actor, at, note, s.next).Some?
    ensures Evolves(s, ClaimRevocation(s.db, g, actor, at, note, s.next).value.db, s.armed + {OfGrant(g)}, s.next + 1)
  {
    WithdrawEvolves(s, g, actor, at, note);
    RevocationKeepsWellFormed(s.db, g, actor, at, note, s.next);
    var mid := WithdrawRows(s.db, g, actor, at, note).value.db;
    var db := ClaimRevocation(s.db, g, actor, at, note, s.next).value.db;
    assert db.requests == mid.requests && db.grants == mid.grants;
    forall q | NeedsJob(db, q) ensures NeedsJob(mid, q) {
      assert EverGranted(db, q) == EverGranted(mid, q);
    }
  }

  /** What a revocation remembers of the request it moved. */
  lemma WithdrawRecalls(db: Db, g: Id, actor: Id, at: nat, note: Option<string>)
    requires WithdrawRows(db, g, actor, at, note).Some?
    ensures
      var rev := WithdrawRows(db, g, actor, at, note).value;
      rev.moved.Some? ==> rev.moved.value.1.status == Approved && EverGranted(rev.db, rev.moved.value.0)
  {
    var rev := WithdrawRows(db, g, actor, at, note).value;
    if rev.moved.Some? {
      assert g in rev.db.grants && rev.db.grants[g].origin == Some(rev.moved.value.0);
    }
  }

  /** Rows that changed only in account flags and in who owns which job. */
  lemma SameNeeds(a: Db, b: Db, r: Id)
    requires a.requests == b.requests && a.grants == b.grants
    ensures NeedsJob(a, r) == NeedsJob(b, r)
  {
    assert EverGranted(a, r) == EverGranted(b, r);
  }

  lemma AccountEvolves(s: State, accountActive: bool, recovering: bool)
    requires RowsReady(s)
    ensures Evolves(s, s.db.(accountActive := accountActive, recovering := recovering), s.armed, s.next)
    ensures Evolves(s, s.db.(accountActive := accountActive, recovering := recovering), s.armed, s.next + 1)
  {
    var db := s.db.(accountActive := accountActive, recovering := recovering);
    forall r ensures NeedsJob(db, r) == NeedsJob(s.db, r) { SameNeeds(db, s.db, r); }
  }

  lemma ReleaseEvolves(s: State, subject: Subject)
    requires RowsReady(s) && ReleaseStale(s.db, subject).Some?
    ensures Evolves(s, ReleaseStale(s.db, subject).value, s.armed + {subject}, s.next)
  {
    JobsKeepWellFormed(s.db, Claim(subject, 0), subject, s.next);
    var db := ReleaseStale(s.db, subject).value;
    forall r ensures NeedsJob(db, r) == NeedsJob(s.db, r) { SameNeeds(db, s.db, r); }
  }

  lemma ClaimDueEvolves(s: State, subject: Subject)
    requires RowsReady(s) && ClaimDue(s.db, subject, s.next).Some?
    ensures Evolves(s, ClaimDue(s.db, subject, s.next).value, s.armed + {subject}, s.next + 1)
  {
    JobsKeepWellFormed(s.db, Claim(subject, 0), subject, s.next);
    var db := ClaimDue(s.db, subject, s.next).value;
    forall r ensures NeedsJob(db, r) == NeedsJob(s.db, r) { SameNeeds(db, s.db, r); }
  }

  /* ── One lemma a step ──────────────────────────────────────────────────── */

  lemma RequestStepsKeep(s: State, step: Step)
    requires Inv(s) && Next(s, step).Some?
    requires step.StepFile? || step.StepFileTools? || step.StepClose?
    ensures Inv(Next(s, step).value)
  {
    hide Inv;
    RowsAreReady(s);
    match step {
      case StepFile(r, tools, actor, at) =>
        FileEvolves(s, r, tools, actor, at);
        RowsKeep(s, FileRequest(s.db, r, tools, actor, at).value, s.armed, s.next);
      case StepFileTools(r, g, ids) =>
        FileToolsEvolves(s, r, g, ids);
        RowsKeep(s, FileToolRequest(s.db, r, g, ids).value, s.armed, s.next);
      case StepClose(r, status, actor, at, note) =>
        CloseEvolves(s, r, status, actor, at, note);
        RowsKeep(s, CloseRequest(s.db, r, status, actor, at, note).value, s.armed, s.next);
    }
  }

  lemma SpawnIsFree(s: State)
    requires Inv(s)
    ensures s.next !in s.procs
  {}

  /** A transaction, and the process that goes on from it. */
  lemma RowsSpawnKeep(s: State, db: Db, armed: set<Subject>, work: Work, generation: nat)
    requires Inv(s) && Evolves(s, db, armed, s.next + 1)
    requires generation <= s.next && Recalls(db, work)
    requires work.FinishApprove? ==> work.seen.None?
    requires ClaimOf(Proc(work, generation, Ready(Forward))).Some? ==> generation == s.next
    ensures Inv(Spawn(s.(db := db, armed := armed), work, generation, Ready(Forward)))
  {
    hide Inv;
    var s1, proc := s.(db := db, armed := armed, next := s.next + 1), Proc(work, generation, Ready(Forward));
    assert Inv(s1) by { RowsKeep(s, db, armed, s.next + 1); }
    assert s.next !in s1.procs by { SpawnIsFree(s); }
    assert Inv(s1.(procs := s1.procs[s.next := proc])) by { SpawnKeeps(s1, s.next, proc); }
    assert Spawn(s.(db := db, armed := armed), work, generation, Ready(Forward))
      == s1.(procs := s1.procs[s.next := proc]);
  }

  lemma ApproveKeeps(s: State, r: Id, actor: Id, tools: Subset, at: nat, note: Option<string>)
    requires Inv(s) && DoApprove(s, r, actor, tools, at, note).Some?
    ensures Inv(DoApprove(s, r, actor, tools, at, note).value)
  {
    hide Inv;
    RowsAreReady(s);
    ClaimEvolves(s, r, actor, tools, at, note);
    RowsSpawnKeep(s, ClaimApproval(s.db, r, actor, tools, at, note, s.next).value, s.armed, Approve(r, tools), s.next);
  }

  lemma ApproveToolsKeeps(s: State, r: Id, actor: Id, added: seq<Id>, at: nat, note: Option<string>)
    requires Inv(s) && DoApproveTools(s, r, actor, added, at, note).Some?
    ensures Inv(DoApproveTools(s, r, actor, added, at, note).value)
  {
    hide Inv;
    RowsAreReady(s);
    ClaimEvolves(s, r, actor, Some(added), at, note);
    var g := s.db.requests[r].widens.value;
    RowsSpawnKeep(s, ClaimApproval(s.db, r, actor, Some(added), at, note, s.next).value, s.armed,
                  Widen(r, g, s.db.grants[g].tools.value, added, false, false), s.next);
  }

  lemma RevokeKeeps(s: State, g: Id, actor: Id, at: nat, note: Option<string>)
    requires Inv(s) && DoRevoke(s, g, actor, at, note).Some?
    ensures Inv(DoRevoke(s, g, actor, at, note).value)
  {
    hide Inv;
    RowsAreReady(s);
    RevokeEvolves(s, g, actor, at, note);
    WithdrawRecalls(s.db, g, actor, at, note);
    var rev := ClaimRevocation(s.db, g, actor, at, note, s.next).value;
    assert rev.moved.Some? ==> EverGranted(rev.db, rev.moved.value.0) by {
      assert rev.db.grants == WithdrawRows(s.db, g, actor, at, note).value.db.grants;
    }
    RowsSpawnKeep(s, rev.db, s.armed + {OfGrant(g)}, Revoke(g, actor, at, rev.moved, rev.cancelled), s.next);
  }

  lemma SweepKeeps(s: State, g: Id, actor: Id, at: nat, note: Option<string>)
    requires Inv(s) && DoSweep(s, g, actor, at, note).Some?
    ensures Inv(DoSweep(s, g, actor, at, note).value)
  {
    hide Inv;
    RowsAreReady(s);
    WithdrawEvolves(s, g, actor, at, note);
    RowsSpawnKeep(s, WithdrawRows(s.db, g, actor, at, note).value.db, s.armed, Sweep, s.next);
  }

  lemma DisableKeeps(s: State)
    requires Inv(s)
    ensures DoDisable(s).Some? ==> Inv(DoDisable(s).value)
    ensures DoRetryTeardown(s).Some? ==> Inv(DoRetryTeardown(s).value)
  {
    hide Inv;
    RowsAreReady(s);
    AccountEvolves(s, false, s.db.recovering);
    var db := s.db.(accountActive := false);
    RowsKeep(s, db, s.armed, s.next + 1);
    TeardownKeeps(s.(db := db, next := s.next + 1), Some(s.next), true);
    AccountEvolves(s, s.db.accountActive, s.db.recovering);
    RowsKeep(s, s.db, s.armed, s.next + 1);
    TeardownKeeps(s.(next := s.next + 1), Some(s.next), true);
  }

  lemma EnableKeeps(s: State)
    requires Inv(s) && DoEnable(s).Some?
    ensures Inv(DoEnable(s).value)
  {
    hide Inv;
    TeardownKeeps(s, None, false);
    var s1 := s.(teardown := None, teardownArmed := false);
    RowsAreReady(s1);
    AccountEvolves(s1, true, s.db.recovering);
    RowsSpawnKeep(s1, s.db.(accountActive := true), s.armed, Rebuild(None), s.next);
  }

  lemma RecoveringKeeps(s: State, outstanding: bool)
    requires Inv(s)
    ensures Inv(s.(db := s.db.(recovering := outstanding)))
  {
    hide Inv;
    RowsAreReady(s);
    AccountEvolves(s, s.db.accountActive, outstanding);
    RowsKeep(s, s.db.(recovering := outstanding), s.armed, s.next);
  }

  lemma AccountWorkKeeps(s: State)
    requires Inv(s)
    ensures Inv(Spawn(s, Rebuild(None), s.next, Ready(Forward)))
    ensures DoTeardown(s).Some? ==> Inv(DoTeardown(s).value)
  {
    RowsAreReady(s);
    AccountEvolves(s, s.db.accountActive, s.db.recovering);
    RowsSpawnKeep(s, s.db, s.armed, Rebuild(None), s.next);
    if s.teardown.Some? {
      RowsSpawnKeep(s, s.db, s.armed, Strip, s.teardown.value);
    }
  }

  lemma ReleaseKeeps(s: State, subject: Subject)
    requires Inv(s) && DoReleaseStale(s, subject).Some?
    ensures Inv(DoReleaseStale(s, subject).value)
  {
    hide Inv;
    RowsAreReady(s);
    ReleaseEvolves(s, subject);
    RowsKeep(s, ReleaseStale(s.db, subject).value, s.armed + {subject}, s.next);
  }

  lemma RecoverKeeps(s: State, subject: Subject)
    requires Inv(s) && DoRecover(s, subject).Some?
    ensures Inv(DoRecover(s, subject).value)
  {
    hide Inv;
    RowsAreReady(s);
    ClaimDueEvolves(s, subject);
    var work := if subject.OfGrant? then FinishRevoke(subject.grant) else FinishApprove(subject.request, None, None);
    RowsSpawnKeep(s, ClaimDue(s.db, subject, s.next).value, s.armed + {subject}, work, s.next);
  }

  /** What `Inv` says about one process. */
  ghost predicate KnownOf(s: State, p: nat) {
    && p in s.procs
    && Shaped(s.procs[p]) && Recalls(s.db, s.procs[p].work) && TracksWrite(s, p)
    && (Clear(s.procs[p]) && OwnsRow(s.db, s.procs[p]) ==> ClaimOf(s.procs[p]).value.subject !in s.armed)
    && (OwnsRow(s.db, s.procs[p]) && Answered(s.procs[p]) ==> !NeedsJob(s.db, s.procs[p].work.request))
  }

  lemma Known(s: State, p: nat)
    requires Inv(s) && p in s.procs
    ensures KnownOf(s, p)
  {}

  /** A process that only moves to another point of its program. */
  lemma PhaseKeeps(s: State, p: nat, phase: Phase, key: Option<nat>, disarm: bool)
    requires Inv(s) && p in s.procs
    requires MayMove(s, p, s.procs[p].(phase := phase), disarm)
    ensures Inv((if disarm then Disarm(s, p) else s).(procs := s.procs[p := s.procs[p].(phase := phase)], key := key))
  {
    hide Inv;
    MoveKeeps(s, p, s.procs[p].(phase := phase), key, disarm);
  }

  lemma LookKeeps(s: State, p: nat)
    requires Inv(s) && DoLook(s, p).Some?
    ensures Inv(DoLook(s, p).value)
  {
    hide Inv;
    Known(s, p);
    if OwnsRow(s.db, s.procs[p]) {
      var proc := s.procs[p].(work := s.procs[p].work.(seen := Some(s.db.requests[s.procs[p].work.request])));
      MoveKeeps(s, p, proc, s.key, false);
      assert DoLook(s, p).value == Moved(s, p, proc, s.key, false);
    } else {
      EndKeeps(s, p);
    }
  }

  lemma ReadGrantsKeeps(s: State, p: nat)
    requires Inv(s) && DoReadGrants(s, p).Some?
    ensures Inv(DoReadGrants(s, p).value)
  {
    hide Inv;
    var proc := DoReadGrants(s, p).value.procs[p];
    MoveKeeps(s, p, proc, s.key, false);
    assert DoReadGrants(s, p).value == Moved(s, p, proc, s.key, false);
  }

  lemma EnterKeeps(s: State, p: nat, held: bool)
    requires Inv(s) && DoEnter(s, p, held).Some?
    ensures Inv(DoEnter(s, p, held).value)
  {
    hide Inv;
    Known(s, p);
    PhaseKeeps(s, p, Entered(s.procs[p].phase.undo), if held then Some(p) else s.key, false);
  }

  lemma RefusedKeeps(s: State, p: nat)
    requires Inv(s) && DoRefused(s, p).Some?
    ensures Inv(DoRefused(s, p).value)
  {
    hide Inv;
    Known(s, p);
    PhaseKeeps(s, p, Failed(false), s.key, false);
    assert DoRefused(s, p).value == Moved(s, p, s.procs[p].(phase := Failed(false)), s.key, false);
  }

  lemma ReadKeeps(s: State, p: nat)
    requires Inv(s) && DoRead(s, p).Some?
    ensures Inv(DoRead(s, p).value)
  {
    hide Inv;
    Known(s, p);
    var proc := DoRead(s, p).value.procs[p];
    MoveKeeps(s, p, proc, s.key, false);
    assert DoRead(s, p).value == Moved(s, p, proc, s.key, false);
  }

  function LeftKey(s: State, p: nat): Option<nat> {
    if s.key == Some(p) then None else s.key
  }

  lemma IssueAddKeeps(s: State, p: nat)
    requires Inv(s) && DoIssueAdd(s, p).Some?
    ensures Inv(DoIssueAdd(s, p).value)
  {
    hide Inv;
    Known(s, p);
    var proc := s.procs[p];
    if !OwnsRow(s.db, proc) {
      EndKeeps(s, p);
    } else if HeldByAnother(s.db, proc.work) {
      PhaseKeeps(s, p, Closing(false), LeftKey(s, p), false);
      assert DoIssueAdd(s, p).value == Moved(s, p, proc.(phase := Closing(false)), LeftKey(s, p), false);
    } else {
      var tools := if proc.work.Approve? then proc.work.tools else Some(proc.work.current + proc.work.added);
      EmitKeeps(s, p, Covers(tools), false, None);
      ArmKeeps(Emit(s, p, Covers(tools), false, None), p);
    }
  }

  lemma IssueRemoveAllKeeps(s: State, p: nat)
    requires Inv(s) && DoIssueRemoveAll(s, p).Some?
    ensures Inv(DoIssueRemoveAll(s, p).value)
  {
    hide Inv;
    Known(s, p);
    if Holder(s.db).None? {
      EmitKeeps(s, p, {}, true, None);
    } else {
      var work := s.procs[p].work;
      var own := work.Widen? || s.db.grants[Holder(s.db).value].origin == Some(work.request);
      if own && work.Approve? {
        assert EverGranted(s.db, work.request);
      }
      PhaseKeeps(s, p, Closing(own), LeftKey(s, p), true);
    }
  }

  lemma IssueStripToolsKeeps(s: State, p: nat)
    requires Inv(s) && DoIssueStripTools(s, p).Some?
    ensures Inv(DoIssueStripTools(s, p).value)
  {
    hide Inv;
    Known(s, p);
    var proc := s.procs[p];
    var off := set id | id in Uncovered(s.db, proc.phase.undo.ids) :: McpTool(id);
    var covered := Holder(s.db).Some? && Uncovered(s.db, proc.work.added) == {};
    var moved := proc.(work := proc.work.(covered := covered));
    MoveKeeps(s, p, moved, s.key, false);
    var s1 := Moved(s, p, moved, s.key, false);
    EmitKeeps(s1, p, proc.phase.groups - off, false, None);
    assert DoIssueStripTools(s, p).value == Emit(s1, p, proc.phase.groups - off, false, None);
  }

  lemma IssueReconcileKeeps(s: State, p: nat)
    requires Inv(s) && DoIssueReconcile(s, p).Some?
    ensures Inv(DoIssueReconcile(s, p).value)
  {
    hide Inv;
    Known(s, p);
    EmitKeeps(s, p, Reconciled(s.procs[p].phase.groups, HeldGrant(s.db), s.db.accountActive), false, None);
  }

  lemma IssueRevokeKeeps(s: State, p: nat)
    requires Inv(s) && DoIssueRevoke(s, p).Some?
    ensures Inv(DoIssueRevoke(s, p).value)
  {
    hide Inv;
    Known(s, p);
    if !OwnsRow(s.db, s.procs[p]) {
      EndKeeps(s, p);
    } else if Holder(s.db).Some? {
      PhaseKeeps(s, p, Closing(true), LeftKey(s, p), true);
    } else {
      EmitKeeps(s, p, {}, true, None);
    }
  }

  /** Recovery's guard notes the active grant it found, and with one its job is no longer owed. */
  lemma RecoveryMoves(s: State, p: nat, live: Option<(Id, Grant)>)
    requires KnownOf(s, p) && Poised(s, p, Forward) && s.procs[p].work.FinishApprove? && live == HeldBy(s.db)
    ensures MayMove(s, p, s.procs[p].(work := s.procs[p].work.(live := live)), live.Some?)
  {}

  lemma IssueRecoveryKeeps(s: State, p: nat)
    requires Inv(s) && DoIssueRecovery(s, p).Some?
    ensures Inv(DoIssueRecovery(s, p).value)
  {
    hide Inv;
    assert KnownOf(s, p) by { Known(s, p); }
    var proc := s.procs[p];
    var live := HeldBy(s.db);
    var moved := proc.(work := proc.work.(live := live));
    RecoveryMoves(s, p, live);
    var s1 := Moved(s, p, moved, s.key, live.Some?);
    var groups := Reconciled(proc.phase.groups, HeldGrant(s.db), s.db.accountActive);
    assert live.None? ==> groups == {};
    assert DoIssueRecovery(s, p).value == Emit(s1, p, groups, live.None?, None);
    assert Inv(s1) by { MoveKeeps(s, p, moved, s.key, live.Some?); }
    EmitKeeps(s1, p, groups, live.None?, None);
  }

  lemma IssueOthersKeep(s: State, p: nat)
    requires Inv(s)
    ensures DoIssueTeardown(s, p).Some? ==> Inv(DoIssueTeardown(s, p).value)
    ensures DoIssueRebuild(s, p).Some? ==> Inv(DoIssueRebuild(s, p).value)
    ensures DoIssueSweep(s, p).Some? ==> Inv(DoIssueSweep(s, p).value)
  {
    hide Inv;
    if Poised(s, p, Forward) {
      Known(s, p);
      EndKeeps(s, p);
      var w := s.procs[p].work;
      if w.Strip? {
        EmitKeeps(s, p, {}, false, Some(s.procs[p].generation));
      } else if w.Sweep? {
        EmitKeeps(s, p, {}, false, None);
      } else if w.Rebuild? && w.found.Some? {
        EmitKeeps(s, p, if w.found.value.Some? then Covers(w.found.value.value) else {}, false, None);
      }
    }
  }

  /** A write's owner goes on once it is acknowledged. */
  lemma AckMovesOn(s: State, p: nat)
    requires KnownOf(s, p) && DoAck(s, p).Some? && IsAdd(s.procs[p].work)
    ensures
      var s' := DoAck(s, p).value;
      s' == End(s, p)
      || (p in s'.procs && MayMove(s, p, s'.procs[p], false) && s' == Moved(s, p, s'.procs[p], s'.key, false))
  {}

  lemma AckMovesOff(s: State, p: nat)
    requires KnownOf(s, p) && DoAck(s, p).Some? && !IsAdd(s.procs[p].work)
    ensures
      var s' := DoAck(s, p).value;
      s' == End(s, p)
      || (p in s'.procs && MayMove(s, p, s'.procs[p], false) && s' == Moved(s, p, s'.procs[p], s'.key, false))
  {}

  lemma AckKeeps(s: State, p: nat)
    requires Inv(s) && DoAck(s, p).Some?
    ensures Inv(DoAck(s, p).value)
  {
    hide Inv;
    assert KnownOf(s, p) by { Known(s, p); }
    if IsAdd(s.procs[p].work) { AckMovesOn(s, p); } else { AckMovesOff(s, p); }
    var s' := DoAck(s, p).value;
    if s' == End(s, p) {
      EndKeeps(s, p);
    } else {
      MoveKeeps(s, p, s'.procs[p], s'.key, false);
    }
  }

  /** Where an error leaves a process. */
  lemma FailMovesOn(s: State, p: nat)
    requires KnownOf(s, p) && DoFail(s, p).Some? && IsAdd(s.procs[p].work)
    ensures
      var s' := DoFail(s, p).value;
      s' == End(s, p)
      || (p in s'.procs && MayMove(s, p, s'.procs[p], false) && s' == Moved(s, p, s'.procs[p], s'.key, false))
  {}

  lemma FailMovesOff(s: State, p: nat)
    requires KnownOf(s, p) && DoFail(s, p).Some? && !IsAdd(s.procs[p].work)
    ensures
      var s' := DoFail(s, p).value;
      s' == End(s, p)
      || (p in s'.procs && MayMove(s, p, s'.procs[p], false) && s' == Moved(s, p, s'.procs[p], s'.key, false))
  {}

  lemma FailKeeps(s: State, p: nat)
    requires Inv(s) && DoFail(s, p).Some?
    ensures Inv(DoFail(s, p).value)
  {
    hide Inv;
    assert KnownOf(s, p) by { Known(s, p); }
    if IsAdd(s.procs[p].work) { FailMovesOn(s, p); } else { FailMovesOff(s, p); }
    var s' := DoFail(s, p).value;
    if s' == End(s, p) {
      EndKeeps(s, p);
    } else {
      MoveKeeps(s, p, s'.procs[p], s'.key, false);
    }
  }

  lemma CommitFailsKeeps(s: State, p: nat)
    requires Inv(s)
    ensures DoCommitFails(s, p).Some? ==> Inv(DoCommitFails(s, p).value)
    ensures DoGiveUp(s, p).Some? ==> Inv(DoGiveUp(s, p).value)
  {
    hide Inv;
    if p in s.procs {
      Known(s, p);
      if DoCommitFails(s, p).Some? {
        PhaseKeeps(s, p, Failed(true), LeftKey(s, p), false);
      }
      if DoGiveUp(s, p).Some? {
        PhaseKeeps(s, p, Closing(false), LeftKey(s, p), false);
      }
    }
  }

  lemma PresenceKeeps(s: State, p: nat, unreadable: bool)
    requires Inv(s) && DoPresence(s, p, unreadable).Some?
    ensures Inv(DoPresence(s, p, unreadable).value)
  {
    hide Inv;
    Known(s, p);
    var s' := DoPresence(s, p, unreadable).value;
    PhaseKeeps(s, p, s'.procs[p].phase, Some(p), false);
    assert s' == Moved(s, p, s'.procs[p], Some(p), false);
  }

  lemma ObserveApproveKeeps(s: State, p: nat, unreadable: bool, grantUnreadable: bool)
    requires Inv(s) && DoObserve(s, p, unreadable, grantUnreadable).Some? && s.procs[p].work.Approve?
    ensures Inv(DoObserve(s, p, unreadable, grantUnreadable).value)
  {
    hide Inv;
    Known(s, p);
    var s' := DoObserve(s, p, unreadable, grantUnreadable).value;
    var r := s.procs[p].work.request;
    var holder := if unreadable then None else Holder(s.db);
    if holder.Some? && s.db.grants[holder.value].origin == Some(r) {
      assert EverGranted(s.db, r);
    }
    var disarm := !s'.procs[p].phase.Ready?;
    PhaseKeeps(s, p, s'.procs[p].phase, s.key, disarm);
    assert s' == Moved(s, p, s'.procs[p], s.key, disarm);
  }

  lemma ObserveWidenMoves(s: State, p: nat, unreadable: bool, grantUnreadable: bool, disarm: bool)
    requires KnownOf(s, p) && DoObserve(s, p, unreadable, grantUnreadable).Some? && s.procs[p].work.Widen?
    requires disarm == Clear(DoObserve(s, p, unreadable, grantUnreadable).value.procs[p])
    ensures
      var s' := DoObserve(s, p, unreadable, grantUnreadable).value;
      MayMove(s, p, s'.procs[p], disarm) && s' == Moved(s, p, s'.procs[p], s.key, disarm)
  {}

  lemma ObserveWidenKeeps(s: State, p: nat, unreadable: bool, grantUnreadable: bool)
    requires Inv(s) && DoObserve(s, p, unreadable, grantUnreadable).Some? && s.procs[p].work.Widen?
    ensures Inv(DoObserve(s, p, unreadable, grantUnreadable).value)
  {
    hide Inv;
    assert KnownOf(s, p) by { Known(s, p); }
    var proc := DoObserve(s, p, unreadable, grantUnreadable).value.procs[p];
    ObserveWidenMoves(s, p, unreadable, grantUnreadable, Clear(proc));
    MoveKeeps(s, p, proc, s.key, Clear(proc));
  }

  lemma ObserveKeeps(s: State, p: nat, unreadable: bool, grantUnreadable: bool)
    requires Inv(s) && DoObserve(s, p, unreadable, grantUnreadable).Some?
    ensures Inv(DoObserve(s, p, unreadable, grantUnreadable).value)
  {
    hide Inv;
    if s.procs[p].work.Approve? {
      ObserveApproveKeeps(s, p, unreadable, grantUnreadable);
    } else {
      ObserveWidenKeeps(s, p, unreadable, grantUnreadable);
    }
  }

  /* ── Steps that move rows and their own process together ───────────────── */

  lemma CommitEvolves(s: State, c: Claim, r: Id, g: Id, tools: Subset)
    requires RowsReady(s) && CommitGrant(s.db, c, r, g, tools).Some?
    requires c.subject == OfRequest(r) && r in s.db.requests && s.db.requests[r].widens.None?
    ensures Evolves(s, CommitGrant(s.db, c, r, g, tools).value, s.armed - {OfRequest(r)}, s.next)
  {
    CommitKeepsWellFormed(s.db, c, r, g, tools);
    var db := CommitGrant(s.db, c, r, g, tools).value;
    assert g in db.grants && db.grants[g].origin == Some(r);
    assert EverGranted(db, r);
    assert forall h :: h in s.db.grants ==> h in db.grants && db.grants[h].origin == s.db.grants[h].origin;
    forall q: Id | NeedsJob(db, q) ensures NeedsJob(s.db, q) && q != r {
      assert EverGranted(s.db, q) ==> EverGranted(db, q);
    }
  }

  /** The current claim's job goes, and the request it was for is not owed a grant. */
  lemma DeleteEvolves(s: State, c: Claim)
    requires RowsReady(s) && Owns(s.db, c)
    requires c.subject.OfRequest? ==> !NeedsJob(s.db, c.subject.request)
    ensures Evolves(s, DeleteClaimed(s.db, c), s.armed - {c.subject}, s.next)
  {
    JobsKeepWellFormed(s.db, c, c.subject, 0);
    var db := DeleteClaimed(s.db, c);
    forall r ensures NeedsJob(db, r) == NeedsJob(s.db, r) { SameNeeds(db, s.db, r); }
  }

  lemma WidenEvolves(s: State, c: Claim, r: Id, g: Id, current: seq<Id>, added: seq<Id>)
    requires RowsReady(s) && WidenGrant(s.db, c, g, current, added).Some?
    requires c.subject == OfRequest(r) && r in s.db.requests && s.db.requests[r].widens.Some?
    ensures Evolves(s, WidenGrant(s.db, c, g, current, added).value, s.armed - {OfRequest(r)}, s.next)
  {
    WidenKeepsWellFormed(s.db, c, g, current, added);
    var db := WidenGrant(s.db, c, g, current, added).value;
    assert forall h :: h in s.db.grants ==> h in db.grants && db.grants[h].origin == s.db.grants[h].origin;
    forall q: Id | NeedsJob(db, q) ensures NeedsJob(s.db, q) {
      assert EverGranted(s.db, q) ==> EverGranted(db, q);
    }
  }

  lemma CommitKeeps(s: State, p: nat, g: Id)
    requires Inv(s) && DoCommit(s, p, g).Some?
    ensures Inv(DoCommit(s, p, g).value)
  {
    hide Inv;
    assert KnownOf(s, p) by { Known(s, p); }
    var proc := s.procs[p];
    var s1 := End(s, p);
    assert Inv(s1) by { EndKeeps(s, p); }
    RowsAreReady(s1);
    var c := ClaimOf(proc).value;
    match proc.work {
      case Approve(r, tools) =>
        CommitEvolves(s1, c, r, g, tools);
        RowsKeep(s1, CommitGrant(s.db, c, r, g, tools).value, s.armed - {OfRequest(r)}, s.next);
      case Widen(r, held, current, added, _, _) =>
        WidenEvolves(s1, c, r, held, current, added);
        RowsKeep(s1, WidenGrant(s.db, c, held, current, added).value, s.armed - {OfRequest(r)}, s.next);
    }
  }

  lemma SettleOwnEvolves(s: State, c: Claim, r: Id, how: Settlement)
    requires RowsReady(s) && SettleOwnRequest(s.db, c, r, how).Some?
    ensures Evolves(s, SettleOwnRequest(s.db, c, r, how).value, s.armed, s.next)
    ensures
      var db := SettleOwnRequest(s.db, c, r, how).value;
      && db.jobs == s.db.jobs
      && (Owns(s.db, c) ==> !NeedsJob(db, r))
  {
    SettleOwnKeepsWellFormed(s.db, c, r, how);
    EvolvesByRequests(s, SettleOwnRequest(s.db, c, r, how).value);
  }

  lemma SettleKeeps(s: State, p: nat, stored: bool)
    requires Inv(s) && DoSettle(s, p, stored).Some?
    ensures Inv(DoSettle(s, p, stored).value)
  {
    hide Inv;
    assert KnownOf(s, p) by { Known(s, p); }
    var proc := s.procs[p];
    var c := ClaimOf(proc).value;
    var how := if proc.work.Approve? || proc.work.wasActive then Release else Abandon(INACTIVE_GRANT_NOTE);
    var db := if stored then SettleOwnRequest(s.db, c, proc.work.request, how) else None;
    if db.None? {
      PhaseKeeps(s, p, Closing(false), s.key, false);
    } else {
      SettledKeeps(s, p, c, how);
    }
  }

  lemma SettledKeeps(s: State, p: nat, c: Claim, how: Settlement)
    requires Inv(s) && p in s.procs && s.procs[p].phase.Settling? && IsAdd(s.procs[p].work)
    requires ClaimOf(s.procs[p]) == Some(c) && SettleOwnRequest(s.db, c, s.procs[p].work.request, how).Some?
    ensures
      var db := SettleOwnRequest(s.db, c, s.procs[p].work.request, how).value;
      Inv(Goto(s.(db := db), p, Closing(s.procs[p].phase.ok)))
  {
    hide Inv;
    var r := s.procs[p].work.request;
    RowsAreReady(s);
    SettleOwnEvolves(s, c, r, how);
    var s1 := s.(db := SettleOwnRequest(s.db, c, r, how).value);
    RowsKeep(s, s1.db, s.armed, s.next);
    hide SettleOwnRequest;
    assert KnownOf(s1, p) by { Known(s1, p); }
    PhaseKeeps(s1, p, Closing(s.procs[p].phase.ok), s.key, false);
  }


  lemma RequeueEvolves(s: State, c: Claim)
    requires RowsReady(s) && Owns(s.db, c)
    ensures Evolves(s, Requeue(s.db, c), s.armed + {c.subject}, s.next)
  {
    JobsKeepWellFormed(s.db, c, c.subject, 0);
    var db := Requeue(s.db, c);
    forall r ensures NeedsJob(db, r) == NeedsJob(s.db, r) { SameNeeds(db, s.db, r); }
  }

  /** The owner of a job that is not owed any more deletes it. */
  lemma EndDeleting(s: State, p: nat)
    requires Inv(s) && p in s.procs && ClaimOf(s.procs[p]).Some?
    requires OwnsRow(s.db, s.procs[p]) && ClaimOf(s.procs[p]).value.subject.OfRequest?
             ==> !NeedsJob(s.db, s.procs[p].work.request)
    ensures
      var c := ClaimOf(s.procs[p]).value;
      Inv(End(s, p).(db := DeleteClaimed(s.db, c), armed := if Owns(s.db, c) then s.armed - {c.subject} else s.armed))
  {
    hide Inv;
    var c := ClaimOf(s.procs[p]).value;
    var s1 := End(s, p);
    assert Inv(s1) by { EndKeeps(s, p); }
    if Owns(s.db, c) {
      RowsAreReady(s1);
      DeleteEvolves(s1, c);
      RowsKeep(s1, DeleteClaimed(s.db, c), s.armed - {c.subject}, s.next);
    }
  }

  lemma CloseJobKeeps(s: State, p: nat)
    requires Inv(s) && DoCloseJob(s, p).Some?
    ensures Inv(DoCloseJob(s, p).value)
  {
    hide Inv;
    assert KnownOf(s, p) by { Known(s, p); }
    var c := ClaimOf(s.procs[p]).value;
    if s.procs[p].phase.done {
      if s.procs[p].work.Widen? {
        assert s.db.requests[c.subject.request].widens.Some?;
      }
      EndDeleting(s, p);
    } else {
      var s1 := End(s, p);
      assert Inv(s1) by { EndKeeps(s, p); }
      if Owns(s.db, c) {
        RowsAreReady(s1);
        RequeueEvolves(s1, c);
        RowsKeep(s1, Requeue(s.db, c), s.armed + {c.subject}, s.next);
      }
    }
  }

  /** A rollback forgets no origin, and the requests it puts back are ones it remembers. */
  lemma RestoreNeeds(db: Db, g: Id, who: Id, at: nat, moved: Option<(Id, Request)>, cancelled: Option<(Id, Request)>,
      present: bool)
    requires Restore(db, g, who, at, moved, cancelled, present).Some?
    ensures
      var out := Restore(db, g, who, at, moved, cancelled, present).value;
      && out.db.grants.Keys == db.grants.Keys && out.db.requests.Keys == db.requests.Keys
      && (forall h :: h in db.grants ==> out.db.grants[h].origin == db.grants[h].origin)
      && (forall r :: r in db.requests ==>
            && out.db.requests[r].widens == db.requests[r].widens
            && (out.db.requests[r].status == Approved ==>
                db.requests[r].status == Approved || (moved.Some? && r == moved.value.0)))
      && out.db.jobs == (if out.restored then db.jobs - {OfGrant(g)} else db.jobs)
  {}

  lemma RestoreEvolves(s: State, g: Id, who: Id, at: nat, moved: Option<(Id, Request)>,
      cancelled: Option<(Id, Request)>, present: bool)
    requires RowsReady(s) && Restore(s.db, g, who, at, moved, cancelled, present).Some?
    requires moved.Some? ==> moved.value.1.status == Approved && EverGranted(s.db, moved.value.0)
    ensures
      var out := Restore(s.db, g, who, at, moved, cancelled, present).value;
      Evolves(s, out.db, if out.restored then s.armed - {OfGrant(g)} else s.armed, s.next)
  {
    RestoreKeepsWellFormed(s.db, g, who, at, moved, cancelled, present);
    RestoreNeeds(s.db, g, who, at, moved, cancelled, present);
    var db := Restore(s.db, g, who, at, moved, cancelled, present).value.db;
    forall r: Id | NeedsJob(db, r) ensures NeedsJob(s.db, r) {
      assert EverGranted(s.db, r) ==> EverGranted(db, r);
    }
  }

  lemma RestoreKeeps(s: State, p: nat, acknowledged: bool)
    requires Inv(s) && DoRestore(s, p, acknowledged).Some?
    ensures Inv(DoRestore(s, p, acknowledged).value)
  {
    hide Inv;
    assert KnownOf(s, p) by { Known(s, p); }
    var w := s.procs[p].work;
    var out := Restore(s.db, w.grant, w.who, w.at, w.moved, w.cancelled, s.procs[p].phase.present);
    var phase := if acknowledged && out.Some? then Closing(false) else Failed(true);
    if s.key != Some(p) {
      PhaseKeeps(s, p, Failed(true), s.key, false);
    } else if out.None? {
      PhaseKeeps(s, p, phase, LeftKey(s, p), false);
    } else {
      RowsAreReady(s);
      RestoreEvolves(s, w.grant, w.who, w.at, w.moved, w.cancelled, s.procs[p].phase.present);
      var armed := if out.value.restored then s.armed - {OfGrant(w.grant)} else s.armed;
      var s1 := s.(db := out.value.db, armed := armed);
      assert Inv(s1) by { RowsKeep(s, out.value.db, armed, s.next); }
      assert KnownOf(s1, p) by { Known(s1, p); }
      PhaseKeeps(s1, p, phase, LeftKey(s, p), false);
      assert DoRestore(s, p, acknowledged).value == Moved(s1, p, s1.procs[p].(phase := phase), LeftKey(s, p), false);
    }
  }

  /** Recovery of an approval leaves its request approved only if a grant was made from it. */
  lemma SettleApprovalNeeds(db: Db, c: Claim, r: Id, q: Request, live: Option<(Id, Grant)>)
    requires SettleApproval(db, c, r, q, live).Some?
    requires live.Some? ==> live.value.0 in db.grants && db.grants[live.value.0].origin == live.value.1.origin
    requires r in db.requests && db.requests[r].widens == q.widens
    requires q.status != Approved ==> !NeedsJob(db, r)
    ensures
      var out := SettleApproval(db, c, r, q, live).value;
      && !NeedsJob(out, r)
      && out == db.(requests := out.requests, jobs := db.jobs - {c.subject})
      && (forall x :: x in db.requests && x != r ==> x in out.requests && out.requests[x] == db.requests[x])
      && out.requests.Keys == db.requests.Keys
      && out.requests[r].widens == db.requests[r].widens
  {
    var out := SettleApproval(db, c, r, q, live).value;
    assert EverGranted(out, r) == EverGranted(db, r);
  }

  lemma SettleApprovalEvolves(s: State, c: Claim, r: Id, q: Request, live: Option<(Id, Grant)>)
    requires RowsReady(s) && SettleApproval(s.db, c, r, q, live).Some? && c.subject == OfRequest(r)
    requires live.Some? ==> live.value.0 in s.db.grants && s.db.grants[live.value.0].origin == live.value.1.origin
    requires r in s.db.requests && s.db.requests[r].widens == q.widens
    requires q.status != Approved ==> !NeedsJob(s.db, r)
    ensures Evolves(s, SettleApproval(s.db, c, r, q, live).value, s.armed - {c.subject}, s.next)
  {
    SettleKeepsWellFormed(s.db, c, r, q, live);
    SettleApprovalNeeds(s.db, c, r, q, live);
    var db := SettleApproval(s.db, c, r, q, live).value;
    forall x: Id | NeedsJob(db, x) ensures NeedsJob(s.db, x) && x != r {
      assert EverGranted(s.db, x) == EverGranted(db, x);
    }
  }

  lemma FinishKeeps(s: State, p: nat)
    requires Inv(s) && DoFinish(s, p).Some?
    ensures Inv(DoFinish(s, p).value)
  {
    hide Inv;
    assert KnownOf(s, p) by { Known(s, p); }
    var proc := s.procs[p];
    var s1 := End(s, p);
    assert Inv(s1) by { EndKeeps(s, p); }
    var c := ClaimOf(proc).value;
    match proc.work {
      case FinishRevoke(g) =>
        EndDeleting(s, p);
      case FinishApprove(r, seen, live) =>
        if Owns(s.db, c) {
          RowsAreReady(s1);
          SettleApprovalEvolves(s1, c, r, seen.value, live);
          RowsKeep(s1, SettleApproval(s.db, c, r, seen.value, live).value, s.armed - {c.subject}, s.next);
        }
    }
  }

  lemma TornDownKeeps(s: State, p: nat)
    requires Inv(s) && DoTornDown(s, p).Some?
    ensures Inv(DoTornDown(s, p).value)
  {
    hide Inv;
    EndKeeps(s, p);
    TeardownKeeps(End(s, p), None, false);
  }

  lemma OtherApiKeeps(s: State)
    requires Inv(s)
    ensures Inv(DoOtherApi(s).value)
  {
    GatewayKeeps(s, s.tag + 1, s.key);
  }

  lemma LoseKeyKeeps(s: State)
    requires Inv(s)
    ensures Inv(s.(key := None))
  {
    GatewayKeeps(s, s.tag, None);
  }

  /* ── Every step, and every run ─────────────────────────────────────────── */

  lemma StartKeeps(s: State, step: Step)
    requires Inv(s) && StartsWork(step) && Next(s, step).Some?
    ensures Inv(Next(s, step).value)
  {
    hide Inv, DoApprove, DoApproveTools, DoRevoke, DoSweep, DoDisable, DoEnable, DoRetryTeardown;
    hide DoReleaseStale, DoRecover, DoTeardown, FileRequest, FileToolRequest, CloseRequest;
    match step {
      case StepFile(_, _, _, _) => RequestStepsKeep(s, step);
      case StepFileTools(_, _, _) => RequestStepsKeep(s, step);
      case StepClose(_, _, _, _, _) => RequestStepsKeep(s, step);
      case StepApprove(r, actor, tools, at, note) => ApproveKeeps(s, r, actor, tools, at, note);
      case StepApproveTools(r, actor, added, at, note) => ApproveToolsKeeps(s, r, actor, added, at, note);
      case StepRevoke(g, actor, at, note) => RevokeKeeps(s, g, actor, at, note);
      case StepSweep(g, actor, at, note) => SweepKeeps(s, g, actor, at, note);
      case StepDisable => DisableKeeps(s);
      case StepEnable => EnableKeeps(s);
      case StepRetryTeardown => DisableKeeps(s);
      case StepRecovering(outstanding) => RecoveringKeeps(s, outstanding);
      case StepReleaseStale(subject) => ReleaseKeeps(s, subject);
      case StepRecover(subject) => RecoverKeeps(s, subject);
      case StepTeardown => AccountWorkKeeps(s);
      case StepRebuild => AccountWorkKeeps(s);
    }
  }

  lemma ReadStepKeeps(s: State, step: Step)
    requires Inv(s) && ReadsConsumer(step) && Next(s, step).Some?
    ensures Inv(Next(s, step).value)
  {
    hide Inv, DoLook, DoReadGrants, DoEnter, DoRefused, DoRead, DoOtherApi, NextStart, NextIssue, NextAfter;
    match step {
      case StepLook(p) => LookKeeps(s, p);
      case StepReadGrants(p) => ReadGrantsKeeps(s, p);
      case StepEnter(p, held) => EnterKeeps(s, p, held);
      case StepRefused(p) => RefusedKeeps(s, p);
      case StepRead(p) => ReadKeeps(s, p);
      case StepLand(q) => LandKeeps(s, q);
      case StepOtherApi => OtherApiKeeps(s);
    }
  }

  lemma IssueKeeps(s: State, step: Step)
    requires Inv(s) && Issues(step) && Next(s, step).Some?
    ensures Inv(Next(s, step).value)
  {
    hide Inv, DoIssueAdd, DoIssueRemoveAll, DoIssueStripTools, DoIssueReconcile, DoIssueRevoke, DoIssueRecovery;
    hide DoIssueTeardown, DoIssueRebuild, DoIssueSweep;
    match step {
      case StepIssueAdd(p) => IssueAddKeeps(s, p);
      case StepIssueRemoveAll(p) => IssueRemoveAllKeeps(s, p);
      case StepIssueStripTools(p) => IssueStripToolsKeeps(s, p);
      case StepIssueReconcile(p) => IssueReconcileKeeps(s, p);
      case StepIssueRevoke(p) => IssueRevokeKeeps(s, p);
      case StepIssueRecovery(p) => IssueRecoveryKeeps(s, p);
      case StepIssueTeardown(p) => IssueOthersKeep(s, p);
      case StepIssueRebuild(p) => IssueOthersKeep(s, p);
      case StepIssueSweep(p) => IssueOthersKeep(s, p);
    }
  }

  lemma AfterKeeps(s: State, step: Step)
    requires Inv(s) && !StartsWork(step) && !ReadsConsumer(step) && !Issues(step) && Next(s, step).Some?
    ensures Inv(Next(s, step).value)
  {
    hide Inv;
    match step {
      case StepAck(p) => AckKeeps(s, p);
      case StepFail(p) => FailKeeps(s, p);
      case StepCrash(p) => EndKeeps(s, p);
      case StepLoseKey => LoseKeyKeeps(s);
      case StepCommit(p, g) => CommitKeeps(s, p, g);
      case StepCommitFails(p) => CommitFailsKeeps(s, p);
      case StepObserve(p, unreadable, grantUnreadable) => ObserveKeeps(s, p, unreadable, grantUnreadable);
      case StepSettle(p, stored) => SettleKeeps(s, p, stored);
      case StepCloseJob(p) => CloseJobKeeps(s, p);
      case StepPresence(p, unreadable) => PresenceKeeps(s, p, unreadable);
      case StepRestore(p, acknowledged) => RestoreKeeps(s, p, acknowledged);
      case StepGiveUp(p) => CommitFailsKeeps(s, p);
      case StepFinish(p) => FinishKeeps(s, p);
      case StepTornDown(p) => TornDownKeeps(s, p);
    }
  }

  lemma StepKeeps(s: State, step: Step)
    requires Inv(s) && Next(s, step).Some?
    ensures Inv(Next(s, step).value)
  {
    hide Inv;
    if StartsWork(step) {
      StartKeeps(s, step);
    } else if ReadsConsumer(step) {
      ReadStepKeeps(s, step);
    } else if Issues(step) {
      IssueKeeps(s, step);
    } else {
      AfterKeeps(s, step);
    }
  }

  lemma RunShape(states: seq<State>, steps: seq<Step>)
    requires Run(states, steps)
    ensures |states| == |steps| + 1 && states[0] == Start
  {}

  lemma RunTakes(states: seq<State>, steps: seq<Step>, j: nat)
    requires Run(states, steps) && j < |steps|
    ensures Next(states[j], steps[j]) == Some(states[j + 1])
  {}

  lemma StartKept()
    ensures Inv(Start)
  {}

  /** The invariant holds in every state of every run. */
  lemma {:induction false} Always(states: seq<State>, steps: seq<Step>, i: nat)
    requires Run(states, steps) && i < |states|
    ensures Inv(states[i])
  {
    hide Run, Next, Inv;
    RunShape(states, steps);
    if i == 0 {
      StartKept();
    } else {
      Always(states, steps, i - 1);
      RunTakes(states, steps, i - 1);
      StepKeeps(states[i - 1], steps[i - 1]);
    }
  }
}
