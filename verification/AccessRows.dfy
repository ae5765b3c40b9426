/** The portal rows behind one (API, identity) pair, and the store transactions
    of the access workflow as functions on them.

    An identity is an account or one of its applications; every request, grant
    and gateway job below belongs to the same pair. A function that returns
    `None` models a transaction that rolls back. */
module AccessRows {
  import opened Wrappers

  type Id = nat

  /** A tool subset: `None` stands for every published tool. */
  type Subset = Option<seq<Id>>

  datatype RequestStatus = Pending | Approved | Denied | Cancelled | Withdrawn

  datatype GrantStatus = Active | Revoked

  /** `widens` names the grant a tool request would widen; `None` asks for access itself. */
  datatype Request = Request(
    status: RequestStatus,
    widens: Option<Id>,
    requestedTools: Subset,
    approvedTools: Subset,
    decidedBy: Option<Id>,
    decidedAt: Option<nat>,
    note: Option<string>)

  datatype Grant = Grant(
    status: GrantStatus,
    origin: Option<Id>,
    tools: Subset,
    revokedBy: Option<Id>,
    revokedAt: Option<nat>)

  /** What a gateway job is owed for: an approved request, or a revoked grant. */
  datatype Subject = OfRequest(request: Id) | OfGrant(grant: Id)

  datatype JobStatus = Queued | Sending

  datatype Job = Job(generation: nat, status: JobStatus)

  /** One ownership of a job row. */
  datatype Claim = Claim(subject: Subject, generation: nat)

  /** `accountActive` is the grantee's status, `recovering` an outstanding account recovery. */
  datatype Db = Db(
    requests: map<Id, Request>,
    grants: map<Id, Grant>,
    jobs: map<Subject, Job>,
    accountActive: bool,
    recovering: bool)

  const INACTIVE_GRANT_NOTE := "The grant this request would extend is no longer active"
  const ALREADY_GRANTED_NOTE := "This identity already holds an active grant for this API"
  const NEWER_REQUEST_NOTE := "A newer request for this API is pending"

  /* ── Reads ─────────────────────────────────────────────────────────────── */

  predicate IsActive(db: Db, g: Id) {
    g in db.grants && db.grants[g].status == Active
  }

  predicate IsPending(db: Db, r: Id) {
    r in db.requests && db.requests[r].status == Pending
  }

  ghost predicate NoActive(db: Db) {
    forall g :: g in db.grants ==> db.grants[g].status != Active
  }

  /** The identity's active grant, if any. */
  ghost function Holder(db: Db): (h: Option<Id>)
    ensures h.Some? ==> IsActive(db, h.value)
    ensures h.None? <==> NoActive(db)
  {
    if g :| g in db.grants && db.grants[g].status == Active then Some(g) else None
  }

  /** The identity's pending request, if any. */
  ghost function Waiting(db: Db): (w: Option<Id>)
    ensures w.Some? ==> IsPending(db, w.value)
    ensures w.None? <==> forall r :: r in db.requests ==> db.requests[r].status != Pending
  {
    if r :| r in db.requests && db.requests[r].status == Pending then Some(r) else None
  }

  predicate Owns(db: Db, c: Claim) {
    c.subject in db.jobs
    && db.jobs[c.subject].generation == c.generation
    && db.jobs[c.subject].status == Sending
  }

  /** Whether any grant, in any status, records `r` as its origin. */
  predicate EverGranted(db: Db, r: Id) {
    exists g :: g in db.grants && db.grants[g].origin == Some(r)
  }

  /** An approved request for access behind which no grant was ever made. */
  predicate NeedsJob(db: Db, r: Id) {
    r in db.requests
    && db.requests[r].status == Approved
    && db.requests[r].widens.None?
    && !EverGranted(db, r)
  }

  /** The invariants the store's two partial unique indexes and the workflow maintain. */
  ghost predicate WellFormed(db: Db) {
    && (forall g, h ::
          g in db.grants && h in db.grants && db.grants[g].status == Active && db.grants[h].status == Active
          ==> g == h)
    && (forall q, r ::
          q in db.requests && r in db.requests && db.requests[q].status == Pending && db.requests[r].status == Pending
          ==> q == r)
    && (forall g :: g in db.grants && db.grants[g].status == Active
          ==> db.grants[g].revokedBy.None? && db.grants[g].revokedAt.None?)
    && (forall g :: OfGrant(g) in db.jobs ==> g in db.grants && db.grants[g].status == Revoked)
    && (forall g :: g in db.grants && db.grants[g].origin.Some? ==>
          db.grants[g].origin.value in db.requests
          && db.requests[db.grants[g].origin.value].widens.None?)
  }

  /* ── Job rows ──────────────────────────────────────────────────────────── */

  function DeleteClaimed(db: Db, c: Claim): Db {
    if Owns(db, c) then db.(jobs := db.jobs - {c.subject}) else db
  }

  function Requeue(db: Db, c: Claim): Db {
    if Owns(db, c) then db.(jobs := db.jobs[c.subject := Job(c.generation, Queued)]) else db
  }

  /** The stale sweep returning one abandoned claim to the queue. */
  function ReleaseStale(db: Db, subject: Subject): Option<Db> {
    if subject in db.jobs && db.jobs[subject].status == Sending
    then Some(db.(jobs := db.jobs[subject := db.jobs[subject].(status := Queued)]))
    else None
  }

  /** A worker claiming a queued row under a fresh generation. */
  function ClaimDue(db: Db, subject: Subject, generation: nat): Option<Db> {
    if subject in db.jobs && db.jobs[subject].status == Queued
    then Some(db.(jobs := db.jobs[subject := Job(generation, Sending)]))
    else None
  }

  /* ── Requests ──────────────────────────────────────────────────────────── */

  function Decided(q: Request, status: RequestStatus, who: Option<Id>, at: Option<nat>, note: Option<string>): Request {
    q.(status := status, decidedBy := who, decidedAt := at, note := note)
  }

  /** Ask for access. A pending tool request whose grant is gone makes way for it. */
  ghost function FileRequest(db: Db, r: Id, tools: Subset, actor: Id, at: nat): Option<Db> {
    var filed := Request(Pending, None, tools, None, None, None, None);
    var waiting := Waiting(db);
    if r in db.requests then None
    else if waiting.None? then Some(db.(requests := db.requests[r := filed]))
    else
      var stale := db.requests[waiting.value];
      if stale.widens.Some? && !IsActive(db, stale.widens.value) then
        Some(db.(requests := db.requests
            [waiting.value := Decided(stale, Cancelled, Some(actor), Some(at), Some(INACTIVE_GRANT_NOTE))]
            [r := filed]))
      else None
  }

  /** Ask for more tools on an active grant. */
  ghost function FileToolRequest(db: Db, r: Id, g: Id, tools: seq<Id>): Option<Db> {
    if r !in db.requests && IsActive(db, g) && Waiting(db).None?
    then Some(db.(requests := db.requests[r := Request(Pending, Some(g), Some(tools), None, None, None, None)]))
    else None
  }

  /** The requester withdraws, or a provider declines, a pending request. */
  function CloseRequest(db: Db, r: Id, status: RequestStatus, actor: Id, at: nat, note: Option<string>): Option<Db> {
    if IsPending(db, r) && (status == Denied || status == Cancelled)
    then Some(db.(requests := db.requests[r := Decided(db.requests[r], status, Some(actor), Some(at), note)]))
    else None
  }

  /** The claim of an approval: the decision and the job it owes, together. */
  function ClaimApproval(db: Db, r: Id, actor: Id, tools: Subset, at: nat, note: Option<string>,
      generation: nat): Option<Db> {
    if IsPending(db, r) then
      Some(db.(
          requests := db.requests[r :=
              Decided(db.requests[r], Approved, Some(actor), Some(at), note).(approvedTools := tools)],
          jobs := db.jobs[OfRequest(r) := Job(generation, Sending)]))
    else None
  }

  /** The grant, committed only while its approval still owns the job. */
  ghost function CommitGrant(db: Db, c: Claim, r: Id, g: Id, tools: Subset): Option<Db> {
    if g !in db.grants && Holder(db).None? && Owns(db, c)
    then Some(DeleteClaimed(db.(grants := db.grants[g := Grant(Active, Some(r), tools, None, None)]), c))
    else None
  }

  /** The wider subset of a tool approval, compare-and-set on the subset it was admitted against. */
  function WidenGrant(db: Db, c: Claim, g: Id, current: seq<Id>, added: seq<Id>): Option<Db> {
    if IsActive(db, g) && db.grants[g].tools == Some(current) && Owns(db, c)
    then Some(DeleteClaimed(db.(grants := db.grants[g := db.grants[g].(tools := Some(current + added))]), c))
    else None
  }

  /** How a compensation leaves the request it decided. */
  datatype Settlement = Release | Abandon(note: string)

  function Released(q: Request): Request {
    Decided(q, Pending, None, None, None).(approvedTools := None)
  }

  function Abandoned(q: Request, note: string): Request {
    Decided(q, Cancelled, None, None, Some(note)).(approvedTools := None)
  }

  /** A compensation moving its request out of `approved`, only while it owns the job.
      `None`: the pending slot is taken and the unique index refuses the release. */
  ghost function SettleOwnRequest(db: Db, c: Claim, r: Id, how: Settlement): Option<Db> {
    if !Owns(db, c) || r !in db.requests || db.requests[r].status != Approved then Some(db)
    else if how.Release? && Waiting(db).Some? then None
    else
      var q := db.requests[r];
      Some(db.(requests := db.requests[r := if how.Release? then Released(q) else Abandoned(q, how.note)]))
  }

  /* ── Revocation ────────────────────────────────────────────────────────── */

  /** What a revocation's claim did: the new rows, and the requests it moved as they were before. */
  datatype Revocation = Revocation(db: Db, moved: Option<(Id, Request)>, cancelled: Option<(Id, Request)>)

  /** The grant and its requests, without a job: what both kinds of revocation claim. */
  ghost function WithdrawRows(db: Db, g: Id, actor: Id, at: nat, note: Option<string>): Option<Revocation> {
    if !IsActive(db, g) then None
    else
      var grant := db.grants[g];
      var grants := db.grants[g := grant.(status := Revoked, revokedBy := Some(actor), revokedAt := Some(at))];
      var moved: Option<(Id, Request)> :=
        if grant.origin.Some? && grant.origin.value in db.requests && db.requests[grant.origin.value].status == Approved
        then Some((grant.origin.value, db.requests[grant.origin.value])) else None;
      var requests :=
        if moved.Some? then
          var (r, q) := moved.value;
          db.requests[r := Decided(q, Withdrawn, Some(actor), Some(at), if note.Some? then note else q.note)]
        else db.requests;
      var waiting := Waiting(db);
      var cancelled: Option<(Id, Request)> :=
        if waiting.Some? && db.requests[waiting.value].widens == Some(g)
        then Some((waiting.value, db.requests[waiting.value])) else None;
      var requests' :=
        if cancelled.Some? then
          var (r, q) := cancelled.value;
          requests[r := Decided(q, Cancelled, Some(actor), Some(at), Some(INACTIVE_GRANT_NOTE))]
        else requests;
      Some(Revocation(db.(grants := grants, requests := requests'), moved, cancelled))
  }

  /** A targeted revocation's claim also records the group removal it owes. */
  ghost function ClaimRevocation(db: Db, g: Id, actor: Id, at: nat, note: Option<string>,
      generation: nat): Option<Revocation> {
    var rows := WithdrawRows(db, g, actor, at, note);
    if rows.None? then None
    else
      var rev := rows.value;
      Some(rev.(db := rev.db.(jobs := rev.db.jobs[OfGrant(g) := Job(generation, Sending)])))
  }

  datatype Skip = GranteeDisabled | GroupAbsent

  datatype Restoration = Restoration(db: Db, restored: bool, skipped: Option<Skip>, toolRequestBack: bool)

  /** Whether the tool request a claim cancelled may go back to `pending` with its grant. */
  ghost predicate ToolRequestReturns(db: Db, g: Id, who: Id, at: nat, r: Id) {
    r in db.requests
    && db.requests[r].status == Cancelled
    && db.requests[r].widens == Some(g)
    && db.requests[r].decidedBy == Some(who)
    && db.requests[r].decidedAt == Some(at)
    && !db.recovering
    && Waiting(db).None?
  }

  /** Whether the grant still carries the claim stamped `(who, at)`. */
  predicate Carries(db: Db, g: Id, who: Id, at: nat) {
    g in db.grants
    && db.grants[g].status == Revoked
    && db.grants[g].revokedBy == Some(who)
    && db.grants[g].revokedAt == Some(at)
  }

  /** The rollback of the claim stamped `(who, at)`. `None`: another active grant
      holds the identity and the unique index refuses the restore. */
  ghost function Restore(db: Db, g: Id, who: Id, at: nat, moved: Option<(Id, Request)>,
                         cancelled: Option<(Id, Request)>, groupPresent: bool): Option<Restoration>
  {
    if !Carries(db, g, who, at) then Some(Restoration(db, false, None, false))
    else if !db.accountActive then Some(Restoration(db, false, Some(GranteeDisabled), false))
    else if !groupPresent then Some(Restoration(db, false, Some(GroupAbsent), false))
    else if Holder(db).Some? then None
    else
      var db1 := db.(
        grants := db.grants[g := db.grants[g].(status := Active, revokedBy := None, revokedAt := None)],
        jobs := db.jobs - {OfGrant(g)});
      var db2 :=
        if moved.Some? && moved.value.0 in db1.requests && db1.requests[moved.value.0].status == Withdrawn then
          var (r, q) := moved.value;
          db1.(requests := db1.requests[r := Decided(db1.requests[r], q.status, q.decidedBy, q.decidedAt, q.note)])
        else db1;
      if cancelled.Some? && ToolRequestReturns(db2, g, who, at, cancelled.value.0) then
        var (r, q) := cancelled.value;
        Some(Restoration(
               db2.(requests := db2.requests[r := Decided(db2.requests[r], Pending, q.decidedBy, q.decidedAt, q.note)]),
               true, None, true))
      else Some(Restoration(db2, true, None, false))
  }

  /* ── Recovery of an approval ───────────────────────────────────────────── */

  datatype Verdict = Free | Drop | Kept | Nothing

  /** Whether every id of `ids` is in the subset `tools`. */
  predicate Includes(tools: Subset, ids: seq<Id>) {
    tools.None? || forall id :: id in ids ==> id in tools.value
  }

  function AddedTools(q: Request): seq<Id> {
    if q.approvedTools.Some? then q.approvedTools.value else []
  }

  /** What recovery decides for request `r`, read as `q`, when the identity's active grant is `live`. */
  function Judge(r: Id, q: Request, live: Option<(Id, Grant)>): Verdict {
    if q.status != Approved then Nothing
    else if q.widens.None? then
      if live.Some? && live.value.1.origin == Some(r) then Kept
      else if live.Some? then Drop
      else Free
    else if live.Some? && Some(live.value.0) == q.widens then
      if Includes(live.value.1.tools, AddedTools(q)) then Kept else Free
    else Drop
  }

  /** The transaction that ends an approval's recovery. `None`: the claim is no longer current. */
  ghost function SettleApproval(db: Db, c: Claim, r: Id, q: Request, live: Option<(Id, Grant)>): Option<Db> {
    if !Owns(db, c) then None
    else
      var db1 := DeleteClaimed(db, c);
      var verdict := Judge(r, q, live);
      var occupied := verdict == Free && Waiting(db1).Some? && Waiting(db1) != Some(r);
      if r !in db1.requests || db1.requests[r].status != Approved then Some(db1)
      else if verdict == Drop || occupied then
        var note := if occupied then NEWER_REQUEST_NOTE
                    else if q.widens.None? then ALREADY_GRANTED_NOTE else INACTIVE_GRANT_NOTE;
        Some(db1.(requests := db1.requests[r := Abandoned(db1.requests[r], note)]))
      else if verdict == Free then
        Some(db1.(requests := db1.requests[r := Released(db1.requests[r])]))
      else Some(db1)
  }

  /* ── What the transactions keep and undo ───────────────────────────────── */

  lemma HolderIs(db: Db, g: Id)
    requires WellFormed(db) && IsActive(db, g)
    ensures Holder(db) == Some(g)
  {}

  lemma WaitingIs(db: Db, r: Id)
    requires WellFormed(db) && IsPending(db, r)
    ensures Waiting(db) == Some(r)
  {}

  /** After a claim no grant is active, and no request waits if the claim cancelled one. */
  lemma ClaimLeavesNone(db: Db, g: Id, actor: Id, at: nat, note: Option<string>, generation: nat)
    requires WellFormed(db) && IsActive(db, g)
    ensures
      var rev := ClaimRevocation(db, g, actor, at, note, generation);
      && rev.Some?
      && NoActive(rev.value.db)
      && Carries(rev.value.db, g, actor, at)
      && (rev.value.cancelled.Some? ==> Waiting(rev.value.db).None?)
  {
    var rev := ClaimRevocation(db, g, actor, at, note, generation).value;
    forall h ensures !IsActive(rev.db, h) {
      assert IsActive(rev.db, h) ==> IsActive(db, h);
    }
    forall r ensures rev.cancelled.Some? ==> !IsPending(rev.db, r) {
      assert IsPending(rev.db, r) ==> IsPending(db, r);
    }
  }

  /** A claim that is rolled back leaves every row exactly as it found it. */
  lemma RestoreUndoesClaim(db: Db, g: Id, actor: Id, at: nat, note: Option<string>, generation: nat)
    requires WellFormed(db) && db.accountActive && !db.recovering && IsActive(db, g)
    ensures
      var rev := ClaimRevocation(db, g, actor, at, note, generation);
      rev.Some?
      && Restore(rev.value.db, g, actor, at, rev.value.moved, rev.value.cancelled, true)
         == Some(Restoration(db, true, None, rev.value.cancelled.Some?))
  {
    ClaimLeavesNone(db, g, actor, at, note, generation);
    var rev := ClaimRevocation(db, g, actor, at, note, generation).value;
    RollbackOfGrant(db, g, actor, at, note, generation);
    if rev.cancelled.Some? {
      var (t, q) := rev.cancelled.value;
      var mid := Restore(rev.db, g, actor, at, rev.moved, None, true).value.db;
      assert ToolRequestReturns(mid, g, actor, at, t);
      assert mid.requests[t := Decided(mid.requests[t], Pending, q.decidedBy, q.decidedAt, q.note)] == db.requests;
    }
  }

  /** Without the tool request, a rollback leaves only that one request as the claim left it. */
  lemma RollbackOfGrant(db: Db, g: Id, actor: Id, at: nat, note: Option<string>, generation: nat)
    requires WellFormed(db) && db.accountActive && !db.recovering && IsActive(db, g)
    ensures
      var rev := ClaimRevocation(db, g, actor, at, note, generation).value;
      var mid := Restore(rev.db, g, actor, at, rev.moved, None, true);
      && mid.Some? && mid.value.restored && mid.value.skipped.None? && !mid.value.toolRequestBack
      && mid.value.db == db.(requests := mid.value.db.requests)
      && mid.value.db.requests
         == (if rev.cancelled.Some? then db.requests[rev.cancelled.value.0 := rev.db.requests[rev.cancelled.value.0]]
         else db.requests)
      && Waiting(mid.value.db).Some? == (rev.cancelled.None? && Waiting(db).Some?)
  {
    ClaimLeavesNone(db, g, actor, at, note, generation);
    var rev := ClaimRevocation(db, g, actor, at, note, generation).value;
    var mid := Restore(rev.db, g, actor, at, rev.moved, None, true).value.db;
    assert mid.grants == db.grants && mid.jobs == db.jobs;
    if rev.cancelled.Some? {
      forall r ensures !IsPending(mid, r) {
        assert IsPending(mid, r) ==> IsPending(rev.db, r);
      }
    }
  }

  /** A rollback puts its grant back exactly when the grant still carries this very
      claim, its grantee is active and its group is still there. */
  lemma RestoreExactly(db: Db, g: Id, who: Id, at: nat, moved: Option<(Id, Request)>,
                       cancelled: Option<(Id, Request)>, groupPresent: bool)
    requires WellFormed(db)
    ensures
      var out := Restore(db, g, who, at, moved, cancelled, groupPresent);
      && (out.None? <==> Carries(db, g, who, at) && db.accountActive && groupPresent && Holder(db).Some?)
      && (out.Some? ==>
            && (out.value.restored <==> Carries(db, g, who, at) && db.accountActive && groupPresent)
            && (!out.value.restored ==> out.value.db == db)
            && (out.value.restored ==> IsActive(out.value.db, g) && OfGrant(g) !in out.value.db.jobs)
            && (forall h :: h != g && h in db.grants ==>
                h in out.value.db.grants && out.value.db.grants[h] == db.grants[h])
            && (forall s :: s != OfGrant(g) && s in db.jobs ==>
                s in out.value.db.jobs && out.value.db.jobs[s] == db.jobs[s]))
  {}

  /** Running the rollback again changes nothing more. */
  lemma RestoreTwice(db: Db, g: Id, who: Id, at: nat, moved: Option<(Id, Request)>,
                     cancelled: Option<(Id, Request)>, first: bool, second: bool)
    requires Restore(db, g, who, at, moved, cancelled, first).Some?
    requires Restore(db, g, who, at, moved, cancelled, first).value.restored
    ensures
      var once := Restore(db, g, who, at, moved, cancelled, first).value.db;
      Restore(once, g, who, at, moved, cancelled, second) == Some(Restoration(once, false, None, false))
  {}

  /* ── Every transaction keeps the rows well formed ──────────────────────── */

  lemma FileKeepsWellFormed(db: Db, r: Id, tools: Subset, actor: Id, at: nat)
    requires WellFormed(db) && FileRequest(db, r, tools, actor, at).Some?
    ensures WellFormed(FileRequest(db, r, tools, actor, at).value)
  {
    var filed := FileRequest(db, r, tools, actor, at).value;
    forall q | q in filed.requests && filed.requests[q].status == Pending ensures q == r {
      assert q != r ==> q in db.requests;
    }
    assert filed.grants == db.grants && filed.jobs == db.jobs;
  }

  lemma FileToolsKeepsWellFormed(db: Db, r: Id, g: Id, ids: seq<Id>)
    requires WellFormed(db) && FileToolRequest(db, r, g, ids).Some?
    ensures WellFormed(FileToolRequest(db, r, g, ids).value)
  {}

  lemma CloseKeepsWellFormed(db: Db, r: Id, status: RequestStatus, actor: Id, at: nat, note: Option<string>)
    requires WellFormed(db) && CloseRequest(db, r, status, actor, at, note).Some?
    ensures WellFormed(CloseRequest(db, r, status, actor, at, note).value)
  {}

  lemma FewerJobsKeepWellFormed(db: Db, jobs: map<Subject, Job>)
    requires WellFormed(db) && jobs.Keys <= db.jobs.Keys
    ensures WellFormed(db.(jobs := jobs))
  {
    assert forall g :: OfGrant(g) in jobs ==> OfGrant(g) in db.jobs;
  }

  lemma JobsKeepWellFormed(db: Db, c: Claim, s: Subject, generation: nat)
    requires WellFormed(db)
    ensures WellFormed(DeleteClaimed(db, c)) && WellFormed(Requeue(db, c))
    ensures ReleaseStale(db, s).Some? ==> WellFormed(ReleaseStale(db, s).value)
    ensures ClaimDue(db, s, generation).Some? ==> WellFormed(ClaimDue(db, s, generation).value)
  {
    hide WellFormed;
    FewerJobsKeepWellFormed(db, DeleteClaimed(db, c).jobs);
    FewerJobsKeepWellFormed(db, Requeue(db, c).jobs);
    if ReleaseStale(db, s).Some? { FewerJobsKeepWellFormed(db, ReleaseStale(db, s).value.jobs); }
    if ClaimDue(db, s, generation).Some? { FewerJobsKeepWellFormed(db, ClaimDue(db, s, generation).value.jobs); }
  }

  lemma ClaimKeepsWellFormed(db: Db, r: Id, actor: Id, tools: Subset, at: nat, note: Option<string>, generation: nat)
    requires WellFormed(db) && ClaimApproval(db, r, actor, tools, at, note, generation).Some?
    ensures WellFormed(ClaimApproval(db, r, actor, tools, at, note, generation).value)
  {}

  lemma CommitKeepsWellFormed(db: Db, c: Claim, r: Id, g: Id, tools: Subset)
    requires WellFormed(db) && CommitGrant(db, c, r, g, tools).Some?
    requires r in db.requests && db.requests[r].widens.None?
    ensures WellFormed(CommitGrant(db, c, r, g, tools).value)
  {}

  lemma WidenKeepsWellFormed(db: Db, c: Claim, g: Id, current: seq<Id>, added: seq<Id>)
    requires WellFormed(db) && WidenGrant(db, c, g, current, added).Some?
    ensures WellFormed(WidenGrant(db, c, g, current, added).value)
  {}

  lemma SettleOwnKeepsWellFormed(db: Db, c: Claim, r: Id, how: Settlement)
    requires WellFormed(db) && SettleOwnRequest(db, c, r, how).Some?
    ensures WellFormed(SettleOwnRequest(db, c, r, how).value)
  {}

  lemma SettleKeepsWellFormed(db: Db, c: Claim, r: Id, q: Request, live: Option<(Id, Grant)>)
    requires WellFormed(db) && SettleApproval(db, c, r, q, live).Some?
    ensures WellFormed(SettleApproval(db, c, r, q, live).value)
  {
    var db1 := DeleteClaimed(db, c);
    assert WellFormed(db1);
    var out := SettleApproval(db, c, r, q, live).value;
    if out != db1 {
      MovedKeepsWellFormed(db1, r, out.requests[r]);
    }
  }

  /** A request may move, but to `pending` only when no other request waits. */
  lemma MovedKeepsWellFormed(db: Db, r: Id, q: Request)
    requires WellFormed(db) && r in db.requests && q.widens == db.requests[r].widens
    requires q.status == Pending ==> Waiting(db).None? || Waiting(db) == Some(r)
    ensures WellFormed(db.(requests := db.requests[r := q]))
  {
    if q.status == Pending {
      forall x | x in db.requests && x != r ensures db.requests[x].status != Pending {
        if db.requests[x].status == Pending {
          WaitingIs(db, x);
        }
      }
    }
  }

  lemma WithdrawKeepsWellFormed(db: Db, g: Id, actor: Id, at: nat, note: Option<string>)
    requires WellFormed(db) && WithdrawRows(db, g, actor, at, note).Some?
    ensures WellFormed(WithdrawRows(db, g, actor, at, note).value.db)
  {}

  lemma RevocationKeepsWellFormed(db: Db, g: Id, actor: Id, at: nat, note: Option<string>, generation: nat)
    requires WellFormed(db) && ClaimRevocation(db, g, actor, at, note, generation).Some?
    ensures WellFormed(ClaimRevocation(db, g, actor, at, note, generation).value.db)
  {
    WithdrawKeepsWellFormed(db, g, actor, at, note);
  }

  lemma RestoreKeepsWellFormed(db: Db, g: Id, who: Id, at: nat, moved: Option<(Id, Request)>,
                               cancelled: Option<(Id, Request)>, groupPresent: bool)
    requires WellFormed(db) && Restore(db, g, who, at, moved, cancelled, groupPresent).Some?
    requires moved.Some? ==> moved.value.1.status == Approved
    ensures WellFormed(Restore(db, g, who, at, moved, cancelled, groupPresent).value.db)
  {}
}
