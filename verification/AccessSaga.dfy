/** The access workflow and its recovery as a transition system over one
    (API, identity) pair.

    The portal rows (`Db`) change by whole transactions. The identity's gateway
    consumer changes only by conditional writes: a process reads the consumer and
    its tag, checks its guard, and puts a write in flight; the write lands at any
    later moment, in any order, and takes effect only if the tag is still the one
    that was read. Any process may stop between any two steps, and may lose the
    consumer key without noticing; only its transactions are then refused. */
module AccessSaga {
  import opened Wrappers
  import opened AccessRows

  /** The gateway groups of this API: its approval group and its tool groups. */
  datatype Group = Rest | McpAll | McpTool(id: Id)

  /** Which groups a grant of the subset `tools` covers. */
  function Covers(tools: Subset): set<Group> {
    {Rest} + if tools.None? then {McpAll} else set id | id in tools.value :: McpTool(id)
  }

  /** What recovery writes over `groups` when the identity's active grant is `live`. */
  function Reconciled(groups: set<Group>, live: Option<Grant>, accountActive: bool): set<Group> {
    var canonical := if live.Some? then Covers(live.value.tools) else {};
    var kept := groups * canonical;
    kept + if accountActive then canonical - kept else {}
  }

  /** One conditional write in flight. `settles` is the claim whose job is no longer
      owed once the write has landed, `strips` the teardown it carries out, and
      `fenced` whether its owner held the consumer key when it was issued. */
  datatype Put = Put(owner: nat, tag: nat, groups: set<Group>, settles: Option<Claim>, strips: Option<nat>,
      fenced: bool)

  datatype Work =
    | Approve(request: Id, tools: Subset)
    | Widen(request: Id, grant: Id, current: seq<Id>, added: seq<Id>, wasActive: bool, covered: bool)
    | Revoke(grant: Id, who: Id, at: nat, moved: Option<(Id, Request)>, cancelled: Option<(Id, Request)>)
    | FinishRevoke(grant: Id)
    | FinishApprove(request: Id, seen: Option<Request>, live: Option<(Id, Grant)>)
    | Strip
    | Rebuild(found: Option<Option<Subset>>)
    | Sweep

  /** Which write a process is making: its own, or a compensation. */
  datatype Undo = Forward | RemoveAll | StripTools(ids: seq<Id>) | Reconcile

  datatype Phase =
    | Ready(undo: Undo)
    | Entered(undo: Undo)
    | HasRead(undo: Undo, tag: nat, groups: set<Group>)
    | Issued(undo: Undo, put: nat, base: nat, wrote: set<Group>, landed: bool)
    | Written(base: nat, wrote: set<Group>)
    | Failed(attempted: bool)
    | Judging(present: bool)
    | Settling(ok: bool)
    | Closing(done: bool)

  datatype Proc = Proc(work: Work, generation: nat, phase: Phase)

  /** `next` supplies fresh process ids, write ids and generations. The last two
      fields are history: `armed` holds the subjects of the jobs that still stand for
      access the gateway may carry, and `teardownArmed` says the same of the account
      teardown. */
  datatype State = State(
    db: Db, groups: set<Group>, tag: nat,
    puts: map<nat, Put>, procs: map<nat, Proc>,
    key: Option<nat>, teardown: Option<nat>, next: nat,
    armed: set<Subject>, teardownArmed: bool)

  const Start := State(Db(map[], map[], map[], true, false), {}, 1, map[], map[], None, None, 0, {}, false)

  /* ── Helpers ───────────────────────────────────────────────────────────── */

  function ClaimOf(p: Proc): Option<Claim> {
    match p.work
    case Approve(r, _) => Some(Claim(OfRequest(r), p.generation))
    case Widen(r, _, _, _, _, _) => Some(Claim(OfRequest(r), p.generation))
    case FinishApprove(r, _, _) => Some(Claim(OfRequest(r), p.generation))
    case Revoke(g, _, _, _, _) => Some(Claim(OfGrant(g), p.generation))
    case FinishRevoke(g) => Some(Claim(OfGrant(g), p.generation))
    case _ => None
  }

  predicate IsAdd(w: Work) {
    w.Approve? || w.Widen?
  }

  predicate OwnsRow(db: Db, p: Proc) {
    ClaimOf(p).Some? && Owns(db, ClaimOf(p).value)
  }

  /** Release the consumer key, if `p` still holds it. */
  function Leave(s: State, p: nat): State {
    s.(key := if s.key == Some(p) then None else s.key)
  }

  function End(s: State, p: nat): State {
    Leave(s, p).(procs := s.procs - {p})
  }

  function Goto(s: State, p: nat, phase: Phase): State
    requires p in s.procs
  {
    s.(procs := s.procs[p := s.procs[p].(phase := phase)])
  }

  /** The job of `p`'s claim no longer stands for anything, if it is still the current one. */
  function Disarm(s: State, p: nat): State
    requires p in s.procs
  {
    if OwnsRow(s.db, s.procs[p]) then s.(armed := s.armed - {ClaimOf(s.procs[p]).value.subject}) else s
  }

  /** `p` with its write of `groups` in flight. */
  function Posted(s: State, p: nat, groups: set<Group>): Proc
    requires p in s.procs && s.procs[p].phase.HasRead?
  {
    s.procs[p].(phase := Issued(s.procs[p].phase.undo, s.next, s.procs[p].phase.tag, groups, false))
  }

  /** Put a write of `groups` in flight for `p`, which has read the consumer. */
  function Emit(s: State, p: nat, groups: set<Group>, settles: bool, strips: Option<nat>): State
    requires p in s.procs && s.procs[p].phase.HasRead?
  {
    var put := Put(p, s.procs[p].phase.tag, groups, if settles then ClaimOf(s.procs[p])
      else None, strips, s.key == Some(p));
    s.(procs := s.procs[p := Posted(s, p, groups)], puts := s.puts[s.next := put], next := s.next + 1)
  }

  function Spawn(s: State, work: Work, generation: nat, phase: Phase): State {
    s.(procs := s.procs[s.next := Proc(work, generation, phase)], next := s.next + 1)
  }

  ghost function HeldBy(db: Db): Option<(Id, Grant)> {
    if Holder(db).Some? then Some((Holder(db).value, db.grants[Holder(db).value])) else None
  }

  ghost function HeldGrant(db: Db): Option<Grant> {
    if Holder(db).Some? then Some(db.grants[Holder(db).value]) else None
  }

  /* ── Decisions and the account ─────────────────────────────────────────── */

  datatype Step =
    | StepFile(request: Id, tools: Subset, actor: Id, at: nat)
    | StepFileTools(request: Id, grant: Id, ids: seq<Id>)
    | StepClose(request: Id, status: RequestStatus, actor: Id, at: nat, note: Option<string>)
    | StepApprove(request: Id, actor: Id, tools: Subset, at: nat, note: Option<string>)
    | StepApproveTools(request: Id, actor: Id, added: seq<Id>, at: nat, note: Option<string>)
    | StepRevoke(grant: Id, actor: Id, at: nat, note: Option<string>)
    | StepSweep(grant: Id, actor: Id, at: nat, note: Option<string>)
    | StepDisable
    | StepEnable
    | StepRetryTeardown
    | StepRecovering(outstanding: bool)
    | StepReleaseStale(subject: Subject)
    | StepRecover(subject: Subject)
    | StepTeardown
    | StepRebuild
    | StepLook(p: nat)
    | StepReadGrants(p: nat)
    | StepEnter(p: nat, held: bool)
    | StepRefused(p: nat)
    | StepRead(p: nat)
    | StepIssueAdd(p: nat)
    | StepIssueRemoveAll(p: nat)
    | StepIssueStripTools(p: nat)
    | StepIssueReconcile(p: nat)
    | StepIssueRevoke(p: nat)
    | StepIssueRecovery(p: nat)
    | StepIssueTeardown(p: nat)
    | StepIssueRebuild(p: nat)
    | StepIssueSweep(p: nat)
    | StepLand(put: nat)
    | StepOtherApi
    | StepAck(p: nat)
    | StepFail(p: nat)
    | StepCrash(p: nat)
    | StepLoseKey
    | StepCommit(p: nat, grant: Id)
    | StepCommitFails(p: nat)
    | StepObserve(p: nat, unreadable: bool, grantUnreadable: bool)
    | StepSettle(p: nat, stored: bool)
    | StepCloseJob(p: nat)
    | StepPresence(p: nat, unreadable: bool)
    | StepRestore(p: nat, acknowledged: bool)
    | StepGiveUp(p: nat)
    | StepFinish(p: nat)
    | StepTornDown(p: nat)

  /** Whether approving `tools` broadens nothing that was requested. */
  predicate Within(tools: Subset, requested: Subset) {
    requested.None? || (tools.Some? && forall id :: id in tools.value ==> id in requested.value)
  }

  /** An approval's claim, and the process that goes on with it. */
  ghost function DoApprove(s: State, r: Id, actor: Id, tools: Subset, at: nat, note: Option<string>): Option<State> {
    var db := ClaimApproval(s.db, r, actor, tools, at, note, s.next);
    if db.None? || s.db.requests[r].widens.Some? || Holder(s.db).Some?
      || !Within(tools, s.db.requests[r].requestedTools) then None
    else Some(Spawn(s.(db := db.value), Approve(r, tools), s.next, Ready(Forward)))
  }

  /** The claim of an approval that widens an active explicit-subset grant. */
  function DoApproveTools(s: State, r: Id, actor: Id, added: seq<Id>, at: nat, note: Option<string>): Option<State> {
    var db := ClaimApproval(s.db, r, actor, Some(added), at, note, s.next);
    if db.None? || s.db.requests[r].widens.None? then None
    else
      var q := s.db.requests[r];
      var g := q.widens.value;
      if !IsActive(s.db, g) || s.db.grants[g].tools.None? || added == []
         || !(forall id :: id in added ==> q.requestedTools.Some? && id in q.requestedTools.value)
         || (exists id :: id in added && id in s.db.grants[g].tools.value)
      then None
      else Some(Spawn(s.(db := db.value), Widen(r, g, s.db.grants[g].tools.value, added, false, false), s.next,
        Ready(Forward)))
  }

  ghost function DoRevoke(s: State, g: Id, actor: Id, at: nat, note: Option<string>): Option<State> {
    var rev := ClaimRevocation(s.db, g, actor, at, note, s.next);
    if rev.None? then None
    else Some(Spawn(s.(db := rev.value.db, armed := s.armed + {OfGrant(g)}),
                    Revoke(g, actor, at, rev.value.moved, rev.value.cancelled), s.next, Ready(Forward)))
  }

  /** One claim of the disable sweep: no job, because a teardown is meant to be owed. */
  ghost function DoSweep(s: State, g: Id, actor: Id, at: nat, note: Option<string>): Option<State> {
    var rev := WithdrawRows(s.db, g, actor, at, note);
    if rev.None? then None else Some(Spawn(s.(db := rev.value.db), Sweep, s.next, Ready(Forward)))
  }

  /** The disable commits with the teardown it owes. */
  function DoDisable(s: State): Option<State> {
    if s.db.accountActive
    then Some(s.(db := s.db.(accountActive := false), teardown := Some(s.next), teardownArmed := true,
        next := s.next + 1))
    else None
  }

  /** The re-enable cancels the teardown, and only then rebuilds the groups. */
  function DoEnable(s: State): Option<State> {
    if s.db.accountActive then None
    else Some(Spawn(s.(db := s.db.(accountActive := true), teardown := None, teardownArmed := false),
                    Rebuild(None), s.next, Ready(Forward)))
  }

  function DoRetryTeardown(s: State): Option<State> {
    if s.db.accountActive then None
    else Some(s.(teardown := Some(s.next), teardownArmed := true, next := s.next + 1))
  }

  function DoReleaseStale(s: State, subject: Subject): Option<State> {
    var db := ReleaseStale(s.db, subject);
    if db.None? then None else Some(s.(db := db.value, armed := s.armed + {subject}))
  }

  /** A worker claims a queued job and starts on it. */
  function DoRecover(s: State, subject: Subject): Option<State> {
    var db := ClaimDue(s.db, subject, s.next);
    if db.None? then None
    else
      var work := if subject.OfGrant? then FinishRevoke(subject.grant) else FinishApprove(subject.request, None, None);
      Some(Spawn(s.(db := db.value, armed := s.armed + {subject}), work, s.next, Ready(Forward)))
  }

  function DoTeardown(s: State): Option<State> {
    if s.teardown.None? then None else Some(Spawn(s, Strip, s.teardown.value, Ready(Forward)))
  }

  /* ── One guarded write ─────────────────────────────────────────────────── */

  /** Recovery reads the request it is about to settle, if the job is still its own. */
  function DoLook(s: State, p: nat): Option<State> {
    if p !in s.procs || s.procs[p].phase != Ready(Forward) || !s.procs[p].work.FinishApprove? then None
    else
      var proc := s.procs[p];
      if !OwnsRow(s.db, proc) then Some(End(s, p))
      else if proc.work.request !in s.db.requests then None
      else Some(s.(procs := s.procs[p := proc.(work := proc.work.(seen := Some(s.db.requests[proc.work.request])))]))
  }

  /** The rebuild reads the active grant inside the consumer key, before it reads the consumer. */
  ghost function DoReadGrants(s: State, p: nat): Option<State> {
    if p !in s.procs || s.procs[p].phase != Entered(Forward) || !s.procs[p].work.Rebuild? then None
    else
      var found := if Holder(s.db).Some? then Some(s.db.grants[Holder(s.db).value].tools) else None;
      Some(s.(procs := s.procs[p := s.procs[p].(work := Rebuild(Some(found)))]))
  }

  /** Take the consumer key and check the account. `held` is false for a process
      that has already lost the key it took. */
  function DoEnter(s: State, p: nat, held: bool): Option<State> {
    if p !in s.procs || !s.procs[p].phase.Ready? || (held && s.key.Some?) then None
    else
      var proc := s.procs[p];
      var undo := proc.phase.undo;
      if ((IsAdd(proc.work) && undo.Forward?) || proc.work.Rebuild?) && !s.db.accountActive then None
      else if proc.work.Strip? && s.db.accountActive then None
      else if proc.work.FinishApprove? && proc.work.seen.None? then None
      else Some(Goto(s, p, Entered(undo)).(key := if held then Some(p) else s.key))
  }

  /** The account check refusing an addition before anything is read. */
  function DoRefused(s: State, p: nat): Option<State> {
    if p in s.procs && s.procs[p].phase == Ready(Forward) && IsAdd(s.procs[p].work) && !s.db.accountActive
    then Some(Goto(s, p, Failed(false)))
    else None
  }

  function DoRead(s: State, p: nat): Option<State> {
    if p !in s.procs || !s.procs[p].phase.Entered? then None
    else if s.procs[p].work.Rebuild? && s.procs[p].work.found.None? then None
    else Some(Goto(s, p, HasRead(s.procs[p].phase.undo, s.tag, s.groups)))
  }

  /** Whether `p` is about to issue a write of kind `undo`. */
  predicate Poised(s: State, p: nat, undo: Undo) {
    p in s.procs && s.procs[p].phase.HasRead? && s.procs[p].phase.undo == undo
  }

  /** Whether an approval's guard finds the identity held by a grant that is not its own. */
  ghost predicate HeldByAnother(db: Db, w: Work)
    requires IsAdd(w)
  {
    var held := HeldBy(db);
    held.Some? &&
    match w
    case Approve(r, _) => held.value.1.origin != Some(r)
    case Widen(_, g, current, _, _, _) => held.value.0 != g || held.value.1.tools != Some(current)
  }

  /** An approval's guard and write: nothing unless the job is still its own and no
      other grant holds the identity. */
  ghost function DoIssueAdd(s: State, p: nat): Option<State> {
    if !Poised(s, p, Forward) || !IsAdd(s.procs[p].work) then None
    else
      var proc := s.procs[p];
      if !OwnsRow(s.db, proc) then Some(End(s, p))
      else if HeldByAnother(s.db, proc.work) then Some(Goto(Leave(s, p), p, Closing(false)))
      else
        var tools := if proc.work.Approve? then proc.work.tools else Some(proc.work.current + proc.work.added);
        Some(Emit(s, p, Covers(tools), false, None).(armed := s.armed + {ClaimOf(proc).value.subject}))
  }

  /** A compensation taking every group of the API off, unless a grant owns them now. */
  ghost function DoIssueRemoveAll(s: State, p: nat): Option<State> {
    if !Poised(s, p, RemoveAll) || !IsAdd(s.procs[p].work) then None
    else if Holder(s.db).None? then Some(Emit(s, p, {}, true, None))
    else
      var work := s.procs[p].work;
      var own := work.Widen? || s.db.grants[Holder(s.db).value].origin == Some(work.request);
      Some(Goto(Disarm(Leave(s, p), p), p, Closing(own)))
  }

  /** The tools among `ids` that the identity's active grant does not cover. */
  ghost function Uncovered(db: Db, ids: seq<Id>): set<Id> {
    if Holder(db).None? then set id | id in ids
    else
      var tools := db.grants[Holder(db).value].tools;
      if tools.None? then {} else set id | id in ids && id !in tools.value
  }

  /** A compensation taking off the tool groups the active grant does not cover now. */
  ghost function DoIssueStripTools(s: State, p: nat): Option<State> {
    if p !in s.procs || !s.procs[p].phase.HasRead? || !s.procs[p].phase.undo.StripTools?
      || !s.procs[p].work.Widen? then None
    else
      var proc := s.procs[p];
      var off := set id | id in Uncovered(s.db, proc.phase.undo.ids) :: McpTool(id);
      var covered := Holder(s.db).Some? && Uncovered(s.db, proc.work.added) == {};
      var s1 := s.(procs := s.procs[p := proc.(work := proc.work.(covered := covered))]);
      Some(Emit(s1, p, proc.phase.groups - off, false, None))
  }

  /** A tool approval whose grant covers its tools after all sets the groups to that grant. */
  ghost function DoIssueReconcile(s: State, p: nat): Option<State> {
    if !Poised(s, p, Reconcile) || !s.procs[p].work.Widen? then None
    else Some(Emit(s, p, Reconciled(s.procs[p].phase.groups, HeldGrant(s.db), s.db.accountActive), false, None))
  }

  /** A revocation's removal, its own or a worker's: only while it still owns the job
      and no active grant stands behind the groups. */
  ghost function DoIssueRevoke(s: State, p: nat): Option<State> {
    if !Poised(s, p, Forward) || !(s.procs[p].work.Revoke? || s.procs[p].work.FinishRevoke?) then None
    else if !OwnsRow(s.db, s.procs[p]) then Some(End(s, p))
    else if Holder(s.db).Some? then Some(Goto(Disarm(Leave(s, p), p), p, Closing(true)))
    else Some(Emit(s, p, {}, true, None))
  }

  /** Recovery of an approval sets the groups to what the active grant covers, and
      writes even when nothing changes. */
  ghost function DoIssueRecovery(s: State, p: nat): Option<State> {
    if !Poised(s, p, Forward) || !s.procs[p].work.FinishApprove? then None
    else
      var proc := s.procs[p];
      var live := HeldBy(s.db);
      var s1 := s.(procs := s.procs[p := proc.(work := proc.work.(live := live))]);
      var s2 := if live.Some? then Disarm(s1, p) else s1;
      Some(Emit(s2, p, Reconciled(proc.phase.groups, HeldGrant(s.db), s.db.accountActive), live.None?, None))
  }

  function DoIssueTeardown(s: State, p: nat): Option<State> {
    if !Poised(s, p, Forward) || !s.procs[p].work.Strip? then None
    else Some(Emit(s, p, {}, false, Some(s.procs[p].generation)))
  }

  /** The rebuild writes the groups of the grant it read, and nothing when there is
      neither a grant nor a group. */
  function DoIssueRebuild(s: State, p: nat): Option<State> {
    if !Poised(s, p, Forward) || !s.procs[p].work.Rebuild? || s.procs[p].work.found.None? then None
    else
      var found := s.procs[p].work.found.value;
      if found.None? && s.procs[p].phase.groups == {} then Some(End(s, p))
      else Some(Emit(s, p, if found.Some? then Covers(found.value) else {}, false, None))
  }

  function DoIssueSweep(s: State, p: nat): Option<State> {
    if !Poised(s, p, Forward) || !s.procs[p].work.Sweep? then None else Some(Emit(s, p, {}, false, None))
  }

  /** A write reaches the gateway. It takes effect only under the tag it names. */
  function DoLand(s: State, q: nat): Option<State> {
    if q !in s.puts then None
    else
      var put := s.puts[q];
      var s1 := s.(puts := s.puts - {q});
      if put.tag != s.tag then Some(s1)
      else
        var s2 := s1.(
          groups := put.groups, tag := s.tag + 1,
          armed := if put.settles.Some? && Owns(s.db, put.settles.value) then s.armed - {put.settles.value.subject}
              else s.armed,
          teardownArmed := s.teardownArmed && !(put.strips.Some? && put.strips == s.teardown));
        if put.owner in s.procs && s.procs[put.owner].phase.Issued? && s.procs[put.owner].phase.put == q
        then Some(Goto(s2, put.owner, s.procs[put.owner].phase.(landed := true)))
        else Some(s2)
  }

  /** A write for another API lands on the same consumer: a new tag, these groups as they were. */
  function DoOtherApi(s: State): Option<State> {
    Some(s.(tag := s.tag + 1))
  }

  /** The gateway acknowledges a write that landed. */
  function DoAck(s: State, p: nat): Option<State> {
    if p !in s.procs || !s.procs[p].phase.Issued? || !s.procs[p].phase.landed then None
    else
      var proc := s.procs[p];
      var written := Written(proc.phase.base, proc.phase.wrote);
      match proc.work
      case Approve(_, _) =>
        if proc.phase.undo.Forward? then Some(Goto(s, p, written)) else Some(Goto(Leave(s, p), p, Settling(true)))
      case Widen(_, _, _, _, _, covered) =>
        if proc.phase.undo.Forward? then Some(Goto(s, p, written))
        else if proc.phase.undo.Reconcile?
          || (proc.phase.undo.StripTools? && covered) then Some(Goto(Leave(s, p), p, Closing(true)))
        else Some(Goto(Leave(s, p), p, Settling(true)))
      case Revoke(_, _, _, _, _) => Some(Goto(Leave(s, p), p, Closing(true)))
      case FinishRevoke(_) => Some(Goto(Leave(s, p), p, written))
      case FinishApprove(_, _, _) => Some(Goto(Leave(s, p), p, written))
      case Strip => Some(Goto(Leave(s, p), p, written))
      case Rebuild(_) => Some(End(s, p))
      case Sweep => Some(End(s, p))
  }

  /** Any error on the way, a lost acknowledgement included. */
  function DoFail(s: State, p: nat): Option<State> {
    if p !in s.procs then None
    else
      var proc := s.procs[p];
      if !(proc.phase.Ready? || proc.phase.Entered? || proc.phase.HasRead? || proc.phase.Issued?) then None
      else
        var undo := proc.phase.undo;
        match proc.work
        case Approve(_, _) =>
          Some(Goto(Leave(s, p), p, if undo.Forward? then Failed(true) else Settling(false)))
        case Widen(_, _, _, _, _, covered) =>
          if undo.Forward? then Some(Goto(Leave(s, p), p, Failed(true)))
          else if undo.Reconcile? || (undo.StripTools? && covered) then Some(Goto(Leave(s, p), p, Closing(false)))
          else Some(Goto(Leave(s, p), p, Settling(false)))
        case Revoke(_, _, _, _, _) => Some(Goto(Leave(s, p), p, Failed(true)))
        case FinishRevoke(_) => Some(Goto(Leave(s, p), p, Closing(false)))
        case FinishApprove(_, _, _) => Some(Goto(Leave(s, p), p, Closing(false)))
        case _ => Some(End(s, p))
  }

  /* ── After the write ───────────────────────────────────────────────────── */

  /** The transaction inside the consumer key that commits what the write was for. */
  ghost function DoCommit(s: State, p: nat, g: Id): Option<State> {
    if p !in s.procs || !s.procs[p].phase.Written? || s.key != Some(p) then None
    else
      var proc := s.procs[p];
      match proc.work
      case Approve(r, tools) =>
        var db := CommitGrant(s.db, ClaimOf(proc).value, r, g, tools);
        if db.None? then None else Some(End(s, p).(db := db.value, armed := s.armed - {OfRequest(r)}))
      case Widen(r, held, current, added, _, _) =>
        var db := WidenGrant(s.db, ClaimOf(proc).value, held, current, added);
        if db.None? || g != held then None else Some(End(s, p).(db := db.value, armed := s.armed - {OfRequest(r)}))
      case _ => None
  }

  /** That transaction refused: a lost key, a lost claim, a disabled application, a failed insert. */
  function DoCommitFails(s: State, p: nat): Option<State> {
    if p in s.procs && s.procs[p].phase.Written? && IsAdd(s.procs[p].work)
    then Some(Goto(Leave(s, p), p, Failed(true)))
    else None
  }

  /** The first reads of an approval's compensation, which decide what to undo; a
      read that fails counts as finding nothing. */
  ghost function DoObserve(s: State, p: nat, unreadable: bool, grantUnreadable: bool): Option<State> {
    if p !in s.procs || !s.procs[p].phase.Failed? || !IsAdd(s.procs[p].work) then None
    else
      var proc := s.procs[p];
      var attempted := proc.phase.attempted;
      var holder := if unreadable then None else Holder(s.db);
      match proc.work
      case Approve(r, _) =>
        if holder.Some? then Some(Goto(Disarm(s, p), p, Closing(s.db.grants[holder.value].origin == Some(r))))
        else if attempted then Some(Goto(s, p, Ready(RemoveAll)))
        else Some(Goto(Disarm(s, p), p, Settling(true)))
      case Widen(r, g, current, added, _, covered) =>
        var active := !grantUnreadable && IsActive(s.db, g);
        var phase := AfterWidening(s.db, g, added, attempted, active, holder);
        var s1 := if phase == Closing(false) || phase == Ready(RemoveAll) then s else Disarm(s, p);
        Some(s1.(procs := s1.procs[p := proc.(work := proc.work.(wasActive := active), phase := phase)]))
  }

  /** What is left to undo of a tool approval: the identity may still hold the grant it
      was to widen, may hold another one, or may hold none. */
  function AfterWidening(db: Db, g: Id, added: seq<Id>, attempted: bool, active: bool, holder: Option<Id>): Phase
    requires active ==> IsActive(db, g)
  {
    if active then
      var missing := Missing(added, db.grants[g].tools);
      if missing == [] then Ready(Reconcile)
      else if attempted then Ready(StripTools(missing))
      else Settling(true)
    else if holder.Some? then Closing(false)
    else if attempted then Ready(RemoveAll)
    else Settling(true)
  }

  /** The ids of `added` outside the subset `tools`, in order. */
  function Missing(added: seq<Id>, tools: Subset): (ids: seq<Id>)
    ensures forall id :: id in ids <==> id in added && tools.Some? && id !in tools.value
    ensures ids == [] <==> Includes(tools, added)
  {
    if added == [] then []
    else
      assert added == [added[0]] + added[1..];
      var rest := Missing(added[1..], tools);
      if tools.Some? && added[0] !in tools.value then [added[0]] + rest else rest
  }

  /** A compensation moves its request out of `approved`; `stored` is false when the store refused. */
  ghost function DoSettle(s: State, p: nat, stored: bool): Option<State> {
    if p !in s.procs || !s.procs[p].phase.Settling? || !IsAdd(s.procs[p].work) then None
    else
      var proc := s.procs[p];
      var how := if proc.work.Approve? || proc.work.wasActive then Release else Abandon(INACTIVE_GRANT_NOTE);
      var db := if stored then SettleOwnRequest(s.db, ClaimOf(proc).value, proc.work.request, how) else None;
      if db.None? then Some(Goto(s, p, Closing(false)))
      else Some(Goto(s.(db := db.value), p, Closing(proc.phase.ok)))
  }

  /** The owner's last word on its job: gone, or handed to the worker. */
  function DoCloseJob(s: State, p: nat): Option<State> {
    if p !in s.procs || !s.procs[p].phase.Closing? || ClaimOf(s.procs[p]).None? then None
    else
      var c := ClaimOf(s.procs[p]).value;
      if s.procs[p].phase.done then
        Some(End(s, p).(db := DeleteClaimed(s.db, c), armed := if Owns(s.db, c) then s.armed - {c.subject}
            else s.armed))
      else
        Some(End(s, p).(db := Requeue(s.db, c), armed := if Owns(s.db, c) then s.armed + {c.subject} else s.armed))
  }

  /** A revocation's rollback reads, under the consumer key, whether a group of its
      grant is still on; an unreadable consumer counts as if one were. */
  function DoPresence(s: State, p: nat, unreadable: bool): Option<State> {
    if p !in s.procs || !s.procs[p].phase.Failed? || !s.procs[p].work.Revoke? || s.key.Some? then None
    else if s.procs[p].work.grant !in s.db.grants then None
    else
      var mine := Covers(s.db.grants[s.procs[p].work.grant].tools);
      Some(Goto(s, p, Judging(unreadable || s.groups * mine != {})).(key := Some(p)))
  }

  /** The rollback itself. Without an acknowledgement the process tries again, and so it
      does when the lease fence refuses a transaction whose key was lost. */
  ghost function DoRestore(s: State, p: nat, acknowledged: bool): Option<State> {
    if p !in s.procs || !s.procs[p].phase.Judging? || !s.procs[p].work.Revoke? then None
    else if s.key != Some(p) then if acknowledged then None else Some(Goto(s, p, Failed(true)))
    else
      var w := s.procs[p].work;
      var out := Restore(s.db, w.grant, w.who, w.at, w.moved, w.cancelled, s.procs[p].phase.present);
      var phase := if acknowledged && out.Some? then Closing(false) else Failed(true);
      if out.None? then Some(Goto(Leave(s, p), p, phase))
      else
        Some(Goto(Leave(s, p), p, phase).(
             db := out.value.db,
             armed := if out.value.restored then s.armed - {OfGrant(w.grant)} else s.armed))
  }

  /** A rollback or a recovery that could not be stored: its job goes back to the queue. */
  function DoGiveUp(s: State, p: nat): Option<State> {
    if p !in s.procs then None
    else
      var proc := s.procs[p];
      if (proc.work.Revoke? && (proc.phase.Failed? || proc.phase.Judging?))
         || ((proc.work.FinishRevoke? || proc.work.FinishApprove?) && proc.phase.Written?)
      then Some(Goto(Leave(s, p), p, Closing(false)))
      else None
  }

  /** The transaction that ends a worker's recovery. */
  ghost function DoFinish(s: State, p: nat): Option<State> {
    if p !in s.procs || !s.procs[p].phase.Written? then None
    else
      var proc := s.procs[p];
      match proc.work
      case FinishRevoke(g) =>
        var c := ClaimOf(proc).value;
        Some(End(s, p).(db := DeleteClaimed(s.db, c), armed := if Owns(s.db, c) then s.armed - {c.subject}
            else s.armed))
      case FinishApprove(r, seen, live) =>
        var c := ClaimOf(proc).value;
        if seen.None? then None
        else
          var db := SettleApproval(s.db, c, r, seen.value, live);
          if db.None? then Some(End(s, p)) else Some(End(s, p).(db := db.value, armed := s.armed - {c.subject}))
      case _ => None
  }

  function DoTornDown(s: State, p: nat): Option<State> {
    if p !in s.procs || !s.procs[p].phase.Written? || !s.procs[p].work.Strip? then None
    else if s.teardown == Some(s.procs[p].generation) then Some(End(s, p).(teardown := None, teardownArmed := false))
    else Some(End(s, p))
  }

  /** The steps that change rows and start work on them. */
  predicate StartsWork(step: Step) {
    step.StepFile? || step.StepFileTools? || step.StepClose? || step.StepApprove? || step.StepApproveTools?
    || step.StepRevoke? || step.StepSweep? || step.StepDisable? || step.StepEnable? || step.StepRetryTeardown?
    || step.StepRecovering? || step.StepReleaseStale? || step.StepRecover? || step.StepTeardown? || step.StepRebuild?
  }

  /** The steps up to a process's read, and those of the gateway itself. */
  predicate ReadsConsumer(step: Step) {
    step.StepLook? || step.StepReadGrants? || step.StepEnter? || step.StepRefused? || step.StepRead?
    || step.StepLand? || step.StepOtherApi?
  }

  /** The steps that decide on a write, and make it. */
  predicate Issues(step: Step) {
    step.StepIssueAdd? || step.StepIssueRemoveAll? || step.StepIssueStripTools? || step.StepIssueReconcile?
    || step.StepIssueRevoke?
    || step.StepIssueRecovery? || step.StepIssueTeardown? || step.StepIssueRebuild? || step.StepIssueSweep?
  }

  ghost function NextStart(s: State, step: Step): Option<State>
    requires StartsWork(step)
  {
    match step
    case StepFile(r, tools, actor, at) => WithDb(s, FileRequest(s.db, r, tools, actor, at))
    case StepFileTools(r, g, ids) => WithDb(s, FileToolRequest(s.db, r, g, ids))
    case StepClose(r, status, actor, at, note) => WithDb(s, CloseRequest(s.db, r, status, actor, at, note))
    case StepApprove(r, actor, tools, at, note) => DoApprove(s, r, actor, tools, at, note)
    case StepApproveTools(r, actor, added, at, note) => DoApproveTools(s, r, actor, added, at, note)
    case StepRevoke(g, actor, at, note) => DoRevoke(s, g, actor, at, note)
    case StepSweep(g, actor, at, note) => DoSweep(s, g, actor, at, note)
    case StepDisable => DoDisable(s)
    case StepEnable => DoEnable(s)
    case StepRetryTeardown => DoRetryTeardown(s)
    case StepRecovering(outstanding) => Some(s.(db := s.db.(recovering := outstanding)))
    case StepReleaseStale(subject) => DoReleaseStale(s, subject)
    case StepRecover(subject) => DoRecover(s, subject)
    case StepTeardown => DoTeardown(s)
    case StepRebuild => if s.db.accountActive then Some(Spawn(s, Rebuild(None), s.next, Ready(Forward))) else None
  }

  ghost function NextRead(s: State, step: Step): Option<State>
    requires ReadsConsumer(step)
  {
    match step
    case StepLook(p) => DoLook(s, p)
    case StepReadGrants(p) => DoReadGrants(s, p)
    case StepEnter(p, held) => DoEnter(s, p, held)
    case StepRefused(p) => DoRefused(s, p)
    case StepRead(p) => DoRead(s, p)
    case StepLand(q) => DoLand(s, q)
    case StepOtherApi => DoOtherApi(s)
  }

  ghost function NextIssue(s: State, step: Step): Option<State>
    requires Issues(step)
  {
    match step
    case StepIssueAdd(p) => DoIssueAdd(s, p)
    case StepIssueRemoveAll(p) => DoIssueRemoveAll(s, p)
    case StepIssueStripTools(p) => DoIssueStripTools(s, p)
    case StepIssueReconcile(p) => DoIssueReconcile(s, p)
    case StepIssueRevoke(p) => DoIssueRevoke(s, p)
    case StepIssueRecovery(p) => DoIssueRecovery(s, p)
    case StepIssueTeardown(p) => DoIssueTeardown(s, p)
    case StepIssueRebuild(p) => DoIssueRebuild(s, p)
    case StepIssueSweep(p) => DoIssueSweep(s, p)
  }

  ghost function NextAfter(s: State, step: Step): Option<State>
    requires !StartsWork(step) && !ReadsConsumer(step) && !Issues(step)
  {
    match step
    case StepAck(p) => DoAck(s, p)
    case StepFail(p) => DoFail(s, p)
    case StepCrash(p) => if p in s.procs then Some(End(s, p)) else None
    case StepLoseKey => Some(s.(key := None))
    case StepCommit(p, g) => DoCommit(s, p, g)
    case StepCommitFails(p) => DoCommitFails(s, p)
    case StepObserve(p, unreadable, grantUnreadable) => DoObserve(s, p, unreadable, grantUnreadable)
    case StepSettle(p, stored) => DoSettle(s, p, stored)
    case StepCloseJob(p) => DoCloseJob(s, p)
    case StepPresence(p, unreadable) => DoPresence(s, p, unreadable)
    case StepRestore(p, acknowledged) => DoRestore(s, p, acknowledged)
    case StepGiveUp(p) => DoGiveUp(s, p)
    case StepFinish(p) => DoFinish(s, p)
    case StepTornDown(p) => DoTornDown(s, p)
  }

  /** The state after `step`, or `None` when the step cannot be taken. */
  ghost function Next(s: State, step: Step): Option<State> {
    if StartsWork(step) then NextStart(s, step)
    else if ReadsConsumer(step) then NextRead(s, step)
    else if Issues(step) then NextIssue(s, step)
    else NextAfter(s, step)
  }

  function WithDb(s: State, db: Option<Db>): Option<State> {
    if db.None? then None else Some(s.(db := db.value))
  }

  /** `states` is the history that taking `steps` from the empty portal produces. */
  ghost predicate Run(states: seq<State>, steps: seq<Step>) {
    && |states| == |steps| + 1
    && states[0] == Start
    && forall i :: 0 <= i < |steps| ==> Next(states[i], steps[i]) == Some(states[i + 1])
  }
}
