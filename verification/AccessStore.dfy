/** The store transactions of the access workflow as they run: row by row, each write
    conditional on the status it was decided on. Each is tied to the function of the rows
    that the saga is built from. */
module AccessStore {
  import opened Wrappers
  import opened AccessRows

  class Store {
    var requests: map<Id, Request>
    var grants: map<Id, Grant>
    var jobs: map<Subject, Job>
    var accountActive: bool
    var recovering: bool

    constructor ()
      ensures Rows() == Db(map[], map[], map[], true, false) && Valid()
    {
      requests, grants, jobs, accountActive, recovering := map[], map[], map[], true, false;
    }

    ghost function Rows(): Db
      reads this
    {
      Db(requests, grants, jobs, accountActive, recovering)
    }

    ghost predicate Valid()
      reads this
    {
      WellFormed(Rows())
    }

    /* ── Reads ───────────────────────────────────────────────────────────── */

    method FindActive() returns (holder: Option<Id>)
      requires Valid()
      ensures holder == Holder(Rows())
    {
      var active: set<Id> := set g | g in grants && grants[g].status == Active;
      if active == {} {
        assert forall g :: g in grants && grants[g].status == Active ==> g in active;
        return None;
      }
      var g :| g in active;
      HolderIs(Rows(), g);
      return Some(g);
    }

    method FindPending() returns (waiting: Option<Id>)
      requires Valid()
      ensures waiting == Waiting(Rows())
    {
      var pending: set<Id> := set r | r in requests && requests[r].status == Pending;
      if pending == {} {
        assert forall r :: r in requests && requests[r].status == Pending ==> r in pending;
        return None;
      }
      var r :| r in pending;
      WaitingIs(Rows(), r);
      return Some(r);
    }

    /* ── Conditional writes ──────────────────────────────────────────────── */

    /** Move a request, if it still has the status its move was decided on. */
    method UpdateRequestIf(r: Id, status: RequestStatus, next: Request) returns (moved: bool)
      modifies this`requests
      ensures moved == (r in old(requests) && old(requests)[r].status == status)
      ensures requests == if moved then old(requests)[r := next] else old(requests)
    {
      moved := r in requests && requests[r].status == status;
      if moved { requests := requests[r := next]; }
    }

    method UpdateGrantIf(g: Id, status: GrantStatus, next: Grant) returns (moved: bool)
      modifies this`grants
      ensures moved == (g in old(grants) && old(grants)[g].status == status)
      ensures grants == if moved then old(grants)[g := next] else old(grants)
    {
      moved := g in grants && grants[g].status == status;
      if moved { grants := grants[g := next]; }
    }

    /** Delete a job, only by its current claim. */
    method DeleteClaimedJob(c: Claim) returns (deleted: bool)
      modifies this`jobs
      ensures deleted == old(Owns(Rows(), c))
      ensures Rows() == DeleteClaimed(old(Rows()), c)
    {
      deleted := c.subject in jobs && jobs[c.subject].generation == c.generation && jobs[c.subject].status == Sending;
      if deleted { jobs := jobs - {c.subject}; }
    }

    /** Hand a job back to the queue, only by its current claim. */
    method Reschedule(c: Claim) returns (handedBack: bool)
      modifies this`jobs
      ensures handedBack == old(Owns(Rows(), c))
      ensures Rows() == Requeue(old(Rows()), c)
    {
      handedBack := c.subject in jobs && jobs[c.subject].generation == c.generation
          && jobs[c.subject].status == Sending;
      if handedBack { jobs := jobs[c.subject := Job(c.generation, Queued)]; }
    }

    /* ── Approvals ───────────────────────────────────────────────────────── */

    /** The decision and the job it owes, together. */
    method ClaimDecision(r: Id, actor: Id, tools: Subset, at: nat, note: Option<string>, generation: nat)
        returns (claimed: bool)
      requires Valid()
      modifies this`requests, this`jobs
      ensures Valid() && claimed == ClaimApproval(old(Rows()), r, actor, tools, at, note, generation).Some?
      ensures Rows() == if claimed then ClaimApproval(old(Rows()), r, actor, tools, at, note, generation).value
              else old(Rows())
    {
      ghost var was := Rows();
      if r !in requests { return false; }
      claimed := UpdateRequestIf(r, Pending,
          Decided(requests[r], Approved, Some(actor), Some(at), note).(approvedTools := tools));
      if claimed {
        jobs := jobs[OfRequest(r) := Job(generation, Sending)];
        ClaimKeepsWellFormed(was, r, actor, tools, at, note, generation);
      }
    }

    /** The grant, while its approval still owns the job and no other grant is active.
        A refusal rolls everything back. */
    method Commit(c: Claim, r: Id, g: Id, tools: Subset) returns (committed: bool)
      requires Valid() && g !in grants && r in requests && requests[r].widens.None?
      modifies this`grants, this`jobs
      ensures Valid() && committed == CommitGrant(old(Rows()), c, r, g, tools).Some?
      ensures Rows() == if committed then CommitGrant(old(Rows()), c, r, g, tools).value else old(Rows())
    {
      ghost var was := Rows();
      var holder := FindActive();
      if holder.Some? { return false; }
      var before := grants;
      grants := grants[g := Grant(Active, Some(r), tools, None, None)];
      committed := DeleteClaimedJob(c);
      if committed {
        CommitKeepsWellFormed(was, c, r, g, tools);
      } else {
        grants := before;
      }
    }

    /** A compensation moves its own request out of `approved`, if it still owns the job. A
        taken pending slot rolls it back. */
    method SettleOwn(c: Claim, r: Id, how: Settlement) returns (stored: bool)
      requires Valid()
      modifies this`requests
      ensures Valid() && stored == SettleOwnRequest(old(Rows()), c, r, how).Some?
      ensures Rows() == if stored then SettleOwnRequest(old(Rows()), c, r, how).value else old(Rows())
    {
      ghost var was := Rows();
      var owned := c.subject in jobs && jobs[c.subject].generation == c.generation && jobs[c.subject].status == Sending;
      if !owned || r !in requests || requests[r].status != Approved { return true; }
      var waiting := FindPending();
      if how.Release? && waiting.Some? { return false; }
      var next := if how.Release? then Released(requests[r]) else Abandoned(requests[r], how.note);
      stored := UpdateRequestIf(r, Approved, next);
      SettleOwnKeepsWellFormed(was, c, r, how);
    }

    /** The end of an approval's recovery, on the request and the grant it read. */
    method SettleRecovered(c: Claim, r: Id, q: Request, live: Option<(Id, Grant)>) returns (settled: bool)
      requires Valid()
      modifies this`requests, this`jobs
      ensures Valid() && settled == SettleApproval(old(Rows()), c, r, q, live).Some?
      ensures Rows() == if settled then SettleApproval(old(Rows()), c, r, q, live).value else old(Rows())
    {
      hide WellFormed;
      ghost var was := Rows();
      JobsKeepWellFormed(was, c, c.subject, 0);
      settled := DeleteClaimedJob(c);
      if !settled { return; }
      SettleKeepsWellFormed(was, c, r, q, live);
      if r !in requests || requests[r].status != Approved { return; }
      var verdict := Judge(r, q, live);
      var waiting := FindPending();
      var occupied := verdict == Free && waiting.Some? && waiting != Some(r);
      if verdict == Drop || occupied {
        var note := if occupied then NEWER_REQUEST_NOTE else if q.widens.None? then ALREADY_GRANTED_NOTE
          else INACTIVE_GRANT_NOTE;
        var _ := UpdateRequestIf(r, Approved, Abandoned(requests[r], note));
      } else if verdict == Free {
        var _ := UpdateRequestIf(r, Approved, Released(requests[r]));
      }
    }

    /* ── Revocations ─────────────────────────────────────────────────────── */

    /** The grant, its originating request and the tool request it strands, which every
        revocation and every claim of the disable sweep moves. Remembers both requests as
        they were. */
    method Withdraw(g: Id, actor: Id, at: nat, note: Option<string>)
      returns (claimed: bool, moved: Option<(Id, Request)>, cancelled: Option<(Id, Request)>)
      requires Valid()
      modifies this`requests, this`grants
      ensures Valid() && claimed == WithdrawRows(old(Rows()), g, actor, at, note).Some?
      ensures claimed ==> WithdrawRows(old(Rows()), g, actor, at, note).value == Revocation(Rows(), moved, cancelled)
      ensures !claimed ==> Rows() == old(Rows())
    {
      hide WellFormed, Waiting, ToolRequestReturns;
      ghost var was := Rows();
      moved, cancelled := None, None;
      var pending := FindPending();
      if g !in grants { return false, None, None; }
      var toolRequest := pending.Some? && requests[pending.value].widens == Some(g);
      claimed := UpdateGrantIf(g, Active,
          grants[g].(status := Revoked, revokedBy := Some(actor), revokedAt := Some(at)));
      if !claimed { return; }
      WithdrawKeepsWellFormed(was, g, actor, at, note);
      moved := MoveRequestToRevoked(grants[g].origin, actor, at, note);
      if toolRequest {
        cancelled := Some((pending.value, requests[pending.value]));
        PendingIsOne(was, pending.value);
        CancelToolRequest(g, pending.value, actor, at);
      }
    }

    /** The same with the job that the removal owes: one transaction. */
    method ClaimRevoked(g: Id, actor: Id, at: nat, note: Option<string>, generation: nat)
      returns (claimed: bool, moved: Option<(Id, Request)>, cancelled: Option<(Id, Request)>)
      requires Valid()
      modifies this`requests, this`grants, this`jobs
      ensures Valid() && claimed == ClaimRevocation(old(Rows()), g, actor, at, note, generation).Some?
      ensures claimed ==>
                ClaimRevocation(old(Rows()), g, actor, at, note, generation).value
                == Revocation(Rows(), moved, cancelled)
      ensures !claimed ==> Rows() == old(Rows())
    {
      hide WellFormed, WithdrawRows;
      ghost var was := Rows();
      claimed, moved, cancelled := Withdraw(g, actor, at, note);
      if claimed {
        RevocationKeepsWellFormed(was, g, actor, at, note, generation);
        jobs := jobs[OfGrant(g) := Job(generation, Sending)];
      }
    }

    static lemma PendingIsOne(db: Db, r: Id)
      requires WellFormed(db) && IsPending(db, r)
      ensures forall x :: x in db.requests && db.requests[x].status == Pending ==> x == r
    {}

    /** The originating request, if it still reads `approved`; remembered as it was. */
    method MoveRequestToRevoked(origin: Option<Id>, actor: Id, at: nat, note: Option<string>)
        returns (moved: Option<(Id, Request)>)
      modifies this`requests
      ensures moved == (if origin.Some? && origin.value in old(requests)
              && old(requests)[origin.value].status == Approved
                        then Some((origin.value, old(requests)[origin.value])) else None)
      ensures requests == (if moved.Some? then
                             var (r, q) := moved.value;
                             old(requests)[r :=
                                 Decided(q, Withdrawn, Some(actor), Some(at), if note.Some? then note else q.note)]
                           else old(requests))
    {
      if origin.None? || origin.value !in requests { return None; }
      var q := requests[origin.value];
      var ok := UpdateRequestIf(origin.value, Approved,
        Decided(q, Withdrawn, Some(actor), Some(at), if note.Some? then note else q.note));
      return if ok then Some((origin.value, q)) else None;
    }

    /** The pending tool request that the grant's revocation strands makes way: no request
        waits any more, and until something else happens to it, it is the one that a rollback
        of this very claim would put back, exactly as it was. */
    method CancelToolRequest(g: Id, r: Id, actor: Id, at: nat)
      requires r in requests && requests[r].status == Pending && requests[r].widens == Some(g)
      requires forall x :: x in requests && requests[x].status == Pending ==> x == r
      modifies this`requests
      ensures requests == old(requests)[r :=
              Decided(old(requests)[r], Cancelled, Some(actor), Some(at), Some(INACTIVE_GRANT_NOTE))]
      ensures Waiting(Rows()).None?
      ensures ToolRequestReturns(Rows(), g, actor, at, r) == !recovering
      ensures
        var q := old(requests)[r];
        old(requests) == requests[r := Decided(requests[r], Pending, q.decidedBy, q.decidedAt, q.note)]
    {
      ghost var was := requests;
      var _ := UpdateRequestIf(r, Pending,
        Decided(requests[r], Cancelled, Some(actor), Some(at), Some(INACTIVE_GRANT_NOTE)));
      assert forall x :: x in requests ==> x == r || (x in was && requests[x] == was[x]);
    }

    /** The rollback: the grant, only from this very claim, with its grantee active and its
        group present, and only if the identity holds no other; with it the request the claim
        moved, the job, and the tool request it cancelled. */
    method RestoreRevoked(g: Id, who: Id, at: nat, moved: Option<(Id, Request)>, cancelled: Option<(Id, Request)>,
        groupPresent: bool)
      returns (stored: bool, restored: bool, skipped: Option<Skip>, toolRequestBack: bool)
      requires Valid() && (moved.Some? ==> moved.value.1.status == Approved)
      modifies this`requests, this`grants, this`jobs
      ensures Valid() && stored == Restore(old(Rows()), g, who, at, moved, cancelled, groupPresent).Some?
      ensures stored ==> Restore(old(Rows()), g, who, at, moved, cancelled, groupPresent).value
                         == Restoration(Rows(), restored, skipped, toolRequestBack)
      ensures !stored ==> Rows() == old(Rows())
    {
      hide WellFormed;
      ghost var was := Rows();
      restored, skipped, toolRequestBack := false, None, false;
      stored := true;
      if !(g in grants && grants[g].status == Revoked && grants[g].revokedBy == Some(who)
        && grants[g].revokedAt == Some(at)) { return; }
      if !accountActive { skipped := Some(GranteeDisabled); return; }
      if !groupPresent { skipped := Some(GroupAbsent); return; }
      var holder := FindActive();
      if holder.Some? { stored := false; return; }
      RestoreKeepsWellFormed(was, g, who, at, moved, cancelled, groupPresent);
      restored := UpdateGrantIf(g, Revoked, grants[g].(status := Active, revokedBy := None, revokedAt := None));
      jobs := jobs - {OfGrant(g)};
      if moved.Some? && moved.value.0 in requests {
        var (r, q) := moved.value;
        var ok := UpdateRequestIf(r, Withdrawn, Decided(requests[r], q.status, q.decidedBy, q.decidedAt, q.note));
      }
      if cancelled.Some? && cancelled.value.0 in requests {
        toolRequestBack := RestoreToolRequest(g, who, at, cancelled.value);
      }
    }

    /** The tool request a claim cancelled, if it still carries that cancellation, no account
        recovery is outstanding and the pending slot is free. */
    method RestoreToolRequest(g: Id, who: Id, at: nat, cancelled: (Id, Request)) returns (back: bool)
      requires cancelled.0 in requests
      modifies this`requests
      ensures back == old(ToolRequestReturns(Rows(), g, who, at, cancelled.0))
      ensures
        var (r, q) := cancelled;
        requests == if back
            then old(requests)[r := Decided(old(requests)[r], Pending, q.decidedBy, q.decidedAt, q.note)]
            else old(requests)
    {
      var (r, q) := cancelled;
      var row := requests[r];
      back := row.status == Cancelled && row.widens == Some(g) && row.decidedBy == Some(who)
          && row.decidedAt == Some(at)
              && !recovering && (forall x :: x in requests ==> requests[x].status != Pending);
      if back { requests := requests[r := Decided(row, Pending, q.decidedBy, q.decidedAt, q.note)]; }
    }

    /** A revocation whose removal the gateway refuses, rolled back: no row is any different. */
    method RevokeAndRollBack(g: Id, actor: Id, at: nat, note: Option<string>, generation: nat) returns (claimed: bool)
      requires Valid() && accountActive && !recovering
      modifies this`requests, this`grants, this`jobs
      ensures claimed == old(IsActive(Rows(), g))
      ensures Rows() == old(Rows())
    {
      ghost var was := Rows();
      var moved, cancelled;
      claimed, moved, cancelled := ClaimRevoked(g, actor, at, note, generation);
      if claimed {
        RestoreUndoesClaim(was, g, actor, at, note, generation);
        var _, _, _, _ := RestoreRevoked(g, actor, at, moved, cancelled, true);
      }
    }
  }
}
