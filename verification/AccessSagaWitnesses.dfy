/** Runs that show where the workflow's guarantees stop. */
module AccessSagaWitnesses {
  import opened Wrappers
  import opened AccessRows
  import opened AccessSaga
  import opened AccessSagaInvariants
  import opened AccessSagaOwed
  import opened AccessSagaOwnership

  ghost predicate Reachable(s: State) {
    exists states, steps :: Run(states, steps) && states[|steps|] == s
  }

  lemma StartIsReachable()
    ensures Reachable(Start)
  {
    assert Run([Start], []);
  }

  lemma Reach(s: State, step: Step, s': State)
    requires Reachable(s) && Next(s, step) == Some(s')
    ensures Reachable(s')
  {
    var states, steps :| Run(states, steps) && states[|steps|] == s;
    assert Run(states + [s'], steps + [step]);
    assert (states + [s'])[|steps + [step]|] == s';
  }

  const EVERYTHING: set<Group> := {Rest, McpAll}

  const FILED := Request(Pending, None, None, None, None, None, None)

  const DECIDED := Request(Approved, None, None, None, Some(1), Some(0), None)

  const GRANTED := Grant(Active, Some(0), None, None, None)

  /** Request 0 approved by process 0, whose write is in flight under the first tag. */
  const Approving := State(
    Db(map[0 := DECIDED], map[], map[OfRequest(0) := Job(0, Sending)], true, false), {}, 1,
    map[1 := Put(0, 1, EVERYTHING, None, None, true)],
    map[0 := Proc(Approve(0, None), 0, Issued(Forward, 1, 1, EVERYTHING, false))],
    Some(0), None, 2, {OfRequest(0)}, false)

  /** The same after the grant committed. */
  const Granted := State(
    Db(map[0 := DECIDED], map[0 := GRANTED], map[], true, false), EVERYTHING, 2,
    map[], map[], None, None, 2, {}, false)

  /** Request 0 claimed by process 0. */
  const Claimed := State(
    Db(map[0 := DECIDED], map[], map[OfRequest(0) := Job(0, Sending)], true, false), {}, 1,
    map[], map[0 := Proc(Approve(0, None), 0, Ready(Forward))], None, None, 1, {}, false)

  lemma ClaimedIsReachable()
    ensures Reachable(Claimed)
  {
    hide Reachable, NextRead, NextIssue, NextAfter;
    StartIsReachable();
    var s1 := Start.(db := Start.db.(requests := map[0 := FILED]));
    assert Next(Start, StepFile(0, None, 1, 0)) == Some(s1);
    Reach(Start, StepFile(0, None, 1, 0), s1);
    var s2 := Next(s1, StepApprove(0, 1, None, 0, None)).value;
    assert s2.db.requests == Claimed.db.requests && s2.db.jobs == Claimed.db.jobs && s2.procs == Claimed.procs;
    assert s2 == Claimed;
    Reach(s1, StepApprove(0, 1, None, 0, None), s2);
  }

  lemma ApprovingIsReachable()
    ensures Reachable(Approving)
  {
    hide Reachable, NextStart, NextAfter;
    ClaimedIsReachable();
    var s0 := Claimed;
    assert s0.procs[0].phase == Ready(Forward);
    var s1 := Next(s0, StepEnter(0, true)).value;
    assert s1.procs == map[0 := Proc(Approve(0, None), 0, Entered(Forward))];
    Reach(s0, StepEnter(0, true), s1);
    var s2 := Next(s1, StepRead(0)).value;
    assert s2.procs == map[0 := Proc(Approve(0, None), 0, HasRead(Forward, 1, {}))];
    Reach(s1, StepRead(0), s2);
    assert s2.db == s0.db && s0.db.jobs[OfRequest(0)] == Job(0, Sending);
    assert Covers(None) == EVERYTHING;
    var s3 := Next(s2, StepIssueAdd(0)).value;
    assert s3.puts == Approving.puts && s3.procs == Approving.procs && s3.armed == Approving.armed;
    assert s3 == Approving;
    Reach(s2, StepIssueAdd(0), s3);
  }

  /** The approval's write has landed and is acknowledged. */
  const Acked := Approving.(groups := EVERYTHING, tag := 2, puts := map[],
    procs := map[0 := Proc(Approve(0, None), 0, Written(1, EVERYTHING))])

  lemma AckedFirst()
    ensures Reachable(Acked)
  {
    hide Reachable, NextStart, NextIssue;
    ApprovingIsReachable();
    var s0 := Approving;
    assert s0.puts[1] == Put(0, 1, EVERYTHING, None, None, true);
    var s1 := DoLand(s0, 1).value;
    assert Next(s0, StepLand(1)) == Some(s1);
    assert s1.procs == map[0 := Proc(Approve(0, None), 0, Issued(Forward, 1, 1, EVERYTHING, true))];
    Reach(s0, StepLand(1), s1);
    var s2 := DoAck(s1, 0).value;
    assert Next(s1, StepAck(0)) == Some(s2);
    assert s2.procs == Acked.procs && s2.puts == map[];
    assert s2 == Acked;
    Reach(s1, StepAck(0), s2);
  }

  lemma GrantedIsReachable()
    ensures Reachable(Granted)
  {
    hide Reachable, NextStart, NextRead, NextIssue;
    hide DoAck, DoFail, DoCommitFails, DoObserve, DoSettle, DoCloseJob;
    hide DoPresence, DoRestore, DoGiveUp, DoFinish, DoTornDown;
    AckedFirst();
    var s0 := Acked;
    assert s0.db.jobs[OfRequest(0)] == Job(0, Sending);
    var s1 := DoCommit(s0, 0, 0).value;
    assert Next(s0, StepCommit(0, 0)) == Some(s1);
    assert s1.db.grants == Granted.db.grants && s1.db.jobs == map[] && s1.procs == map[] && s1.puts == map[]
      && s1.armed == {};
    assert s1 == Granted;
    Reach(s0, StepCommit(0, 0), s1);
  }

  /** The disable, its sweep of the grant, and a stop before the teardown runs. */
  lemma SweptIsReachable() returns (s: State)
    ensures Reachable(s) && s.groups == EVERYTHING && NoActive(s.db) && s.db.jobs == map[] && !s.db.accountActive
    ensures s.procs == map[] && s.next == 4
  {
    hide Reachable, NextRead, NextIssue;
    GrantedIsReachable();
    var s1 := Granted.(db := Granted.db.(accountActive := false), teardown := Some(2), teardownArmed := true,
      next := 3);
    assert Next(Granted, StepDisable) == Some(s1);
    Reach(Granted, StepDisable, s1);
    assert IsActive(s1.db, 0);
    var s2 := Next(s1, StepSweep(0, 7, 9, None)).value;
    Reach(s1, StepSweep(0, 7, 9, None), s2);
    assert s2.db.grants.Keys == {0} && s2.procs.Keys == {3};
    s := End(s2, 3);
    Reach(s2, StepCrash(3), s);
    assert s.procs == map[];
  }

  /** A re-enable cancels the teardown before its rebuild has written anything: if the
      process stops there, revoked access stays on the gateway and nothing is owed. */
  lemma ReenableOwesNothing()
    ensures exists s :: Reachable(s) && !Owed(s) && s.procs == map[]
  {
    hide Reachable, NextRead, NextIssue;
    var s0 := SweptIsReachable();
    var s1 := Next(s0, StepEnable).value;
    Reach(s0, StepEnable, s1);
    assert s1.procs.Keys == {4};
    var s2 := End(s1, 4);
    Reach(s1, StepCrash(4), s2);
    assert s2.procs == map[];
    assert Exposed(s2) && NoActive(s2.db);
    assert !Owed(s2);
  }

  /** A re-enable right after the disable, before its rebuild and the sweep. */
  lemma ReenabledIsReachable() returns (s: State)
    ensures Reachable(s) && s.groups == EVERYTHING && s.db.grants == Granted.db.grants
            && s.db.requests == Granted.db.requests
    ensures s.db.jobs == map[] && s.teardown.None? && s.next == 4 && s.procs.Keys == {3}
  {
    hide Reachable, NextRead, NextIssue, NextAfter;
    GrantedIsReachable();
    var s1 := Granted.(db := Granted.db.(accountActive := false), teardown := Some(2), teardownArmed := true,
      next := 3);
    assert Next(Granted, StepDisable) == Some(s1);
    Reach(Granted, StepDisable, s1);
    s := DoEnable(s1).value;
    assert Next(s1, StepEnable) == Some(s);
    Reach(s1, StepEnable, s);
  }

  /** The sweep claims the grant, without a job. */
  lemma LateSweptIsReachable() returns (s: State)
    ensures Reachable(s) && s.groups == EVERYTHING && NoActive(s.db) && s.db.jobs == map[] && s.teardown.None?
    ensures s.procs.Keys == {3, 4}
  {
    hide Reachable, NextRead, NextIssue, NextAfter;
    var s0 := ReenabledIsReachable();
    assert IsActive(s0.db, 0);
    s := DoSweep(s0, 0, 7, 9, None).value;
    assert Next(s0, StepSweep(0, 7, 9, None)) == Some(s);
    Reach(s0, StepSweep(0, 7, 9, None), s);
    assert s.db.grants.Keys == {0};
  }

  /** A disable sweep that outlived its disable: the re-enable has cancelled the teardown,
      and the sweep claims a grant without a job. If both stop there, revoked access stays
      on the gateway and nothing is owed. */
  lemma LateSweepOwesNothing()
    ensures exists s :: Reachable(s) && !Owed(s) && s.procs == map[]
  {
    hide Reachable, NextStart, NextRead, NextIssue;
    var s0 := LateSweptIsReachable();
    var s1 := End(s0, 3);
    Reach(s0, StepCrash(3), s1);
    assert s1.procs.Keys == {4};
    var s2 := End(s1, 4);
    Reach(s1, StepCrash(4), s2);
    assert s2.procs == map[];
    assert Exposed(s2) && NoActive(s2.db);
    assert !Owed(s2);
  }

  /* ── A rebuild that writes the groups of a grant that is gone ──────────── */

  /** The grant stands, the account was disabled, and its teardown has taken the groups off. */
  lemma StrippedIsReachable() returns (s: State)
    ensures Reachable(s) && s.groups == {} && s.tag == 3 && s.puts == map[] && s.key == None && s.next == 5
    ensures s.db == Granted.db.(accountActive := false) && s.procs == map[]
  {
    hide Reachable, NextStart, NextIssue;
    var s1 := TeardownPosted();
    var s2 := DoLand(s1, 4).value;
    assert Next(s1, StepLand(4)) == Some(s2);
    Reach(s1, StepLand(4), s2);
    s := End(s2, 3);
    Reach(s2, StepCrash(3), s);
    assert s2.procs.Keys == {3};
    assert s.procs == map[];
  }

  /** The teardown's write is in flight. */
  lemma TeardownPosted() returns (s: State)
    ensures Reachable(s) && s.tag == 2 && s.puts == map[4 := Put(3, 2, {}, None, Some(2), true)] && s.key == Some(3)
    ensures s.next == 5 && s.db == Granted.db.(accountActive := false) && s.procs.Keys == {3}
    ensures s.procs[3] == Proc(Strip, 2, Issued(Forward, 4, 2, {}, false))
  {
    hide Reachable, NextStart, NextRead, NextAfter;
    var s0 := TearingDownIsReachable();
    s := DoIssueTeardown(s0, 3).value;
    assert Next(s0, StepIssueTeardown(3)) == Some(s);
    Reach(s0, StepIssueTeardown(3), s);
    assert s.puts == map[4 := Put(3, 2, {}, None, Some(2), true)];
  }

  /** The teardown has read the consumer. */
  lemma TearingDownIsReachable() returns (s: State)
    ensures Reachable(s) && s.groups == EVERYTHING && s.tag == 2 && s.puts == map[] && s.key == Some(3) && s.next == 4
    ensures s.db == Granted.db.(accountActive := false) && s.teardown == Some(2)
    ensures s.procs == map[3 := Proc(Strip, 2, HasRead(Forward, 2, EVERYTHING))]
  {
    hide Reachable, NextStart, NextIssue, NextAfter;
    var s2 := TeardownIsReachable();
    var s3 := DoEnter(s2, 3, true).value;
    assert Next(s2, StepEnter(3, true)) == Some(s3);
    Reach(s2, StepEnter(3, true), s3);
    assert s3.procs == map[3 := Proc(Strip, 2, Entered(Forward))];
    s := DoRead(s3, 3).value;
    assert Next(s3, StepRead(3)) == Some(s);
    Reach(s3, StepRead(3), s);
  }

  lemma TeardownIsReachable() returns (s: State)
    ensures Reachable(s) && s.groups == EVERYTHING && s.tag == 2 && s.puts == map[] && s.key == None && s.next == 4
    ensures s.db == Granted.db.(accountActive := false) && s.teardown == Some(2)
    ensures s.procs == map[3 := Proc(Strip, 2, Ready(Forward))]
  {
    hide Reachable, NextRead, NextIssue, NextAfter;
    GrantedIsReachable();
    var s1 := Granted.(db := Granted.db.(accountActive := false), teardown := Some(2), teardownArmed := true,
      next := 3);
    assert Next(Granted, StepDisable) == Some(s1);
    Reach(Granted, StepDisable, s1);
    s := DoTeardown(s1).value;
    assert Next(s1, StepTeardown) == Some(s);
    Reach(s1, StepTeardown, s);
    assert s.procs == map[3 := Proc(Strip, 2, Ready(Forward))];
  }

  /** The re-enable's rebuild takes the key. */
  lemma RebuildIsReachable() returns (s: State)
    ensures Reachable(s) && s.groups == {} && s.tag == 3 && s.puts == map[] && s.key == Some(5) && s.next == 6
    ensures s.db == Granted.db && s.teardown == None && s.procs == map[5 := Proc(Rebuild(None), 5, Entered(Forward))]
  {
    hide Reachable, NextIssue, NextAfter;
    var s0 := StrippedIsReachable();
    var s1 := DoEnable(s0).value;
    assert Next(s0, StepEnable) == Some(s1);
    Reach(s0, StepEnable, s1);
    assert s1.procs == map[5 := Proc(Rebuild(None), 5, Ready(Forward))] && s1.db == Granted.db;
    s := DoEnter(s1, 5, true).value;
    assert Next(s1, StepEnter(5, true)) == Some(s);
    Reach(s1, StepEnter(5, true), s);
  }

  /** It reads the grant. */
  lemma RebuildingIsReachable() returns (s: State)
    ensures Reachable(s) && s.groups == {} && s.tag == 3 && s.puts == map[] && s.key == Some(5) && s.next == 6
    ensures s.db == Granted.db && s.teardown == None
            && s.procs == map[5 := Proc(Rebuild(Some(Some(None))), 5, Entered(Forward))]
  {
    hide Reachable, NextStart, NextIssue, NextAfter;
    var s0 := RebuildIsReachable();
    assert IsActive(s0.db, 0);
    assert forall g :: IsActive(s0.db, g) ==> g == 0;
    s := DoReadGrants(s0, 5).value;
    assert Next(s0, StepReadGrants(5)) == Some(s);
    Reach(s0, StepReadGrants(5), s);
  }

  /** The late sweep claims the grant and stops. */
  lemma SweptUnderRebuild() returns (s: State)
    ensures Reachable(s) && s.groups == {} && s.tag == 3 && s.puts == map[] && s.key == Some(5) && s.next == 7
    ensures NoActive(s.db) && s.db.jobs == map[] && s.teardown == None
    ensures s.procs == map[5 := Proc(Rebuild(Some(Some(None))), 5, Entered(Forward))]
  {
    hide Reachable, NextRead, NextIssue;
    var s0 := RebuildingIsReachable();
    assert IsActive(s0.db, 0);
    var s1 := DoSweep(s0, 0, 7, 9, None).value;
    assert Next(s0, StepSweep(0, 7, 9, None)) == Some(s1);
    Reach(s0, StepSweep(0, 7, 9, None), s1);
    assert s1.db.grants.Keys == {0};
    s := End(s1, 6);
    Reach(s1, StepCrash(6), s);
    assert s.procs == s0.procs;
  }

  /** The rebuild goes on to read the consumer. */
  lemma OutdatedIsReachable() returns (s: State)
    ensures Reachable(s) && s.groups == {} && s.tag == 3 && s.puts == map[] && s.key == Some(5) && s.next == 7
    ensures NoActive(s.db) && s.db.jobs == map[] && s.teardown == None
    ensures s.procs == map[5 := Proc(Rebuild(Some(Some(None))), 5, HasRead(Forward, 3, {}))]
  {
    hide Reachable, NextStart, NextIssue, NextAfter;
    var s0 := SweptUnderRebuild();
    s := DoRead(s0, 5).value;
    assert Next(s0, StepRead(5)) == Some(s);
    Reach(s0, StepRead(5), s);
  }

  /** Then it writes the groups of the grant it read. */
  lemma StaleRebuildLoses() returns (s: State, s': State)
    ensures Reachable(s) && Loses(s, StepIssueRebuild(5)) && Next(s, StepIssueRebuild(5)) == Some(s') && Reachable(s')
    ensures s'.groups == {} && s'.tag == 3 && NoActive(s'.db) && s'.db.jobs == map[] && s'.teardown == None
            && s'.procs.Keys == {5}
    ensures s'.puts == map[7 := Put(5, 3, EVERYTHING, None, None, true)]
  {
    hide Reachable, NextStart, NextRead, NextAfter;
    s := OutdatedIsReachable();
    assert Covers(None) == EVERYTHING;
    s' := DoIssueRebuild(s, 5).value;
    assert Next(s, StepIssueRebuild(5)) == Some(s');
    Reach(s, StepIssueRebuild(5), s');
  }

  /** No row will ever take them off. */
  lemma StaleRebuildOwesNothing()
    ensures exists s, s' ::
      && Reachable(s) && Loses(s, StepIssueRebuild(5)) && Next(s, StepIssueRebuild(5)) == Some(s') && !Owed(s')
    ensures exists s :: Reachable(s) && !Owed(s) && s.procs == map[] && s.groups == EVERYTHING
  {
    hide Reachable, NextStart, NextAfter;
    var s0, s1 := StaleRebuildLoses();
    assert !Owed(s1) by { assert s1.puts[7].tag == s1.tag; }
    hide Loses;
    var s2 := DoLand(s1, 7).value;
    assert Next(s1, StepLand(7)) == Some(s2);
    Reach(s1, StepLand(7), s2);
    StoppedOwesNothing(s2, 5);
  }

  /** Stopping changes nothing about what is owed. */
  lemma StoppedOwesNothing(s: State, p: nat)
    requires Reachable(s) && s.procs.Keys == {p} && s.groups == EVERYTHING && NoActive(s.db) && s.db.jobs == map[]
             && s.teardown.None?
    ensures Reachable(End(s, p)) && !Owed(End(s, p)) && End(s, p).procs == map[] && End(s, p).groups == EVERYTHING
  {
    hide Reachable, NextStart, NextRead, NextIssue;
    Reach(s, StepCrash(p), End(s, p));
  }

  /* ── A refused approval that drops a job it took over ──────────────────── */

  /** Request 0's first approval wrote its groups, failed, could not take them off, and left
      the rest to the worker. */
  const LeftOver := State(
    Db(map[0 := FILED], map[], map[OfRequest(0) := Job(0, Queued)], true, false), EVERYTHING, 2,
    map[], map[], None, None, 2, {OfRequest(0)}, false)

  lemma FailedIsReachable() returns (s: State)
    ensures Reachable(s) && s == Approving.(groups := EVERYTHING, tag := 2, puts := map[], key := None,
                                            procs := map[0 := Proc(Approve(0, None), 0, Failed(true))])
  {
    hide Reachable, NextStart, NextIssue;
    hide DoAck, DoCommit, DoCommitFails, DoObserve, DoSettle, DoCloseJob;
    hide DoPresence, DoRestore, DoGiveUp, DoFinish, DoTornDown;
    ApprovingIsReachable();
    var s1 := DoLand(Approving, 1).value;
    assert Next(Approving, StepLand(1)) == Some(s1);
    Reach(Approving, StepLand(1), s1);
    assert s1.procs == map[0 := Proc(Approve(0, None), 0, Issued(Forward, 1, 1, EVERYTHING, true))] && s1.puts == map[];
    s := DoFail(s1, 0).value;
    assert Next(s1, StepFail(0)) == Some(s);
    Reach(s1, StepFail(0), s);
    assert s.procs == map[0 := Proc(Approve(0, None), 0, Failed(true))];
  }

  lemma RemovingIsReachable() returns (s: State)
    ensures Reachable(s) && s == Approving.(groups := EVERYTHING, tag := 2, puts := map[], key := None,
                                            procs := map[0 := Proc(Approve(0, None), 0, Ready(RemoveAll))])
  {
    hide Reachable, NextStart, NextRead, NextIssue;
    var s0 := FailedIsReachable();
    assert Holder(s0.db).None?;
    s := DoObserve(s0, 0, false, false).value;
    assert Next(s0, StepObserve(0, false, false)) == Some(s);
    Reach(s0, StepObserve(0, false, false), s);
    assert s.procs == map[0 := Proc(Approve(0, None), 0, Ready(RemoveAll))];
  }

  lemma UndoingIsReachable() returns (s: State)
    ensures Reachable(s) && s == Approving.(groups := EVERYTHING, tag := 2, puts := map[], key := None,
                                            procs := map[0 := Proc(Approve(0, None), 0, Settling(false))])
  {
    hide Reachable, NextStart, NextRead, NextIssue;
    var s0 := RemovingIsReachable();
    s := DoFail(s0, 0).value;
    assert Next(s0, StepFail(0)) == Some(s);
    Reach(s0, StepFail(0), s);
    assert s.procs == map[0 := Proc(Approve(0, None), 0, Settling(false))];
  }

  lemma ReleasedIsReachable() returns (s: State)
    ensures Reachable(s) && s == Approving.(groups := EVERYTHING, tag := 2, puts := map[], key := None,
                                            db := Approving.db.(requests := map[0 := FILED]),
                                            procs := map[0 := Proc(Approve(0, None), 0, Closing(false))])
  {
    hide Reachable, NextStart, NextRead, NextIssue;
    hide DoAck, DoFail, DoCommit, DoCommitFails, DoObserve, DoCloseJob;
    hide DoPresence, DoRestore, DoGiveUp, DoFinish, DoTornDown;
    var s0 := UndoingIsReachable();
    assert s0.db.jobs[OfRequest(0)] == Job(0, Sending) && Waiting(s0.db).None?;
    s := DoSettle(s0, 0, true).value;
    assert Next(s0, StepSettle(0, true)) == Some(s);
    Reach(s0, StepSettle(0, true), s);
    assert s.db.requests == map[0 := FILED] && s.procs == map[0 := Proc(Approve(0, None), 0, Closing(false))];
  }

  lemma LeftOverIsReachable()
    ensures Reachable(LeftOver)
  {
    hide Reachable, NextStart, NextRead, NextIssue;
    hide DoAck, DoFail, DoCommit, DoCommitFails, DoObserve, DoSettle;
    hide DoPresence, DoRestore, DoGiveUp, DoFinish, DoTornDown;
    var s0 := ReleasedIsReachable();
    var s1 := DoCloseJob(s0, 0).value;
    assert Next(s0, StepCloseJob(0)) == Some(s1);
    Reach(s0, StepCloseJob(0), s1);
    assert s1.db.jobs == LeftOver.db.jobs && s1.procs == map[] && s1.armed == {OfRequest(0)};
    assert s1 == LeftOver;
  }

  /** A second approval takes the job over. */
  lemma SecondIsReachable() returns (s: State)
    ensures Reachable(s) && s.groups == EVERYTHING && s.tag == 2 && s.puts == map[] && s.teardown == None
            && s.key == None && s.next == 3
    ensures s.db == LeftOver.db.(requests := map[0 := DECIDED], jobs := map[OfRequest(0) := Job(2, Sending)])
    ensures s.procs == map[2 := Proc(Approve(0, None), 2, Ready(Forward))]
  {
    hide Reachable, NextRead, NextIssue, NextAfter;
    LeftOverIsReachable();
    assert Holder(LeftOver.db).None?;
    s := DoApprove(LeftOver, 0, 1, None, 0, None).value;
    assert Next(LeftOver, StepApprove(0, 1, None, 0, None)) == Some(s);
    Reach(LeftOver, StepApprove(0, 1, None, 0, None), s);
    assert s.procs == map[2 := Proc(Approve(0, None), 2, Ready(Forward))];
    assert s.db.requests == map[0 := DECIDED] && s.db.jobs == map[OfRequest(0) := Job(2, Sending)];
  }

  /** The account is disabled before it enters, so it is refused, and re-enabled before it
      goes on. */
  lemma RefusedIsReachable() returns (s: State)
    ensures Reachable(s) && s.groups == EVERYTHING && s.tag == 2 && s.puts == map[] && s.teardown == None
            && s.key == None
    ensures s.db == LeftOver.db.(requests := map[0 := DECIDED], jobs := map[OfRequest(0) := Job(2, Sending)])
    ensures s.procs == map[2 := Proc(Approve(0, None), 2, Failed(false))]
  {
    hide Reachable, NextIssue, NextAfter;
    var s1 := SecondIsReachable();
    var s2 := DoDisable(s1).value;
    assert Next(s1, StepDisable) == Some(s2);
    Reach(s1, StepDisable, s2);
    var s3 := DoRefused(s2, 2).value;
    assert Next(s2, StepRefused(2)) == Some(s3);
    Reach(s2, StepRefused(2), s3);
    s := ReenabledAndStopped(s3);
    assert s.procs == map[2 := Proc(Approve(0, None), 2, Failed(false))];
  }

  /** A re-enable whose rebuild stops at once. */
  lemma ReenabledAndStopped(s0: State) returns (s: State)
    requires Reachable(s0) && !s0.db.accountActive && s0.next !in s0.procs && s0.key == None
    ensures Reachable(s) && s
            == s0.(db := s0.db.(accountActive := true), teardown := None, teardownArmed := false, next := s0.next + 1)
  {
    hide Reachable, NextRead, NextIssue;
    var s1 := DoEnable(s0).value;
    assert Next(s0, StepEnable) == Some(s1);
    Reach(s0, StepEnable, s1);
    s := End(s1, s0.next);
    Reach(s1, StepCrash(s0.next), s);
    assert s.procs == s0.procs;
  }

  /** Having written nothing itself, it finds nothing to undo. */
  lemma NothingToUndo() returns (s: State)
    ensures Reachable(s) && s.groups == EVERYTHING && s.teardown == None
    ensures s.db == LeftOver.db.(requests := map[0 := DECIDED], jobs := map[OfRequest(0) := Job(2, Sending)])
    ensures s.procs == map[2 := Proc(Approve(0, None), 2, Settling(true))]
  {
    hide Reachable, NextStart, NextRead, NextIssue;
    hide DoAck, DoFail, DoCommit, DoCommitFails, DoSettle, DoCloseJob;
    hide DoPresence, DoRestore, DoGiveUp, DoFinish, DoTornDown;
    var s0 := RefusedIsReachable();
    assert Holder(s0.db).None?;
    s := DoObserve(s0, 2, false, false).value;
    assert Next(s0, StepObserve(2, false, false)) == Some(s);
    Reach(s0, StepObserve(2, false, false), s);
    assert s.procs == map[2 := Proc(Approve(0, None), 2, Settling(true))] && s.db == s0.db;
  }

  /** It settles its request. */
  lemma ClosingIsReachable() returns (s: State)
    ensures Reachable(s) && s.groups == EVERYTHING && s.db.grants == map[] && s.teardown == None
    ensures s.db.jobs == map[OfRequest(0) := Job(2, Sending)]
            && s.procs == map[2 := Proc(Approve(0, None), 2, Closing(true))]
  {
    hide Reachable, NextStart, NextRead, NextIssue;
    hide DoAck, DoFail, DoCommit, DoCommitFails, DoObserve, DoCloseJob;
    hide DoPresence, DoRestore, DoGiveUp, DoFinish, DoTornDown;
    var s1 := NothingToUndo();
    assert Waiting(s1.db).None?;
    s := DoSettle(s1, 2, true).value;
    assert Next(s1, StepSettle(2, true)) == Some(s);
    Reach(s1, StepSettle(2, true), s);
    assert s.procs == map[2 := Proc(Approve(0, None), 2, Closing(true))];
  }

  /** And it deletes the job that stood for the first approval's groups. */
  lemma DroppedJobOwesNothing()
    ensures exists s, s' :: Reachable(s) && Loses(s, StepCloseJob(2)) && Next(s, StepCloseJob(2)) == Some(s')
                            && Reachable(s') && !Owed(s') && s'.procs == map[] && s'.groups == EVERYTHING
  {
    hide Reachable, NextStart, NextRead, NextIssue;
    var s0 := ClosingIsReachable();
    var s1 := DoCloseJob(s0, 2).value;
    assert Next(s0, StepCloseJob(2)) == Some(s1);
    Reach(s0, StepCloseJob(2), s1);
    assert s1.db.jobs == map[] && s1.procs == map[];
    assert Exposed(s0) && NoActive(s0.db) && HoldsLastRow(s0, 2);
    assert Exposed(s1) && NoActive(s1.db) && !Owed(s1);
  }

  /** The revocation of grant 0 (process 2) claims it. */
  lemma RevokedIsReachable() returns (s: State)
    ensures Reachable(s) && s.groups == EVERYTHING && s.tag == 2 && s.puts == map[] && s.key == None && s.next == 3
    ensures s.db.requests.Keys == {0} && s.db.requests[0].status == Withdrawn
    ensures NoActive(s.db) && s.db.grants == map[0 := Grant(Revoked, Some(0), None, Some(7), Some(9))]
            && s.db.accountActive
    ensures !s.db.recovering && s.db.jobs == map[OfGrant(0) := Job(2, Sending)]
    ensures s.procs.Keys == {2} && s.procs[2].phase == Ready(Forward) && s.procs[2].work.Revoke?
            && s.procs[2].work.grant == 0 && s.procs[2].generation == 2 && s.procs[2].work.who == 7
            && s.procs[2].work.at == 9
  {
    hide Reachable, NextRead, NextIssue, NextAfter;
    GrantedIsReachable();
    assert IsActive(Granted.db, 0);
    s := DoRevoke(Granted, 0, 7, 9, None).value;
    assert Next(Granted, StepRevoke(0, 7, 9, None)) == Some(s);
    Reach(Granted, StepRevoke(0, 7, 9, None), s);
  }

  /** Its process stops, and a worker takes the job over. */
  lemma TakenOverIsReachable() returns (s: State)
    ensures Reachable(s) && s.groups == EVERYTHING && s.tag == 2 && s.puts == map[] && s.key == None && s.next == 4
    ensures s.db.requests.Keys == {0} && s.db.requests[0].status == Withdrawn
    ensures NoActive(s.db) && s.db.grants.Keys == {0} && s.db.accountActive
    ensures s.db.jobs == map[OfGrant(0) := Job(3, Sending)]
    ensures s.procs == map[3 := Proc(FinishRevoke(0), 3, Ready(Forward))]
  {
    hide Reachable, NextRead, NextIssue;
    var s0 := RevokedIsReachable();
    var s1 := End(s0, 2);
    Reach(s0, StepCrash(2), s1);
    assert s1.procs == map[];
    var s2 := DoReleaseStale(s1, OfGrant(0)).value;
    assert Next(s1, StepReleaseStale(OfGrant(0))) == Some(s2);
    Reach(s1, StepReleaseStale(OfGrant(0)), s2);
    assert s2.db.jobs == map[OfGrant(0) := Job(2, Queued)];
    s := DoRecover(s2, OfGrant(0)).value;
    assert Next(s2, StepRecover(OfGrant(0))) == Some(s);
    Reach(s2, StepRecover(OfGrant(0)), s);
    assert s.db.jobs == map[OfGrant(0) := Job(3, Sending)];
  }

  /** The worker takes the consumer key, the only key it works under, and loses it without
      noticing. */
  lemma RevokingIsReachable() returns (s: State)
    ensures Reachable(s) && s.groups == EVERYTHING && s.tag == 2 && s.puts == map[] && s.key == None && s.next == 4
    ensures s.db.requests.Keys == {0} && s.db.requests[0].status == Withdrawn
    ensures NoActive(s.db) && s.db.grants.Keys == {0} && s.db.accountActive
    ensures s.db.jobs == map[OfGrant(0) := Job(3, Sending)]
    ensures s.procs == map[3 := Proc(FinishRevoke(0), 3, Entered(Forward))]
  {
    hide Reachable, NextStart, NextIssue;
    var s0 := TakenOverIsReachable();
    var s1 := DoEnter(s0, 3, true).value;
    assert Next(s0, StepEnter(3, true)) == Some(s1);
    Reach(s0, StepEnter(3, true), s1);
    s := s1.(key := None);
    assert Next(s1, StepLoseKey) == Some(s);
    Reach(s1, StepLoseKey, s);
  }

  /** Meanwhile request 1 is filed and claimed by its approval (process 4). */
  lemma ReclaimedIsReachable() returns (s: State)
    ensures Reachable(s) && s.groups == EVERYTHING && s.tag == 2 && s.puts == map[] && s.key == None && s.next == 5
    ensures NoActive(s.db) && s.db.grants.Keys == {0} && s.db.accountActive
    ensures s.db.jobs == map[OfGrant(0) := Job(3, Sending), OfRequest(1) := Job(4, Sending)]
    ensures s.procs.Keys == {3, 4} && s.procs[3] == Proc(FinishRevoke(0), 3, Entered(Forward))
    ensures s.procs[4] == Proc(Approve(1, None), 4, Ready(Forward))
  {
    hide Reachable, NextRead, NextIssue, NextAfter;
    var s0 := RevokingIsReachable();
    var s1 := s0.(db := s0.db.(requests := s0.db.requests[1 := FILED]));
    assert Next(s0, StepFile(1, None, 1, 10)) == Some(s1);
    Reach(s0, StepFile(1, None, 1, 10), s1);
    s := DoApprove(s1, 1, 1, None, 11, None).value;
    assert Next(s1, StepApprove(1, 1, None, 11, None)) == Some(s);
    Reach(s1, StepApprove(1, 1, None, 11, None), s);
  }

  /** The approval reads the consumer under the key. */
  lemma RegrantingIsReachable() returns (s: State)
    ensures Reachable(s) && s.groups == EVERYTHING && s.tag == 2 && s.puts == map[] && s.key == Some(4) && s.next == 5
    ensures NoActive(s.db) && s.db.grants.Keys == {0} && s.db.accountActive
    ensures s.db.jobs == map[OfGrant(0) := Job(3, Sending), OfRequest(1) := Job(4, Sending)]
    ensures s.procs.Keys == {3, 4} && s.procs[3] == Proc(FinishRevoke(0), 3, Entered(Forward))
    ensures s.procs[4] == Proc(Approve(1, None), 4, HasRead(Forward, 2, EVERYTHING))
  {
    hide Reachable, NextStart, NextIssue, NextAfter;
    var s0 := ReclaimedIsReachable();
    var s1 := DoEnter(s0, 4, true).value;
    assert Next(s0, StepEnter(4, true)) == Some(s1);
    Reach(s0, StepEnter(4, true), s1);
    s := DoRead(s1, 4).value;
    assert Next(s1, StepRead(4)) == Some(s);
    Reach(s1, StepRead(4), s);
  }

  /** The approval puts its write in flight. */
  lemma PostedIsReachable() returns (s: State)
    ensures Reachable(s) && s.tag == 2 && s.puts == map[5 := Put(4, 2, EVERYTHING, None, None, true)]
            && s.key == Some(4) && s.next == 6
    ensures NoActive(s.db) && s.db.grants.Keys == {0}
    ensures s.db.jobs == map[OfGrant(0) := Job(3, Sending), OfRequest(1) := Job(4, Sending)]
    ensures s.procs.Keys == {3, 4} && s.procs[3] == Proc(FinishRevoke(0), 3, Entered(Forward))
    ensures s.procs[4] == Proc(Approve(1, None), 4, Issued(Forward, 5, 2, EVERYTHING, false))
  {
    hide Reachable, NextStart, NextRead, NextAfter;
    var s0 := RegrantingIsReachable();
    assert Covers(None) == EVERYTHING;
    s := DoIssueAdd(s0, 4).value;
    assert Next(s0, StepIssueAdd(4)) == Some(s);
    Reach(s0, StepIssueAdd(4), s);
  }

  /** The approval's write lands. */
  lemma LandedIsReachable() returns (s: State)
    ensures Reachable(s) && s.groups == EVERYTHING && s.tag == 3 && s.puts == map[] && s.key == Some(4) && s.next == 6
    ensures NoActive(s.db) && s.db.grants.Keys == {0}
    ensures s.db.jobs == map[OfGrant(0) := Job(3, Sending), OfRequest(1) := Job(4, Sending)]
    ensures s.procs.Keys == {3, 4} && s.procs[3] == Proc(FinishRevoke(0), 3, Entered(Forward))
    ensures s.procs[4] == Proc(Approve(1, None), 4, Issued(Forward, 5, 2, EVERYTHING, true))
  {
    hide Reachable, NextStart, NextIssue, NextAfter;
    var s0 := PostedIsReachable();
    s := DoLand(s0, 5).value;
    assert Next(s0, StepLand(5)) == Some(s);
    Reach(s0, StepLand(5), s);
  }

  /** Only now does the stalled worker read. */
  lemma RereadIsReachable() returns (s: State)
    ensures Reachable(s) && s.groups == EVERYTHING && s.tag == 3 && s.puts == map[] && s.key == Some(4) && s.next == 6
    ensures NoActive(s.db) && s.db.grants.Keys == {0}
    ensures s.db.jobs == map[OfGrant(0) := Job(3, Sending), OfRequest(1) := Job(4, Sending)]
    ensures s.procs.Keys == {3, 4} && s.procs[3] == Proc(FinishRevoke(0), 3, HasRead(Forward, 3, EVERYTHING))
    ensures s.procs[4] == Proc(Approve(1, None), 4, Issued(Forward, 5, 2, EVERYTHING, true))
  {
    hide Reachable, NextStart, NextIssue, NextAfter;
    var s0 := LandedIsReachable();
    s := DoRead(s0, 3).value;
    assert Next(s0, StepRead(3)) == Some(s);
    Reach(s0, StepRead(3), s);
  }

  /** And writes. */
  lemma RacingIsReachable() returns (s: State)
    ensures Reachable(s) && s.groups == EVERYTHING && s.tag == 3 && s.key == Some(4)
    ensures NoActive(s.db) && s.db.grants.Keys == {0} && Owns(s.db, Claim(OfRequest(1), 4))
    ensures 6 in s.puts && s.puts[6].tag == 3 && s.puts[6].groups == {} && !s.puts[6].fenced
    ensures 4 in s.procs && s.procs[4] == Proc(Approve(1, None), 4, Issued(Forward, 5, 2, EVERYTHING, true))
  {
    hide Reachable, NextStart, NextRead, NextAfter;
    var s0 := RereadIsReachable();
    s := DoIssueRevoke(s0, 3).value;
    assert Next(s0, StepIssueRevoke(3)) == Some(s);
    Reach(s0, StepIssueRevoke(3), s);
  }

  /** The approval's write is acknowledged, with the worker's still in flight. */
  lemma AckedIsReachable() returns (s: State)
    ensures Reachable(s) && s.groups == EVERYTHING && s.tag == 3 && s.key == Some(4)
    ensures NoActive(s.db) && s.db.grants.Keys == {0} && Owns(s.db, Claim(OfRequest(1), 4))
    ensures 6 in s.puts && s.puts[6].tag == 3 && s.puts[6].groups == {} && !s.puts[6].fenced
    ensures 4 in s.procs && s.procs[4] == Proc(Approve(1, None), 4, Written(2, EVERYTHING))
  {
    hide Reachable, NextStart, NextRead, NextIssue;
    var s0 := RacingIsReachable();
    s := DoAck(s0, 4).value;
    assert Next(s0, StepAck(4)) == Some(s);
    Reach(s0, StepAck(4), s);
  }

  /** The approval commits. */
  lemma RacedIsReachable() returns (s: State)
    ensures Reachable(s) && s.groups == EVERYTHING && s.tag == 3
    ensures 6 in s.puts && s.puts[6].tag == 3 && s.puts[6].groups == {} && !s.puts[6].fenced
    ensures IsActive(s.db, 1) && s.db.grants[1].tools == None
  {
    hide Reachable, NextStart, NextRead, NextIssue;
    hide DoAck, DoFail, DoCommitFails, DoObserve, DoSettle, DoCloseJob;
    hide DoPresence, DoRestore, DoGiveUp, DoFinish, DoTornDown;
    var s0 := AckedIsReachable();
    assert Holder(s0.db).None?;
    s := DoCommit(s0, 4, 1).value;
    assert Next(s0, StepCommit(4, 1)) == Some(s);
    Reach(s0, StepCommit(4, 1), s);
  }

  /** Without the key the guarantee is gone: a worker that finishes an older revocation, has
      lost the key, and read the consumer between an approval's write and its commit, takes
      the new grant's groups off. */
  lemma UnfencedRemovalLands()
    ensures exists s, s', q ::
      && Reachable(s) && q in s.puts && !s.puts[q].fenced && IsActive(s.db, 1)
      && s.groups == Covers(s.db.grants[1].tools)
      && Next(s, StepLand(q)) == Some(s') && IsActive(s'.db, 1) && s'.groups == {}
  {
    hide Reachable, NextStart, NextIssue, NextAfter;
    var s := RacedIsReachable();
    assert Covers(None) == EVERYTHING;
    var s' := DoLand(s, 6).value;
    assert s'.db == s.db && s'.groups == {};
    assert Next(s, StepLand(6)) == Some(s');
  }

  /* ── A removal that lands after its revocation was rolled back ─────────── */

  /** The revocation's write is in flight under the key. */
  lemma RemovingInFlight() returns (s: State)
    ensures Reachable(s) && s.groups == EVERYTHING && s.tag == 2 && s.key == Some(2) && s.next == 4
    ensures s.db.grants == map[0 := Grant(Revoked, Some(0), None, Some(7), Some(9))] && s.db.accountActive
            && !s.db.recovering
    ensures s.puts == map[3 := Put(2, 2, {}, Some(Claim(OfGrant(0), 2)), None, true)]
    ensures s.procs.Keys == {2} && s.procs[2].phase == Issued(Forward, 3, 2, {}, false) && s.procs[2].work.Revoke?
            && s.procs[2].work.grant == 0 && s.procs[2].work.who == 7 && s.procs[2].work.at == 9
  {
    hide Reachable, NextStart, NextRead, NextAfter;
    var s0 := ReadForRevokeIsReachable();
    s := DoIssueRevoke(s0, 2).value;
    assert Next(s0, StepIssueRevoke(2)) == Some(s);
    Reach(s0, StepIssueRevoke(2), s);
    assert s.puts == map[3 := Put(2, 2, {}, Some(Claim(OfGrant(0), 2)), None, true)];
  }

  /** Its process has given up on it. */
  lemma GivenUpIsReachable() returns (s: State)
    ensures Reachable(s) && s.groups == EVERYTHING && s.tag == 2 && s.key == None && s.next == 4
    ensures s.db.grants == map[0 := Grant(Revoked, Some(0), None, Some(7), Some(9))] && s.db.accountActive
            && !s.db.recovering
    ensures s.puts == map[3 := Put(2, 2, {}, Some(Claim(OfGrant(0), 2)), None, true)]
    ensures s.procs.Keys == {2} && s.procs[2].phase == Failed(true) && s.procs[2].work.Revoke?
            && s.procs[2].work.grant == 0
            && s.procs[2].work.who == 7 && s.procs[2].work.at == 9
  {
    hide Reachable, NextStart, NextRead, NextIssue;
    var s1 := RemovingInFlight();
    s := DoFail(s1, 2).value;
    assert Next(s1, StepFail(2)) == Some(s);
    Reach(s1, StepFail(2), s);
  }

  lemma ReadForRevokeIsReachable() returns (s: State)
    ensures Reachable(s) && s.groups == EVERYTHING && s.tag == 2 && s.puts == map[] && s.key == Some(2) && s.next == 3
    ensures s.db.grants == map[0 := Grant(Revoked, Some(0), None, Some(7), Some(9))] && s.db.accountActive
            && !s.db.recovering
    ensures s.db.jobs == map[OfGrant(0) := Job(2, Sending)] && NoActive(s.db)
    ensures s.procs.Keys == {2} && s.procs[2].phase == HasRead(Forward, 2, EVERYTHING) && s.procs[2].work.Revoke?
            && s.procs[2].work.grant == 0 && s.procs[2].generation == 2 && s.procs[2].work.who == 7
            && s.procs[2].work.at == 9
  {
    hide Reachable, NextStart, NextIssue, NextAfter;
    var s0 := RevokedIsReachable();
    var s1 := DoEnter(s0, 2, true).value;
    assert Next(s0, StepEnter(2, true)) == Some(s1);
    Reach(s0, StepEnter(2, true), s1);
    s := DoRead(s1, 2).value;
    assert Next(s1, StepRead(2)) == Some(s);
    Reach(s1, StepRead(2), s);
  }

  /** A rollback judges what it finds, and puts the grant back. */
  lemma RolledBackFrom(s0: State, p: nat) returns (s: State)
    requires Reachable(s0) && p in s0.procs && s0.procs[p].phase == Failed(true) && s0.procs[p].work.Revoke?
    requires s0.key.None? && s0.groups == EVERYTHING && s0.db.accountActive
    requires s0.procs[p].work.grant == 0
             && s0.db.grants
             == map[0 := Grant(Revoked, Some(0), None, Some(s0.procs[p].work.who), Some(s0.procs[p].work.at))]
    ensures Reachable(s) && RollingBack(s, StepRestore(p, true), 0) && s.db == s0.db && s.procs.Keys == s0.procs.Keys
    ensures s.groups == s0.groups && s.tag == s0.tag && s.puts == s0.puts
    ensures forall x :: x in s0.procs && x != p ==> s.procs[x] == s0.procs[x]
    ensures s.procs[p] == s0.procs[p].(phase := Judging(true))
  {
    hide Reachable, NextStart, NextRead, NextIssue;
    hide DoAck, DoFail, DoCommit, DoCommitFails, DoObserve, DoSettle;
    hide DoCloseJob, DoRestore, DoGiveUp, DoFinish, DoTornDown;
    assert Covers(None) == EVERYTHING && Rest in EVERYTHING * EVERYTHING;
    s := DoPresence(s0, p, false).value;
    assert Next(s0, StepPresence(p, false)) == Some(s);
    Reach(s0, StepPresence(p, false), s);
  }

  /** And the rollback commits. */
  lemma RestoresGrant(s: State, p: nat) returns (s': State)
    requires Reachable(s) && RollingBack(s, StepRestore(p, true), 0)
    ensures Next(s, StepRestore(p, true)) == Some(s') && Reachable(s') && IsActive(s'.db, 0)
    ensures s'.db.grants[0].tools == s.db.grants[0].tools && s'.db.jobs == s.db.jobs - {OfGrant(0)}
    ensures s'.groups == s.groups && s'.tag == s.tag && s'.puts == s.puts
  {
    hide Reachable, NextStart, NextRead, NextIssue;
    hide DoAck, DoFail, DoCommit, DoCommitFails, DoObserve, DoSettle;
    hide DoCloseJob, DoPresence, DoGiveUp, DoFinish, DoTornDown;
    s' := DoRestore(s, p, true).value;
    assert Next(s, StepRestore(p, true)) == Some(s');
    Reach(s, StepRestore(p, true), s');
  }

  lemma RestoredInFlight() returns (s: State)
    ensures Reachable(s) && s.groups == EVERYTHING && s.tag == 2 && IsActive(s.db, 0) && s.db.grants[0].tools == None
    ensures s.puts == map[3 := Put(2, 2, {}, Some(Claim(OfGrant(0), 2)), None, true)]
  {
    hide Reachable, Next;
    var s0 := GivenUpIsReachable();
    var s1 := RolledBackFrom(s0, 2);
    s := RestoresGrant(s1, 2);
  }

  /** Even under the key: a rollback puts its grant back while its own removal is still in
      flight, and the removal then takes effect. */
  lemma LateRemovalAfterRollback()
    ensures exists s, s', q ::
      && Reachable(s) && q in s.puts && s.puts[q].fenced && IsActive(s.db, 0)
      && s.groups == Covers(s.db.grants[0].tools)
      && Next(s, StepLand(q)) == Some(s') && IsActive(s'.db, 0) && s'.groups == {}
  {
    hide Reachable, NextStart, NextIssue, NextAfter;
    var s := RestoredInFlight();
    assert Covers(None) == EVERYTHING;
    var s' := DoLand(s, 3).value;
    assert s'.groups == {} && s'.db == s.db;
    assert Next(s, StepLand(3)) == Some(s');
  }

  /* ── A sweep that strips a fresh grant ─────────────────────────────────── */

  const SWEEPING := Proc(Sweep, 3, Ready(Forward))

  /** The disable and its sweep's claim, before the sweep gets to the gateway; then the
      re-enable, whose rebuild stops at once. */
  lemma StalledSweepIsReachable() returns (s: State)
    ensures Reachable(s) && s.groups == EVERYTHING && s.tag == 2 && s.puts == map[] && s.key == None && s.next == 5
    ensures s.db.requests.Keys == {0} && s.db.requests[0].status == Withdrawn && s.db.grants.Keys == {0}
            && NoActive(s.db)
    ensures s.db.jobs == map[] && s.teardown == None && s.db.accountActive && s.procs == map[3 := SWEEPING]
  {
    hide Reachable, NextRead, NextIssue, NextAfter;
    GrantedIsReachable();
    var s1 := Granted.(db := Granted.db.(accountActive := false), teardown := Some(2), teardownArmed := true,
      next := 3);
    assert Next(Granted, StepDisable) == Some(s1);
    Reach(Granted, StepDisable, s1);
    assert IsActive(s1.db, 0);
    var s2 := DoSweep(s1, 0, 7, 9, None).value;
    assert Next(s1, StepSweep(0, 7, 9, None)) == Some(s2);
    Reach(s1, StepSweep(0, 7, 9, None), s2);
    assert s2.db.grants.Keys == {0} && s2.procs == map[3 := SWEEPING];
    s := ReenabledAndStopped(s2);
  }

  /** Request 1 is filed and claimed by its approval (process 5). */
  lemma RefiledIsReachable() returns (s: State)
    ensures Reachable(s) && s.groups == EVERYTHING && s.tag == 2 && s.puts == map[] && s.key == None && s.next == 6
    ensures s.db.grants.Keys == {0} && NoActive(s.db) && s.db.accountActive
            && s.db.jobs == map[OfRequest(1) := Job(5, Sending)]
    ensures s.procs == map[3 := SWEEPING, 5 := Proc(Approve(1, None), 5, Ready(Forward))]
  {
    hide Reachable, NextRead, NextIssue, NextAfter;
    var s0 := StalledSweepIsReachable();
    var s1 := s0.(db := s0.db.(requests := s0.db.requests[1 := FILED]));
    assert Next(s0, StepFile(1, None, 1, 10)) == Some(s1);
    Reach(s0, StepFile(1, None, 1, 10), s1);
    s := DoApprove(s1, 1, 1, None, 11, None).value;
    assert Next(s1, StepApprove(1, 1, None, 11, None)) == Some(s);
    Reach(s1, StepApprove(1, 1, None, 11, None), s);
    assert s.procs == map[3 := SWEEPING, 5 := Proc(Approve(1, None), 5, Ready(Forward))];
  }

  /** A process takes the free key and reads the consumer. */
  lemma EntersAndReads(s0: State, p: nat) returns (s: State)
    requires Reachable(s0) && p in s0.procs && s0.procs[p].phase == Ready(Forward) && s0.key == None
    requires s0.procs[p].work.Approve? || s0.procs[p].work.Sweep?
    requires s0.procs[p].work.Approve? ==> s0.db.accountActive
    ensures Reachable(s)
    ensures s == s0.(key := Some(p), procs := s0.procs[p := s0.procs[p].(phase := HasRead(Forward, s0.tag, s0.groups))])
  {
    hide Reachable, NextStart, NextIssue, NextAfter;
    var s1 := DoEnter(s0, p, true).value;
    assert Next(s0, StepEnter(p, true)) == Some(s1);
    Reach(s0, StepEnter(p, true), s1);
    s := DoRead(s1, p).value;
    assert Next(s1, StepRead(p)) == Some(s);
    Reach(s1, StepRead(p), s);
    assert s.procs == s0.procs[p := s0.procs[p].(phase := HasRead(Forward, s0.tag, s0.groups))];
  }

  /** The approval's write is in flight. */
  lemma RepostedIsReachable() returns (s: State)
    ensures Reachable(s) && s.tag == 2 && s.puts == map[6 := Put(5, 2, EVERYTHING, None, None, true)]
            && s.key == Some(5) && s.next == 7
    ensures s.db.grants.Keys == {0} && NoActive(s.db) && s.db.accountActive
            && s.db.jobs == map[OfRequest(1) := Job(5, Sending)]
    ensures s.procs == map[3 := SWEEPING, 5 := Proc(Approve(1, None), 5, Issued(Forward, 6, 2, EVERYTHING, false))]
  {
    hide Reachable, NextStart, NextRead, NextAfter;
    var s0 := RefiledIsReachable();
    var s1 := EntersAndReads(s0, 5);
    assert Covers(None) == EVERYTHING;
    s := DoIssueAdd(s1, 5).value;
    assert Next(s1, StepIssueAdd(5)) == Some(s);
    Reach(s1, StepIssueAdd(5), s);
    assert s.procs == map[3 := SWEEPING, 5 := Proc(Approve(1, None), 5, Issued(Forward, 6, 2, EVERYTHING, false))];
  }

  /** It lands and is acknowledged. */
  lemma ReackedIsReachable() returns (s: State)
    ensures Reachable(s) && s.groups == EVERYTHING && s.tag == 3 && s.puts == map[] && s.key == Some(5) && s.next == 7
    ensures s.db.grants.Keys == {0} && NoActive(s.db) && s.db.accountActive
            && s.db.jobs == map[OfRequest(1) := Job(5, Sending)]
    ensures s.procs == map[3 := SWEEPING, 5 := Proc(Approve(1, None), 5, Written(2, EVERYTHING))]
  {
    hide Reachable, NextStart, NextIssue;
    var s0 := RepostedIsReachable();
    var s1 := DoLand(s0, 6).value;
    assert Next(s0, StepLand(6)) == Some(s1);
    assert s1.procs[5] == Proc(Approve(1, None), 5, Issued(Forward, 6, 2, EVERYTHING, true));
    Reach(s0, StepLand(6), s1);
    s := DoAck(s1, 5).value;
    assert Next(s1, StepAck(5)) == Some(s);
    Reach(s1, StepAck(5), s);
    assert s.procs == map[3 := SWEEPING, 5 := Proc(Approve(1, None), 5, Written(2, EVERYTHING))];
  }

  /** The approval commits, and releases every key. */
  lemma RegrantedIsReachable() returns (s: State)
    ensures Reachable(s) && s.groups == EVERYTHING && s.tag == 3 && s.puts == map[] && s.key == None && s.next == 7
    ensures IsActive(s.db, 1) && s.db.grants[1].tools == None && s.db.jobs == map[] && s.procs == map[3 := SWEEPING]
  {
    hide Reachable, NextStart, NextRead, NextIssue;
    hide DoAck, DoFail, DoCommitFails, DoObserve, DoSettle, DoCloseJob;
    hide DoPresence, DoRestore, DoGiveUp, DoFinish, DoTornDown;
    var s0 := ReackedIsReachable();
    assert Holder(s0.db).None?;
    s := DoCommit(s0, 5, 1).value;
    assert Next(s0, StepCommit(5, 1)) == Some(s);
    Reach(s0, StepCommit(5, 1), s);
    assert s.procs == map[3 := SWEEPING] && s.db.jobs == map[];
  }

  /** Only now does the sweep get to the gateway. */
  lemma SweepPostedIsReachable() returns (s: State)
    ensures Reachable(s) && s.groups == EVERYTHING && s.tag == 3 && s.puts == map[7 := Put(3, 3, {}, None, None, true)]
    ensures IsActive(s.db, 1) && s.db.grants[1].tools == None && s.db.jobs == map[] && s.procs.Keys == {3}
  {
    hide Reachable, NextStart, NextRead, NextAfter;
    var s0 := RegrantedIsReachable();
    var s1 := EntersAndReads(s0, 3);
    s := DoIssueSweep(s1, 3).value;
    assert Next(s1, StepIssueSweep(3)) == Some(s);
    Reach(s1, StepIssueSweep(3), s);
  }

  /** With every lease held, a sweep that outlives its disable takes the groups of a grant
      approved after the re-enable off, and nothing is left that would put them back. */
  lemma SweepStripsFreshGrant()
    ensures exists s, s', q ::
      && Reachable(s) && q in s.puts && s.puts[q].fenced && IsActive(s.db, 1)
      && s.groups == Covers(s.db.grants[1].tools)
      && Next(s, StepLand(q)) == Some(s') && IsActive(s'.db, 1) && s'.groups == {} && s'.db.jobs == map[]
      && s'.puts == map[]
  {
    hide Reachable, NextStart, NextIssue, NextAfter;
    var s := SweepPostedIsReachable();
    assert Covers(None) == EVERYTHING;
    var s' := DoLand(s, 7).value;
    assert s'.db == s.db && s'.groups == {} && s'.puts == map[];
    assert Next(s, StepLand(7)) == Some(s');
  }

  /* ── A superseded revocation that rolls back ───────────────────────────── */

  lemma FailedRevokeIsReachable() returns (s: State)
    ensures Reachable(s) && s.groups == EVERYTHING && s.key == None && s.db.accountActive && s.next == 3
    ensures s.db.grants == map[0 := Grant(Revoked, Some(0), None, Some(7), Some(9))]
    ensures s.db.jobs == map[OfGrant(0) := Job(2, Sending)]
    ensures s.procs.Keys == {2} && s.procs[2].phase == Failed(true) && s.procs[2].work.Revoke?
            && s.procs[2].work.grant == 0
            && s.procs[2].work.who == 7 && s.procs[2].work.at == 9 && s.procs[2].generation == 2
  {
    hide Reachable, NextStart, NextRead, NextIssue;
    var s0 := RevokedIsReachable();
    s := DoFail(s0, 2).value;
    assert Next(s0, StepFail(2)) == Some(s);
    Reach(s0, StepFail(2), s);
  }

  /** A worker has taken the job over; the revocation's own process goes on regardless. */
  lemma OvertakenIsReachable() returns (s: State)
    ensures Reachable(s) && s.groups == EVERYTHING && s.key == None && s.db.accountActive
    ensures s.db.grants == map[0 := Grant(Revoked, Some(0), None, Some(7), Some(9))]
    ensures s.db.jobs == map[OfGrant(0) := Job(3, Sending)]
    ensures 2 in s.procs && s.procs[2].phase == Failed(true) && s.procs[2].work.Revoke? && s.procs[2].work.grant == 0
            && s.procs[2].work.who == 7 && s.procs[2].work.at == 9 && s.procs[2].generation == 2
  {
    hide Reachable, NextRead, NextIssue, NextAfter;
    var s1 := FailedRevokeIsReachable();
    var s2 := DoReleaseStale(s1, OfGrant(0)).value;
    assert Next(s1, StepReleaseStale(OfGrant(0))) == Some(s2);
    Reach(s1, StepReleaseStale(OfGrant(0)), s2);
    assert s2.db.jobs == map[OfGrant(0) := Job(2, Queued)];
    s := DoRecover(s2, OfGrant(0)).value;
    assert Next(s2, StepRecover(OfGrant(0))) == Some(s);
    Reach(s2, StepRecover(OfGrant(0)), s);
    assert s.db.jobs == map[OfGrant(0) := Job(3, Sending)];
  }

  /** Its rollback puts the grant back and takes the worker's job away. */
  lemma SupersededRollsBack()
    ensures exists s, s' ::
      && Reachable(s) && Superseded(s, 2) && RollingBack(s, StepRestore(2, true), 0)
      && Next(s, StepRestore(2, true)) == Some(s')
      && s'.db != s.db && IsActive(s'.db, 0) && s'.db.jobs == map[]
  {
    hide Reachable, NextStart, NextRead, NextIssue;
    var s0 := OvertakenIsReachable();
    var s1 := RolledBackFrom(s0, 2);
    assert Superseded(s1, 2) by { hide RollingBack; }
    var s2 := RestoresGrant(s1, 2);
    hide RollingBack, Superseded;
    assert s2.db.jobs == map[];
    assert OfGrant(0) in s1.db.jobs;
  }
}
