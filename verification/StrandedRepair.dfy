/** Queueing the gateway work stranded before jobs existed: two keyset scans over rows
    that other processes keep moving, recorded once. */
module StrandedRepair {
  /** Row ids; the scans read them in order. */
  type Id = nat

  /** One page of a keyset scan of `rows`: the first ids above `after`, in order. */
  ghost predicate IsPage(rows: set<Id>, after: int, size: nat, page: seq<Id>) {
    && |page| <= size
    && (forall i, j :: 0 <= i < j < |page| ==> page[i] < page[j])
    && (forall i :: 0 <= i < |page| ==> page[i] in rows && page[i] > after)
    && (forall id :: id in rows && id > after ==> id in page || (|page| == size && page != [] && id > page[|page| - 1]))
  }

  /** A status as other processes leave it at each moment, and the reads made of it. */
  datatype Table = Table(rows: nat -> set<Id>, page: (nat, int) -> seq<Id>, size: nat, bound: nat)

  ghost predicate Answers(table: Table) {
    && table.size > 0
    && (forall t: nat, after: int :: IsPage(table.rows(t), after, table.size, table.page(t, after)))
    && (forall t: nat, id: Id :: id in table.rows(t) ==> id < table.bound)
  }

  /** A row that keeps its status from `from` until `until`. */
  ghost predicate Persists(table: Table, id: Id, from: nat, until: nat) {
    forall t: nat :: from <= t < until ==> id in table.rows(t)
  }

  /** Whether every check of `key` passes from `from` until `until`. */
  ghost predicate Passes<K(!new)>(checks: seq<(nat, K) -> bool>, key: K, from: nat, until: nat) {
    forall i: nat, t: nat :: i < |checks| && from <= t < until ==> checks[i](t, key)
  }

  /** A job asked for: the row it is for, and when. */
  datatype Queued = Queued(id: Id, at: nat)

  ghost predicate IsQueued<K(!new)>(log: seq<Queued>, keyOf: Id -> K, key: K) {
    exists i :: 0 <= i < |log| && keyOf(log[i].id) == key
  }

  /** A key that was met either has had its job asked for or failed a check meanwhile. */
  ghost predicate Settled<K(!new)>(log: seq<Queued>, keyOf: Id -> K, checks: seq<(nat, K) -> bool>, key: K, from: nat,
      until: nat) {
    IsQueued(log, keyOf, key) || !Passes(checks, key, from, until)
  }

  /** Whether every check of `key` passed at some moment from `from` until `until`. */
  ghost predicate Justified<K(!new)>(checks: seq<(nat, K) -> bool>, key: K, from: nat, until: nat) {
    forall i: nat :: i < |checks| ==> HeldOnce(checks[i], key, from, until)
  }

  ghost predicate HeldOnce<K(!new)>(check: (nat, K) -> bool, key: K, from: nat, until: nat) {
    exists t: nat :: from <= t < until && check(t, key)
  }

  /** Each check in turn, a moment apart, until one fails. */
  method Check<K(!new)>(checks: seq<(nat, K) -> bool>, key: K, from: nat) returns (passed: bool, until: nat)
    ensures from <= until
    ensures passed ==> Justified(checks, key, from, until)
    ensures !passed ==> !Passes(checks, key, from, until)
  {
    until := from;
    for i := 0 to |checks|
      invariant until == from + i
      invariant forall j: nat :: j < i ==> HeldOnce(checks[j], key, from, until)
    {
      var ok := checks[i](until, key);
      until := until + 1;
      if !ok { return false, until; }
      forall j: nat | j <= i ensures HeldOnce(checks[j], key, from, until) {
        if j < i {
          var t: nat :| from <= t < until - 1 && checks[j](t, key);
        } else {
          assert from <= until - 1 < until && checks[i](until - 1, key);
        }
      }
    }
    passed := true;
  }

  lemma SettledStays<K(!new)>(log: seq<Queued>, more: seq<Queued>, keyOf: Id -> K, checks: seq<(nat, K) -> bool>,
      key: K, from: nat, until: nat, later: nat)
    requires Settled(log, keyOf, checks, key, from, until) && until <= later
    ensures Settled(log + more, keyOf, checks, key, from, later)
  {
    if IsQueued(log, keyOf, key) {
      var i :| 0 <= i < |log| && keyOf(log[i].id) == key;
      assert (log + more)[i] == log[i];
    }
  }

  /** One row met: its key's job is asked for unless the key was met before or fails a check. */
  method Meet<K(==,!new)>(ghost visited: seq<Id>, ghost log: seq<Queued>, seen: set<K>, keyOf: Id -> K,
      checks: seq<(nat, K) -> bool>,
                          ghost from: nat, now: nat, id: Id) returns (entry: seq<Queued>, key: K, until: nat)
    requires from <= now && Tally(visited, log, seen, keyOf, checks, from, now)
    ensures now <= until && key == keyOf(id)
    ensures Tally(visited + [id], log + entry, seen + {key}, keyOf, checks, from, until)
  {
    key := keyOf(id);
    if key in seen {
      TallySeen(visited, log, seen, keyOf, checks, from, now, id);
      assert log + [] == log && seen + {key} == seen;
      return [], key, now;
    }
    var passed, checked := Check(checks, key, now);
    until := checked + 1;
    TallyLater(visited, log, seen, keyOf, checks, from, now, until);
    if passed { JustifiedPart(checks, key, from, now, checked); }
      else { PassesPart(checks, key, from, now, checked, until); }
    entry := if passed then [Queued(id, checked)] else [];
    TallyMore(visited, log, entry, seen, keyOf, checks, from, until, id);
  }

  /** The rows of a page, in order, up to where the process stops, if it does. */
  method MeetPage<K(==,!new)>(visited: seq<Id>, log: seq<Queued>, seen: set<K>, keyOf: Id -> K,
      checks: seq<(nat, K) -> bool>,
                              ghost from: nat, now: nat, page: seq<Id>, stops: nat -> bool)
    returns (met: nat, log': seq<Queued>, seen': set<K>, until: nat)
    requires from <= now && Tally(visited, log, seen, keyOf, checks, from, now)
    ensures now <= until && met <= |page|
    ensures met < |page| ==> stops(until)
    ensures Tally(visited + page[..met], log', seen', keyOf, checks, from, until)
  {
    met, log', seen', until := 0, log, seen, now;
    assert visited + page[..0] == visited;
    while met < |page|
      invariant met <= |page| && now <= until
      invariant Tally(visited + page[..met], log', seen', keyOf, checks, from, until)
    {
      if stops(until) { return; }
      var entry, key;
      entry, key, until := Meet(visited + page[..met], log', seen', keyOf, checks, from, until, page[met]);
      log', seen' := log' + entry, seen' + {key};
      assert visited + page[..met] + [page[met]] == visited + page[..met + 1];
      met := met + 1;
    }
  }

  /** The keyset loop: one job per key, for the first row met. Whatever leaves the status
      meanwhile, no row is met twice and the loop ends; and unless the process stops on the
      way, no row that keeps the status is skipped. */
  method Sweep<K(==,!new)>(table: Table, keyOf: Id -> K, checks: seq<(nat, K) -> bool>, from: nat, stops: nat -> bool)
    returns (visited: seq<Id>, log: seq<Queued>, until: nat, complete: bool)
    requires Answers(table)
    ensures from <= until && (!complete ==> stops(until))
    ensures forall i, j :: 0 <= i < j < |visited| ==> visited[i] < visited[j]
    ensures complete ==> from < until && forall id: Id :: Persists(table, id, from, until) ==> id in visited
    ensures forall id :: id in visited ==> Settled(log, keyOf, checks, keyOf(id), from, until)
    ensures forall i, j :: 0 <= i < j < |log| ==> keyOf(log[i].id) != keyOf(log[j].id)
    ensures forall i :: 0 <= i < |log| ==>
              log[i].id in visited && from <= log[i].at < until && Justified(checks, keyOf(log[i].id), from, log[i].at)
  {
    visited, log, until, complete := [], [], from, false;
    var seen: set<K>, after: int := {}, -1;
    while true
      invariant from <= until && -1 <= after && (after == -1 || after < table.bound)
      invariant forall i, j :: 0 <= i < j < |visited| ==> visited[i] < visited[j]
      invariant forall i :: 0 <= i < |visited| ==> visited[i] <= after
      invariant forall id: Id :: Persists(table, id, from, until) && id <= after ==> id in visited
      invariant Tally(visited, log, seen, keyOf, checks, from, until)
      decreases table.bound - after
    {
      if stops(until) { return; }
      var read := until;
      var page := table.page(read, after);
      assert IsPage(table.rows(read), after, table.size, page);
      until := until + 1;
      TallyLater(visited, log, seen, keyOf, checks, from, read, until);
      if page == [] { complete := true; return; }
      var met;
      met, log, seen, until := MeetPage(visited, log, seen, keyOf, checks, from, until, page, stops);
      visited := visited + page[..met];
      if met < |page| { return; }
      assert page[..met] == page;
      forall id: Id | Persists(table, id, from, until) && id <= page[|page| - 1] ensures id in visited {
        if id <= after {
          assert Persists(table, id, from, read);
        } else {
          assert id in table.rows(read);
        }
      }
      after := page[|page| - 1];
      assert page[|page| - 1] in table.rows(read);
    }
  }

  /** What the scan has settled so far. */
  ghost predicate Tally<K(!new)>(visited: seq<Id>, log: seq<Queued>, seen: set<K>, keyOf: Id -> K,
      checks: seq<(nat, K) -> bool>, from: nat, until: nat) {
    && (forall id :: id in visited ==> keyOf(id) in seen)
    && (forall key :: key in seen ==> Settled(log, keyOf, checks, key, from, until))
    && (forall i :: 0 <= i < |log| ==> keyOf(log[i].id) in seen && log[i].id in visited && from <= log[i].at < until
                                       && Justified(checks, keyOf(log[i].id), from, log[i].at))
    && (forall i, j :: 0 <= i < j < |log| ==> keyOf(log[i].id) != keyOf(log[j].id))
  }

  lemma TallyLater<K(!new)>(visited: seq<Id>, log: seq<Queued>, seen: set<K>, keyOf: Id -> K,
      checks: seq<(nat, K) -> bool>, from: nat, until: nat, later: nat)
    requires Tally(visited, log, seen, keyOf, checks, from, until) && until <= later
    ensures Tally(visited, log, seen, keyOf, checks, from, later)
  {
    forall key | key in seen ensures Settled(log, keyOf, checks, key, from, later) {
      SettledStays(log, [], keyOf, checks, key, from, until, later);
      assert log + [] == log;
    }
  }

  lemma TallySeen<K(!new)>(visited: seq<Id>, log: seq<Queued>, seen: set<K>, keyOf: Id -> K,
      checks: seq<(nat, K) -> bool>, from: nat, until: nat, id: Id)
    requires Tally(visited, log, seen, keyOf, checks, from, until) && keyOf(id) in seen
    ensures Tally(visited + [id], log, seen, keyOf, checks, from, until)
  {}

  lemma JustifiedPart<K(!new)>(checks: seq<(nat, K) -> bool>, key: K, from: nat, start: nat, until: nat)
    requires from <= start && Justified(checks, key, start, until)
    ensures Justified(checks, key, from, until)
  {
    forall i: nat | i < |checks| ensures HeldOnce(checks[i], key, from, until) {
      assert HeldOnce(checks[i], key, start, until);
    }
  }

  lemma PassesPart<K(!new)>(checks: seq<(nat, K) -> bool>, key: K, from: nat, start: nat, end: nat, until: nat)
    requires from <= start && end <= until && !Passes(checks, key, start, end)
    ensures !Passes(checks, key, from, until)
  {}

  lemma TallyMore<K(!new)>(visited: seq<Id>, log: seq<Queued>, entry: seq<Queued>, seen: set<K>, keyOf: Id -> K,
      checks: seq<(nat, K) -> bool>, from: nat, until: nat, id: Id)
    requires Tally(visited, log, seen, keyOf, checks, from, until) && keyOf(id) !in seen
    requires entry == [] || (|entry| == 1 && entry[0].id == id && from <= entry[0].at < until
             && Justified(checks, keyOf(id), from, entry[0].at))
    requires entry == [] ==> !Passes(checks, keyOf(id), from, until)
    ensures Tally(visited + [id], log + entry, seen + {keyOf(id)}, keyOf, checks, from, until)
  {
    forall key | key in seen + {keyOf(id)} ensures Settled(log + entry, keyOf, checks, key, from, until) {
      if key in seen {
        SettledStays(log, entry, keyOf, checks, key, from, until, until);
      } else if entry != [] {
        assert (log + entry)[|log|] == entry[0];
      }
    }
  }

  /* ── The run ───────────────────────────────────────────────────────────── */

  /** Everything the repair reads. A revoked grant's identity is `identityOf`; an approved
      request for access is its own key. */
  datatype World<!I(==)> = World(
    revoked: Table, identityOf: Id -> I,
    noActiveGrant: (nat, I) -> bool, hasConsumer: (nat, I) -> bool, accountThere: (nat, I) -> bool,
    approved: Table,
    plain: (nat, Id) -> bool, neverGranted: (nat, Id) -> bool, requesterThere: (nat, Id) -> bool)

  function GrantChecks<I>(w: World<I>): seq<(nat, I) -> bool> {
    [w.noActiveGrant, w.hasConsumer, w.accountThere]
  }

  function RequestChecks<I>(w: World<I>): seq<(nat, Id) -> bool> {
    [w.plain, w.neverGranted, w.requesterThere]
  }

  /** An identity with a grant that stays revoked and none active, with its account and its
      consumer there, from `from` until `until`. */
  ghost predicate StrandedIdentity<I(!new)>(w: World<I>, key: I, from: nat, until: nat) {
    && Passes(GrantChecks(w), key, from, until)
    && exists g :: w.identityOf(g) == key && Persists(w.revoked, g, from, until)
  }

  /** A request for access that stays approved with no grant ever made from it. */
  ghost predicate StrandedRequest<I(!new)>(w: World<I>, r: Id, from: nat, until: nat) {
    Persists(w.approved, r, from, until) && Passes(RequestChecks(w), r, from, until)
  }

  function Same(r: Id): Id {
    r
  }

  /** Whether `recorded` says that a run was completed. */
  class Repair<I(==,!new)> {
    var recorded: bool

    constructor ()
      ensures !recorded
    {
      recorded := false;
    }

    /** One start, which may stop anywhere: `stops` says at which moments. A run that stops
        records nothing and is simply run again by the next start; one that is recorded has
        asked for a job for everything that was stranded throughout it, one per identity. */
    method Run(w: World<I>, from: nat, stops: nat -> bool)
        returns (revocations: seq<Queued>, approvals: seq<Queued>, until: nat)
      requires Answers(w.revoked) && Answers(w.approved)
      modifies this
      ensures from <= until
      ensures recorded ==> old(recorded) || !stops(until)
      ensures !recorded ==> stops(until)
      ensures old(recorded) ==> recorded && revocations == [] && approvals == []
      ensures !old(recorded) && recorded ==>
                && (forall key :: StrandedIdentity(w, key, from, until) ==> IsQueued(revocations, w.identityOf, key))
                && (forall r :: StrandedRequest(w, r, from, until) ==>
                    exists i :: 0 <= i < |approvals| && approvals[i].id == r)
      ensures forall i, j :: 0 <= i < j < |revocations| ==>
              w.identityOf(revocations[i].id) != w.identityOf(revocations[j].id)
      ensures forall i, j :: 0 <= i < j < |approvals| ==> approvals[i].id != approvals[j].id
      ensures forall i :: 0 <= i < |revocations| ==>
              Justified(GrantChecks(w), w.identityOf(revocations[i].id), from, until)
      ensures forall i :: 0 <= i < |approvals| ==> Justified(RequestChecks(w), approvals[i].id, from, until)
    {
      revocations, approvals, until := [], [], from;
      if recorded { return; }
      var grants, middle, whole;
      grants, revocations, middle, whole := Sweep(w.revoked, w.identityOf, GrantChecks(w), from, stops);
      until := middle;
      JustifiedLater(GrantChecks(w), w.identityOf, revocations, from, from, middle, until);
      if !whole { return; }
      var requests;
      requests, approvals, until, whole := Sweep(w.approved, Same, RequestChecks(w), middle, stops);
      JustifiedLater(GrantChecks(w), w.identityOf, revocations, from, from, middle, until);
      JustifiedLater(RequestChecks(w), Same, approvals, from, middle, until, until);
      if !whole || stops(until) { return; }
      forall key | StrandedIdentity(w, key, from, until) ensures IsQueued(revocations, w.identityOf, key) {
        var g :| w.identityOf(g) == key && Persists(w.revoked, g, from, until);
        assert Persists(w.revoked, g, from, middle);
        assert Passes(GrantChecks(w), key, from, middle);
        assert g in grants;
      }
      forall r | StrandedRequest(w, r, from, until) ensures exists i :: 0 <= i < |approvals| && approvals[i].id == r {
        assert Persists(w.approved, r, middle, until);
        assert Passes(RequestChecks(w), r, middle, until);
        assert r in requests;
        assert Settled(approvals, Same, RequestChecks(w), Same(r), middle, until);
      }
      recorded := true;
    }
  }

  /** What justified a job while it was asked for justifies it in any longer stretch. */
  lemma JustifiedLater<K(!new)>(checks: seq<(nat, K) -> bool>, keyOf: Id -> K, log: seq<Queued>, from: nat, start: nat,
      end: nat, until: nat)
    requires from <= start && end <= until
    requires forall i :: 0 <= i < |log| ==> log[i].at < end && Justified(checks, keyOf(log[i].id), start, log[i].at)
    ensures forall i :: 0 <= i < |log| ==> Justified(checks, keyOf(log[i].id), from, until)
  {
    forall i | 0 <= i < |log| ensures Justified(checks, keyOf(log[i].id), from, until) {
      forall c: nat | c < |checks| ensures HeldOnce(checks[c], keyOf(log[i].id), from, until) {
        assert HeldOnce(checks[c], keyOf(log[i].id), start, log[i].at);
        var t: nat :| start <= t < log[i].at && checks[c](t, keyOf(log[i].id));
      }
    }
  }
}
