/** The background worker that finishes access gateway jobs: its tick over the queue, its
    backoff, and how long a request may hold a job. */
module GatewayJobWorker {
  import opened Wrappers

  const BASE_BACKOFF_MS := 10_000
  const MAX_BACKOFF_MS := 300_000
  const STALE_AFTER_MS := 300_000
  const EDGE_CALLS := 6
  const LEASE_WAIT_MS := 30_000
  const LEASE_TTL_MS := 60_000

  /* ── Delays ────────────────────────────────────────────────────────────── */

  function Pow2(n: nat): nat {
    if n == 0 then 1 else 2 * Pow2(n - 1)
  }

  function Min(a: nat, b: nat): nat {
    if a < b then a else b
  }

  function BaseBackoff(attempts: nat): nat {
    Min(BASE_BACKOFF_MS * Pow2(Min(attempts, 16)), MAX_BACKOFF_MS)
  }

  /** Up to a tenth on top of the base, rounded to the millisecond. */
  function Backoff(attempts: nat, random: real): int
    requires 0.0 <= random < 1.0
  {
    WithJitter(BaseBackoff(attempts) as real, random)
  }

  function Jittered(base: real, random: real): real {
    base + base * 0.1 * random
  }

  function WithJitter(base: real, random: real): int {
    (Jittered(base, random) + 0.5).Floor
  }

  lemma {:induction false} Pow2Grows(a: nat, b: nat)
    requires a <= b
    ensures 0 < Pow2(a) <= Pow2(b)
  {
    if a < b {
      Pow2Grows(a, b - 1);
    } else if a > 0 {
      Pow2Grows(a - 1, a - 1);
    }
  }

  lemma BaseBounds(attempts: nat, later: nat)
    requires attempts <= later
    ensures BASE_BACKOFF_MS <= BaseBackoff(attempts) <= BaseBackoff(later) <= MAX_BACKOFF_MS
  {
    var a, b := Min(attempts, 16), Min(later, 16);
    Pow2Grows(0, a);
    Pow2Grows(a, b);
    var p, q := Pow2(a), Pow2(b);
    assert BASE_BACKOFF_MS * p <= BASE_BACKOFF_MS * q;
  }

  lemma PartOf(whole: real, random: real)
    requires 0.0 <= whole && 0.0 <= random < 1.0
    ensures 0.0 <= whole * random <= whole
  {}

  lemma Tenths(tenth: nat)
    ensures (10 * tenth) as real == 10.0 * tenth as real
    ensures (11 * tenth) as real == 11.0 * tenth as real
  {}

  lemma JitterWithin(tenth: real, random: real)
    requires 0.0 <= tenth && 0.0 <= random < 1.0
    ensures 10.0 * tenth <= Jittered(10.0 * tenth, random) <= 11.0 * tenth
  {
    PartOf(tenth, random);
    assert (10.0 * tenth) * 0.1 * random == tenth * random;
  }

  lemma Rounds(x: real, low: int, high: int)
    requires low as real <= x <= high as real
    ensures low <= (x + 0.5).Floor <= high
  {}

  lemma JitterOfTenths(tenth: nat, random: real)
    requires 0.0 <= random < 1.0
    ensures 10 * tenth <= WithJitter(10.0 * tenth as real, random) <= 11 * tenth
  {
    Tenths(tenth);
    JitterWithin(tenth as real, random);
    Rounds(Jittered(10.0 * tenth as real, random), 10 * tenth, 11 * tenth);
  }

  lemma JitterBounds(tenth: nat, random: real)
    requires 0.0 <= random < 1.0
    ensures 10 * tenth <= WithJitter((10 * tenth) as real, random) <= 11 * tenth
  {
    Tenths(tenth);
    JitterOfTenths(tenth, random);
  }

  /** Delays never shrink with the attempts, apart from jitter, and stay within bounds. */
  lemma BackoffBounds(attempts: nat, later: nat, random: real)
    requires 0.0 <= random < 1.0 && attempts <= later
    ensures BASE_BACKOFF_MS <= BaseBackoff(attempts) <= BaseBackoff(later) <= MAX_BACKOFF_MS
    ensures BaseBackoff(attempts) <= Backoff(attempts, random) <= BaseBackoff(attempts) + BaseBackoff(attempts) / 10
  {
    BaseBounds(attempts, later);
    TenthDivides(attempts);
    JitterBounds(BaseBackoff(attempts) / 10, random);
  }

  lemma {:induction false} TenThousands(n: nat)
    ensures (BASE_BACKOFF_MS * Pow2(n)) % 10 == 0
  {
    assert BASE_BACKOFF_MS * Pow2(n) == 10 * (1000 * Pow2(n));
  }

  lemma TenthDivides(attempts: nat)
    ensures BaseBackoff(attempts) % 10 == 0
  {
    TenThousands(Min(attempts, 16));
  }

  function JobBudget(adminTimeoutMs: nat): nat {
    EDGE_CALLS * adminTimeoutMs + 2 * LEASE_WAIT_MS + LEASE_TTL_MS
  }

  /** A request can hold a job past the stale threshold exactly from a 30-second deadline on. */
  lemma BudgetExceedsStale(adminTimeoutMs: nat)
    ensures JobBudget(adminTimeoutMs) >= STALE_AFTER_MS <==> adminTimeoutMs >= 30_000
  {}

  /* ── One tick ──────────────────────────────────────────────────────────── */

  datatype Status = Queued | Sending

  datatype Job = Job(status: Status, generation: nat, due: int, touched: int, attempts: nat)

  /** What others have made of the row of a claim that was lost: it has ended, it is back in
      the queue, released as stale or rescheduled by a later owner, or a later owner has it. */
  datatype Left =
    | Ended
    | Released(due: int)
    | Rescheduled(due: int, attempts: nat)
    | Claimed(touched: int, attempts: nat)

  /** What recovering a job comes to: the service's outcome, or an error and what became of
      the reschedule, which is refused when the claim was lost. */
  datatype Outcome = Completed | Obsolete | TakenOver(left: Left) | Failed | FailedTakenOver(left: Left) | Stuck

  predicate Lost(outcome: Outcome) {
    outcome.TakenOver? || outcome.FailedTakenOver?
  }

  datatype Tally = Tally(released: nat, claimed: nat, completed: nat, obsolete: nat, superseded: nat, rescheduled: nat,
      abandoned: nat)

  predicate IsDue(job: Job, now: int) {
    job.status == Queued && job.due <= now
  }

  predicate IsStale(job: Job, now: int) {
    job.status == Sending && job.touched < now - STALE_AFTER_MS
  }

  /** The row that others have left; `generation` is that of a later owner. */
  function RowOf(left: Left, generation: nat, was: Job): Job
    requires !left.Ended?
  {
    match left
    case Released(due) => was.(status := Queued, due := due)
    case Rescheduled(due, attempts) => Job(Queued, generation, due, was.touched, attempts)
    case Claimed(touched, attempts) => Job(Sending, generation, was.due, touched, attempts)
  }

  class Queue {
    var jobs: map<nat, Job>
    var generations: nat

    constructor (jobs: map<nat, Job>, generations: nat)
      requires forall id :: id in jobs ==> jobs[id].generation < generations
      ensures Valid() && this.jobs == jobs && this.generations == generations
    {
      this.jobs, this.generations := jobs, generations;
    }

    /** Generations in use were all handed out before. */
    ghost predicate Valid()
      reads this
    {
      forall id :: id in jobs ==> jobs[id].generation < generations
    }

    /** Every claim untouched past the threshold goes back to the queue, due at once. */
    method ReleaseStale(now: int) returns (released: nat)
      requires Valid()
      modifies this`jobs
      ensures Valid() && jobs.Keys == old(jobs).Keys
      ensures forall id :: id in jobs ==>
                jobs[id] == if IsStale(old(jobs)[id], now) then old(jobs)[id].(status := Queued, due := now)
                    else old(jobs)[id]
      ensures released == |set id | id in old(jobs) && IsStale(old(jobs)[id], now)|
    {
      released := |set id | id in jobs && IsStale(jobs[id], now)|;
      jobs := map id | id in jobs :: if IsStale(jobs[id], now) then jobs[id].(status := Queued, due := now)
          else jobs[id];
    }

    /** Claim one due job under a new generation. */
    method ClaimDue(now: int) returns (claimed: Option<nat>)
      requires Valid()
      modifies this
      ensures Valid() && generations >= old(generations)
      ensures claimed.None? ==> jobs == old(jobs) && forall id :: id in jobs ==> !IsDue(jobs[id], now)
      ensures claimed.Some? ==>
                && claimed.value in old(jobs) && IsDue(old(jobs)[claimed.value], now)
                && jobs == old(jobs)[claimed.value :=
                   Job(Sending, old(generations), old(jobs)[claimed.value].due, now,
                   old(jobs)[claimed.value].attempts + 1)]
    {
      var due: set<nat> := set id | id in jobs && IsDue(jobs[id], now);
      if due == {} {
        assert forall id :: id in jobs && IsDue(jobs[id], now) ==> id in due;
        return None;
      }
      var id :| id in due;
      jobs := jobs[id := Job(Sending, generations, jobs[id].due, now, jobs[id].attempts + 1)];
      generations := generations + 1;
      return Some(id);
    }

    /** What the outcome of a claimed job leaves of its row. A row whose claim was lost is as
        others left it, and claimed only under a later generation. */
    method Settle(id: nat, outcome: Outcome, now: int, random: real)
      requires Valid() && id in jobs && jobs[id].status == Sending && 0.0 <= random < 1.0
      modifies this
      ensures Valid()
      ensures forall other :: other != id ==>
              (other in jobs <==> other in old(jobs)) && (other in jobs ==> jobs[other] == old(jobs)[other])
      ensures id !in jobs <==> outcome.Completed? || outcome.Obsolete? || (Lost(outcome) && outcome.left.Ended?)
      ensures outcome.Failed? ==>
              jobs[id] == old(jobs)[id].(status := Queued, due := now + Backoff(old(jobs)[id].attempts, random))
      ensures outcome.Failed? ==> jobs[id].due >= now + BASE_BACKOFF_MS
      ensures outcome.Stuck? ==> jobs == old(jobs)
      ensures Lost(outcome) && id in jobs ==>
                && (jobs[id].status == Sending <==> outcome.left.Claimed?)
                && (jobs[id].status == Sending ==> jobs[id].generation != old(jobs)[id].generation)
                && (jobs[id].status == Queued ==> jobs[id].due == outcome.left.due)
      ensures id in jobs && !Lost(outcome) ==> !IsDue(jobs[id], now)
    {
      match outcome {
        case Completed => jobs := jobs - {id};
        case Obsolete => jobs := jobs - {id};
        case Failed =>
          BackoffBounds(jobs[id].attempts, jobs[id].attempts, random);
          jobs := jobs[id := jobs[id].(status := Queued, due := now + Backoff(jobs[id].attempts, random))];
        case Stuck =>
        case _ => LeaveTo(id, outcome.left);
      }
    }

    /** The row as others left it. */
    method LeaveTo(id: nat, left: Left)
      requires Valid() && id in jobs
      modifies this
      ensures Valid() && generations == old(generations) + 1
      ensures jobs == if left.Ended? then old(jobs) - {id}
              else old(jobs)[id := RowOf(left, old(generations), old(jobs)[id])]
    {
      jobs := if left.Ended? then jobs - {id} else jobs[id := RowOf(left, generations, jobs[id])];
      generations := generations + 1;
    }

    /** One poll cycle, reading the clock once before the stale release, once for each claim
        and once for each outcome. Every claim is accounted for under exactly one heading;
        the cycle leaves nothing due at its last reading unless the batch ran out or a claim
        failed; and a row is claimed again only when the clock has passed a failure's
        backoff within the cycle, or its claim was lost to another owner. `recovers` says what comes of each claim,
            `releases`
        whether the store answers the stale release, and `breaks` which claim it refuses. */
    method Tick(clock: nat -> int, batch: nat, recovers: nat -> Outcome, releases: bool, breaks: nat -> bool,
        random: real)
      returns (tally: Tally, taken: seq<nat>)
      requires Valid() && 0.0 <= random < 1.0
      modifies this
      ensures Valid()
      ensures tally.claimed == |taken| <= batch
      ensures tally.claimed == tally.completed + tally.obsolete + tally.superseded + tally.rescheduled + tally.abandoned
      ensures forall i, j :: 0 <= i < j < |taken| && taken[i] == taken[j] ==> CameBack(clock, recovers, taken, i, j)
      ensures tally.claimed < batch && !breaks(tally.claimed) ==>
                forall id :: id in jobs ==> !IsDue(jobs[id], clock(ClaimReading(tally.claimed)))
    {
      hide CameBack, Waits, WaitedSince;
      tally := Tally(0, 0, 0, 0, 0, 0, 0);
      taken := [];
      if releases {
        var released := ReleaseStale(clock(0));
        tally := tally.(released := released);
      }
      while tally.claimed < batch
        invariant Valid() && tally.claimed == |taken| <= batch
        invariant tally.claimed == tally.completed + tally.obsolete + tally.superseded + tally.rescheduled
                  + tally.abandoned
        invariant forall i, j :: 0 <= i < j < |taken| && taken[i] == taken[j] ==> CameBack(clock, recovers, taken, i, j)
        invariant forall i :: 0 <= i < |taken| ==> Waits(clock, recovers, jobs, taken, i)
        decreases batch - tally.claimed
      {
        if breaks(tally.claimed) { return; }
        ghost var was := jobs;
        var job := ClaimDue(clock(ClaimReading(tally.claimed)));
        if job.None? { return; }
        var outcome := recovers(tally.claimed);
        Settle(job.value, outcome, clock(ClaimReading(tally.claimed) + 1), random);
        ClaimedAgain(clock, recovers, was, taken, job.value);
        StillWaits(clock, recovers, was, jobs, taken, job.value);
        taken := taken + [job.value];
        tally := Counted(tally, outcome);
      }
    }
  }

  /** The clock reading of claim `k`; the next one is its outcome's. */
  function ClaimReading(k: nat): nat {
    2 * k + 1
  }

  /** The clock passed the shortest backoff between the outcome of claim `k` and `time`, or
      that claim was lost. */
  predicate Waited(clock: nat -> int, recovers: nat -> Outcome, k: nat, time: int) {
    Lost(recovers(k)) || time >= clock(ClaimReading(k) + 1) + BASE_BACKOFF_MS
  }

  /** Some claim from `i` on of the row `id` failed long enough before `time`, or was lost. */
  ghost predicate WaitedSince(clock: nat -> int, recovers: nat -> Outcome, taken: seq<nat>, i: nat, id: nat,
      time: int) {
    exists k :: i <= k < |taken| && taken[k] == id && Waited(clock, recovers, k, time)
  }

  /** Between claims `i` and `j` of one row the clock passed the backoff of a failed one, or
      one of them was lost. */
  ghost predicate CameBack(clock: nat -> int, recovers: nat -> Outcome, taken: seq<nat>, i: nat, j: nat)
    requires i < j < |taken|
  {
    WaitedSince(clock, recovers, taken[..j], i, taken[j], clock(ClaimReading(j)))
  }

  /** The row of claim `i`, if it is queued, waits for the backoff of its last failure. */
  ghost predicate Waits(clock: nat -> int, recovers: nat -> Outcome, jobs: map<nat, Job>, taken: seq<nat>, i: nat)
    requires i < |taken|
  {
    taken[i] in jobs && jobs[taken[i]].status == Queued ==>
        WaitedSince(clock, recovers, taken, i, taken[i], jobs[taken[i]].due)
  }

  lemma WaitedOn(clock: nat -> int, recovers: nat -> Outcome, taken: seq<nat>, id: nat, i: nat, row: nat, time: int)
    requires WaitedSince(clock, recovers, taken, i, row, time)
    ensures WaitedSince(clock, recovers, taken + [id], i, row, time)
  {
    var k :| i <= k < |taken| && taken[k] == row && Waited(clock, recovers, k, time);
    assert (taken + [id])[k] == row;
  }

  lemma ClaimedAgain(clock: nat -> int, recovers: nat -> Outcome, jobs: map<nat, Job>, taken: seq<nat>, id: nat)
    requires id in jobs && IsDue(jobs[id], clock(ClaimReading(|taken|)))
    requires forall i :: 0 <= i < |taken| ==> Waits(clock, recovers, jobs, taken, i)
    requires forall i, j :: 0 <= i < j < |taken| && taken[i] == taken[j] ==> CameBack(clock, recovers, taken, i, j)
    ensures forall i, j :: 0 <= i < j < |taken + [id]| && (taken + [id])[i] == (taken + [id])[j] ==>
            CameBack(clock, recovers, taken + [id], i, j)
  {
    var more := taken + [id];
    forall i, j | 0 <= i < j < |more| && more[i] == more[j] ensures CameBack(clock, recovers, more, i, j) {
      if j < |taken| {
        assert CameBack(clock, recovers, taken, i, j);
        assert more[..j] == taken[..j];
      } else {
        assert Waits(clock, recovers, jobs, taken, i);
        DueIsLater(clock, recovers, taken, i, id, jobs[id].due, clock(ClaimReading(|taken|)));
        assert more[..j] == taken;
      }
    }
  }

  lemma DueIsLater(clock: nat -> int, recovers: nat -> Outcome, taken: seq<nat>, i: nat, id: nat, due: int, time: int)
    requires WaitedSince(clock, recovers, taken, i, id, due) && due <= time
    ensures WaitedSince(clock, recovers, taken, i, id, time)
  {}

  lemma StillWaits(clock: nat -> int, recovers: nat -> Outcome, was: map<nat, Job>, jobs: map<nat, Job>,
      taken: seq<nat>, id: nat)
    requires forall i :: 0 <= i < |taken| ==> Waits(clock, recovers, was, taken, i)
    requires forall other :: other != id && other in jobs ==> other in was && jobs[other] == was[other]
    requires id in jobs && jobs[id].status == Queued ==> Waited(clock, recovers, |taken|, jobs[id].due)
    ensures forall i :: 0 <= i < |taken + [id]| ==> Waits(clock, recovers, jobs, taken + [id], i)
  {
    var more := taken + [id];
    forall i | 0 <= i < |more| ensures Waits(clock, recovers, jobs, more, i) {
      if more[i] == id {
        assert more[|taken|] == id;
      } else {
        assert Waits(clock, recovers, was, taken, i);
        if more[i] in jobs && jobs[more[i]].status == Queued {
          WaitedOn(clock, recovers, taken, id, i, more[i], jobs[more[i]].due);
        }
      }
    }
  }

  /** One more claim, under its heading. */
  function Counted(tally: Tally, outcome: Outcome): Tally {
    var more := tally.(claimed := tally.claimed + 1);
    match outcome
    case Completed => more.(completed := tally.completed + 1)
    case Obsolete => more.(obsolete := tally.obsolete + 1)
    case Failed => more.(rescheduled := tally.rescheduled + 1)
    case Stuck => more.(abandoned := tally.abandoned + 1)
    case _ => more.(superseded := tally.superseded + 1)
  }
}
