/** Chains of references, whatever they are read from: the plain walk along one, what it
    means, and a memoising, iterative, cycle-aware follower that agrees with it after any
    history of calls. */
module RefChains {
  import opened Wrappers
  import opened Json

  const MAX_HOPS := 32

  datatype Reason = External | Missing | Cycle | Depth

  /** Reference Object siblings that replace the target's own members. */
  datatype Overrides = Overrides(summary: Option<string>, description: Option<string>)

  const NONE := Overrides(None, None)

  /** One lookup: what a `$ref` string names. */
  datatype Hop<+R> = Outside | Nowhere | Object(value: Id) | Onward(target: Id, next: R)

  /** What a document says: the hop of each reference, each object's own reference and
      texts, and every reference there is. */
  datatype View<!R(==)> = View(hop: R -> Hop<R>, ref: Id -> Option<R>, own: Id -> Overrides, refs: set<R>)

  ghost predicate Sound<R(!new)>(view: View<R>) {
    forall r :: view.hop(r).Onward? ==> view.hop(r).next in view.refs
  }

  /** What following one `$ref` string leads to; `length` counts the lookups it takes. */
  datatype Outcome<+R> =
    | Found(value: Id, overrides: Overrides, length: nat)
    | Lost(ref: R, reason: Reason, length: nat)

  datatype Resolution<+R> = Resolved(value: Id, overrides: Overrides) | Failed(ref: R, reason: Reason)

  /* ── The plain walk ────────────────────────────────────────────────────── */

  /** Siblings written on `outer` win over the ones collected inside it. */
  function Merged(outer: Overrides, inner: Overrides): Overrides {
    Overrides(if outer.summary.Some? then outer.summary else inner.summary,
              if outer.description.Some? then outer.description else inner.description)
  }

  function Extended<R(==,!new)>(own: Overrides, siblings: bool, tail: Outcome<R>): Outcome<R> {
    match tail
    case Found(value, overrides, length) => Found(value, if siblings then Merged(own, overrides) else NONE, length + 1)
    case Lost(ref, reason, length) => if reason == Cycle then tail else Lost(ref, reason, length + 1)
  }

  /** A walk from `ref` that remembers the references it came through. */
  ghost function Plain<R(!new)>(view: View<R>, siblings: bool, ref: R, trail: set<R>): Outcome<R>
    requires Sound(view)
    decreases |view.refs - trail| + if ref in view.refs then 0 else 1
  {
    if ref in trail then Lost(ref, Cycle, 0)
    else
      var hop := view.hop(ref);
      match hop
      case Outside => Lost(ref, External, 0)
      case Nowhere => Lost(ref, Missing, 1)
      case Object(value) => Found(value, NONE, 1)
      case Onward(target, next) =>
        assert next in view.refs;
        TrailGrows(view.refs, trail, ref);
        Extended(view.own(target), siblings, Plain(view, siblings, next, trail + {ref}))
  }

  lemma TrailGrows<R(!new)>(refs: set<R>, trail: set<R>, ref: R)
    requires ref !in trail
    ensures |refs - (trail + {ref})| + (if ref in refs then 1 else 0) <= |refs - trail|
  {
    assert refs - (trail + {ref}) == (refs - trail) - {ref};
  }

  /** What a resolver with no memory makes of the object `value`. */
  ghost function Fresh<R(!new)>(view: View<R>, siblings: bool, value: Id): Resolution<R>
    requires Sound(view)
  {
    var ref := view.ref(value);
    if ref.None? then Resolved(value, NONE)
    else
      var outcome := Plain(view, siblings, ref.value, {});
      if outcome.length > MAX_HOPS then Failed(ref.value, Depth)
      else if outcome.Lost? then Failed(outcome.ref, outcome.reason)
      else Resolved(outcome.value, if siblings then Merged(view.own(value), outcome.overrides) else NONE)
  }

  /* ── When a walk does not depend on where it came from ─────────────────── */

  /** `ref` leads nowhere outside `refs`. */
  ghost predicate StaysIn<R(!new)>(view: View<R>, ref: R, refs: set<R>) {
    view.hop(ref).Onward? ==> view.hop(ref).next in refs
  }

  /** Every reference of `refs` leads only to references of `refs`. */
  ghost predicate Settled<R(!new)>(view: View<R>, refs: set<R>) {
    forall r {:trigger StaysIn(view, r, refs)} :: r in refs ==> StaysIn(view, r, refs)
  }

  lemma {:induction false} Independent<R(!new)>(view: View<R>, siblings: bool, ref: R, seen: set<R>, extra: set<R>,
      refs: set<R>)
    requires Sound(view) && Settled(view, refs) && ref in refs && extra !! refs
    ensures Plain(view, siblings, ref, seen + extra) == Plain(view, siblings, ref, seen)
    decreases |view.refs - seen| + if ref in view.refs then 0 else 1
  {
    if ref !in seen && view.hop(ref).Onward? {
      assert StaysIn(view, ref, refs);
      TrailGrows(view.refs, seen, ref);
      Independent(view, siblings, view.hop(ref).next, seen + {ref}, extra, refs);
      assert seen + {ref} + extra == seen + extra + {ref};
    }
  }

  /** A reference in front of a settled set extends the plain walk of the next one. */
  lemma Extends<R(!new)>(view: View<R>, siblings: bool, ref: R, refs: set<R>)
    requires Sound(view) && Settled(view, refs) && ref !in refs && view.hop(ref).Onward? && view.hop(ref).next in refs
    ensures
      var hop := view.hop(ref);
      Plain(view, siblings, ref, {}) == Extended(view.own(hop.target), siblings, Plain(view, siblings, hop.next, {}))
  {
    Independent(view, siblings, view.hop(ref).next, {}, {ref}, refs);
    assert {} + {ref} == {ref};
  }

  /* ── Loops ─────────────────────────────────────────────────────────────── */

  function AsSet<R(==,!new)>(refs: seq<R>): set<R> {
    set r | r in refs
  }

  function Following<R(==,!new)>(loop: seq<R>, i: nat): R
    requires i < |loop|
  {
    if i + 1 < |loop| then loop[i + 1] else loop[0]
  }

  /** Each of `loop` leads to the next, and the last back to the first. */
  ghost predicate IsLoop<R(!new)>(view: View<R>, loop: seq<R>) {
    && loop != []
    && (forall i, j :: 0 <= i < j < |loop| ==> loop[i] != loop[j])
    && (forall i :: 0 <= i < |loop| ==>
          view.hop(loop[i]).Onward? && view.hop(loop[i]).next == Following(loop, i))
  }

  lemma {:induction false} GoesRound<R(!new)>(view: View<R>, siblings: bool, loop: seq<R>, k: nat)
    requires Sound(view) && IsLoop(view, loop) && k <= |loop|
    ensures Plain(view, siblings, if k == |loop| then loop[0] else loop[k], AsSet(loop[..k])) == Lost(loop[0], Cycle, 0)
    decreases |loop| - k
  {
    if k < |loop| {
      GoesRound(view, siblings, loop, k + 1);
      assert loop[..k + 1] == loop[..k] + [loop[k]];
      assert AsSet(loop[..k + 1]) == AsSet(loop[..k]) + {loop[k]};
      assert loop[k] !in AsSet(loop[..k]);
    } else {
      assert loop[..k] == loop && loop[0] in AsSet(loop);
    }
  }

  /** Every reference on a loop is reported as the one that repeats. */
  lemma LoopNamesItself<R(!new)>(view: View<R>, siblings: bool, loop: seq<R>, k: nat)
    requires Sound(view) && IsLoop(view, loop) && k < |loop|
    ensures Plain(view, siblings, loop[k], {}) == Lost(loop[k], Cycle, 0)
  {
    var turned := loop[k..] + loop[..k];
    assert forall i :: 0 <= i < |turned| ==>
      turned[i] == if i < |loop| - k then loop[k + i] else loop[i - (|loop| - k)];
    forall i | 0 <= i < |turned|
      ensures view.hop(turned[i]).Onward? && view.hop(turned[i]).next == Following(turned, i)
    {
      var at := if i < |loop| - k then k + i else i - (|loop| - k);
      assert view.hop(loop[at]).Onward? && view.hop(loop[at]).next == Following(loop, at);
    }
    GoesRound(view, siblings, turned, 0);
    assert AsSet(turned[..0]) == {};
  }

  /* ── The follower ──────────────────────────────────────────────────────── */

  function After<R(==,!new)>(links: seq<R>, ref: R, i: nat): R {
    if i + 1 < |links| then links[i + 1] else ref
  }

  /** Following `links` through `targets` leads to `ref`, and takes no link twice. */
  ghost predicate Leads<R(!new)>(view: View<R>, links: seq<R>, targets: seq<Id>, ref: R) {
    && |links| == |targets|
    && (forall i :: 0 <= i < |links| ==> view.hop(links[i]) == Onward(targets[i], After(links, ref, i)))
    && (forall i, j :: 0 <= i < j < |links| ==> links[i] != links[j])
  }

  /** The references among `refs` that a lookup walks. */
  function Local<R(==,!new)>(view: View<R>, refs: set<R>): set<R> {
    set r | r in refs && !view.hop(r).Outside?
  }

  lemma LocalGrows<R(!new)>(view: View<R>, refs: set<R>, ref: R)
    requires ref !in refs
    ensures |Local(view, refs + {ref})| == |Local(view, refs)| + if view.hop(ref).Outside? then 0 else 1
  {
    assert Local(view, refs + {ref}) == if view.hop(ref).Outside? then Local(view, refs) else Local(view, refs) + {ref};
  }

  /** A memo that agrees with the plain walk, wherever it is entered. */
  ghost predicate Agrees<R(!new)>(view: View<R>, siblings: bool, outcomes: map<R, Outcome<R>>)
    requires Sound(view)
  {
    && (forall r :: r in outcomes ==> outcomes[r] == Plain(view, siblings, r, {}))
    && Settled(view, outcomes.Keys)
  }

  lemma AgreesWith<R(!new)>(view: View<R>, siblings: bool, outcomes: map<R, Outcome<R>>, ref: R, outcome: Outcome<R>)
    requires Sound(view) && Agrees(view, siblings, outcomes)
    requires outcome == Plain(view, siblings, ref, {}) && StaysIn(view, ref, outcomes.Keys)
    ensures Agrees(view, siblings, outcomes[ref := outcome])
  {
    var after := outcomes[ref := outcome];
    forall r | r in after.Keys ensures StaysIn(view, r, after.Keys) {
      assert r != ref ==> StaysIn(view, r, outcomes.Keys);
    }
  }

  /** One more lookup that leads onward, from a reference not met before. */
  lemma LeadsOn<R(!new)>(view: View<R>, links: seq<R>, targets: seq<Id>, ref: R)
    requires Leads(view, links, targets, ref) && ref !in links && view.hop(ref).Onward?
    ensures Leads(view, links + [ref], targets + [view.hop(ref).target], view.hop(ref).next)
  {
    var on := links + [ref];
    forall i | 0 <= i < |on|
      ensures view.hop(on[i]) == Onward((targets + [view.hop(ref).target])[i], After(on, view.hop(ref).next, i))
    {
      if i < |links| {
        assert view.hop(links[i]) == Onward(targets[i], After(links, ref, i));
      }
    }
  }

  lemma CutApart<R(!new)>(links: seq<R>, k: nat)
    requires k < |links| && forall i, j :: 0 <= i < j < |links| ==> links[i] != links[j]
    ensures links[k] in links[k..] && forall r :: r in links[..k] ==> r !in links[k..] && r in links
  {
    assert links[k..][0] == links[k];
  }

  /** Cutting the way short leads to the link it is cut at. */
  lemma LeadsTo<R(!new)>(view: View<R>, links: seq<R>, targets: seq<Id>, ref: R, k: nat)
    requires Leads(view, links, targets, ref) && k < |links|
    ensures Leads(view, links[..k], targets[..k], links[k])
  {
    forall i | 0 <= i < k ensures view.hop(links[..k][i]) == Onward(targets[..k][i], After(links[..k], links[k], i)) {
      assert view.hop(links[i]) == Onward(targets[i], After(links, ref, i));
    }
  }

  /** `position` says where on the way each link is. */
  ghost predicate Places<R(!new)>(position: map<R, nat>, links: seq<R>) {
    && (forall r :: r in position ==> position[r] < |links| && links[position[r]] == r)
    && (forall i :: 0 <= i < |links| ==> links[i] in position)
  }

  lemma PlacesOneMore<R(!new)>(position: map<R, nat>, links: seq<R>, ref: R)
    requires Places(position, links) && ref !in position
    ensures Places(position[ref := |links|], links + [ref])
  {}

  function LinkAt<R>(links: seq<R>, ref: R, k: nat): R {
    if k < |links| then links[k] else ref
  }

  /** Memoising one link further back. */
  lemma OneBack<R(!new)>(view: View<R>, siblings: bool, outcomes: map<R, Outcome<R>>, links: seq<R>, targets: seq<Id>,
      ref: R, k: nat)
    requires Sound(view) && Agrees(view, siblings, outcomes) && Leads(view, links, targets, ref) && k < |links|
    requires LinkAt(links, ref, k + 1) in outcomes && forall r :: r in links[..k + 1] ==> r !in outcomes
    ensures !view.hop(links[k]).Outside? && links[k] !in outcomes
    ensures Agrees(view, siblings,
            outcomes[links[k] := Extended(view.own(targets[k]), siblings, outcomes[LinkAt(links, ref, k + 1)])])
    ensures forall r :: r in links[..k] ==> r !in outcomes && r != links[k]
    ensures links[k..] == [links[k]] + links[k + 1..]
  {
    assert links[..k + 1] == links[..k] + [links[k]];
    assert links[k] in links[..k + 1];
    assert view.hop(links[k]) == Onward(targets[k], After(links, ref, k));
    Extends(view, siblings, links[k], outcomes.Keys);
    AgreesWith(view, siblings, outcomes, links[k],
        Extended(view.own(targets[k]), siblings, outcomes[LinkAt(links, ref, k + 1)]));
  }

  /** The state of a descent from `start`. */
  ghost predicate OnTheWay<R(!new)>(view: View<R>, start: R, links: seq<R>, targets: seq<Id>, ref: R, position: map<R,
      nat>) {
    && Leads(view, links, targets, ref)
    && Places(position, links)
    && (if links == [] then ref == start else links[0] == start)
    && AsSet(links) <= view.refs + {start} && ref in view.refs + {start}
  }

  /** How many references a descent may still meet. */
  ghost function Ahead<R(!new)>(view: View<R>, start: R, links: seq<R>): nat {
    |(view.refs + {start}) - AsSet(links)|
  }

  lemma AheadShrinks<R(!new)>(view: View<R>, start: R, links: seq<R>, ref: R)
    requires ref !in links && ref in view.refs + {start}
    ensures AsSet(links + [ref]) == AsSet(links) + {ref}
    ensures Ahead(view, start, links + [ref]) < Ahead(view, start, links)
  {
    assert AsSet(links + [ref]) == AsSet(links) + {ref};
    assert (view.refs + {start}) - AsSet(links + [ref]) == ((view.refs + {start}) - AsSet(links)) - {ref};
  }

  lemma OneFurther<R(!new)>(view: View<R>, start: R, links: seq<R>, targets: seq<Id>, ref: R, position: map<R, nat>)
    requires Sound(view) && OnTheWay(view, start, links, targets, ref, position)
    requires ref !in position && view.hop(ref).Onward?
    ensures OnTheWay(view, start, links + [ref], targets + [view.hop(ref).target], view.hop(ref).next,
            position[ref := |links|])
    ensures Ahead(view, start, links + [ref]) < Ahead(view, start, links)
  {
    assert ref !in links;
    hide Leads, Places, AsSet, Ahead;
    LeadsOn(view, links, targets, ref);
    PlacesOneMore(position, links, ref);
    AheadShrinks(view, start, links, ref);
  }

  lemma WayCut<R(!new)>(view: View<R>, start: R, links: seq<R>, targets: seq<Id>, ref: R, position: map<R, nat>)
    requires OnTheWay(view, start, links, targets, ref, position) && ref in position
    ensures
      var k := position[ref];
      && k < |links| && links[k] == ref && Leads(view, links[..k], targets[..k], ref)
      && (if links[..k] == [] then ref == start else links[..k][0] == start)
  {
    LeadsTo(view, links, targets, ref, position[ref]);
  }

  /** `after` is `before` with every reference of `loop` reported as repeating itself. */
  ghost predicate ClosesLoop<R(!new)>(before: map<R, Outcome<R>>, after: map<R, Outcome<R>>, loop: seq<R>) {
    && after.Keys == before.Keys + AsSet(loop)
    && (forall r :: r in after ==> after[r] == if r in loop then Lost(r, Cycle, 0) else before[r])
  }

  lemma ClosesOneMore<R(!new)>(before: map<R, Outcome<R>>, after: map<R, Outcome<R>>, loop: seq<R>, j: nat)
    requires j < |loop| && ClosesLoop(before, after, loop[..j])
    ensures ClosesLoop(before, after[loop[j] := Lost(loop[j], Cycle, 0)], loop[..j + 1])
  {
    assert loop[..j + 1] == loop[..j] + [loop[j]];
  }

  lemma LoopAgrees<R(!new)>(view: View<R>, siblings: bool, before: map<R, Outcome<R>>, after: map<R, Outcome<R>>,
      loop: seq<R>)
    requires Sound(view) && Agrees(view, siblings, before) && IsLoop(view, loop) && ClosesLoop(before, after, loop)
    ensures Agrees(view, siblings, after)
  {
    forall r | r in after.Keys
      ensures after[r] == Plain(view, siblings, r, {})
      ensures StaysIn(view, r, after.Keys)
    {
      if r in loop {
        var i :| 0 <= i < |loop| && loop[i] == r;
        LoopNamesItself(view, siblings, loop, i);
        assert Following(loop, i) in AsSet(loop);
      } else {
        assert StaysIn(view, r, before.Keys);
      }
    }
  }

  /** The links from the one that repeats are a loop. */
  lemma RepeatIsLoop<R(!new)>(view: View<R>, links: seq<R>, targets: seq<Id>, k: nat)
    requires k < |links| && Leads(view, links, targets, links[k])
    ensures IsLoop(view, links[k..])
  {
    var loop := links[k..];
    forall i | 0 <= i < |loop|
      ensures view.hop(loop[i]).Onward? && view.hop(loop[i]).next == After(links, links[k], k + i) {
      assert loop[i] == links[k + i];
    }
  }

  /** A resolver of one document; `lookups` counts the pointers it has walked. */
  class Resolver<R(==,!new)> {
    const view: View<R>
    const siblings: bool
    var outcomes: map<R, Outcome<R>>
    var lookups: nat

    /** The memo agrees with the plain walk, and no reference was ever looked up twice. */
    ghost predicate Valid()
      reads this
    {
      Sound(view) && Agrees(view, siblings, outcomes) && lookups == |Local(view, outcomes.Keys)|
    }

    /** Everything memoised before is still memoised as it was. */
    twostate predicate Remembers()
      reads this
    {
      forall r :: r in old(outcomes) ==> r in outcomes && outcomes[r] == old(outcomes[r])
    }

    constructor (view: View<R>, siblings: bool)
      requires Sound(view)
      ensures Valid() && this.view == view && this.siblings == siblings && outcomes == map[] && lookups == 0
    {
      this.view, this.siblings := view, siblings;
      outcomes, lookups := map[], 0;
      new;
      assert Local(view, {}) == {};
    }

    /** Memoise the outcome of one more reference. */
    method Record(ref: R, outcome: Outcome<R>)
      requires ref !in outcomes
      modifies this`outcomes
      ensures outcomes == old(outcomes)[ref := outcome]
      ensures |Local(view, outcomes.Keys)| == |Local(view, old(outcomes.Keys))| + if view.hop(ref).Outside? then 0
              else 1
    {
      LocalGrows(view, outcomes.Keys, ref);
      outcomes := outcomes[ref := outcome];
      assert outcomes.Keys == old(outcomes.Keys) + {ref};
    }

    /** One lookup of `ref`, if it can be looked up at all. Without a further reference
        its outcome is known and memoised. */
    method LookUp(ref: R) returns (hop: Hop<R>)
      requires Sound(view) && Agrees(view, siblings, outcomes) && ref !in outcomes
      modifies this
      ensures hop == view.hop(ref)
      ensures lookups == old(lookups) + if hop.Outside? then 0 else 1
      ensures hop.Onward? ==> outcomes == old(outcomes)
      ensures !hop.Onward? ==>
                && Agrees(view, siblings, outcomes) && ref in outcomes
                && |Local(view, outcomes.Keys)| - |Local(view, old(outcomes.Keys))| == lookups - old(lookups)
                && outcomes == old(outcomes)[ref := outcomes[ref]]
    {
      hop := view.hop(ref);
      lookups := lookups + if hop.Outside? then 0 else 1;
      if !hop.Onward? {
        var outcome := match hop
          case Outside => Lost(ref, External, 0)
          case Nowhere => Lost(ref, Missing, 1)
          case Object(value) => Found(value, NONE, 1);
        AgreesWith(view, siblings, outcomes, ref, outcome);
        Record(ref, outcome);
      }
    }

    /** The first reference from `start` on whose outcome is memoised or known at once,
        and the links that lead to it. */
    method Descend(start: R) returns (links: seq<R>, targets: seq<Id>, ref: R)
      requires Valid() && start !in outcomes
      modifies this
      ensures Agrees(view, siblings, outcomes) && lookups == |Local(view, outcomes.Keys)| + |links|
      ensures Leads(view, links, targets, ref) && ref in outcomes
      ensures forall r :: r in links ==> r !in outcomes
      ensures start in outcomes || (links != [] && links[0] == start)
      ensures Remembers()
    {
      links, targets, ref := [], [], start;
      var onChain: map<R, nat> := map[];
      while true
        invariant outcomes == old(outcomes) && lookups == old(lookups) + |links|
        invariant OnTheWay(view, start, links, targets, ref, onChain)
        invariant forall r :: r in links ==> r !in outcomes
        decreases Ahead(view, start, links)
      {
        if ref in outcomes { return; }
        if ref in onChain {
          links, targets := CutLoop(start, links, targets, ref, onChain);
          return;
        }
        var hop := LookUp(ref);
        if !hop.Onward? { return; }
        OneFurther(view, start, links, targets, ref, onChain);
        onChain := onChain[ref := |links|];
        links, targets, ref := links + [ref], targets + [hop.target], hop.next;
      }
    }

    /** The way to a reference met before, without the loop that it closes. */
    method CutLoop(start: R, links: seq<R>, targets: seq<Id>, ref: R, onChain: map<R, nat>)
        returns (front: seq<R>, frontTargets: seq<Id>)
      requires Sound(view) && Agrees(view, siblings, outcomes) && lookups == |Local(view, outcomes.Keys)| + |links|
      requires OnTheWay(view, start, links, targets, ref, onChain) && ref in onChain
      requires forall r :: r in links ==> r !in outcomes
      modifies this`outcomes
      ensures Agrees(view, siblings, outcomes) && lookups == |Local(view, outcomes.Keys)| + |front|
      ensures Leads(view, front, frontTargets, ref) && ref in outcomes
      ensures forall r :: r in front ==> r !in outcomes
      ensures start in outcomes || (front != [] && front[0] == start)
      ensures Remembers()
    {
      WayCut(view, start, links, targets, ref, onChain);
      var k := onChain[ref];
      CloseLoop(links, targets, k);
      front, frontTargets := links[..k], targets[..k];
    }

    /** Report every link from `k` on as the reference that repeats. */
    method CloseLoop(links: seq<R>, targets: seq<Id>, k: nat)
      requires Sound(view) && Agrees(view, siblings, outcomes) && k < |links| && Leads(view, links, targets, links[k])
      requires forall r :: r in links ==> r !in outcomes
      modifies this`outcomes
      ensures Agrees(view, siblings, outcomes) && Remembers()
      ensures |Local(view, outcomes.Keys)| == |Local(view, old(outcomes.Keys))| + |links| - k
      ensures links[k] in outcomes && forall r :: r in links[..k] ==> r !in outcomes
    {
      var loop := links[k..];
      RepeatIsLoop(view, links, targets, k);
      for i := 0 to |loop|
        invariant ClosesLoop(old(outcomes), outcomes, loop[..i])
        invariant |Local(view, outcomes.Keys)| == |Local(view, old(outcomes.Keys))| + i
      {
        ClosesOneMore(old(outcomes), outcomes, loop, i);
        assert loop[i] !in loop[..i] && loop[i] in links;
        Record(loop[i], Lost(loop[i], Cycle, 0));
      }
      assert loop[..|loop|] == loop;
      LoopAgrees(view, siblings, old(outcomes), outcomes, loop);
      CutApart(links, k);
    }

    /** The outcome of the chain that starts at `start`, walked at most once. */
    method Follow(start: R) returns (outcome: Outcome<R>)
      requires Valid()
      modifies this
      ensures Valid() && Remembers() && start in outcomes
      ensures outcome == Plain(view, siblings, start, {})
    {
      if start in outcomes { return outcomes[start]; }
      var links, targets, ref := Descend(start);
      Unwind(links, targets, ref);
      return outcomes[start];
    }

    /** Memoise every link on the way, innermost first. */
    method Unwind(links: seq<R>, targets: seq<Id>, ref: R)
      requires Sound(view) && Agrees(view, siblings, outcomes) && lookups == |Local(view, outcomes.Keys)| + |links|
      requires Leads(view, links, targets, ref) && ref in outcomes
      requires forall r :: r in links ==> r !in outcomes
      modifies this`outcomes
      ensures Valid() && Remembers() && forall r :: r in links ==> r in outcomes
    {
      var tail := outcomes[ref];
      var index := |links|;
      while index > 0
        invariant 0 <= index <= |links|
        invariant Agrees(view, siblings, outcomes) && lookups == |Local(view, outcomes.Keys)| + index
        invariant LinkAt(links, ref, index) in outcomes && tail == outcomes[LinkAt(links, ref, index)]
        invariant forall r :: r in links[..index] ==> r !in outcomes
        invariant forall r :: r in links[index..] ==> r in outcomes
        invariant Remembers()
      {
        index := index - 1;
        OneBack(view, siblings, outcomes, links, targets, ref, index);
        tail := Extended(view.own(targets[index]), siblings, tail);
        Record(links[index], tail);
      }
    }

    /** After any history of calls the result is a fresh walk's. */
    method Resolve(value: Id) returns (resolution: Resolution<R>)
      requires Valid()
      modifies this
      ensures Valid() && Remembers()
      ensures resolution == Fresh(view, siblings, value)
    {
      var ref := view.ref(value);
      if ref.None? { return Resolved(value, NONE); }
      var outcome := Follow(ref.value);
      if outcome.length > MAX_HOPS { return Failed(ref.value, Depth); }
      if outcome.Lost? { return Failed(outcome.ref, outcome.reason); }
      return Resolved(outcome.value, if siblings then Merged(view.own(value), outcome.overrides) else NONE);
    }
  }

  /* ── What the plain walk means ─────────────────────────────────────────── */

  /** The reference reached after `k` lookups that each led onward. */
  function Onwards<R(==,!new)>(view: View<R>, ref: R, k: nat): Option<R>
    decreases k
  {
    if k == 0 then Some(ref)
    else if view.hop(ref).Onward? then Onwards(view, view.hop(ref).next, k - 1)
    else None
  }

  /** The Reference Objects those lookups found, outermost first. */
  function Passed<R(==,!new)>(view: View<R>, ref: R, k: nat): seq<Id>
    decreases k
  {
    if k == 0 || !view.hop(ref).Onward? then []
    else [view.hop(ref).target] + Passed(view, view.hop(ref).next, k - 1)
  }

  /** For each text, the first of `objects` that has one of its own. */
  function Outermost<R(==,!new)>(view: View<R>, objects: seq<Id>): Overrides {
    if objects == [] then NONE else Merged(view.own(objects[0]), Outermost(view, objects[1..]))
  }

  /** A chain that does not loop ends after exactly `length` lookups where the outcome
      says, and the outermost sibling on the way wins. */
  lemma {:induction false} PlainEnds<R(!new)>(view: View<R>, siblings: bool, ref: R, trail: set<R>)
    requires Sound(view)
    ensures
      match Plain(view, siblings, ref, trail)
      case Found(value, overrides, length) =>
        && length > 0 && Onwards(view, ref, length - 1).Some?
        && view.hop(Onwards(view, ref, length - 1).value) == Object(value)
        && overrides == if siblings then Outermost(view, Passed(view, ref, length - 1)) else NONE
      case Lost(at, External, length) => Onwards(view, ref, length) == Some(at) && view.hop(at) == Outside
      case Lost(at, Missing, length) => length > 0 && Onwards(view, ref, length - 1) == Some(at)
          && view.hop(at) == Nowhere
      case Lost(_, Cycle, length) => length == 0
      case Lost(_, Depth, _) => false
    decreases |view.refs - trail| + if ref in view.refs then 0 else 1
  {
    if ref !in trail && view.hop(ref).Onward? {
      TrailGrows(view.refs, trail, ref);
      PlainEnds(view, siblings, view.hop(ref).next, trail + {ref});
      var tail := Plain(view, siblings, view.hop(ref).next, trail + {ref});
      if tail.Found? {
        var rest := Passed(view, view.hop(ref).next, tail.length - 1);
        assert ([view.hop(ref).target] + rest)[1..] == rest;
      }
    }
  }

  /** A walk that meets a cycle further on goes on to it. */
  lemma CycleAhead<R(!new)>(view: View<R>, siblings: bool, ref: R, trail: set<R>)
    requires Sound(view) && ref !in trail
    requires Plain(view, siblings, ref, trail).Lost? && Plain(view, siblings, ref, trail).reason == Cycle
    ensures
      && view.hop(ref).Onward? && view.hop(ref).next in view.refs
      && Plain(view, siblings, view.hop(ref).next, trail + {ref}) == Plain(view, siblings, ref, trail)
  {
    hide Merged;
  }

  lemma {:induction false} CycleReturns<R(!new)>(view: View<R>, siblings: bool, ref: R, trail: set<R>)
      returns (a: nat, b: nat)
    requires Sound(view) && Plain(view, siblings, ref, trail).Lost? && Plain(view, siblings, ref, trail).reason == Cycle
    ensures
      var at := Plain(view, siblings, ref, trail).ref;
      Onwards(view, ref, b) == Some(at) && (at in trail || (a < b && Onwards(view, ref, a) == Some(at)))
    decreases |view.refs - trail| + if ref in view.refs then 0 else 1
  {
    a, b := 0, 0;
    if ref !in trail {
      TrailGrows(view.refs, trail, ref);
      CycleAhead(view, siblings, ref, trail);
      var at := Plain(view, siblings, ref, trail).ref;
      hide Plain;
      a, b := CycleReturns(view, siblings, view.hop(ref).next, trail + {ref});
      b := b + 1;
      a := if at == ref then 0 else a + 1;
    }
  }

  lemma {:induction false} OnwardsSum<R(!new)>(view: View<R>, ref: R, j: nat, k: nat)
    requires Onwards(view, ref, j).Some?
    ensures Onwards(view, ref, j + k) == Onwards(view, Onwards(view, ref, j).value, k)
    decreases j
  {
    if j > 0 {
      OnwardsSum(view, view.hop(ref).next, j - 1, k);
    }
  }

  lemma {:induction false} OnwardsBefore<R(!new)>(view: View<R>, ref: R, j: nat, k: nat)
    requires j <= k && Onwards(view, ref, k).Some?
    ensures Onwards(view, ref, j).Some?
    decreases j
  {
    if j > 0 {
      OnwardsBefore(view, view.hop(ref).next, j - 1, k - 1);
    }
  }

  lemma {:induction false} LoopsForever<R(!new)>(view: View<R>, ref: R, m: nat, k: nat)
    requires m > 0 && Onwards(view, ref, m) == Some(ref)
    ensures Onwards(view, ref, k).Some?
  {
    if k < m {
      OnwardsBefore(view, ref, k, m);
    } else {
      LoopsForever(view, ref, m, k - m);
      OnwardsSum(view, ref, m, k - m);
    }
  }

  /** The last reference of a chain that ends. */
  lemma ChainEnds<R(!new)>(view: View<R>, siblings: bool, ref: R) returns (last: nat)
    requires Sound(view) && !(Plain(view, siblings, ref, {}).Lost? && Plain(view, siblings, ref, {}).reason == Cycle)
    ensures Onwards(view, ref, last).Some? && Onwards(view, ref, last + 1).None?
    ensures Plain(view, siblings, ref, {}).length == last + if view.hop(Onwards(view, ref, last).value) == Outside
            then 0 else 1
  {
    PlainEnds(view, siblings, ref, {});
    var outcome := Plain(view, siblings, ref, {});
    last := if outcome.Lost? && outcome.reason == External then outcome.length else outcome.length - 1;
    OnwardsSum(view, ref, last, 1);
  }

  /** A cycle is reported exactly for the chains that never end, however long they are:
      the hop limit never masks one. */
  lemma CycleExactly<R(!new)>(view: View<R>, siblings: bool, value: Id)
    requires Sound(view) && view.ref(value).Some?
    ensures
      var ref, out := view.ref(value).value, Fresh(view, siblings, value);
      out.Failed? && out.reason == Cycle <==> forall k: nat :: Onwards(view, ref, k).Some?
  {
    var ref := view.ref(value).value;
    var outcome := Plain(view, siblings, ref, {});
    PlainEnds(view, siblings, ref, {});
    if outcome.Lost? && outcome.reason == Cycle {
      var a, b := CycleReturns(view, siblings, ref, {});
      forall k: nat ensures Onwards(view, ref, k).Some? {
        OnwardsSum(view, ref, a, b - a);
        LoopsForever(view, outcome.ref, b - a, k);
        OnwardsSum(view, ref, a, k);
        OnwardsBefore(view, ref, k, a + k);
      }
    } else {
      var last := ChainEnds(view, siblings, ref);
    }
  }

  /** `depth` is reported exactly for a chain that ends, but takes more lookups than the
      limit, and it names the reference the chain started from. */
  lemma DepthExactly<R(!new)>(view: View<R>, siblings: bool, value: Id)
    requires Sound(view) && view.ref(value).Some?
    ensures
      var ref, out := view.ref(value).value, Fresh(view, siblings, value);
      out.Failed? && out.reason == Depth
      <==> exists last: nat :: Onwards(view, ref, last).Some? && Onwards(view, ref, last + 1).None?
                               && last + (if view.hop(Onwards(view, ref, last).value) == Outside then 0
                                  else 1) > MAX_HOPS
    ensures
      var ref, out := view.ref(value).value, Fresh(view, siblings, value);
      out.Failed? && out.reason == Depth ==> out.ref == ref
  {
    var ref := view.ref(value).value;
    CycleExactly(view, siblings, value);
    PlainEnds(view, siblings, ref, {});
    var outcome := Plain(view, siblings, ref, {});
    if !(outcome.Lost? && outcome.reason == Cycle) {
      var last := ChainEnds(view, siblings, ref);
      forall other: nat | Onwards(view, ref, other).Some? && Onwards(view, ref, other + 1).None? ensures other == last {
        if other < last {
          OnwardsBefore(view, ref, other + 1, last);
        } else if last < other {
          OnwardsBefore(view, ref, last + 1, other);
        }
      }
    }
  }

  /** What a successful resolution returns: the object the chain ends at within the limit,
      with the outermost sibling texts of `value` and of every reference on the way. */
  lemma ResolvedExactly<R(!new)>(view: View<R>, value: Id)
    requires Sound(view) && view.ref(value).Some? && Fresh(view, true, value).Resolved?
    ensures exists k: nat ::
              var ref, out := view.ref(value).value, Fresh(view, true, value);
              && k < MAX_HOPS && Onwards(view, ref, k).Some?
              && view.hop(Onwards(view, ref, k).value) == Object(out.value)
              && out.overrides == Outermost(view, [value] + Passed(view, ref, k))
  {
    var ref := view.ref(value).value;
    PlainEnds(view, true, ref, {});
    var k := Plain(view, true, ref, {}).length - 1;
    assert ([value] + Passed(view, ref, k))[1..] == Passed(view, ref, k);
    assert Onwards(view, ref, k).Some?;
  }
}
