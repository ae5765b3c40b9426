/** Path Items reached through chains of references: a memo shared by every chain of a
    document, and members read in place of the copies they would be merged into. */
module AgentPathItems {
  import opened Wrappers
  import opened Json
  import opened JsonPointer

  /** Hops one chain may take. */
  const MAX_HOPS := 32

  /** The reference nodes followed, outermost first, and what the innermost one names. */
  datatype Item = Item(chain: seq<Id>, target: Id)

  /** What a node is to a chain: its end, a reference that may not be followed or names no
      object, or a reference to another node. */
  datatype Kind<+R> = Plain | Broken | Link(ref: R, next: Id)

  /** The nodes of a document; a reference leads to the same place wherever it is written. */
  ghost predicate Consistent<R(!new)>(kind: Id -> Kind<R>) {
    forall m, n :: kind(m).Link? && kind(n).Link? && kind(m).ref == kind(n).ref ==> kind(m).next == kind(n).next
  }

  /* ── Chains ────────────────────────────────────────────────────────────── */

  /** Following at most `hops` references from `n`, with no memory of any kind. */
  function Chain<R>(kind: Id -> Kind<R>, n: Id, hops: nat): Option<Item>
    decreases hops
  {
    match kind(n)
    case Plain => Some(Item([], n))
    case Broken => None
    case Link(_, next) =>
      if hops == 0 then None
      else
        var rest := Chain(kind, next, hops - 1);
        if rest.None? then None else Some(Item([n] + rest.value.chain, rest.value.target))
  }

  /** Spending fewer hops gives the same chain exactly while there are enough of them. */
  lemma {:induction false} ChainNeeds<R>(kind: Id -> Kind<R>, n: Id, hops: nat, fewer: nat)
    requires fewer <= hops
    ensures
      var long := Chain(kind, n, hops);
      && (long.Some? ==> |long.value.chain| <= hops && kind(long.value.target).Plain?)
      && Chain(kind, n, fewer) == if long.Some? && |long.value.chain| <= fewer then long else None
    decreases hops
  {
    if kind(n).Link? && hops > 0 {
      ChainNeeds(kind, kind(n).next, hops - 1, if fewer > 0 then fewer - 1 else 0);
    }
  }

  /** One more reference in front of a chain that leaves a hop to spare. */
  lemma ChainInFront<R>(kind: Id -> Kind<R>, n: Id, hops: nat)
    requires kind(n).Link? && Chain(kind, kind(n).next, hops).Some?
             && |Chain(kind, kind(n).next, hops).value.chain| < hops
    ensures
      var rest := Chain(kind, kind(n).next, hops).value;
      Chain(kind, n, hops) == Some(Item([n] + rest.chain, rest.target))
  {
    ChainNeeds(kind, kind(n).next, hops, hops - 1);
  }

  /** `path` leads from `from` to `to`, a hop at a time. */
  ghost predicate Followed<R>(kind: Id -> Kind<R>, from: Id, path: seq<Id>, to: Id)
    decreases |path|
  {
    if path == [] then from == to
    else from == path[0] && kind(from).Link? && Followed(kind, kind(from).next, path[1..], to)
  }

  lemma {:induction false} FollowedOn<R>(kind: Id -> Kind<R>, from: Id, path: seq<Id>, to: Id)
    requires Followed(kind, from, path, to) && kind(to).Link?
    ensures Followed(kind, from, path + [to], kind(to).next)
    decreases |path|
  {
    if path != [] {
      FollowedOn(kind, kind(from).next, path[1..], to);
      assert (path + [to])[1..] == path[1..] + [to];
    }
  }

  /** The rest of the way from any node on it. */
  lemma {:induction false} FollowedFrom<R>(kind: Id -> Kind<R>, from: Id, path: seq<Id>, to: Id, k: nat)
    requires Followed(kind, from, path, to) && k < |path|
    ensures kind(path[k]).Link? && kind(path[k]).next == (if k + 1 < |path| then path[k + 1] else to)
    ensures Followed(kind, kind(path[k]).next, path[k + 1..], to)
    decreases k
  {
    if k > 0 {
      FollowedFrom(kind, kind(from).next, path[1..], to, k - 1);
      assert path[1..][k..] == path[k + 1..];
    }
  }

  function NodeAt(path: seq<Id>, end: Id, k: nat): Id {
    if k < |path| then path[k] else end
  }

  function Rest(path: seq<Id>, tail: Item, k: nat): Item
    requires k <= |path|
  {
    Item(path[k..] + tail.chain, tail.target)
  }

  /** The chain from one node further back. */
  lemma OneBack<R>(kind: Id -> Kind<R>, from: Id, path: seq<Id>, to: Id, tail: Item, hops: nat, k: nat)
    requires Followed(kind, from, path, to) && k < |path| && |path| + |tail.chain| <= hops
    requires Chain(kind, NodeAt(path, to, k + 1), hops) == Some(Rest(path, tail, k + 1))
    ensures Chain(kind, path[k], hops) == Some(Rest(path, tail, k))
    ensures Rest(path, tail, k) == Item([path[k]] + Rest(path, tail, k + 1).chain, tail.target)
  {
    FollowedFrom(kind, from, path, to, k);
    ChainInFront(kind, path[k], hops);
    assert [path[k]] + (path[k + 1..] + tail.chain) == path[k..] + tail.chain;
  }

  /** A chain that begins with `path` is `path` and then the chain from its end. */
  lemma {:induction false} ChainSplits<R>(kind: Id -> Kind<R>, from: Id, path: seq<Id>, to: Id, hops: nat)
    requires Followed(kind, from, path, to) && |path| <= hops
    ensures
      var rest := Chain(kind, to, hops - |path|);
      Chain(kind, from, hops) == if rest.None? then None else Some(Item(path + rest.value.chain, rest.value.target))
    decreases |path|
  {
    var rest := Chain(kind, to, hops - |path|);
    if path == [] {
      assert rest.Some? ==> path + rest.value.chain == rest.value.chain;
    } else {
      ChainSplits(kind, kind(from).next, path[1..], to, hops - 1);
      assert rest.Some? ==> [path[0]] + (path[1..] + rest.value.chain) == path + rest.value.chain;
    }
  }

  /** A node on a loop has no chain, however many hops it is given. */
  lemma {:induction false} LoopHasNoChain<R>(kind: Id -> Kind<R>, n: Id, loop: seq<Id>, hops: nat)
    requires loop != [] && Followed(kind, n, loop, n)
    ensures Chain(kind, n, hops).None?
  {
    if hops < |loop| {
      ShortHasNoChain(kind, n, loop, n, hops);
    } else {
      LoopHasNoChain(kind, n, loop, hops - |loop|);
      ChainSplits(kind, n, loop, n, hops);
    }
  }

  lemma {:induction false} ShortHasNoChain<R>(kind: Id -> Kind<R>, from: Id, path: seq<Id>, to: Id, hops: nat)
    requires Followed(kind, from, path, to) && hops < |path|
    ensures Chain(kind, from, hops).None?
    decreases hops
  {
    if hops > 0 {
      ShortHasNoChain(kind, kind(from).next, path[1..], to, hops - 1);
    }
  }

  /** Two nodes that carry the same reference lead to the same place, so a reference met
      again means that there is no chain, however many hops it is given. */
  lemma RepeatHasNoChain<R(!new)>(kind: Id -> Kind<R>, from: Id, path: seq<Id>, to: Id, k: nat, hops: nat)
    requires Consistent(kind) && Followed(kind, from, path, to) && k < |path|
    requires kind(to).Link? && kind(path[k]).Link? && kind(to).ref == kind(path[k]).ref
    ensures Chain(kind, to, hops).None?
  {
    FollowedFrom(kind, from, path, to, k);
    var next := kind(to).next;
    FollowedOn(kind, next, path[k + 1..], to);
    if hops > 0 {
      LoopHasNoChain(kind, next, path[k + 1..] + [to], hops - 1);
    }
  }

  /* ── The resolver and its memo ─────────────────────────────────────────── */

  /** Every reference of `seen` is on the way. */
  ghost predicate SeenOn<R(!new)>(kind: Id -> Kind<R>, seen: set<R>, path: seq<Id>) {
    forall r :: r in seen ==> exists k :: 0 <= k < |path| && kind(path[k]).Link? && kind(path[k]).ref == r
  }

  lemma SeenOneMore<R(!new)>(kind: Id -> Kind<R>, seen: set<R>, path: seq<Id>, n: Id)
    requires SeenOn(kind, seen, path) && kind(n).Link?
    ensures SeenOn(kind, seen + {kind(n).ref}, path + [n])
  {
    forall r | r in seen + {kind(n).ref}
      ensures exists k :: 0 <= k < |path + [n]| && kind((path + [n])[k]).Link? && kind((path + [n])[k]).ref == r
    {
      if r == kind(n).ref {
        assert (path + [n])[|path|] == n;
      } else {
        var k :| 0 <= k < |path| && kind(path[k]).Link? && kind(path[k]).ref == r;
        assert (path + [n])[k] == path[k];
      }
    }
  }

  class Reader<R(==,!new)> {
    const kind: Id -> Kind<R>
    const hops: nat
    var memo: map<Id, Item>

    constructor (kind: Id -> Kind<R>, hops: nat)
      ensures Valid() && this.kind == kind && this.hops == hops && memo == map[]
    {
      this.kind, this.hops := kind, hops;
      memo := map[];
    }

    /** Whatever is memoised is the chain a reader with no memo would find. */
    ghost predicate Valid()
      reads this
    {
      forall n :: n in memo ==> Chain(kind, n, hops) == Some(memo[n])
    }

    /** With any memo left by earlier calls, the same chain or the same refusal as without
        one. `None` stands for the error thrown for a chain that is cyclic, too long, leads
        outside the allowed bases or names no object. */
    method Resolve(value: Id) returns (item: Option<Item>)
      requires Valid() && Consistent(kind)
      modifies this
      ensures Valid()
      ensures item == Chain(kind, value, hops)
      ensures item.Some? ==> |item.value.chain| <= hops && value in memo
    {
      var way := Descend(value);
      if way.None? { return None; }
      var (chain, at) := way.value;
      var tail := if at in memo then memo[at] else Item([], at);
      assert Chain(kind, at, hops) == Some(tail);
      ChainSplits(kind, value, chain, at, hops);
      ChainNeeds(kind, at, hops, hops - |chain|);
      if |chain| + |tail.chain| > hops { return None; }
      item := Note(value, chain, at, tail);
    }

    /** The way to the first node whose chain is memoised or ends; or a refusal, when the
        node has no chain. */
    method Descend(value: Id) returns (way: Option<(seq<Id>, Id)>)
      requires Valid() && Consistent(kind)
      ensures way.None? ==> Chain(kind, value, hops).None?
      ensures way.Some? ==>
                var (chain, at) := way.value;
                Followed(kind, value, chain, at) && |chain| <= hops && (at in memo || kind(at).Plain?)
    {
      var chain: seq<Id>, seen: set<R>, at := [], {}, value;
      while at !in memo && !kind(at).Plain?
        invariant Followed(kind, value, chain, at) && |seen| == |chain| <= hops && SeenOn(kind, seen, chain)
        decreases hops - |chain|
      {
        if kind(at).Broken? {
          ChainSplits(kind, value, chain, at, hops);
          return None;
        }
        var ref := kind(at).ref;
        if ref in seen {
          ghost var k :| 0 <= k < |chain| && kind(chain[k]).Link? && kind(chain[k]).ref == ref;
          RepeatHasNoChain(kind, value, chain, at, k, hops - |chain|);
          ChainSplits(kind, value, chain, at, hops);
          return None;
        }
        if |seen| >= hops {
          ChainSplits(kind, value, chain, at, hops);
          return None;
        }
        FollowedOn(kind, value, chain, at);
        SeenOneMore(kind, seen, chain, at);
        seen, chain, at := seen + {ref}, chain + [at], kind(at).next;
      }
      return Some((chain, at));
    }

    /** Memoise every node of a resolved chain, innermost first. */
    method Note(value: Id, chain: seq<Id>, at: Id, tail: Item) returns (item: Option<Item>)
      requires Valid() && Followed(kind, value, chain, at) && Chain(kind, at, hops) == Some(tail)
      requires |chain| + |tail.chain| <= hops
      modifies this
      ensures Valid() && item == Chain(kind, value, hops) == Some(Item(chain + tail.chain, tail.target))
      ensures value in memo
    {
      memo := memo[at := tail];
      var resolved := tail;
      var index := |chain|;
      assert Rest(chain, tail, index) == tail;
      while index > 0
        invariant 0 <= index <= |chain| && Valid()
        invariant NodeAt(chain, at, index) in memo && resolved == Rest(chain, tail, index)
        invariant Chain(kind, NodeAt(chain, at, index), hops) == Some(resolved)
      {
        index := index - 1;
        OneBack(kind, value, chain, at, tail, hops, index);
        resolved := Item([chain[index]] + resolved.chain, tail.target);
        memo := memo[chain[index] := resolved];
      }
      assert NodeAt(chain, at, 0) == value;
      item := Some(resolved);
    }
  }

  /* ── A document's Path Items ───────────────────────────────────────────── */

  predicate AllowedBase(ref: string) {
    "#/paths/" <= ref || "#/components/pathItems/" <= ref || "#/webhooks/" <= ref
  }

  function KindOf(doc: Doc, n: Id): Kind<string> {
    if !Has(doc, n, "$ref") then Plain
    else
      var ref := TextOf(doc, n, "$ref");
      if ref.None? || !AllowedBase(ref.value) then Broken
      else
        var target := Pointer(doc, ref.value);
        if target.Some? && IsObject(doc, target.value) then Link(ref.value, target.value) else Broken
  }

  function KindsOf(doc: Doc): Id -> Kind<string> {
    (n: Id) => KindOf(doc, n)
  }

  lemma DocumentsAreConsistent(doc: Doc)
    ensures Consistent(KindsOf(doc))
  {
    forall m: Id, n: Id | KindOf(doc, m).Link? && KindOf(doc, n).Link? && KindOf(doc, m).ref == KindOf(doc, n).ref
      ensures KindOf(doc, m).next == KindOf(doc, n).next
    {}
  }

  /* ── Members ───────────────────────────────────────────────────────────── */

  /** One member of a resolved Path Item: the outermost reference that sets it wins. */
  function MemberOf(doc: Doc, item: Item, key: string): Option<Id>
    decreases |item.chain|
  {
    if item.chain != [] then
      if key != "$ref" && Has(doc, item.chain[0], key) then Some(Member(doc, item.chain[0], key))
      else MemberOf(doc, item.(chain := item.chain[1..]), key)
    else if Has(doc, item.target, key) then Some(Member(doc, item.target, key))
    else None
  }

  method ReadMember(doc: Doc, item: Item, key: string) returns (member: Option<Id>)
    ensures member == MemberOf(doc, item, key)
  {
    for i := 0 to |item.chain|
      invariant MemberOf(doc, item.(chain := item.chain[i..]), key) == MemberOf(doc, item, key)
    {
      if key != "$ref" && Has(doc, item.chain[i], key) { return Some(Member(doc, item.chain[i], key)); }
      assert item.chain[i..][1..] == item.chain[i + 1..];
    }
    return if Has(doc, item.target, key) then Some(Member(doc, item.target, key)) else None;
  }

  function MembersOf(doc: Doc, n: Id): map<string, Id> {
    if IsObject(doc, n) then doc.nodes[n].members else map[]
  }

  /** `copy` answers every key as `item` does, read in place. */
  ghost predicate Answers(doc: Doc, copy: map<string, Id>, item: Item) {
    forall key :: MemberOf(doc, item, key) == if key in copy then Some(copy[key]) else None
  }

  /** A copy a caller may rewrite: the target, then each sibling laid over it, innermost
      first, without its `$ref`. */
  method Copy(doc: Doc, item: Item) returns (copy: map<string, Id>)
    ensures Answers(doc, copy, item)
  {
    copy := MembersOf(doc, item.target);
    var index := |item.chain|;
    while index > 0
      invariant 0 <= index <= |item.chain|
      invariant Answers(doc, copy, item.(chain := item.chain[index..]))
    {
      index := index - 1;
      assert item.chain[index..][1..] == item.chain[index + 1..];
      copy := copy + (MembersOf(doc, item.chain[index]) - {"$ref"});
    }
    assert item.chain[0..] == item.chain;
  }

  /** An entry of `paths` that is a Path Item: a path, and an object. */
  predicate IsPathItem(doc: Doc, entry: (string, Id)) {
    "/" <= entry.0 && IsObject(doc, entry.1)
  }

  function PathItemsOf(doc: Doc, paths: seq<(string, Id)>): seq<(string, Id)> {
    if paths == [] then []
    else PathItemsOf(doc, paths[..|paths| - 1]) + if IsPathItem(doc, paths[|paths| - 1]) then [paths[|paths| - 1]]
      else []
  }

  /** `copy` answers as the Path Item of `entry`, found without a memo. */
  ghost predicate Mirrors(doc: Doc, hops: nat, copy: (string, map<string, Id>), entry: (string, Id)) {
    && copy.0 == entry.0
    && Chain(KindsOf(doc), entry.1, hops).Some?
    && Answers(doc, copy.1, Chain(KindsOf(doc), entry.1, hops).value)
  }

  /** Each copy mirrors its own Path Item. */
  ghost predicate AllMirror(doc: Doc, hops: nat, copies: seq<(string, map<string, Id>)>, items: seq<(string, Id)>) {
    |copies| == |items| && forall i :: 0 <= i < |items| ==> Mirrors(doc, hops, copies[i], items[i])
  }

  lemma PathItemsSnoc(doc: Doc, paths: seq<(string, Id)>, i: nat)
    requires i < |paths|
    ensures PathItemsOf(doc, paths[..i + 1]) == PathItemsOf(doc, paths[..i]) + if IsPathItem(doc, paths[i])
            then [paths[i]] else []
  {
    assert paths[..i + 1][..i] == paths[..i];
  }

  /** The copy of one Path Item. */
  method CopyOne(doc: Doc, reader: Reader<string>, entry: (string, Id))
      returns (copy: Option<(string, map<string, Id>)>)
    requires reader.Valid() && reader.kind == KindsOf(doc) && Consistent(reader.kind)
    modifies reader
    ensures reader.Valid()
    ensures copy.None? <==> Chain(KindsOf(doc), entry.1, reader.hops).None?
    ensures copy.Some? ==> Mirrors(doc, reader.hops, copy.value, entry)
  {
    var item := reader.Resolve(entry.1);
    if item.None? { return None; }
    var members := Copy(doc, item.value);
    return Some((entry.0, members));
  }

  /** Copies of every Path Item of `paths`, in order, sharing one memo; or a refusal, if
      and only if one of them has no chain. */
  method CopyAll(doc: Doc, paths: seq<(string, Id)>, hops: nat) returns (copies: Option<seq<(string, map<string, Id>)>>)
    ensures copies.None? <==>
              exists i :: 0 <= i < |paths| && IsPathItem(doc, paths[i]) && Chain(KindsOf(doc), paths[i].1, hops).None?
    ensures copies.Some? ==> AllMirror(doc, hops, copies.value, PathItemsOf(doc, paths))
  {
    DocumentsAreConsistent(doc);
    var reader := new Reader(KindsOf(doc), hops);
    var done: seq<(string, map<string, Id>)> := [];
    for i := 0 to |paths|
      invariant fresh(reader) && reader.Valid() && reader.kind == KindsOf(doc) && reader.hops == hops
      invariant forall j :: 0 <= j < i && IsPathItem(doc, paths[j]) ==> Chain(KindsOf(doc), paths[j].1, hops).Some?
      invariant AllMirror(doc, hops, done, PathItemsOf(doc, paths[..i]))
    {
      PathItemsSnoc(doc, paths, i);
      if IsPathItem(doc, paths[i]) {
        var copy := CopyOne(doc, reader, paths[i]);
        if copy.None? { return None; }
        done := done + [copy.value];
      }
    }
    assert paths[..|paths|] == paths;
    return Some(done);
  }
}
