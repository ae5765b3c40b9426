/** The identity of a parameter, the key that spells it, and the merge of a path's
    parameters with an operation's by that identity. */
module OpenApiParameters {
  import opened Wrappers
  import opened Json
  import opened JsonPointer
  import opened RefChains

  /** A parameter's `(in, name)` identity, the name folded where it is a header's. */
  datatype Identity = Identity(location: string, name: string)

  /** `fold` lower-cases a header name; nothing else about it matters here. */
  function IdentityOf(doc: Doc, value: Id, fold: string -> string): Option<Identity> {
    var name, location := TextOf(doc, value, "name"), TextOf(doc, value, "in");
    if name.None? || location.None? then None
    else Some(Identity(location.value, if location.value == "header" then fold(name.value) else name.value))
  }

  /* ── Keys ──────────────────────────────────────────────────────────────── */

  /** `in` is spelled with its length first. */
  function Spelling(id: Identity, compact: string -> string): string {
    var where := compact(id.location);
    Decimal(|where|) + [':'] + where + ['\0'] + compact(id.name)
  }

  ghost predicate Injective(compact: string -> string) {
    forall a, b :: compact(a) == compact(b) ==> a == b
  }

  lemma NoColon(n: nat)
    ensures ':' !in Decimal(n)
  {
    DigitsRead(n);
    assert forall i :: 0 <= i < |Digits(n)| ==> IsDigit(Digits(n)[i]);
  }

  /** A text before the first colon, and what follows it, can be told apart. */
  lemma FirstColon(a: string, x: string, b: string, y: string)
    requires ':' !in a && ':' !in b && a + [':'] + x == b + [':'] + y
    ensures a == b && x == y
  {
    var s, t := a + [':'] + x, b + [':'] + y;
    assert s[|a|] == ':' && t[|b|] == ':';
    assert a == s[..|a|] && b == t[..|b|];
    assert x == s[|a| + 1..] && y == t[|b| + 1..];
  }

  lemma LengthFirst(n: nat, m: nat)
    requires Decimal(n) == Decimal(m)
    ensures n == m
  {
    DigitsRead(n);
    DigitsRead(m);
    assert Digits(0) == [];
  }

  lemma PartsApart(v: string, n: string, w: string, m: string)
    requires |v| == |w| && v + ['\0'] + n == w + ['\0'] + m
    ensures v == w && n == m
  {
    var x, y := v + ['\0'] + n, w + ['\0'] + m;
    assert v == x[..|v|] && w == y[..|w|];
    assert n == x[|v| + 1..] && m == y[|w| + 1..];
  }

  /** Two identities are spelled alike only when they are the same, whatever characters
      they hold and however they were compacted. */
  lemma SpellingIsInjective(a: Identity, b: Identity, compact: string -> string)
    requires Injective(compact)
    ensures Spelling(a, compact) == Spelling(b, compact) <==> a == b
  {
    if Spelling(a, compact) == Spelling(b, compact) {
      var v, w := compact(a.location), compact(b.location);
      var x, y := v + ['\0'] + compact(a.name), w + ['\0'] + compact(b.name);
      NoColon(|v|);
      NoColon(|w|);
      assert Spelling(a, compact) == Decimal(|v|) + [':'] + x;
      assert Spelling(b, compact) == Decimal(|w|) + [':'] + y;
      FirstColon(Decimal(|v|), x, Decimal(|w|), y);
      LengthFirst(|v|, |w|);
      hide Decimal;
      PartsApart(v, compact(a.name), w, compact(b.name));
    }
  }

  /** The key of a resolved parameter; a failed resolution has none. */
  function KeyOf(doc: Doc, resolution: Option<Resolution<string>>, fold: string -> string,
      compact: string -> string): Option<string> {
    if resolution.None? || resolution.value.Failed? then None
    else
      var id := IdentityOf(doc, resolution.value.value, fold);
      if id.None? then None else Some(Spelling(id.value, compact))
  }

  /** Keys each parameter object of a document once, charging for the texts it reads. */
  class Keyer {
    const doc: Doc
    const fold: string -> string
    const compact: string -> string
    var keys: map<Id, Option<string>>
    var charged: nat

    constructor (doc: Doc, fold: string -> string, compact: string -> string)
      ensures Valid() && this.doc == doc && this.fold == fold && this.compact == compact && keys == map[]
              && charged == 0
    {
      this.doc, this.fold, this.compact := doc, fold, compact;
      keys, charged := map[], 0;
    }

    /** Whether the two texts of an identity are there to be read. */
    static predicate HasTexts(doc: Doc, value: Id) {
      TextOf(doc, value, "name").Some? && TextOf(doc, value, "in").Some?
    }

    static function Cost(doc: Doc, value: Id): nat {
      if HasTexts(doc, value) then |TextOf(doc, value, "in").value| + |TextOf(doc, value, "name").value| else 0
    }

    ghost predicate Valid()
      reads this
    {
      forall value :: value in keys ==> keys[value] == KeyOf(doc, Some(Resolved(value, NONE)), fold, compact)
    }

    /** The key is the same whether the object was keyed before or not, and an object is
        charged for the first time only. */
    method Key(resolution: Option<Resolution<string>>) returns (key: Option<string>)
      requires Valid()
      modifies this
      ensures Valid() && key == KeyOf(doc, resolution, fold, compact)
      ensures resolution.Some? && resolution.value.Resolved? ==>
                var value := resolution.value.value;
                && keys == old(keys)[value := key]
                && charged == old(charged) + if value in old(keys) then 0 else Cost(doc, value)
      ensures !(resolution.Some? && resolution.value.Resolved?) ==> keys == old(keys) && charged == old(charged)
    {
      if resolution.None? || resolution.value.Failed? { return None; }
      var value := resolution.value.value;
      if value in keys {
        key := keys[value];
      } else {
        charged := charged + Cost(doc, value);
        key := KeyOf(doc, resolution, fold, compact);
        keys := keys[value := key];
      }
    }
  }

  /* ── Merging ───────────────────────────────────────────────────────────── */

  /** One entry of a parameter list: where it was written, what it resolves to, its key. */
  datatype Entry = Entry(parameter: Id, resolution: Option<Resolution<string>>, key: Option<string>)

  function Redeclared(operation: seq<Entry>): set<string> {
    set e | e in operation && e.key.Some? :: e.key.value
  }

  /** The entries that `stays` holds of, in order. */
  function Kept<T>(path: seq<T>, stays: T -> bool): seq<T> {
    if path == [] then [] else (if stays(path[0]) then [path[0]] else []) + Kept(path[1..], stays)
  }

  predicate Stays(e: Entry, redeclared: set<string>) {
    e.key.None? || e.key.value !in redeclared
  }

  /** Whether the operation does not redeclare an entry. */
  function NotIn(redeclared: set<string>): Entry -> bool {
    e => Stays(e, redeclared)
  }

  /** Every path-level entry the operation does not redeclare, then the operation's own. */
  method Merge(path: seq<Entry>, operation: seq<Entry>) returns (merged: seq<Entry>)
    ensures merged == Kept(path, NotIn(Redeclared(operation))) + operation
  {
    var redeclared: set<string> := {};
    for i := 0 to |operation|
      invariant redeclared == Redeclared(operation[..i])
    {
      assert operation[..i + 1] == operation[..i] + [operation[i]];
      if operation[i].key.Some? {
        redeclared := redeclared + {operation[i].key.value};
      }
    }
    assert operation[..|operation|] == operation;
    merged := Filter(path, NotIn(redeclared));
    merged := merged + operation;
  }

  method Filter<T>(path: seq<T>, stays: T -> bool) returns (kept: seq<T>)
    ensures kept == Kept(path, stays)
  {
    kept := [];
    for i := 0 to |path|
      invariant kept + Kept(path[i..], stays) == Kept(path, stays)
    {
      KeptNext(path, stays, i, kept);
      if stays(path[i]) { kept := kept + [path[i]]; }
    }
  }

  lemma KeptNext<T>(path: seq<T>, stays: T -> bool, i: nat, before: seq<T>)
    requires i < |path|
    ensures before + Kept(path[i..], stays) == (if stays(path[i]) then before + [path[i]] else before)
            + Kept(path[i + 1..], stays)
  {
    assert path[i..][1..] == path[i + 1..];
  }

  /** The positions from `from` on that are kept, in order. */
  function Positions<T>(path: seq<T>, stays: T -> bool, from: nat): (at: seq<nat>)
    requires from <= |path|
    ensures forall p :: p in at <==> from <= p < |path| && stays(path[p])
    ensures forall i :: 0 <= i < |at| ==> from <= at[i] < |path|
    ensures forall i, j :: 0 <= i < j < |at| ==> at[i] < at[j]
    decreases |path| - from
  {
    if from == |path| then []
    else
      var rest := Positions(path, stays, from + 1);
      if stays(path[from]) then [from] + rest else rest
  }

  /** Filtering keeps the entries at exactly those positions. */
  lemma {:induction false} KeptWhere<T>(path: seq<T>, stays: T -> bool, from: nat)
    requires from <= |path|
    ensures
      var kept, at := Kept(path[from..], stays), Positions(path, stays, from);
      |kept| == |at| && forall i :: 0 <= i < |at| ==> kept[i] == path[at[i]]
    decreases |path| - from
  {
    if from < |path| {
      KeptWhere(path, stays, from + 1);
      assert path[from..][1..] == path[from + 1..];
    }
  }

  /** How an entry was keyed. */
  ghost predicate Keyed(doc: Doc, fold: string -> string, compact: string -> string, entries: seq<Entry>) {
    forall e :: e in entries ==> e.key == KeyOf(doc, e.resolution, fold, compact)
  }

  function EntryIdentity(doc: Doc, fold: string -> string, e: Entry): Option<Identity> {
    if e.resolution.None? || e.resolution.value.Failed? then None else IdentityOf(doc, e.resolution.value.value, fold)
  }

  /** The merged list drops exactly the path-level entries whose identity the operation
      declares again, keeps every other entry in order, and never drops one without an
      identity. */
  lemma MergesByIdentity(doc: Doc, fold: string -> string, compact: string -> string, path: seq<Entry>,
      operation: seq<Entry>)
    returns (at: seq<nat>)
    requires Injective(compact) && Keyed(doc, fold, compact, path) && Keyed(doc, fold, compact, operation)
    ensures
      var kept := Kept(path, NotIn(Redeclared(operation)));
      && |kept| == |at| && (forall i :: 0 <= i < |at| ==> at[i] < |path| && kept[i] == path[at[i]])
      && (forall i, j :: 0 <= i < j < |at| ==> at[i] < at[j])
      && (forall p :: 0 <= p < |path| ==>
            (p !in at <==> EntryIdentity(doc, fold, path[p]).Some?
                           && exists e ::
                             e in operation && EntryIdentity(doc, fold, e) == EntryIdentity(doc, fold, path[p])))
  {
    at := Positions(path, NotIn(Redeclared(operation)), 0);
    KeptWhere(path, NotIn(Redeclared(operation)), 0);
    assert path[0..] == path;
    forall p | 0 <= p < |path|
      ensures p !in at <==> EntryIdentity(doc, fold, path[p]).Some?
                            && exists e ::
                              e in operation && EntryIdentity(doc, fold, e) == EntryIdentity(doc, fold, path[p])
    {
      RedeclaredExactly(doc, fold, compact, operation, path[p]);
    }
  }

  lemma RedeclaredExactly(doc: Doc, fold: string -> string, compact: string -> string, operation: seq<Entry>,
      entry: Entry)
    requires Injective(compact) && Keyed(doc, fold, compact, operation)
    requires entry.key == KeyOf(doc, entry.resolution, fold, compact)
    ensures entry.key.Some? && entry.key.value in Redeclared(operation)
      <==> EntryIdentity(doc, fold, entry).Some?
           && exists e :: e in operation && EntryIdentity(doc, fold, e) == EntryIdentity(doc, fold, entry)
  {
    var id := EntryIdentity(doc, fold, entry);
    if id.Some? {
      forall e | e in operation ensures e.key == entry.key <==> EntryIdentity(doc, fold, e) == id {
        if EntryIdentity(doc, fold, e).Some? {
          SpellingIsInjective(EntryIdentity(doc, fold, e).value, id.value, compact);
        }
      }
    }
  }
}
