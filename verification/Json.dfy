/** A JSON document as the values it is made of. Values have identities, as the
    objects of a parsed document do, so one may be reached by several paths. */
module Json {
  import opened Wrappers

  type Id = nat

  datatype Node =
    | Obj(members: map<string, Id>)
    | Arr(items: seq<Id>)
    | Str(text: string)
    | Other

  datatype Doc = Doc(root: Id, nodes: map<Id, Node>)

  /** Every value a document mentions is in it. */
  ghost predicate Closed(doc: Doc) {
    && doc.root in doc.nodes
    && (forall n, k :: n in doc.nodes && doc.nodes[n].Obj? && k in doc.nodes[n].members ==>
        doc.nodes[n].members[k] in doc.nodes)
    && (forall n, i :: n in doc.nodes && doc.nodes[n].Arr? && 0 <= i < |doc.nodes[n].items| ==>
        doc.nodes[n].items[i] in doc.nodes)
  }

  predicate IsObject(doc: Doc, n: Id) {
    n in doc.nodes && doc.nodes[n].Obj?
  }

  /** Whether the object `n` has a member of its own named `key`. */
  predicate Has(doc: Doc, n: Id, key: string) {
    IsObject(doc, n) && key in doc.nodes[n].members
  }

  function Member(doc: Doc, n: Id, key: string): Id
    requires Has(doc, n, key)
  {
    doc.nodes[n].members[key]
  }

  /** The text of the member `key` of `n`, when it is a string. */
  function TextOf(doc: Doc, n: Id, key: string): Option<string> {
    if Has(doc, n, key) && Member(doc, n, key) in doc.nodes && doc.nodes[Member(doc, n, key)].Str?
    then Some(doc.nodes[Member(doc, n, key)].text)
    else None
  }

  /* ── Texts ─────────────────────────────────────────────────────────────── */

  function Count(s: string, c: char): nat {
    if s == [] then 0 else (if s[0] == c then 1 else 0) + Count(s[1..], c)
  }

  /** The pieces of `s` between occurrences of `c`. */
  function Split(s: string, c: char): (pieces: seq<string>)
    ensures |pieces| == Count(s, c) + 1
  {
    if s == [] then [[]]
    else
      var rest := Split(s[1..], c);
      if s[0] == c then [[]] + rest else [[s[0]] + rest[0]] + rest[1..]
  }

  function Join(pieces: seq<string>, c: char): string
    requires pieces != []
  {
    if |pieces| == 1 then pieces[0] else pieces[0] + [c] + Join(pieces[1..], c)
  }

  lemma {:induction false} SplitPiece(piece: string, rest: string, c: char)
    requires c !in piece
    ensures Split(piece + [c] + rest, c) == [piece] + Split(rest, c)
    ensures Split(piece, c) == [piece]
  {
    if piece == [] {
      assert piece + [c] + rest == [c] + rest;
      assert ([c] + rest)[1..] == rest;
    } else {
      SplitPiece(piece[1..], rest, c);
      assert (piece + [c] + rest)[1..] == piece[1..] + [c] + rest;
      assert [piece[0]] + piece[1..] == piece;
    }
  }

  /** Splitting takes a joined text apart again. */
  lemma {:induction false} SplitJoin(pieces: seq<string>, c: char)
    requires pieces != [] && forall p :: p in pieces ==> c !in p
    ensures Split(Join(pieces, c), c) == pieces
  {
    if |pieces| == 1 {
      SplitPiece(pieces[0], [], c);
    } else {
      SplitJoin(pieces[1..], c);
      SplitPiece(pieces[0], Join(pieces[1..], c), c);
      assert pieces[0] in pieces;
    }
  }

  lemma {:induction false} CountSnoc(s: string, k: nat, c: char)
    requires k < |s|
    ensures Count(s[..k + 1], c) == Count(s[..k], c) + if s[k] == c then 1 else 0
  {
    if k > 0 {
      CountSnoc(s[1..], k - 1, c);
      assert s[..k + 1][1..] == s[1..][..k];
      assert s[..k][1..] == s[1..][..k - 1];
    } else {
      assert s[..1] == [s[0]];
      assert s[..1][1..] == [];
    }
  }

  lemma {:induction false} CountPrefix(s: string, k: nat, c: char)
    requires k <= |s|
    ensures Count(s[..k], c) <= Count(s, c)
  {
    if k > 0 {
      CountPrefix(s[1..], k - 1, c);
      assert s[..k][1..] == s[1..][..k - 1];
    }
  }

  /* ── Texts ─────────────────────────────────────────────────────────────── */

  /** The length of a text in UTF-16 code units. */
  function Units(s: string): nat {
    if s == [] then 0 else (if s[0] as int < 0x1_0000 then 1 else 2) + Units(s[1..])
  }

  lemma {:induction false} UnitsAppend(a: string, b: string)
    ensures Units(a + b) == Units(a) + Units(b)
  {
    if a == [] {
      assert a + b == b;
    } else {
      UnitsAppend(a[1..], b);
      assert (a + b)[1..] == a[1..] + b && (a + b)[0] == a[0];
    }
  }
}
