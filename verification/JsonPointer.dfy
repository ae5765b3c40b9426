/** Local JSON pointers (RFC 6901) as a document's references spell them: in a URI
    fragment, percent-decoded and then unescaped, within a length and a segment bound. */
module JsonPointer {
  import opened Wrappers
  import opened Json

  const MAX_REF_LENGTH := 2048
  const MAX_SEGMENTS := 200

  /* ── One segment ───────────────────────────────────────────────────────── */

  function HexValue(c: char): Option<nat> {
    if '0' <= c <= '9' then Some(c as nat - '0' as nat)
    else if 'A' <= c <= 'F' then Some(c as nat - 'A' as nat + 10)
    else if 'a' <= c <= 'f' then Some(c as nat - 'a' as nat + 10)
    else None
  }

  /** The octet an escape `%ab` at the front of `s` stands for. */
  function Octet(s: string): Option<nat> {
    if |s| < 3 || s[0] != '%' then None
    else
      var high, low := HexValue(s[1]), HexValue(s[2]);
      if high.Some? && low.Some? then Some(high.value * 16 + low.value) else None
  }

  /** The six bits of a continuation octet at the front of `s`. */
  function Continuation(s: string): Option<nat> {
    var octet := Octet(s);
    if octet.Some? && 0x80 <= octet.value < 0xC0 then Some(octet.value - 0x80) else None
  }

  /** A code point that may be spelled in `size` octets and no fewer, and is no surrogate. */
  function Scalar(code: nat, size: nat): Option<char> {
    var least := if size == 2 then 0x80 else if size == 3 then 0x800 else 0x1_0000;
    if least <= code < 0x11_0000 && !(0xD800 <= code < 0xE000) then Some(code as char) else None
  }

  /** The character that the escapes at the front of `s` spell in UTF-8, and how many
      escapes they are. */
  function EscapedChar(s: string): Option<(char, nat)> {
    var first := Octet(s);
    if first.None? then None
    else if first.value < 0x80 then Some((first.value as char, 1))
    else
      var second := Continuation(s[3..]);
      if second.None? then None
      else if 0xC0 <= first.value < 0xE0 then Sized(Scalar((first.value - 0xC0) * 64 + second.value, 2), 2)
      else
        var third := Continuation(s[6..]);
        if third.None? then None
        else if 0xE0 <= first.value < 0xF0 then
          Sized(Scalar(((first.value - 0xE0) * 64 + second.value) * 64 + third.value, 3), 3)
        else
          var fourth := Continuation(s[9..]);
          if fourth.None? || first.value < 0xF0 || first.value >= 0xF8 then None
          else Sized(Scalar((((first.value - 0xF0) * 64 + second.value) * 64 + third.value) * 64 + fourth.value, 4), 4)
  }

  function Sized(c: Option<char>, size: nat): Option<(char, nat)> {
    if c.None? then None else Some((c.value, size))
  }

  lemma EscapesFit(s: string)
    ensures EscapedChar(s).Some? ==> 1 <= EscapedChar(s).value.1 && 3 * EscapedChar(s).value.1 <= |s|
  {}

  /** Percent-decoding; a malformed escape makes the whole segment unreadable. */
  function PercentDecoded(s: string): Option<string>
    decreases |s|
  {
    if s == [] then Some([])
    else if s[0] == '%' then
      var escaped := EscapedChar(s);
      EscapesFit(s);
      if escaped.None? then None
      else
        var rest := PercentDecoded(s[3 * escaped.value.1..]);
        if rest.None? then None else Some([escaped.value.0] + rest.value)
    else
      var rest := PercentDecoded(s[1..]);
      if rest.None? then None else Some([s[0]] + rest.value)
  }

  /** Every `~d` of `s` replaced by `with`, left to right. */
  function Replaced(s: string, d: char, with: char): string {
    if |s| < 2 then s
    else if s[0] == '~' && s[1] == d then [with] + Replaced(s[2..], d, with)
    else [s[0]] + Replaced(s[1..], d, with)
  }

  /** `~1` before `~0`. */
  function Unescaped(s: string): string {
    Replaced(Replaced(s, '1', '/'), '0', '~')
  }

  function Token(segment: string): Option<string> {
    var decoded := PercentDecoded(segment);
    if decoded.None? then None else Some(Unescaped(decoded.value))
  }

  /* ── Array indices ─────────────────────────────────────────────────────── */

  predicate IsDigit(c: char) {
    '0' <= c <= '9'
  }

  /** `0`, or digits without a leading zero. */
  predicate IsIndex(s: string) {
    s == "0" || (s != [] && s[0] != '0' && forall i :: 0 <= i < |s| ==> IsDigit(s[i]))
  }

  function Number(s: string): nat
    requires forall i :: 0 <= i < |s| ==> IsDigit(s[i])
  {
    if s == [] then 0
    else
      var last := s[|s| - 1];
      assert IsDigit(last);
      Number(s[..|s| - 1]) * 10 + (last as nat - '0' as nat)
  }

  function Digits(n: nat): string {
    if n == 0 then [] else Digits(n / 10) + [('0' as nat + n % 10) as char]
  }

  /** How an index is written. */
  function Decimal(n: nat): string {
    if n == 0 then "0" else Digits(n)
  }

  /* ── Walking ───────────────────────────────────────────────────────────── */

  /** The value one reference token names below `n`. */
  function Child(doc: Doc, n: Id, token: string): Option<Id> {
    if n !in doc.nodes then None
    else
      match doc.nodes[n]
      case Arr(items) => if IsIndex(token) && Number(token) < |items| then Some(items[Number(token)]) else None
      case Obj(members) => if token in members then Some(members[token]) else None
      case _ => None
  }

  /** The value a path of reference tokens names. */
  function At(doc: Doc, n: Id, path: seq<string>): Option<Id>
    decreases |path|
  {
    if path == [] then Some(n)
    else
      var child := Child(doc, n, path[0]);
      if child.None? then None else At(doc, child.value, path[1..])
  }

  function Walk(doc: Doc, n: Id, segments: seq<string>): Option<Id>
    decreases |segments|
  {
    if segments == [] then Some(n)
    else
      var token := Token(segments[0]);
      var child := if token.None? then None else Child(doc, n, token.value);
      if child.None? then None else Walk(doc, child.value, segments[1..])
  }

  /** The value `ref` names in `doc`, if it names one. */
  function Pointer(doc: Doc, ref: string): Option<Id> {
    if Units(ref) > MAX_REF_LENGTH then None
    else if ref == "#" then Some(doc.root)
    else if !("#/" <= ref) then None
    else
      var segments := Split(ref[2..], '/');
      if |segments| > MAX_SEGMENTS then None else Walk(doc, doc.root, segments)
  }

  /** The evaluation itself: the segments are counted before any is split off, and
      `decoded` says how many were read. */
  method Evaluate(doc: Doc, ref: string) returns (found: Option<Id>, decoded: nat)
    ensures found == Pointer(doc, ref)
    ensures decoded <= MAX_SEGMENTS
    ensures found.Some? && ref != "#" ==> decoded == Count(ref[2..], '/') + 1
  {
    decoded := 0;
    if Units(ref) > MAX_REF_LENGTH { return None, 0; }
    if ref == "#" { return Some(doc.root), 0; }
    if !("#/" <= ref) { return None, 0; }
    var segments := 1;
    for index := 2 to |ref|
      invariant segments == Count(ref[2..][..index - 2], '/') + 1 <= MAX_SEGMENTS
    {
      CountSnoc(ref[2..], index - 2, '/');
      if ref[index] == '/' {
        segments := segments + 1;
        if segments > MAX_SEGMENTS {
          CountPrefix(ref[2..], index - 1, '/');
          return None, 0;
        }
      }
    }
    assert ref[2..][..|ref| - 2] == ref[2..];
    var pieces := Split(ref[2..], '/');
    var current := doc.root;
    while decoded < |pieces|
      invariant decoded <= |pieces| == segments
      invariant Walk(doc, current, pieces[decoded..]) == Walk(doc, doc.root, pieces)
    {
      var token := Token(pieces[decoded]);
      decoded := decoded + 1;
      if token.None? { return None, decoded; }
      var child := Child(doc, current, token.value);
      if child.None? { return None, decoded; }
      current := child.value;
    }
    return Some(current), decoded;
  }

  /* ── Spelling a path ───────────────────────────────────────────────────── */

  /** RFC 6901, section 3: `~` is written `~0` and `/` is written `~1`. */
  function Escaped(token: string): string {
    if token == [] then [] else EscapedOne(token[0]) + Escaped(token[1..])
  }

  function EscapedOne(c: char): string {
    if c == '~' then ['~', '0'] else if c == '/' then ['~', '1'] else [c]
  }

  function HexDigit(n: nat): char
    requires n < 16
  {
    if n < 10 then ('0' as nat + n) as char else ('A' as nat + n - 10) as char
  }

  /** One octet as an escape. */
  function Escape(octet: nat): string
    requires octet < 256
  {
    ['%', HexDigit(octet / 16), HexDigit(octet % 16)]
  }

  /** A character in UTF-8, every octet as an escape. */
  function Escapes(c: char): string {
    var n := c as nat;
    if n < 0x80 then Escape(n)
    else if n < 0x800 then Escape(0xC0 + n / 64) + Escape(0x80 + n % 64)
    else if n < 0x1_0000 then Three(n / 4096, n / 64 % 64, n % 64)
    else Four(n / 262144, n / 4096 % 64, n / 64 % 64, n % 64)
  }

  function Three(a: nat, b: nat, c: nat): string
    requires a < 16 && b < 64 && c < 64
  {
    Escape(0xE0 + a) + Escape(0x80 + b) + Escape(0x80 + c)
  }

  function Four(a: nat, b: nat, c: nat, d: nat): string
    requires a < 8 && b < 64 && c < 64 && d < 64
  {
    Escape(0xF0 + a) + Escape(0x80 + b) + Escape(0x80 + c) + Escape(0x80 + d)
  }

  /** RFC 6901, section 6: `%` is always percent-encoded, and so is any other character that
      `quoted` picks. */
  function PercentEncoded(s: string, quoted: char -> bool): string {
    if s == [] then []
    else (if s[0] == '%' || quoted(s[0]) then Escapes(s[0]) else [s[0]]) + PercentEncoded(s[1..], quoted)
  }

  function Segment(token: string, quoted: char -> bool): string {
    PercentEncoded(Escaped(token), quoted)
  }

  function Segments(path: seq<string>, quoted: char -> bool): (segments: seq<string>)
    ensures |segments| == |path|
  {
    if path == [] then [] else [Segment(path[0], quoted)] + Segments(path[1..], quoted)
  }

  /** A path as a reference. */
  function Spelled(path: seq<string>, quoted: char -> bool): string {
    if path == [] then "#" else "#/" + Join(Segments(path, quoted), '/')
  }

  /* ── Round trips ───────────────────────────────────────────────────────── */

  lemma OctetOf(octet: nat, rest: string)
    requires octet < 256
    ensures Octet(Escape(octet) + rest) == Some(octet)
  {
    var s := Escape(octet) + rest;
    assert s[1] == HexDigit(octet / 16) && s[2] == HexDigit(octet % 16);
    HexRoundTrip(octet / 16);
    HexRoundTrip(octet % 16);
  }

  lemma HexRoundTrip(n: nat)
    requires n < 16
    ensures HexValue(HexDigit(n)) == Some(n)
  {}

  lemma ContinuationOf(bits: nat, rest: string)
    requires bits < 64
    ensures Continuation(Escape(0x80 + bits) + rest) == Some(bits)
  {
    OctetOf(0x80 + bits, rest);
  }

  lemma ThreeOn(octet: nat, rest: string)
    requires octet < 256
    ensures (Escape(octet) + rest)[3..] == rest
  {}

  lemma TwoOctets(n: nat, rest: string)
    requires 0x80 <= n < 0x800
    ensures EscapedChar(Escapes(n as char) + rest) == Some((n as char, 2))
  {
    Sextets(n);
    hide EscapedChar, Octet, Escape;
    TwoRead(n, n / 64, n % 64, rest);
    Regroup(Escape(0xC0 + n / 64), Escape(0x80 + n % 64), rest);
  }

  lemma TwoRead(n: nat, a: nat, b: nat, rest: string)
    requires a < 32 && b < 64 && n == a * 64 + b && Scalar(n, 2).Some?
    ensures EscapedChar(Escape(0xC0 + a) + (Escape(0x80 + b) + rest)) == Some((n as char, 2))
  {
    var second := Escape(0x80 + b) + rest;
    OctetOf(0xC0 + a, second);
    ThreeOn(0xC0 + a, second);
    ContinuationOf(b, rest);
    TwoParts(n, a, b, Escape(0xC0 + a) + second);
  }

  lemma TwoParts(n: nat, a: nat, b: nat, s: string)
    requires a < 32 && b < 64 && n == a * 64 + b && Scalar(n, 2).Some?
    requires |s| >= 6 && Octet(s) == Some(0xC0 + a) && Continuation(s[3..]) == Some(b)
    ensures EscapedChar(s) == Some((n as char, 2))
  {
    hide Octet, Continuation;
  }

  lemma Quotients(n: nat)
    ensures n / 4096 == n / 64 / 64 && n / 262144 == n / 64 / 64 / 64
  {}

  lemma Sextets(n: nat)
    ensures n / 64 * 64 + n % 64 == n && n % 64 < 64
  {}

  lemma ThreeSextets(n: nat)
    ensures (n / 4096 * 64 + n / 64 % 64) * 64 + n % 64 == n
  {
    Quotients(n);
    Sextets(n);
    Sextets(n / 64);
  }

  lemma FourSextets(n: nat)
    ensures ((n / 262144 * 64 + n / 4096 % 64) * 64 + n / 64 % 64) * 64 + n % 64 == n
  {
    Quotients(n);
    ThreeSextets(n);
    Sextets(n / 64 / 64);
  }

  lemma Join3(a: string, b: string, c: string, rest: string)
    ensures a + b + c + rest == a + (b + (c + rest))
  {}

  lemma Join4(a: string, b: string, c: string, d: string, rest: string)
    ensures a + b + c + d + rest == a + (b + (c + (d + rest)))
  {}

  lemma ThreeRead(n: nat, a: nat, b: nat, c: nat, rest: string)
    requires a < 16 && b < 64 && c < 64 && n == (a * 64 + b) * 64 + c && Scalar(n, 3).Some?
    ensures EscapedChar(Three(a, b, c) + rest) == Some((n as char, 3))
  {
    var third := Escape(0x80 + c) + rest;
    var second := Escape(0x80 + b) + third;
    var s := Escape(0xE0 + a) + second;
    Join3(Escape(0xE0 + a), Escape(0x80 + b), Escape(0x80 + c), rest);
    OctetOf(0xE0 + a, second);
    ThreeOn(0xE0 + a, second);
    ThreeOn(0x80 + b, third);
    assert s[6..] == s[3..][3..] == third;
    ContinuationOf(b, third);
    ContinuationOf(c, rest);
    ThreeParts(n, a, b, c, s);
  }

  lemma ThreeParts(n: nat, a: nat, b: nat, c: nat, s: string)
    requires a < 16 && b < 64 && c < 64 && n == (a * 64 + b) * 64 + c && Scalar(n, 3).Some?
    requires |s| >= 9 && Octet(s) == Some(0xE0 + a) && Continuation(s[3..]) == Some(b)
             && Continuation(s[6..]) == Some(c)
    ensures EscapedChar(s) == Some((n as char, 3))
  {
    hide Octet, Continuation;
  }

  lemma ThreeOctets(n: nat, rest: string)
    requires 0x800 <= n < 0x1_0000 && !(0xD800 <= n < 0xE000)
    ensures n / 4096 < 16 && n / 64 % 64 < 64 && n % 64 < 64
    ensures EscapedChar(Three(n / 4096, n / 64 % 64, n % 64) + rest) == Some((n as char, 3))
  {
    ThreeSextets(n);
    hide EscapedChar, Three;
    ThreeRead(n, n / 4096, n / 64 % 64, n % 64, rest);
  }

  lemma FourRead(n: nat, a: nat, b: nat, c: nat, d: nat, rest: string)
    requires a < 8 && b < 64 && c < 64 && d < 64 && n == ((a * 64 + b) * 64 + c) * 64 + d && Scalar(n, 4).Some?
    ensures EscapedChar(Four(a, b, c, d) + rest) == Some((n as char, 4))
  {
    var fourth := Escape(0x80 + d) + rest;
    var third := Escape(0x80 + c) + fourth;
    var second := Escape(0x80 + b) + third;
    var s := Escape(0xF0 + a) + second;
    Join4(Escape(0xF0 + a), Escape(0x80 + b), Escape(0x80 + c), Escape(0x80 + d), rest);
    OctetOf(0xF0 + a, second);
    ThreeOn(0xF0 + a, second);
    ThreeOn(0x80 + b, third);
    ThreeOn(0x80 + c, fourth);
    assert s[6..] == s[3..][3..] == third;
    assert s[9..] == s[6..][3..] == fourth;
    ContinuationOf(b, third);
    ContinuationOf(c, fourth);
    ContinuationOf(d, rest);
    FourParts(n, a, b, c, d, s);
  }

  lemma FourParts(n: nat, a: nat, b: nat, c: nat, d: nat, s: string)
    requires a < 8 && b < 64 && c < 64 && d < 64 && n == ((a * 64 + b) * 64 + c) * 64 + d && Scalar(n, 4).Some?
    requires |s| >= 12 && Octet(s) == Some(0xF0 + a) && Continuation(s[3..]) == Some(b)
    requires Continuation(s[6..]) == Some(c) && Continuation(s[9..]) == Some(d)
    ensures EscapedChar(s) == Some((n as char, 4))
  {
    hide Octet, Continuation;
  }

  lemma FourOctets(n: nat, rest: string)
    requires 0x1_0000 <= n < 0x11_0000
    ensures n / 262144 < 8 && n / 4096 % 64 < 64 && n / 64 % 64 < 64 && n % 64 < 64
    ensures EscapedChar(Four(n / 262144, n / 4096 % 64, n / 64 % 64, n % 64) + rest) == Some((n as char, 4))
  {
    FourSextets(n);
    hide EscapedChar, Four;
    FourRead(n, n / 262144, n / 4096 % 64, n / 64 % 64, n % 64, rest);
  }

  lemma EscapesRead(c: char, rest: string)
    ensures
      var read := EscapedChar(Escapes(c) + rest);
      read.Some? && read.value.0 == c && 3 * read.value.1 == |Escapes(c)| && (Escapes(c) + rest)[|Escapes(c)|..] == rest
  {
    var n := c as nat;
    if n < 0x80 {
      OctetOf(n, rest);
    } else if n < 0x800 {
      TwoOctets(n, rest);
    } else if n < 0x1_0000 {
      ThreeOctets(n, rest);
    } else {
      FourOctets(n, rest);
    }
  }

  lemma {:induction false} PercentRoundTrip(s: string, quoted: char -> bool)
    ensures PercentDecoded(PercentEncoded(s, quoted)) == Some(s)
  {
    if s != [] {
      PercentRoundTrip(s[1..], quoted);
      var rest := PercentEncoded(s[1..], quoted);
      if s[0] == '%' || quoted(s[0]) {
        EscapesRead(s[0], rest);
        assert PercentEncoded(s, quoted) == Escapes(s[0]) + rest;
      } else {
        assert PercentEncoded(s, quoted) == [s[0]] + rest;
        assert ([s[0]] + rest)[1..] == rest;
      }
      assert [s[0]] + s[1..] == s;
    }
  }

  /** `token` with only its tildes escaped. */
  function TildesEscaped(token: string): string {
    if token == [] then [] else TildeEscapedOne(token[0]) + TildesEscaped(token[1..])
  }

  function TildeEscapedOne(c: char): string {
    if c == '~' then ['~', '0'] else [c]
  }

  lemma ReplacedCons(c: char, s: string, d: char, with: char)
    requires c != '~' || s == [] || s[0] != d
    ensures Replaced([c] + s, d, with) == [c] + Replaced(s, d, with)
  {
    if s != [] {
      assert ([c] + s)[1..] == s;
    }
  }

  lemma ReplacedPair(d: char, s: string, with: char)
    ensures Replaced(['~', d] + s, d, with) == [with] + Replaced(s, d, with)
  {
    assert (['~', d] + s)[2..] == s;
  }

  /** The first pass over one escaped character. */
  lemma SlashBack(c: char, rest: string)
    ensures Replaced(EscapedOne(c) + rest, '1', '/') == TildeEscapedOne(c) + Replaced(rest, '1', '/')
  {
    if c == '~' {
      assert ['~', '0'] + rest == ['~'] + (['0'] + rest);
      ReplacedCons('0', rest, '1', '/');
      ReplacedCons('~', ['0'] + rest, '1', '/');
    } else if c == '/' {
      ReplacedPair('1', rest, '/');
    } else {
      ReplacedCons(c, rest, '1', '/');
    }
  }

  lemma {:induction false} SlashesBack(token: string)
    ensures Replaced(Escaped(token), '1', '/') == TildesEscaped(token)
  {
    if token != [] {
      SlashesBack(token[1..]);
      SlashBack(token[0], Escaped(token[1..]));
    }
  }

  lemma {:induction false} TildesBack(token: string)
    ensures Replaced(TildesEscaped(token), '0', '~') == token
  {
    if token != [] {
      var rest := TildesEscaped(token[1..]);
      TildesBack(token[1..]);
      if token[0] == '~' {
        ReplacedPair('0', rest, '~');
      } else {
        ReplacedCons(token[0], rest, '0', '~');
      }
      assert [token[0]] + token[1..] == token;
    }
  }

  /** A segment reads back as the token it spells, whatever was percent-encoded. */
  lemma TokenRoundTrip(token: string, quoted: char -> bool)
    ensures Token(Segment(token, quoted)) == Some(token)
  {
    PercentRoundTrip(Escaped(token), quoted);
    SlashesBack(token);
    TildesBack(token);
  }

  lemma {:induction false} EscapedHasNoSlash(token: string)
    ensures '/' !in Escaped(token)
  {
    if token != [] {
      EscapedHasNoSlash(token[1..]);
    }
  }

  lemma EscapeHasNoSlash(octet: nat)
    requires octet < 256
    ensures '/' !in Escape(octet)
  {}

  lemma EscapesHaveNoSlash(c: char)
    ensures '/' !in Escapes(c)
  {
    forall octet: nat | octet < 256 ensures '/' !in Escape(octet) {
      EscapeHasNoSlash(octet);
    }
    hide Escape;
  }

  lemma {:induction false} EncodedHasNoSlash(s: string, quoted: char -> bool)
    requires '/' !in s
    ensures '/' !in PercentEncoded(s, quoted)
  {
    if s != [] {
      EncodedHasNoSlash(s[1..], quoted);
      EscapesHaveNoSlash(s[0]);
      hide Escapes;
      assert s[0] in s;
    }
  }

  lemma {:induction false} SegmentsHaveNoSlash(path: seq<string>, quoted: char -> bool)
    ensures forall p :: p in Segments(path, quoted) ==> '/' !in p
  {
    if path != [] {
      SegmentsHaveNoSlash(path[1..], quoted);
      EscapedHasNoSlash(path[0]);
      EncodedHasNoSlash(Escaped(path[0]), quoted);
    }
  }

  lemma {:induction false} WalkSpells(doc: Doc, n: Id, path: seq<string>, quoted: char -> bool)
    ensures Walk(doc, n, Segments(path, quoted)) == At(doc, n, path)
    decreases |path|
  {
    if path != [] {
      TokenRoundTrip(path[0], quoted);
      var child := Child(doc, n, path[0]);
      if child.Some? {
        WalkSpells(doc, child.value, path[1..], quoted);
      }
    }
  }

  lemma PointerTo(doc: Doc, segments: seq<string>)
    requires segments != [] && forall p :: p in segments ==> '/' !in p
    ensures
      var ref := "#/" + Join(segments, '/');
      Pointer(doc, ref) == if Units(ref) <= MAX_REF_LENGTH
          && |segments| <= MAX_SEGMENTS then Walk(doc, doc.root, segments) else None
  {
    var joined := Join(segments, '/');
    SplitJoin(segments, '/');
    assert ("#/" + joined)[2..] == joined && "#/" <= "#/" + joined && |"#/" + joined| >= 2;
    hide Join, Split, Units, Walk;
  }

  /** Within the bounds a spelled path names exactly the value at that path, and beyond
      them it names nothing. */
  lemma PointerRoundTrip(doc: Doc, path: seq<string>, quoted: char -> bool)
    ensures Pointer(doc, Spelled(path, quoted))
         == if Units(Spelled(path, quoted)) <= MAX_REF_LENGTH && |path| <= MAX_SEGMENTS then At(doc, doc.root, path)
             else None
  {
    if path == [] {
      assert Units("#") == 1;
    } else {
      SegmentsHaveNoSlash(path, quoted);
      WalkSpells(doc, doc.root, path, quoted);
      PointerTo(doc, Segments(path, quoted));
      hide Pointer, Join, Units, Walk, At, Segments;
    }
  }

  lemma {:induction false} NumberSnoc(s: string, c: char)
    requires (forall i :: 0 <= i < |s| ==> IsDigit(s[i])) && IsDigit(c)
    ensures forall i :: 0 <= i < |s + [c]| ==> IsDigit((s + [c])[i])
    ensures Number(s + [c]) == Number(s) * 10 + (c as nat - '0' as nat)
  {
    assert (s + [c])[..|s|] == s;
  }

  lemma {:induction false} DigitsRead(n: nat)
    ensures forall i :: 0 <= i < |Digits(n)| ==> IsDigit(Digits(n)[i])
    ensures Number(Digits(n)) == n
    ensures n > 0 ==> Digits(n) != [] && Digits(n)[0] != '0'
  {
    if n > 0 {
      DigitsRead(n / 10);
      NumberSnoc(Digits(n / 10), ('0' as nat + n % 10) as char);
    }
  }

  /** An index written in decimal names that element of the array, and nothing past its end. */
  lemma IndexRoundTrip(doc: Doc, n: Id, i: nat)
    requires n in doc.nodes && doc.nodes[n].Arr?
    ensures Child(doc, n, Decimal(i)) == if i < |doc.nodes[n].items| then Some(doc.nodes[n].items[i]) else None
  {
    DigitsRead(i);
    assert "0" == [] + ['0'];
    NumberSnoc([], '0');
  }

  lemma {:induction false} ZeroOnlyAlone(s: string)
    requires s != [] && s[0] != '0' && forall i :: 0 <= i < |s| ==> IsDigit(s[i])
    ensures Number(s) > 0 && Digits(Number(s)) == s
  {
    var front, last := s[..|s| - 1], s[|s| - 1];
    assert s == front + [last];
    if front == [] {
      assert Digits(0) == [];
    } else {
      ZeroOnlyAlone(front);
    }
    assert Number(s) / 10 == Number(front) && Number(s) % 10 == last as nat - '0' as nat;
  }

  /** RFC 6901, section 4: an index has one spelling only. */
  lemma IndexIsCanonical(s: string)
    requires IsIndex(s)
    ensures s == Decimal(Number(s))
  {
    if s == "0" {
      assert "0" == [] + ['0'];
      NumberSnoc([], '0');
    } else {
      ZeroOnlyAlone(s);
    }
  }

  /* ── What evaluation returns ───────────────────────────────────────────── */

  lemma {:induction false} WalkIsAPath(doc: Doc, n: Id, segments: seq<string>) returns (path: seq<string>)
    requires Walk(doc, n, segments).Some?
    ensures |path| == |segments| && At(doc, n, path) == Walk(doc, n, segments)
    decreases |segments|
  {
    if segments == [] {
      path := [];
    } else {
      var token := Token(segments[0]).value;
      var rest := WalkIsAPath(doc, Child(doc, n, token).value, segments[1..]);
      path := [token] + rest;
    }
  }

  /** Whatever a reference names is a value inside the document, at most as deep as the bound. */
  lemma PointsInside(doc: Doc, ref: string) returns (path: seq<string>)
    requires Pointer(doc, ref).Some?
    ensures |path| <= MAX_SEGMENTS && At(doc, doc.root, path) == Pointer(doc, ref)
  {
    if ref == "#" {
      path := [];
    } else {
      path := WalkIsAPath(doc, doc.root, Split(ref[2..], '/'));
    }
  }

  lemma {:induction false} AtStaysInside(doc: Doc, n: Id, path: seq<string>)
    requires Closed(doc) && n in doc.nodes && At(doc, n, path).Some?
    ensures At(doc, n, path).value in doc.nodes
    decreases |path|
  {
    if path != [] {
      AtStaysInside(doc, Child(doc, n, path[0]).value, path[1..]);
    }
  }
}
