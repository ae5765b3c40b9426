/** HTML escaping in five passes, and its size in UTF-8. */
module Html {
  import opened Wrappers

  /** Every occurrence of `c` replaced by `with`. */
  function Replace(s: string, c: char, with: string): string {
    if s == [] then [] else (if s[0] == c then with else [s[0]]) + Replace(s[1..], c, with)
  }

  /** The five replacements, one after the other. */
  function Escape(s: string): string {
    FromLess(Replace(s, '&', "&amp;"))
  }

  function FromLess(s: string): string {
    FromGreater(Replace(s, '<', "&lt;"))
  }

  function FromGreater(s: string): string {
    FromDouble(Replace(s, '>', "&gt;"))
  }

  function FromDouble(s: string): string {
    FromSingle(Replace(s, '"', "&quot;"))
  }

  function FromSingle(s: string): string {
    Replace(s, '\'', "&#39;")
  }

  function EscapedChar(c: char): string {
    match c
    case '&' => "&amp;"
    case '<' => "&lt;"
    case '>' => "&gt;"
    case '"' => "&quot;"
    case '\'' => "&#39;"
    case _ => [c]
  }

  function EachEscaped(s: string): string {
    if s == [] then [] else EscapedChar(s[0]) + EachEscaped(s[1..])
  }

  lemma {:induction false} ReplaceAppend(a: string, b: string, c: char, with: string)
    ensures Replace(a + b, c, with) == Replace(a, c, with) + Replace(b, c, with)
  {
    if a == [] {
      assert a + b == b;
    } else {
      ReplaceAppend(a[1..], b, c, with);
      assert (a + b)[1..] == a[1..] + b && (a + b)[0] == a[0];
      Regroup(if a[0] == c then with else [a[0]], Replace(a[1..], c, with), Replace(b, c, with));
    }
  }

  lemma {:induction false} ReplaceNothing(s: string, c: char, with: string)
    requires c !in s
    ensures Replace(s, c, with) == s
  {
    if s != [] {
      ReplaceNothing(s[1..], c, with);
      assert [s[0]] + s[1..] == s;
    }
  }

  lemma ReplaceOne(c: char, d: char, with: string)
    ensures Replace([c], d, with) == if c == d then with else [c]
  {
    assert [c][1..] == [];
  }

  /** What an earlier pass wrote goes through the later ones unchanged. */
  lemma DoubleLeaves(s: string)
    requires '"' !in s && '\'' !in s
    ensures FromDouble(s) == s
  {
    ReplaceNothing(s, '"', "&quot;");
    ReplaceNothing(s, '\'', "&#39;");
  }

  lemma GreaterLeaves(s: string)
    requires '>' !in s && '"' !in s && '\'' !in s
    ensures FromGreater(s) == s
  {
    ReplaceNothing(s, '>', "&gt;");
    DoubleLeaves(s);
  }

  lemma LessLeaves(s: string)
    requires '<' !in s && '>' !in s && '"' !in s && '\'' !in s
    ensures FromLess(s) == s
  {
    ReplaceNothing(s, '<', "&lt;");
    GreaterLeaves(s);
  }

  lemma QuoteOne(c: char)
    requires c == '"' || c == '\''
    ensures FromDouble([c]) == EscapedChar(c)
  {
    ReplaceOne(c, '"', "&quot;");
    if c == '"' {
      hide Replace;
      SingleLeaves("&quot;");
    } else {
      hide Replace;
      ReplaceOne(c, '\'', "&#39;");
    }
  }

  lemma SingleLeaves(s: string)
    requires '\'' !in s
    ensures FromSingle(s) == s
  {
    ReplaceNothing(s, '\'', "&#39;");
  }

  /** One character through all five passes. */
  lemma EscapeOne(c: char)
    ensures Escape([c]) == EscapedChar(c)
  {
    ReplaceOne(c, '&', "&amp;");
    ReplaceOne(c, '<', "&lt;");
    ReplaceOne(c, '>', "&gt;");
    if c == '&' {
      LessLeaves("&amp;");
    } else if c == '<' {
      GreaterLeaves("&lt;");
    } else if c == '>' {
      DoubleLeaves("&gt;");
    } else if c == '"' || c == '\'' {
      QuoteOne(c);
    } else {
      LessLeaves([c]);
    }
  }

  lemma EscapeAppend(a: string, b: string)
    ensures Escape(a + b) == Escape(a) + Escape(b)
  {
    var a1, b1 := Replace(a, '&', "&amp;"), Replace(b, '&', "&amp;");
    var a2, b2 := Replace(a1, '<', "&lt;"), Replace(b1, '<', "&lt;");
    var a3, b3 := Replace(a2, '>', "&gt;"), Replace(b2, '>', "&gt;");
    ReplaceAppend(a, b, '&', "&amp;");
    ReplaceAppend(a1, b1, '<', "&lt;");
    ReplaceAppend(a2, b2, '>', "&gt;");
    ReplaceAppend(a3, b3, '"', "&quot;");
    ReplaceAppend(Replace(a3, '"', "&quot;"), Replace(b3, '"', "&quot;"), '\'', "&#39;");
  }

  /** The five passes are one pass that rewrites each character on its own: no pass
      touches what an earlier one wrote. */
  lemma {:induction false} EscapeIsPerCharacter(s: string)
    ensures Escape(s) == EachEscaped(s)
  {
    if s != [] {
      EscapeIsPerCharacter(s[1..]);
      EscapeOne(s[0]);
      EscapeAppend([s[0]], s[1..]);
      assert [s[0]] + s[1..] == s;
    }
  }

  /* ── Sizes ─────────────────────────────────────────────────────────────── */

  function CharBytes(c: char): nat {
    if c as int < 0x80 then 1 else if c as int < 0x800 then 2 else if c as int < 0x1_0000 then 3 else 4
  }

  /** The UTF-8 size of a text. */
  function Bytes(s: string): nat {
    if s == [] then 0 else CharBytes(s[0]) + Bytes(s[1..])
  }

  lemma {:induction false} BytesAppend(a: string, b: string)
    ensures Bytes(a + b) == Bytes(a) + Bytes(b)
  {
    if a == [] {
      assert a + b == b;
    } else {
      BytesAppend(a[1..], b);
      assert (a + b)[1..] == a[1..] + b && (a + b)[0] == a[0];
    }
  }

  lemma {:induction false} PlainBytes(s: string)
    requires forall i :: 0 <= i < |s| ==> CharBytes(s[i]) == 1
    ensures Bytes(s) == |s|
  {
    if s != [] {
      PlainBytes(s[1..]);
    }
  }

  lemma OneGrows(c: char)
    ensures CharBytes(c) <= Bytes(EscapedChar(c))
  {
    if EscapedChar(c) == [c] {
      assert Bytes([c]) == CharBytes(c) by { assert [c][1..] == []; }
    } else {
      PlainBytes(EscapedChar(c));
    }
  }

  /** Escaping never makes a text smaller. */
  lemma {:induction false} EscapeGrows(s: string)
    ensures Bytes(s) <= Bytes(EachEscaped(s))
  {
    if s != [] {
      EscapeGrows(s[1..]);
      BytesAppend(EscapedChar(s[0]), EachEscaped(s[1..]));
      OneGrows(s[0]);
    }
  }

  function Repeated(n: nat): string {
    seq(n, _ => 'x')
  }

  lemma {:induction false} RepeatedIsInert(n: nat)
    ensures EachEscaped(Repeated(n)) == Repeated(n) && Bytes(Repeated(n)) == n
  {
    if n > 0 {
      RepeatedIsInert(n - 1);
      assert Repeated(n)[1..] == Repeated(n - 1);
      assert Repeated(n) == ['x'] + Repeated(n - 1);
    }
  }
}
