/** Expanding a server URL template with an early exit, and slugs. */
module Publishing {
  import opened Wrappers
  import opened Json

  const MAX_URL_LENGTH := 2000
  const MAX_SLUG_LENGTH := 60

  /* ── Templates ─────────────────────────────────────────────────────────── */

  predicate IsBrace(c: char) {
    c == '{' || c == '}'
  }

  predicate HasBrace(s: string) {
    exists i :: 0 <= i < |s| && IsBrace(s[i])
  }

  /** The end of the run of `s` from `i` on that holds no brace. */
  function RunEnd(s: string, i: nat): (end: nat)
    requires i <= |s|
    ensures i <= end <= |s|
    decreases |s| - i
  {
    if i < |s| && !IsBrace(s[i]) then RunEnd(s, i + 1) else i
  }

  /** The end of the variable that starts at `i`: a brace, at least one other character, a brace. */
  function VariableEnd(s: string, i: nat): Option<nat>
    requires i < |s|
  {
    var end := RunEnd(s, i + 1);
    if s[i] == '{' && end > i + 1 && end < |s| && s[end] == '}' then Some(end + 1) else None
  }

  /** The first variable from `from` on, by where it starts and ends. */
  function NextVariable(s: string, from: nat): (found: Option<(nat, nat)>)
    requires from <= |s|
    ensures found.Some? ==> from <= found.value.0 && found.value.0 + 2 < found.value.1 <= |s|
    decreases |s| - from
  {
    if from == |s| then None
    else if VariableEnd(s, from).Some? then Some((from, VariableEnd(s, from).value))
    else NextVariable(s, from + 1)
  }

  function NameOf(s: string, start: nat, end: nat): string
    requires start + 2 < end <= |s|
  {
    s[start + 1..end - 1]
  }

  /* ── Declared defaults ─────────────────────────────────────────────────── */

  /** The member `key` of a value, if that is an object which has one. */
  function MemberOf(doc: Doc, n: Id, key: string): Option<Id> {
    if Has(doc, n, key) then Some(doc.nodes[n].members[key]) else None
  }

  function TextOf(doc: Doc, n: Id): Option<string> {
    if n in doc.nodes && doc.nodes[n].Str? then Some(doc.nodes[n].text) else None
  }

  /** Whether the values an `enum` lists, if it is there, have `text` among them. */
  predicate Allows(doc: Doc, choices: Option<Id>, text: string) {
    choices.Some? ==>
      && choices.value in doc.nodes && doc.nodes[choices.value].Arr?
      && exists i ::
        0 <= i < |doc.nodes[choices.value].items| && TextOf(doc, doc.nodes[choices.value].items[i]) == Some(text)
  }

  /** The default that a server object declares for a variable, if it can be used: a text,
      and one of the values the variable may take. */
  function DefaultOf(doc: Doc, server: Id, name: string): Option<string> {
    var variables := MemberOf(doc, server, "variables");
    var variable := if variables.Some? then MemberOf(doc, variables.value, name) else None;
    var declared := if variable.Some? then MemberOf(doc, variable.value, "default") else None;
    var text := if declared.Some? then TextOf(doc, declared.value) else None;
    if text.Some? && Allows(doc, MemberOf(doc, variable.value, "enum"), text.value) then text else None
  }

  /** The URL template of a server object, trimmed, if it has one. */
  function TemplateOf(doc: Doc, server: Id, trim: string -> string): Option<string> {
    var url := MemberOf(doc, server, "url");
    var text := if url.Some? then TextOf(doc, url.value) else None;
    if text.Some? then Some(trim(text.value)) else None
  }

  /* ── Expansion ─────────────────────────────────────────────────────────── */

  /** Plain substitution of every variable from `from` on, up to the first that has no
      usable default. */
  function Substituted(s: string, from: nat, doc: Doc, server: Id): string
    requires from <= |s|
    decreases |s| - from
  {
    var next := NextVariable(s, from);
    if next.None? then s[from..]
    else
      var (start, end) := next.value;
      var value := DefaultOf(doc, server, NameOf(s, start, end));
      if value.None? then s[from..start]
      else s[from..start] + value.value + Substituted(s, end, doc, server)
  }

  lemma SubstitutedNext(s: string, from: nat, doc: Doc, server: Id, done: string)
    requires from <= |s| && NextVariable(s, from).Some?
    ensures
      var (start, end) := NextVariable(s, from).value;
      var value := DefaultOf(doc, server, NameOf(s, start, end));
      var whole := done + Substituted(s, from, doc, server);
      && Units(done + s[from..start]) == Units(done) + Units(s[from..start]) <= Units(whole)
      && (value.None? ==> whole == done + s[from..start])
      && (value.Some? ==>
            && Units(done + s[from..start] + value.value) == Units(done + s[from..start])
               + Units(value.value) <= Units(whole)
            && whole == done + s[from..start] + value.value + Substituted(s, end, doc, server))
  {
    var (start, end) := NextVariable(s, from).value;
    var value := DefaultOf(doc, server, NameOf(s, start, end));
    UnitsAppend(done, s[from..start]);
    if value.Some? {
      var upTo := done + s[from..start] + value.value;
      var rest := Substituted(s, end, doc, server);
      assert done + Substituted(s, from, doc, server) == upTo + rest;
      UnitsAppend(done + s[from..start], value.value);
      UnitsAppend(upTo, rest);
    }
  }

  /** Every variable from `from` on has a usable default. */
  predicate WellDeclared(s: string, from: nat, doc: Doc, server: Id)
    requires from <= |s|
    decreases |s| - from
  {
    var next := NextVariable(s, from);
    next.None?
    || (DefaultOf(doc, server, NameOf(s, next.value.0, next.value.1)).Some?
        && WellDeclared(s, next.value.1, doc, server))
  }

  /** The expansion, given up as soon as it is known to be too long or to meet a variable
      without a usable default. It agrees with plain substitution: when every variable is
      well declared, `tooLong` says that the whole text exceeds the limit, and otherwise the
      result is that text, or nothing when a brace is left in it. */
  method ExpandServerUrl(doc: Doc, server: Id, trim: string -> string) returns (url: Option<string>, tooLong: bool)
    ensures TemplateOf(doc, server, trim).None? ==> url.None? && !tooLong
    ensures TemplateOf(doc, server, trim).Some? ==>
              var template := TemplateOf(doc, server, trim).value;
              var whole := Substituted(template, 0, doc, server);
              && (tooLong <==> Units(whole) > MAX_URL_LENGTH)
              && (tooLong || !WellDeclared(template, 0, doc, server) ==> url.None?)
              && (!tooLong && WellDeclared(template, 0, doc, server) ==>
                  url == if HasBrace(whole) then None else Some(whole))
  {
    if TemplateOf(doc, server, trim).None? { return None, false; }
    var template := TemplateOf(doc, server, trim).value;
    var done: string, length := "", 0;
    var offset := 0;
    var next := NextVariable(template, 0);
    while next.Some?
      invariant offset <= |template| && next == NextVariable(template, offset)
      invariant length == Units(done) <= MAX_URL_LENGTH
      invariant done + Substituted(template, offset, doc, server) == Substituted(template, 0, doc, server)
      invariant WellDeclared(template, offset, doc, server) == WellDeclared(template, 0, doc, server)
      decreases |template| - offset
    {
      var (start, end) := next.value;
      SubstitutedNext(template, offset, doc, server, done);
      length := length + Units(template[offset..start]);
      if length > MAX_URL_LENGTH { return None, true; }
      done := done + template[offset..start];
      var value := DefaultOf(doc, server, NameOf(template, start, end));
      if value.None? { return None, false; }
      length := length + Units(value.value);
      if length > MAX_URL_LENGTH { return None, true; }
      done := done + value.value;
      offset := end;
      next := NextVariable(template, offset);
    }
    UnitsAppend(done, template[offset..]);
    if length + Units(template[offset..]) > MAX_URL_LENGTH { return None, true; }
    done := done + template[offset..];
    return if HasBrace(done) then None else Some(done), false;
  }

  datatype Choice = Usable(index: nat, url: string) | Oversized(index: nat) | Neither

  /** Whether a server object decides the choice: it is too long, or its URL can be used. */
  predicate Decides(doc: Doc, server: Id, trim: string -> string, usable: string -> bool) {
    var template := TemplateOf(doc, server, trim);
    template.Some? &&
    var whole := Substituted(template.value, 0, doc, server);
    Units(whole) > MAX_URL_LENGTH || (WellDeclared(template.value, 0, doc, server) && !HasBrace(whole) && usable(whole))
  }

  /** The first entry that decides, whatever comes after it. */
  method FirstUsable(doc: Doc, servers: seq<Id>, trim: string -> string, usable: string -> bool)
      returns (choice: Choice)
    ensures choice.Neither? <==> forall i :: 0 <= i < |servers| ==> !Decides(doc, servers[i], trim, usable)
    ensures !choice.Neither? ==>
              && choice.index < |servers| && Decides(doc, servers[choice.index], trim, usable)
              && (forall i :: 0 <= i < choice.index ==> !Decides(doc, servers[i], trim, usable))
              && var server := servers[choice.index];
                 var whole := Substituted(TemplateOf(doc, server, trim).value, 0, doc, server);
                 if Units(whole) > MAX_URL_LENGTH then choice.Oversized? else choice == Usable(choice.index, whole)
  {
    for index := 0 to |servers|
      invariant forall i :: 0 <= i < index ==> !Decides(doc, servers[i], trim, usable)
    {
      var url, tooLong := ExpandServerUrl(doc, servers[index], trim);
      if tooLong { return Oversized(index); }
      if url.Some? && usable(url.value) { return Usable(index, url.value); }
    }
    return Neither;
  }

  /* ── Slugs ─────────────────────────────────────────────────────────────── */

  predicate IsWordChar(c: char) {
    'a' <= c <= 'z' || '0' <= c <= '9'
  }

  predicate IsWord(s: string) {
    s != [] && forall i :: 0 <= i < |s| ==> IsWordChar(s[i])
  }

  /** Words of lower-case letters and digits, joined by single hyphens. */
  predicate IsSlugPattern(s: string) {
    forall i :: 0 <= i < |Split(s, '-')| ==> IsWord(Split(s, '-')[i])
  }

  predicate IsValidSlug(s: string) {
    |s| <= MAX_SLUG_LENGTH && IsSlugPattern(s)
  }

  function DropJunk(s: string): (rest: string)
    ensures |rest| <= |s|
    ensures s != [] && !IsWordChar(s[0]) ==> |rest| < |s|
    ensures rest == [] || IsWordChar(rest[0])
  {
    if s != [] && !IsWordChar(s[0]) then DropJunk(s[1..]) else s
  }

  /** Every run of other characters becomes one hyphen. */
  function Collapsed(s: string): string
    decreases |s|
  {
    if s == [] then []
    else if IsWordChar(s[0]) then [s[0]] + Collapsed(s[1..])
    else ['-'] + Collapsed(DropJunk(s))
  }

  function WithoutLeading(s: string): string {
    if s != [] && s[0] == '-' then WithoutLeading(s[1..]) else s
  }

  function WithoutTrailing(s: string): string {
    if s != [] && s[|s| - 1] == '-' then WithoutTrailing(s[..|s| - 1]) else s
  }

  function Truncated(s: string): string {
    if |s| <= MAX_SLUG_LENGTH then s else s[..MAX_SLUG_LENGTH]
  }

  /** The slug of a name that is already decomposed, lower-cased and free of combining marks. */
  function Slugify(name: string): string {
    WithoutTrailing(Truncated(WithoutTrailing(WithoutLeading(Collapsed(name)))))
  }

  /** Word characters and hyphens, no two hyphens in a row. */
  predicate Tidy(s: string) {
    && (forall i :: 0 <= i < |s| ==> IsWordChar(s[i]) || s[i] == '-')
    && (forall i :: 0 < i < |s| ==> s[i - 1] != '-' || s[i] != '-')
  }

  lemma {:induction false} CollapsedIsTidy(s: string)
    ensures Tidy(Collapsed(s))
    ensures s != [] && IsWordChar(s[0]) ==> Collapsed(s) != [] && Collapsed(s)[0] == s[0]
    ensures s == [] ==> Collapsed(s) == []
    decreases |s|
  {
    if s == [] {
    } else if IsWordChar(s[0]) {
      CollapsedIsTidy(s[1..]);
    } else {
      CollapsedIsTidy(DropJunk(s));
    }
  }

  lemma {:induction false} LeadingKeepsTidy(s: string)
    requires Tidy(s)
    ensures Tidy(WithoutLeading(s)) && (WithoutLeading(s) != [] ==> WithoutLeading(s)[0] != '-')
  {
    if s != [] && s[0] == '-' {
      assert Tidy(s[1..]) by {
        forall i | 0 < i < |s[1..]| ensures s[1..][i - 1] != '-' || s[1..][i] != '-' {
          assert s[1..][i] == s[i + 1];
        }
      }
      LeadingKeepsTidy(s[1..]);
    }
  }

  lemma {:induction false} TrailingKeepsTidy(s: string)
    requires Tidy(s)
    ensures Tidy(WithoutTrailing(s)) && WithoutTrailing(s) <= s
    ensures WithoutTrailing(s) != [] ==> WithoutTrailing(s)[|WithoutTrailing(s)| - 1] != '-'
  {
    if s != [] && s[|s| - 1] == '-' {
      TrailingKeepsTidy(s[..|s| - 1]);
    }
  }

  /** The pattern says the same as: not empty, tidy, and no hyphen at either end. */
  lemma {:induction false} SlugPatternMeans(s: string)
    ensures IsSlugPattern(s) <==> s != [] && Tidy(s) && s[0] != '-' && s[|s| - 1] != '-'
    decreases |s|
  {
    var pieces := Split(s, '-');
    if s == [] {
      assert pieces[0] == [];
    } else if s[0] == '-' {
      assert pieces[0] == [];
    } else {
      var rest := Split(s[1..], '-');
      assert pieces == [[s[0]] + rest[0]] + rest[1..];
      if |s| == 1 {
        assert rest == [[]] && [s[0]] + rest[0] == s;
        assert pieces[0] == s;
      } else if s[1] == '-' {
        SlugPatternMeans(s[2..]);
        SlugHyphen(s);
      } else {
        SlugPatternMeans(s[1..]);
        SlugLetter(s);
      }
    }
  }

  lemma SlugLetter(s: string)
    requires |s| > 1 && s[0] != '-' && s[1] != '-'
    ensures IsSlugPattern(s) <==> IsWordChar(s[0]) && IsSlugPattern(s[1..])
    ensures Tidy(s) <==> IsWordChar(s[0]) && Tidy(s[1..])
  {
    var pieces, rest := Split(s, '-'), Split(s[1..], '-');
    assert pieces == [[s[0]] + rest[0]] + rest[1..];
    assert rest[0] != [] by {
      assert s[1..][0] == s[1];
    }
    assert IsWord(pieces[0]) <==> IsWordChar(s[0]) && IsWord(rest[0]) by {
      assert pieces[0][0] == s[0];
      assert forall i :: 0 <= i < |rest[0]| ==> pieces[0][i + 1] == rest[0][i];
    }
    forall i | 0 < i < |rest| ensures pieces[i] == rest[i] {}
    assert |pieces| == |rest|;
    assert forall i :: 0 <= i < |s[1..]| ==> s[1..][i] == s[i + 1];
    assert Tidy(s) ==> Tidy(s[1..]) by {
      if Tidy(s) {
        forall i | 0 < i < |s[1..]| ensures s[1..][i - 1] != '-' || s[1..][i] != '-' {
          assert s[(i + 1) - 1] != '-' || s[i + 1] != '-';
        }
      }
    }
    assert IsWordChar(s[0]) && Tidy(s[1..]) ==> Tidy(s) by {
      if IsWordChar(s[0]) && Tidy(s[1..]) {
        forall i | 0 <= i < |s| ensures IsWordChar(s[i]) || s[i] == '-' {
          assert i > 0 ==> s[i] == s[1..][i - 1];
        }
        forall i | 0 < i < |s| ensures s[i - 1] != '-' || s[i] != '-' {
          assert i > 1 ==> s[i] == s[1..][i - 1] && s[i - 1] == s[1..][i - 2];
        }
      }
    }
  }

  lemma SlugHyphen(s: string)
    requires |s| > 1 && s[0] != '-' && s[1] == '-'
    ensures IsSlugPattern(s) <==> IsWordChar(s[0]) && IsSlugPattern(s[2..])
    ensures Tidy(s) <==> IsWordChar(s[0]) && Tidy(s[2..]) && (|s| > 2 ==> s[2] != '-')
  {
    var pieces, rest := Split(s, '-'), Split(s[2..], '-');
    assert s[1..][1..] == s[2..];
    assert Split(s[1..], '-') == [[]] + rest;
    assert ([[]] + rest)[0] == [] && ([[]] + rest)[1..] == rest && [s[0]] + [] == [s[0]];
    assert pieces == [[s[0]]] + rest;
    assert pieces[0] == [s[0]];
    assert pieces[0][0] == s[0];
    assert IsWord(pieces[0]) <==> IsWordChar(s[0]);
    assert forall i :: 0 <= i < |rest| ==> pieces[i + 1] == rest[i];
    assert forall i :: 0 < i < |pieces| ==> pieces[i] == rest[i - 1];
    assert forall i :: 0 <= i < |s[2..]| ==> s[2..][i] == s[i + 2];
    assert Tidy(s) ==> Tidy(s[2..]) && (|s| > 2 ==> s[2] != '-') by {
      if Tidy(s) {
        forall i | 0 < i < |s[2..]| ensures s[2..][i - 1] != '-' || s[2..][i] != '-' {
          assert s[(i + 2) - 1] != '-' || s[i + 2] != '-';
        }
        assert |s| > 2 ==> s[2 - 1] != '-' || s[2] != '-';
      }
    }
    assert IsWordChar(s[0]) && Tidy(s[2..]) && (|s| > 2 ==> s[2] != '-') ==> Tidy(s) by {
      if IsWordChar(s[0]) && Tidy(s[2..]) && (|s| > 2 ==> s[2] != '-') {
        forall i | 0 <= i < |s| ensures IsWordChar(s[i]) || s[i] == '-' {
          assert i > 1 ==> s[i] == s[2..][i - 2];
        }
        forall i | 0 < i < |s| ensures s[i - 1] != '-' || s[i] != '-' {
          assert i > 2 ==> s[i] == s[2..][i - 2] && s[i - 1] == s[2..][i - 3];
        }
      }
    }
  }

  /** A slug is empty or valid, and never longer than the limit. */
  lemma SlugifyIsValid(name: string)
    ensures Slugify(name) == "" || IsValidSlug(Slugify(name))
  {
    CollapsedIsTidy(name);
    var a := WithoutLeading(Collapsed(name));
    LeadingKeepsTidy(Collapsed(name));
    var b := WithoutTrailing(a);
    TrailingKeepsTidy(a);
    var c := Truncated(b);
    assert Tidy(c) && c <= b;
    TrailingKeepsTidy(c);
    SlugPatternMeans(Slugify(name));
  }

  lemma {:induction false} CollapsedKeeps(s: string)
    requires Tidy(s) && (s != [] ==> s[|s| - 1] != '-')
    ensures Collapsed(s) == s
    decreases |s|
  {
    if s != [] {
      var rest := s[1..];
      assert forall i :: 0 <= i < |rest| ==> rest[i] == s[i + 1];
      assert Tidy(rest) by {
        forall i | 0 < i < |rest| ensures rest[i - 1] != '-' || rest[i] != '-' {
          assert s[(i + 1) - 1] != '-' || s[i + 1] != '-';
        }
      }
      CollapsedKeeps(rest);
      if s[0] == '-' {
        assert s[1 - 1] != '-' || s[1] != '-';
        assert DropJunk(s) == rest;
      }
      assert [s[0]] + rest == s;
    }
  }

  /** A valid slug is its own slug. */
  lemma SlugifyKeepsSlugs(s: string)
    requires IsValidSlug(s)
    ensures Slugify(s) == s
  {
    SlugPatternMeans(s);
    CollapsedKeeps(s);
  }
}
