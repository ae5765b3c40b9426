/** A document's Reference Objects as the references that a resolver follows. */
module OpenApiRefs {
  import opened Wrappers
  import opened Json
  import opened JsonPointer
  import opened RefChains

  /* ── A document's references ───────────────────────────────────────────── */

  function RefOf(doc: Doc, n: Id): Option<string> {
    TextOf(doc, n, "$ref")
  }

  function OwnTexts(doc: Doc, n: Id): Overrides {
    Overrides(TextOf(doc, n, "summary"), TextOf(doc, n, "description"))
  }

  function HopOf(doc: Doc, ref: string): Hop<string> {
    if !("#" <= ref) then Outside
    else
      var target := Pointer(doc, ref);
      if target.None? || !IsObject(doc, target.value) then Nowhere
      else if RefOf(doc, target.value).None? then Object(target.value)
      else Onward(target.value, RefOf(doc, target.value).value)
  }

  /** Every `$ref` string of the document. */
  function Refs(doc: Doc): set<string> {
    set n | n in doc.nodes && RefOf(doc, n).Some? :: RefOf(doc, n).value
  }

  function ViewOf(doc: Doc): View<string> {
    View(r => HopOf(doc, r), (n: Id) => RefOf(doc, n), (n: Id) => OwnTexts(doc, n), Refs(doc))
  }

  /** Every chain stays among the document's own references. */
  lemma ViewIsSound(doc: Doc)
    ensures Sound(ViewOf(doc))
  {
    var view := ViewOf(doc);
    forall r | view.hop(r).Onward? ensures view.hop(r).next in view.refs {
      var target := Pointer(doc, r).value;
      assert target in doc.nodes && RefOf(doc, target).Some?;
    }
  }

  method CreateResolver(doc: Doc, siblingsApply: bool) returns (resolver: Resolver<string>)
    ensures fresh(resolver) && resolver.Valid() && resolver.view == ViewOf(doc) && resolver.siblings == siblingsApply
  {
    ViewIsSound(doc);
    resolver := new Resolver(ViewOf(doc), siblingsApply);
  }
}
