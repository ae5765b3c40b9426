/** The group names of an API on a consumer, the rewrites the workflow makes of a
    consumer's group list, and what they mean as the groups of the saga. */
module AclGroups {
  import opened Wrappers
  import opened AccessRows
  import opened AccessSaga

  function ApprovedGroup(api: string): string {
    "nexus:api:" + api + ":approved"
  }

  function AllToolsGroup(api: string): string {
    "nexus:api:" + api + ":mcp:all"
  }

  function ToolPrefix(api: string): string {
    "nexus:api:" + api + ":mcp:tool:"
  }

  predicate IsMcpGroup(group: string, api: string) {
    group == AllToolsGroup(api) || ToolPrefix(api) <= group
  }

  /** The names the workflow treats as this API's. */
  predicate IsOurs(group: string, api: string) {
    group == ApprovedGroup(api) || IsMcpGroup(group, api)
  }

  function Others(groups: seq<string>, api: string): seq<string> {
    if groups == [] then []
    else (if IsOurs(groups[0], api) then [] else [groups[0]]) + Others(groups[1..], api)
  }

  /** Tool ids as the gateway spells them. */
  function ToolGroups(api: string, tools: Option<seq<string>>): seq<string> {
    match tools
    case None => [AllToolsGroup(api)]
    case Some(ids) => seq(|ids|, i requires 0 <= i < |ids| => ToolPrefix(api) + ids[i])
  }

  /* ── The rewrites ──────────────────────────────────────────────────────── */

  /** An approval: the API's groups replaced by the grant's. */
  function Added(groups: seq<string>, api: string, tools: Option<seq<string>>): seq<string> {
    Others(groups, api) + [ApprovedGroup(api)] + ToolGroups(api, tools)
  }

  /** A removal: every group of the API off. */
  function Removed(groups: seq<string>, api: string): seq<string> {
    Others(groups, api)
  }

  function Without(groups: seq<string>, off: seq<string>): seq<string> {
    if groups == [] then [] else (if groups[0] in off then [] else [groups[0]]) + Without(groups[1..], off)
  }

  /** A compensation: only the tool groups of `ids` off. */
  function Stripped(groups: seq<string>, api: string, ids: seq<string>): seq<string> {
    Without(groups, ToolGroups(api, Some(ids)))
  }

  function KeptOf(groups: seq<string>, api: string, canonical: seq<string>): seq<string> {
    if groups == [] then []
    else
      (if !IsOurs(groups[0], api) || groups[0] in canonical then [groups[0]] else [])
      + KeptOf(groups[1..], api, canonical)
  }

  /** Recovery: the API's groups cut back to the grant's, and completed for an active account. */
  function Reconciliation(groups: seq<string>, api: string, live: Option<Option<seq<string>>>,
      accountActive: bool): seq<string> {
    var canonical := if live.Some? then [ApprovedGroup(api)] + ToolGroups(api, live.value) else [];
    var kept := KeptOf(groups, api, canonical);
    kept + if accountActive then Without(canonical, kept) else []
  }

  /* ── Groups of other APIs ──────────────────────────────────────────────── */

  lemma {:induction false} OthersAppend(a: seq<string>, b: seq<string>, api: string)
    ensures Others(a + b, api) == Others(a, api) + Others(b, api)
  {
    if a == [] {
      assert a + b == b;
    } else {
      OthersAppend(a[1..], b, api);
      assert (a + b)[1..] == a[1..] + b && (a + b)[0] == a[0];
      Regroup(if IsOurs(a[0], api) then [] else [a[0]], Others(a[1..], api), Others(b, api));
    }
  }

  lemma OthersCons(group: string, rest: seq<string>, api: string)
    ensures Others([group] + rest, api) == (if IsOurs(group, api) then [] else [group]) + Others(rest, api)
  {
    assert ([group] + rest)[1..] == rest;
  }

  lemma {:induction false} OthersOfOurs(groups: seq<string>, api: string)
    requires forall g :: g in groups ==> IsOurs(g, api)
    ensures Others(groups, api) == []
  {
    if groups != [] {
      OthersOfOurs(groups[1..], api);
    }
  }

  lemma {:induction false} OthersTwice(groups: seq<string>, api: string)
    ensures Others(Others(groups, api), api) == Others(groups, api)
  {
    if groups != [] {
      OthersTwice(groups[1..], api);
      var rest := Others(groups[1..], api);
      OthersCons(groups[0], rest, api);
      assert [] + rest == rest;
    }
  }

  lemma {:induction false} OthersWithout(groups: seq<string>, off: seq<string>, api: string)
    requires forall g :: g in off ==> IsOurs(g, api)
    ensures Others(Without(groups, off), api) == Others(groups, api)
  {
    if groups != [] {
      OthersWithout(groups[1..], off, api);
      OthersCons(groups[0], Without(groups[1..], off), api);
      assert [] + Without(groups[1..], off) == Without(groups[1..], off);
    }
  }

  lemma {:induction false} OthersKept(groups: seq<string>, api: string, canonical: seq<string>)
    ensures Others(KeptOf(groups, api, canonical), api) == Others(groups, api)
  {
    if groups != [] {
      OthersKept(groups[1..], api, canonical);
      OthersCons(groups[0], KeptOf(groups[1..], api, canonical), api);
      assert [] + KeptOf(groups[1..], api, canonical) == KeptOf(groups[1..], api, canonical);
    }
  }

  lemma ToolGroupsAreOurs(api: string, tools: Option<seq<string>>)
    ensures forall g :: g in ToolGroups(api, tools) ==> IsMcpGroup(g, api)
  {}

  lemma {:induction false} WithoutIsWithin(groups: seq<string>, off: seq<string>)
    ensures forall g :: g in Without(groups, off) <==> g in groups && g !in off
  {
    if groups != [] {
      WithoutIsWithin(groups[1..], off);
    }
  }

  /** No rewrite changes any group that is not this API's: the rest of the list stays as
      it was, in order. */
  lemma RewritesSpareOthers(groups: seq<string>, api: string, tools: Option<seq<string>>, ids: seq<string>,
                            live: Option<Option<seq<string>>>, accountActive: bool)
    ensures Others(Added(groups, api, tools), api) == Others(groups, api)
    ensures Others(Removed(groups, api), api) == Others(groups, api)
    ensures Others(Stripped(groups, api, ids), api) == Others(groups, api)
    ensures Others(Reconciliation(groups, api, live, accountActive), api) == Others(groups, api)
  {
    AddedSparesOthers(groups, api, tools);
    OthersTwice(groups, api);
    ToolGroupsAreOurs(api, Some(ids));
    OthersWithout(groups, ToolGroups(api, Some(ids)), api);
    ReconciliationSparesOthers(groups, api, live, accountActive);
  }

  lemma AddedSparesOthers(groups: seq<string>, api: string, tools: Option<seq<string>>)
    ensures Others(Added(groups, api, tools), api) == Others(groups, api)
  {
    var ours := [ApprovedGroup(api)] + ToolGroups(api, tools);
    ToolGroupsAreOurs(api, tools);
    OthersTwice(groups, api);
    OthersAppend(Others(groups, api), ours, api);
    OthersOfOurs(ours, api);
    assert Added(groups, api, tools) == Others(groups, api) + ours;
  }

  lemma ReconciliationSparesOthers(groups: seq<string>, api: string, live: Option<Option<seq<string>>>,
      accountActive: bool)
    ensures Others(Reconciliation(groups, api, live, accountActive), api) == Others(groups, api)
  {
    var canonical := if live.Some? then [ApprovedGroup(api)] + ToolGroups(api, live.value) else [];
    if live.Some? {
      ToolGroupsAreOurs(api, live.value);
    }
    var kept := KeptOf(groups, api, canonical);
    var back := if accountActive then Without(canonical, kept) else [];
    WithoutIsWithin(canonical, kept);
    OthersKept(groups, api, canonical);
    OthersAppend(kept, back, api);
    OthersOfOurs(back, api);
  }

  /** An id without a colon never names another id's groups, so groups of other APIs are
      among the ones every rewrite spares. */
  lemma OtherApisAreOthers(api: string, other: string, tool: string)
    requires ':' !in api && ':' !in other && api != other
    ensures !IsOurs(ApprovedGroup(other), api) && !IsOurs(AllToolsGroup(other), api)
            && !IsOurs(ToolPrefix(other) + tool, api)
  {
    if IsOurs(ApprovedGroup(other), api) {
      NamesItsApi(ApprovedGroup(other), api, other, "approved");
    }
    if IsOurs(AllToolsGroup(other), api) {
      NamesItsApi(AllToolsGroup(other), api, other, "mcp:all");
    }
    if IsOurs(ToolPrefix(other) + tool, api) {
      NamesItsApi(ToolPrefix(other) + tool, api, other, "mcp:tool:" + tool);
    }
  }

  lemma NamesItsApi(group: string, api: string, other: string, tail: string)
    requires ':' !in api && ':' !in other
    requires IsOurs(group, api) && group == "nexus:api:" + other + ":" + tail
    ensures api == other
  {
    if group == ApprovedGroup(api) {
      assert group == "nexus:api:" + api + ":" + "approved";
      SameIdSameGroup(other, tail, api, "approved");
    } else if group == AllToolsGroup(api) {
      assert group == "nexus:api:" + api + ":" + "mcp:all";
      SameIdSameGroup(other, tail, api, "mcp:all");
    } else {
      var rest := "mcp:tool:" + group[|ToolPrefix(api)|..];
      assert group == ToolPrefix(api) + group[|ToolPrefix(api)|..];
      assert group == "nexus:api:" + api + ":" + rest;
      SameIdSameGroup(other, tail, api, rest);
    }
  }

  lemma SameIdSameGroup(a: string, x: string, b: string, y: string)
    requires ':' !in a && ':' !in b
    requires "nexus:api:" + a + ":" + x == "nexus:api:" + b + ":" + y
    ensures a == b
  {
    var s, t := "nexus:api:" + a + ":" + x, "nexus:api:" + b + ":" + y;
    assert s[10 + |a|] == ':' && t[10 + |b|] == ':';
    assert a == s[10..10 + |a|] && b == t[10..10 + |b|];
  }

  /* ── What the rewrites mean ────────────────────────────────────────────── */

  /** How a group of the saga is spelled, when tool ids are spelled by `spell`. */
  function Text(api: string, spell: Id -> string, g: Group): string {
    match g
    case Rest => ApprovedGroup(api)
    case McpAll => AllToolsGroup(api)
    case McpTool(id) => ToolPrefix(api) + spell(id)
  }

  /** Whether a group list means the set `meant` of the saga's groups. */
  ghost predicate Means(groups: seq<string>, api: string, spell: Id -> string, meant: set<Group>) {
    forall g :: g in meant <==> Text(api, spell, g) in groups
  }

  ghost predicate Injective(spell: Id -> string) {
    forall a: Id, b: Id :: spell(a) == spell(b) ==> a == b
  }

  function Spelled(spell: Id -> string, ids: seq<Id>): seq<string> {
    seq(|ids|, i requires 0 <= i < |ids| => spell(ids[i]))
  }

  function SpelledSubset(spell: Id -> string, tools: Subset): Option<seq<string>> {
    if tools.None? then None else Some(Spelled(spell, tools.value))
  }

  lemma TextIsInjective(api: string, spell: Id -> string, a: Group, b: Group)
    requires Injective(spell) && Text(api, spell, a) == Text(api, spell, b)
    ensures a == b
  {
    var n := |"nexus:api:" + api|;
    assert Text(api, spell, a)[n + 1] == if a.Rest? then 'a' else 'm';
    assert Text(api, spell, b)[n + 1] == if b.Rest? then 'a' else 'm';
    if !a.Rest? {
      assert Text(api, spell, a)[n + 5] == if a.McpAll? then 'a' else 't';
      assert Text(api, spell, b)[n + 5] == if b.McpAll? then 'a' else 't';
      if a.McpTool? {
        assert spell(a.id) == Text(api, spell, a)[|ToolPrefix(api)|..];
        assert spell(b.id) == Text(api, spell, b)[|ToolPrefix(api)|..];
      }
    }
  }

  lemma TextIsOurs(api: string, spell: Id -> string, g: Group)
    ensures IsOurs(Text(api, spell, g), api)
  {}

  /** The list an approval writes for a subset means exactly the groups that subset covers. */
  lemma CanonicalMeans(api: string, spell: Id -> string, tools: Subset)
    requires Injective(spell)
    ensures Means([ApprovedGroup(api)] + ToolGroups(api, SpelledSubset(spell, tools)), api, spell, Covers(tools))
  {
    var canonical := [ApprovedGroup(api)] + ToolGroups(api, SpelledSubset(spell, tools));
    forall g ensures g in Covers(tools) <==> Text(api, spell, g) in canonical {
      if g in Covers(tools) {
        CoveredIsWritten(api, spell, tools, g);
      }
      if Text(api, spell, g) in canonical {
        var i :| 0 <= i < |canonical| && canonical[i] == Text(api, spell, g);
        var h := if i == 0 then Rest else if tools.None? then McpAll else McpTool(tools.value[i - 1]);
        assert h in Covers(tools) && canonical[i] == Text(api, spell, h);
        TextIsInjective(api, spell, g, h);
      }
    }
  }

  lemma CoveredIsWritten(api: string, spell: Id -> string, tools: Subset, g: Group)
    requires g in Covers(tools)
    ensures Text(api, spell, g) in [ApprovedGroup(api)] + ToolGroups(api, SpelledSubset(spell, tools))
  {
    var canonical := [ApprovedGroup(api)] + ToolGroups(api, SpelledSubset(spell, tools));
    match g {
      case Rest => assert canonical[0] == ApprovedGroup(api);
      case McpAll => assert canonical[1] == AllToolsGroup(api);
      case McpTool(id) =>
        var i :| 0 <= i < |tools.value| && tools.value[i] == id;
        assert canonical[i + 1] == Text(api, spell, g);
    }
  }

  lemma {:induction false} OthersHaveNoneOfOurs(groups: seq<string>, api: string)
    ensures forall g :: g in Others(groups, api) ==> !IsOurs(g, api)
  {
    if groups != [] {
      OthersHaveNoneOfOurs(groups[1..], api);
    }
  }

  lemma {:induction false} KeptIsWithin(groups: seq<string>, api: string, canonical: seq<string>)
    ensures forall g :: g in KeptOf(groups, api, canonical) <==> g in groups && (!IsOurs(g, api) || g in canonical)
  {
    if groups != [] {
      KeptIsWithin(groups[1..], api, canonical);
    }
  }

  /** An approval's rewrite means what the saga's approval writes. */
  lemma AddedMeans(groups: seq<string>, api: string, spell: Id -> string, tools: Subset)
    requires Injective(spell)
    ensures Means(Added(groups, api, SpelledSubset(spell, tools)), api, spell, Covers(tools))
  {
    CanonicalMeans(api, spell, tools);
    OthersHaveNoneOfOurs(groups, api);
    var canonical := [ApprovedGroup(api)] + ToolGroups(api, SpelledSubset(spell, tools));
    assert Added(groups, api, SpelledSubset(spell, tools)) == Others(groups, api) + canonical;
    forall g ensures Text(api, spell, g) in Others(groups, api) + canonical <==> Text(api, spell, g) in canonical {
      TextIsOurs(api, spell, g);
    }
  }

  /** A removal's rewrite leaves none of the API's groups. */
  lemma RemovedMeans(groups: seq<string>, api: string, spell: Id -> string)
    ensures Means(Removed(groups, api), api, spell, {})
  {
    OthersHaveNoneOfOurs(groups, api);
    forall g ensures Text(api, spell, g) !in Removed(groups, api) {
      TextIsOurs(api, spell, g);
    }
  }

  /** A compensation's rewrite takes off exactly the tools it names. */
  lemma StrippedMeans(groups: seq<string>, api: string, spell: Id -> string, ids: seq<Id>, meant: set<Group>)
    requires Injective(spell) && Means(groups, api, spell, meant)
    ensures Means(Stripped(groups, api, Spelled(spell, ids)), api, spell, meant - set id | id in ids :: McpTool(id))
  {
    var off := ToolGroups(api, Some(Spelled(spell, ids)));
    var gone := set id | id in ids :: McpTool(id);
    WithoutIsWithin(groups, off);
    forall g ensures Text(api, spell, g) in off <==> g in gone {
      if Text(api, spell, g) in off {
        var i :| 0 <= i < |off| && off[i] == Text(api, spell, g);
        assert off[i] == Text(api, spell, McpTool(ids[i]));
        TextIsInjective(api, spell, g, McpTool(ids[i]));
      }
      if g in gone {
        var i :| 0 <= i < |ids| && ids[i] == g.id;
        assert off[i] == Text(api, spell, g);
      }
    }
  }

  /** Recovery's rewrite means what the saga's recovery writes. */
  lemma ReconciliationMeans(groups: seq<string>, api: string, spell: Id -> string, live: Option<Grant>,
      accountActive: bool, meant: set<Group>)
    requires Injective(spell) && Means(groups, api, spell, meant)
    ensures
      var spelled := if live.Some? then Some(SpelledSubset(spell, live.value.tools)) else None;
      Means(Reconciliation(groups, api, spelled, accountActive), api, spell, Reconciled(meant, live, accountActive))
  {
    var spelled := if live.Some? then Some(SpelledSubset(spell, live.value.tools)) else None;
    var canonical := if live.Some? then [ApprovedGroup(api)] + ToolGroups(api, spelled.value) else [];
    if live.Some? {
      CanonicalMeans(api, spell, live.value.tools);
    }
    var kept := KeptOf(groups, api, canonical);
    KeptIsWithin(groups, api, canonical);
    WithoutIsWithin(canonical, kept);
    forall g ensures g in Reconciled(meant, live, accountActive)
                     <==> Text(api, spell, g) in Reconciliation(groups, api, spelled, accountActive)
    {
      TextIsOurs(api, spell, g);
    }
  }
}
