/** Recreating a gateway consumer that was lost, in a critical section that may lose its
    lease: the consumer is then kept, and a later pass finishes the repair. */
module ConsumerRepair {
  import opened Wrappers

  type Id = nat

  datatype Credential = Credential(id: Id, consumer: Id, live: bool)

  const LEASE_TTL_MS := 60_000

  /** The audit row of a repair: which credential rows it revoked, for which consumer, and when. */
  datatype Record = Record(consumer: Id, revoked: seq<Id>, resumed: bool, at: int)

  /** The portal's side of one account: its consumer row, its credential rows in listing
      order, and the repairs recorded so far. */
  datatype Portal = Portal(row: Option<Id>, credentials: seq<Credential>, records: seq<Record>)

  /** What a pass hands to the next one when the lease fence refused its relink; `readAt` is
      when it read the stale rows. */
  datatype Kept = Kept(consumer: Id, stale: seq<Id>, readAt: int)

  datatype Outcome =
    | Gone
    | Present(consumer: Id)
    | Repaired(consumer: Id, revoked: seq<Id>)
    | KeptBack(kept: Kept)
    | Threw

  /** How the store answers the pass's transaction; `undone` tells whether taking the
      recreated consumer back down succeeded. */
  datatype Fate = Commits | LeaseLost | Refused(undone: bool)

  function Ids(ids: seq<Id>): set<Id> {
    set id | id in ids
  }

  /* ── Paging ────────────────────────────────────────────────────────────── */

  function Least(a: nat, b: nat): nat {
    if a < b then a else b
  }

  function Page<T>(rows: seq<T>, offset: nat, size: nat): seq<T> {
    rows[Least(offset, |rows|)..Least(offset + size, |rows|)]
  }

  function LiveId(row: Credential, consumer: Id): seq<Id> {
    if row.consumer == consumer && row.live then [row.id] else []
  }

  function LiveIds(rows: seq<Credential>, consumer: Id): seq<Id> {
    if rows == [] then []
    else LiveId(rows[0], consumer) + LiveIds(rows[1..], consumer)
  }

  function Of(rows: seq<Credential>, consumer: Id): seq<Credential> {
    if rows == [] then [] else (if rows[0].consumer == consumer then [rows[0]] else []) + Of(rows[1..], consumer)
  }

  lemma {:induction false} LiveIdsAppend(a: seq<Credential>, b: seq<Credential>, consumer: Id)
    ensures LiveIds(a + b, consumer) == LiveIds(a, consumer) + LiveIds(b, consumer)
  {
    if a == [] {
      assert a + b == b;
    } else {
      LiveIdsAppend(a[1..], b, consumer);
      assert (a + b)[1..] == a[1..] + b && (a + b)[0] == a[0];
      Regroup(LiveId(a[0], consumer), LiveIds(a[1..], consumer), LiveIds(b, consumer));
    }
  }

  lemma {:induction false} LiveIdsOf(rows: seq<Credential>, consumer: Id)
    ensures LiveIds(Of(rows, consumer), consumer) == LiveIds(rows, consumer)
  {
    if rows != [] {
      LiveIdsOf(rows[1..], consumer);
      LiveIdsAppend(if rows[0].consumer == consumer then [rows[0]] else [], Of(rows[1..], consumer), consumer);
    }
  }

  /** The live ids of one page. */
  method LiveOnPage(page: seq<Credential>, consumer: Id) returns (ids: seq<Id>)
    requires forall i :: 0 <= i < |page| ==> page[i].consumer == consumer
    ensures ids == LiveIds(page, consumer)
  {
    ids := [];
    for i := 0 to |page|
      invariant ids == LiveIds(page[..i], consumer)
    {
      assert page[..i + 1] == page[..i] + [page[i]];
      LiveIdsAppend(page[..i], [page[i]], consumer);
      assert [page[i]][1..] == [];
      if page[i].live { ids := ids + [page[i].id]; }
    }
    assert page[..|page|] == page;
  }

  /** One more page, after the ones before it. */
  lemma PagesAppend<T>(rows: seq<T>, offset: nat, size: nat)
    ensures rows[..Least(offset + size, |rows|)] == rows[..Least(offset, |rows|)] + Page(rows, offset, size)
    ensures offset + size >= |rows| ==> rows[..Least(offset + size, |rows|)] == rows
  {}

  lemma LivePage(listed: seq<Credential>, consumer: Id, offset: nat, size: nat)
    ensures
      var page := Page(listed, offset, size);
      && LiveIds(listed[..Least(offset + size, |listed|)], consumer)
         == LiveIds(listed[..Least(offset, |listed|)], consumer) + LiveIds(page, consumer)
      && (size > 0 && (|page| == 0 || offset + |page| >= |listed|) ==>
          listed[..Least(offset + size, |listed|)] == listed)
  {
    PagesAppend(listed, offset, size);
    LiveIdsAppend(listed[..Least(offset, |listed|)], Page(listed, offset, size), consumer);
  }

  lemma {:induction false} OfIsOwn(rows: seq<Credential>, consumer: Id)
    ensures forall c :: c in Of(rows, consumer) <==> c in rows && c.consumer == consumer
  {
    if rows != [] {
      OfIsOwn(rows[1..], consumer);
    }
  }

  lemma PageIsOwn(rows: seq<Credential>, consumer: Id, offset: nat, size: nat)
    ensures
      var page := Page(Of(rows, consumer), offset, size);
      forall i :: 0 <= i < |page| ==> page[i].consumer == consumer
  {
    OfIsOwn(rows, consumer);
    var page := Page(Of(rows, consumer), offset, size);
    forall i | 0 <= i < |page| ensures page[i].consumer == consumer {
      assert page[i] in Of(rows, consumer);
    }
  }

  /** Every page of the consumer's rows, until one reaches the total. */
  method LiveCredentialIds(rows: seq<Credential>, consumer: Id, pageSize: nat) returns (ids: seq<Id>)
    requires pageSize > 0
    ensures ids == LiveIds(rows, consumer)
  {
    var listed := Of(rows, consumer);
    LiveIdsOf(rows, consumer);
    ids := [];
    assert listed[..0] == [] && LiveIds([], consumer) == [];
    hide LiveIds, Of;
    var offset := 0;
    while true
      invariant ids == LiveIds(listed[..Least(offset, |listed|)], consumer)
      decreases |listed| - offset
    {
      var page := Page(listed, offset, pageSize);
      PageIsOwn(rows, consumer, offset, pageSize);
      var more := LiveOnPage(page, consumer);
      LivePage(listed, consumer, offset, pageSize);
      ids := ids + more;
      if |page| == 0 || offset + |page| >= |listed| { return; }
      offset := offset + pageSize;
    }
  }

  /** Every id listed by a repair record of `consumer`. */
  ghost predicate Listed(records: seq<Record>, consumer: Id, id: Id) {
    exists i :: 0 <= i < |records| && records[i].consumer == consumer && id in records[i].revoked
  }

  /** Every id listed by a repair record of `consumer` stamped `from` or later. */
  ghost predicate ListedSince(records: seq<Record>, consumer: Id, id: Id, from: int) {
    exists i :: 0 <= i < |records| && records[i].consumer == consumer && id in records[i].revoked
        && records[i].at >= from
  }

  function Since(records: seq<Record>, from: int): seq<Record> {
    if records == [] then [] else (if records[0].at >= from then [records[0]] else []) + Since(records[1..], from)
  }

  lemma {:induction false} SinceAre(records: seq<Record>, from: int)
    ensures forall r :: r in Since(records, from) <==> r in records && r.at >= from
  {
    if records != [] {
      SinceAre(records[1..], from);
    }
  }

  lemma ListedSinceIs(records: seq<Record>, consumer: Id, id: Id, from: int)
    ensures Listed(Since(records, from), consumer, id) <==> ListedSince(records, consumer, id, from)
    ensures ListedSince(records, consumer, id, from) ==> Listed(records, consumer, id)
  {
    SinceAre(records, from);
    var recent := Since(records, from);
    if Listed(recent, consumer, id) {
      var i :| 0 <= i < |recent| && recent[i].consumer == consumer && id in recent[i].revoked;
      var j :| 0 <= j < |records| && records[j] == recent[i];
    }
    if ListedSince(records, consumer, id, from) {
      var i :| 0 <= i < |records| && records[i].consumer == consumer && id in records[i].revoked
        && records[i].at >= from;
      var j :| 0 <= j < |recent| && recent[j] == records[i];
    }
  }

  /** Whether repair records of `consumer` stamped `from` or later between them list every
      one of `stale`. */
  method RepairRecorded(log: seq<Record>, consumer: Id, stale: seq<Id>, from: int, pageSize: nat) returns (all: bool)
    requires pageSize > 0
    ensures all <==> forall id :: id in stale ==> ListedSince(log, consumer, id, from)
  {
    forall id ensures Listed(Since(log, from), consumer, id) <==> ListedSince(log, consumer, id, from) {
      ListedSinceIs(log, consumer, id, from);
    }
    all := AllListed(Since(log, from), consumer, stale, pageSize);
  }

  /** Page by page, until nothing is left to find. */
  method AllListed(records: seq<Record>, consumer: Id, stale: seq<Id>, pageSize: nat) returns (all: bool)
    requires pageSize > 0
    ensures all <==> forall id :: id in stale ==> Listed(records, consumer, id)
  {
    var left: set<Id> := Ids(stale);
    var offset := 0;
    while true
      invariant forall id :: id in left <==> id in stale && !Listed(records[..Least(offset, |records|)], consumer, id)
      decreases |records| - offset
    {
      var page := Page(records, offset, pageSize);
      var start := Least(offset, |records|);
      for i := 0 to |page|
        invariant forall id :: id in left <==> id in stale && !Listed(records[..start + i], consumer, id)
      {
        ListedOneMore(records, consumer, start + i);
        assert page[i] == records[start + i];
        if page[i].consumer == consumer {
          left := left - Ids(page[i].revoked);
        }
      }
      assert start + |page| == Least(offset + pageSize, |records|);
      if |left| == 0 {
        forall id | id in stale ensures Listed(records, consumer, id) {
          assert Listed(records[..start + |page|], consumer, id);
          var i :| 0 <= i < start + |page| && records[..start + |page|][i].consumer == consumer
            && id in records[..start + |page|][i].revoked;
          assert records[i].consumer == consumer;
        }
        return true;
      }
      if |page| == 0 || offset + |page| >= |records| {
        assert records[..start + |page|] == records;
        assert exists id :: id in left;
        return false;
      }
      offset := offset + pageSize;
    }
  }

  lemma ListedOneMore(records: seq<Record>, consumer: Id, k: nat)
    requires k < |records|
    ensures forall id :: Listed(records[..k + 1], consumer, id)
                         <==>
                         Listed(records[..k], consumer, id)
                         || (records[k].consumer == consumer && id in records[k].revoked)
  {
    var before, after := records[..k], records[..k + 1];
    assert after == before + [records[k]];
    forall id ensures Listed(after, consumer, id)
      <==> Listed(before, consumer, id) || (records[k].consumer == consumer && id in records[k].revoked) {
      if Listed(before, consumer, id) {
        var i :| 0 <= i < |before| && before[i].consumer == consumer && id in before[i].revoked;
        assert after[i] == before[i];
      }
      if records[k].consumer == consumer && id in records[k].revoked {
        assert after[k] == records[k];
      }
    }
  }

  /* ── The groups of an identity ─────────────────────────────────────────── */

  /** A grant: whose it is, whether it is active, the groups it covers, and whether its API
      is one of this namespace. */
  datatype GrantRow = GrantRow(user: Id, application: Option<Id>, active: bool, inNamespace: bool, groups: seq<string>)

  /** The accounts and whether they are active, the applications and their owners, the grants. */
  datatype Directory = Directory(users: map<Id, bool>, applications: map<Id, Id>, grants: seq<GrantRow>)

  /** An account's own consumer, or that of one of its applications. */
  datatype Identity = Identity(user: Id, application: Option<Id>)

  predicate IsOf(grant: GrantRow, who: Identity) {
    grant.user == who.user && grant.application == who.application && grant.active
  }

  function GrantsOf(grants: seq<GrantRow>, who: Identity): seq<GrantRow> {
    if grants == [] then [] else (if IsOf(grants[0], who) then [grants[0]] else []) + GrantsOf(grants[1..], who)
  }

  /** Whether the identity may hold anything: an active account, and an application of its own. */
  predicate MayHold(dir: Directory, who: Identity) {
    who.user in dir.users && dir.users[who.user]
    && (who.application.Some? ==>
        who.application.value in dir.applications && dir.applications[who.application.value] == who.user)
  }

  function GroupsFor(dir: Directory, who: Identity): seq<string> {
    if MayHold(dir, who) then GroupsOf(GrantsOf(dir.grants, who)) else []
  }

  function GroupsOf(grants: seq<GrantRow>): seq<string> {
    if grants == [] then [] else (if grants[0].inNamespace then grants[0].groups else []) + GroupsOf(grants[1..])
  }

  lemma {:induction false} GrantsOfAre(grants: seq<GrantRow>, who: Identity)
    ensures forall g :: g in GrantsOf(grants, who) <==> g in grants && IsOf(g, who)
  {
    if grants != [] {
      GrantsOfAre(grants[1..], who);
    }
  }

  lemma {:induction false} GroupsOfAre(grants: seq<GrantRow>, group: string)
    ensures group in GroupsOf(grants) <==> exists g :: g in grants && g.inNamespace && group in g.groups
  {
    if grants != [] {
      GroupsOfAre(grants[1..], group);
      assert grants[0] in grants;
    }
  }

  /** A group is written for an identity exactly when an active grant of that very identity,
      for an API of this namespace, covers it, and the identity may hold anything at all. */
  lemma GroupsForAre(dir: Directory, who: Identity, group: string)
    ensures group in GroupsFor(dir, who)
      <==> MayHold(dir, who) && exists g :: g in dir.grants && IsOf(g, who) && g.inNamespace && group in g.groups
  {
    GrantsOfAre(dir.grants, who);
    GroupsOfAre(GrantsOf(dir.grants, who), group);
  }

  lemma {:induction false} GroupsAppend(a: seq<GrantRow>, b: seq<GrantRow>)
    ensures GroupsOf(a + b) == GroupsOf(a) + GroupsOf(b)
  {
    if a == [] {
      assert a + b == b;
    } else {
      GroupsAppend(a[1..], b);
      assert (a + b)[1..] == a[1..] + b && (a + b)[0] == a[0];
      var head := if a[0].inNamespace then a[0].groups else [];
      Regroup(head, GroupsOf(a[1..]), GroupsOf(b));
    }
  }

  lemma GroupsOneMore(page: seq<GrantRow>, i: nat)
    requires i < |page|
    ensures GroupsOf(page[..i + 1]) == GroupsOf(page[..i]) + if page[i].inNamespace then page[i].groups else []
  {
    assert page[..i + 1] == page[..i] + [page[i]];
    GroupsAppend(page[..i], [page[i]]);
    assert GroupsOf([page[i]]) == if page[i].inNamespace then page[i].groups else [] by {
      assert [page[i]][1..] == [];
    }
  }

  /** The groups of one page of grants. */
  method GroupsOnPage(page: seq<GrantRow>) returns (groups: seq<string>)
    ensures groups == GroupsOf(page)
  {
    groups := [];
    for i := 0 to |page|
      invariant groups == GroupsOf(page[..i])
    {
      GroupsOneMore(page, i);
      if page[i].inNamespace { groups := groups + page[i].groups; }
    }
    assert page[..|page|] == page;
  }

  /** The groups to recreate a consumer with: none for an inactive account or a foreign
      application, otherwise those of the identity's active grants, page by page. */
  method ApprovedGroups(dir: Directory, who: Identity, pageSize: nat) returns (groups: seq<string>)
    requires pageSize > 0
    ensures groups == GroupsFor(dir, who)
  {
    groups := [];
    if who.user !in dir.users || !dir.users[who.user] { return; }
    if who.application.Some? {
      if who.application.value !in dir.applications || dir.applications[who.application.value] != who.user { return; }
    }
    var grants := GrantsOf(dir.grants, who);
    var offset := 0;
    while true
      invariant groups == GroupsOf(grants[..Least(offset, |grants|)])
      decreases |grants| - offset
    {
      var page := Page(grants, offset, pageSize);
      var more := GroupsOnPage(page);
      PagesAppend(grants, offset, pageSize);
      GroupsAppend(grants[..Least(offset, |grants|)], page);
      groups := groups + more;
      if |page| == 0 || offset + |page| >= |grants| { return; }
      offset := offset + pageSize;
    }
  }

  /* ── One pass ──────────────────────────────────────────────────────────── */

  function Revoked(rows: seq<Credential>, ids: set<Id>): (after: seq<Credential>)
    ensures |after| == |rows|
    ensures forall i :: 0 <= i < |rows| ==> after[i] == if rows[i].id in ids then rows[i].(live := false) else rows[i]
  {
    seq(|rows|, i requires 0 <= i < |rows| => if rows[i].id in ids then rows[i].(live := false) else rows[i])
  }

  /** The row of an id, if there still is one. */
  function RowOf(rows: seq<Credential>, id: Id): (row: Option<Credential>)
    ensures row.Some? ==> row.value in rows && row.value.id == id
    ensures row.None? ==> forall c :: c in rows ==> c.id != id
  {
    if rows == [] then None else if rows[0].id == id then Some(rows[0]) else RowOf(rows[1..], id)
  }

  /** Whether a stale row is still live for the consumer that was kept. */
  predicate StillStale(rows: seq<Credential>, consumer: Id, id: Id) {
    var row := RowOf(rows, id);
    row.Some? && row.value.consumer == consumer && row.value.live
  }

  function LeftStale(rows: seq<Credential>, consumer: Id, stale: seq<Id>): (ids: seq<Id>)
    ensures forall id :: id in ids <==> id in stale && StillStale(rows, consumer, id)
  {
    if stale == [] then []
    else
      (if StillStale(rows, consumer, stale[0]) then [stale[0]] else []) + LeftStale(rows, consumer, stale[1..])
  }

  /** Ids are unique. */
  ghost predicate Unique(rows: seq<Credential>) {
    forall i, j :: 0 <= i < j < |rows| ==> rows[i].id != rows[j].id
  }

  /** One account's rows in the portal and its consumers on the gateway. */
  class Site {
    var portal: Portal
    var gateway: map<Id, seq<string>>

    constructor (portal: Portal, gateway: map<Id, seq<string>>)
      ensures this.portal == portal && this.gateway == gateway
    {
      this.portal, this.gateway := portal, gateway;
    }

    /** Revoke the rows of `ids`, one by one. */
    method RevokeRows(ids: seq<Id>)
      modifies this`portal
      ensures portal == old(portal).(credentials := Revoked(old(portal.credentials), Ids(ids)))
    {
      assert Revoked(portal.credentials, {}) == portal.credentials;
      for i := 0 to |ids|
        invariant portal == old(portal).(credentials := Revoked(old(portal.credentials), Ids(ids[..i])))
      {
        var one := Revoked(portal.credentials, {ids[i]});
        assert ids[..i + 1] == ids[..i] + [ids[i]];
        assert one == Revoked(old(portal.credentials), Ids(ids[..i + 1]));
        portal := portal.(credentials := one);
      }
      assert ids[..|ids|] == ids;
    }

    /** One pass under the account's keys, at `now`. `try` is what it has to work with. */
    method Attempt(kept: Option<Kept>, try: Try, now: int, pageSize: nat) returns (outcome: Outcome)
      requires pageSize > 0
      modifies this
      ensures Passed(old(portal), old(gateway), kept, try, now, outcome, portal, gateway)
    {
      if portal.row.None? { return Gone; }
      var staleId := portal.row.value;
      if staleId in gateway {
        if kept.None? || kept.value.consumer != staleId { return Present(staleId); }
        if !try.fate.Commits? { return Threw; }
        var ids := LeftStale(portal.credentials, staleId, kept.value.stale);
        if ids == [] && kept.value.stale != [] {
          var all := RepairRecorded(portal.records, staleId, kept.value.stale, kept.value.readAt - LEASE_TTL_MS,
            pageSize);
          if all {
            assert Revoked(portal.credentials, {}) == portal.credentials;
            return Present(staleId);
          }
        }
        RevokeRows(ids);
        portal := portal.(records := portal.records + [Record(staleId, ids, true, now)]);
        return Repaired(staleId, ids);
      }
      var groups := ApprovedGroups(try.dir, try.who, pageSize);
      var stale := LiveCredentialIds(portal.credentials, staleId, pageSize);
      var created := try.ensured !in gateway;
      var before := gateway;
      if created { gateway := gateway[try.ensured := groups]; }
      match try.fate {
        case Commits =>
          var ids := LiveCredentialIds(portal.credentials, staleId, pageSize);
          RevokeRows(ids);
          portal := portal.(row := Some(try.ensured),
              records := portal.records + [Record(try.ensured, ids, false, now)]);
          return Repaired(try.ensured, ids);
        case LeaseLost =>
          return if created then KeptBack(Kept(try.ensured, stale, now)) else Threw;
        case Refused(undone) =>
          if created && undone { gateway := gateway - {try.ensured}; assert gateway == before; }
          return Threw;
      }
    }

    /** The whole repair: a pass, and if it had to keep the consumer it recreated, one more
        under fresh keys. `second` is what everyone else made of the portal in between, and
        `there` of the gateway. When it ends well, a credential row that was live when the
        consumer was found missing is revoked and on a repair record exactly when the first
        pass committed, or it was already so when the second began, or it was then still
        stale for the account's consumer, and that was missing again or the kept one. */
    method Repair(first: Try, second: Portal, there: map<Id, seq<string>>, again: Try, now: int, later: int,
        pageSize: nat)
      returns (outcome: Outcome)
      requires pageSize > 0 && Unique(second.credentials)
      modifies this
      ensures old(portal).row.None? ==> outcome.Gone?
      ensures old(portal).row.Some? && old(portal).row.value in old(gateway) ==>
                outcome == Present(old(portal).row.value) && portal == old(portal) && gateway == old(gateway)
      ensures old(portal).row.Some? && old(portal).row.value !in old(gateway)
              && (outcome.Repaired? || outcome.Present?) ==>
                && (!first.fate.Commits? ==> second.row.Some?)
                && forall id :: id in LiveIds(old(portal).credentials, old(portal).row.value) ==>
                     (Settled(portal, id) <==>
                        || first.fate.Commits?
                        || Settled(second, id)
                        || (StillStale(second.credentials, second.row.value, id)
                            && (second.row.value in there ==> second.row.value == first.ensured)))
    {
      ghost var was := portal;
      outcome := Attempt(None, first, now, pageSize);
      if !outcome.KeptBack? {
        if outcome.Repaired? {
          forall id | id in LiveIds(was.credentials, was.row.value) ensures Settled(portal, id) {
            RecreatedSettles(was, portal, outcome, now, id);
          }
        }
        return;
      }
      var kept := outcome.kept;
      portal, gateway := second, there;
      outcome := Attempt(Some(kept), again, later, pageSize);
      if outcome.KeptBack? { return Threw; }
      if outcome.Repaired? || outcome.Present? {
        forall id | id in LiveIds(was.credentials, was.row.value)
          ensures Settled(portal, id)
            <==> Settled(second, id)
                 || (StillStale(second.credentials, second.row.value, id)
                     && (second.row.value in there ==> second.row.value == first.ensured))
        {
          SecondPassSettles(kept, second, again.fate, outcome, portal, later, second.row.value in there, id);
        }
      }
    }
  }

  /** What one pass has to work with: whose consumer it is, what the portal says of the
      identity, the consumer the gateway returns for the username, and how the store answers. */
  datatype Try = Try(who: Identity, dir: Directory, ensured: Id, fate: Fate)

  ghost predicate Passed(was: Portal, on: map<Id, seq<string>>, kept: Option<Kept>, try: Try, now: int,
                         outcome: Outcome, portal: Portal, gateway: map<Id, seq<string>>)
  {
    if was.row.None? then outcome == Gone && portal == was && gateway == on
    else if was.row.value in on then gateway == on && Resumed(was, kept, try.fate, now, outcome, portal)
    else Recreated(was, on, try, now, outcome, portal, gateway)
  }

  /** A pass that found the consumer missing: either everything in the portal commits with
      the record, or nothing does, and then the new consumer is kept only for a later pass
      to finish or when it cannot be taken down. */
  ghost predicate Recreated(was: Portal, on: map<Id, seq<string>>, try: Try, now: int,
                            outcome: Outcome, portal: Portal, gateway: map<Id, seq<string>>)
    requires was.row.Some?
  {
    var stale := LiveIds(was.credentials, was.row.value);
    var recreated := if try.ensured in on then on else on[try.ensured := GroupsFor(try.dir, try.who)];
    match try.fate
    case Commits =>
      && outcome == Repaired(try.ensured, stale) && gateway == recreated
      && portal == Portal(Some(try.ensured), Revoked(was.credentials, Ids(stale)),
         was.records + [Record(try.ensured, stale, false, now)])
    case LeaseLost =>
      && portal == was && gateway == recreated
      && outcome == if try.ensured in on then Threw else KeptBack(Kept(try.ensured, stale, now))
    case Refused(undone) =>
      portal == was && outcome == Threw && gateway == if undone then on else recreated
  }

  /** A pass that leaves a recreated consumer leaves it with exactly the groups that active
      grants of this very identity cover. */
  lemma RecreatedGroups(was: Portal, on: map<Id, seq<string>>, try: Try, now: int,
                        outcome: Outcome, portal: Portal, gateway: map<Id, seq<string>>, group: string)
    requires was.row.Some? && Recreated(was, on, try, now, outcome, portal, gateway)
    requires try.ensured !in on && try.ensured in gateway
    ensures group in gateway[try.ensured]
      <==> MayHold(try.dir, try.who)
           && exists g :: g in try.dir.grants && IsOf(g, try.who) && g.inNamespace && group in g.groups
    ensures forall other :: other in on ==> other in gateway && gateway[other] == on[other]
  {
    GroupsForAre(try.dir, try.who, group);
  }

  /** A pass that found a consumer: it finishes only the repair that kept this very one. */
  ghost predicate Resumed(was: Portal, kept: Option<Kept>, fate: Fate, now: int, outcome: Outcome, portal: Portal)
    requires was.row.Some?
  {
    var consumer := was.row.value;
    if kept.None? || kept.value.consumer != consumer then outcome == Present(consumer) && portal == was
    else if !fate.Commits? then outcome == Threw && portal == was
    else
      var stale := kept.value.stale;
      var ids := LeftStale(was.credentials, consumer, stale);
      if ids == [] && stale != [] && AllRecorded(was.records, kept.value) then
        outcome == Present(consumer) && portal == was
      else
        && outcome == Repaired(consumer, ids)
        && portal == was.(credentials := Revoked(was.credentials, Ids(ids)),
                          records := was.records + [Record(consumer, ids, true, now)])
  }

  /** Whether repair records of the kept consumer, stamped no earlier than a lease before the
      stale rows were read, list every one of those rows. */
  ghost predicate AllRecorded(records: seq<Record>, kept: Kept) {
    forall id :: id in kept.stale ==> ListedSince(records, kept.consumer, id, kept.readAt - LEASE_TTL_MS)
  }

  /* ── Two passes with anything in between ───────────────────────────────── */

  /** What everyone else may do between two passes: rows may be revoked, moved or deleted,
      new rows appear under new ids, and records are only added. A revoked row stays revoked. */
  ghost predicate Rely(before: Portal, after: Portal) {
    && Unique(after.credentials)
    && before.records <= after.records
    && (forall c, d :: c in before.credentials && d in after.credentials && c.id == d.id && d.live ==> c.live)
  }

  lemma {:induction false} LiveIdsAre(rows: seq<Credential>, consumer: Id)
    ensures forall id ::
              id in LiveIds(rows, consumer)
              <==> exists c :: c in rows && c.id == id && c.consumer == consumer && c.live
  {
    if rows != [] {
      LiveIdsAre(rows[1..], consumer);
    }
  }

  lemma RowIsOnly(rows: seq<Credential>, c: Credential)
    requires Unique(rows) && c in rows
    ensures RowOf(rows, c.id) == Some(c)
  {
    var i :| 0 <= i < |rows| && rows[i] == c;
    var j :| 0 <= j < |rows| && rows[j] == RowOf(rows, c.id).value;
  }

  /** The resumed pass revokes only rows that were live before the consumer was recreated:
      never one written for the recreated consumer, and never one revoked or moved since. */
  lemma ResumeSparesNewRows(first: Portal, kept: Kept, second: Portal, fate: Fate, now: int, outcome: Outcome,
      after: Portal, i: nat)
    requires first.row.Some? && second.row.Some? && kept.stale == LiveIds(first.credentials, first.row.value)
    requires Rely(first, second) && Resumed(second, Some(kept), fate, now, outcome, after) && i < |second.credentials|
    ensures |after.credentials| == |second.credentials|
    ensures after.credentials[i] != second.credentials[i] ==>
              && after.credentials[i] == second.credentials[i].(live := false)
              && second.credentials[i].consumer == kept.consumer
              && exists c ::
                c in first.credentials && c.id == second.credentials[i].id && c.consumer == first.row.value && c.live
  {
    LiveIdsAre(first.credentials, first.row.value);
    RowIsOnly(second.credentials, second.credentials[i]);
  }

  /** When the resumed pass reports a repair, no stale row is left live on the consumer, and
      every row it revoked is on its record. */
  lemma ResumeFinishes(first: Portal, kept: Kept, second: Portal, now: int, outcome: Outcome, after: Portal)
    requires first.row.Some? && second.row == Some(kept.consumer)
             && kept.stale == LiveIds(first.credentials, first.row.value)
    requires Rely(first, second) && Resumed(second, Some(kept), Commits, now, outcome, after)
    ensures forall id :: id in kept.stale ==> !StillStale(after.credentials, kept.consumer, id)
    ensures outcome.Repaired? ==>
              && |after.records| == |second.records| + 1
              && after.records[|second.records|] == Record(kept.consumer, outcome.revoked, true, now)
              && forall id ::
                id in outcome.revoked
                <==> id in kept.stale && StillStale(second.credentials, kept.consumer, id)
    ensures outcome.Present? ==> after == second && AllRecorded(second.records, kept)
  {
    forall id | id in kept.stale ensures !StillStale(after.credentials, kept.consumer, id) {
      if outcome.Repaired? {
        var row := RowOf(after.credentials, id);
        if row.Some? {
          var i :| 0 <= i < |after.credentials| && after.credentials[i] == row.value;
          RowIsOnly(second.credentials, second.credentials[i]);
        }
      }
    }
  }

  lemma ListedStays(before: seq<Record>, after: seq<Record>, consumer: Id, id: Id)
    requires before <= after && Listed(before, consumer, id)
    ensures Listed(after, consumer, id)
  {
    var i :| 0 <= i < |before| && before[i].consumer == consumer && id in before[i].revoked;
    assert after[i] == before[i];
  }

  /** Whether a credential row is there, revoked, and on some repair record. */
  ghost predicate Settled(portal: Portal, id: Id) {
    && RowOf(portal.credentials, id).Some? && !RowOf(portal.credentials, id).value.live
    && exists consumer :: Listed(portal.records, consumer, id)
  }

  lemma {:induction false} FirstRowKept(rows: seq<Credential>, ids: set<Id>, id: Id)
    requires RowOf(rows, id).Some?
    ensures
      var row := RowOf(rows, id).value;
      RowOf(Revoked(rows, ids), id) == Some(if id in ids then row.(live := false) else row)
  {
    if rows[0].id != id {
      FirstRowKept(rows[1..], ids, id);
      assert Revoked(rows, ids)[1..] == Revoked(rows[1..], ids);
    }
  }

  lemma {:induction false} NoRowStays(rows: seq<Credential>, ids: set<Id>, id: Id)
    requires RowOf(rows, id).None?
    ensures RowOf(Revoked(rows, ids), id).None?
  {
    if rows != [] {
      NoRowStays(rows[1..], ids, id);
      assert Revoked(rows, ids)[1..] == Revoked(rows[1..], ids);
    }
  }

  /** Recording the rows it revoked, a pass settles exactly the ones that it revoked and
      that are there, and leaves settled the ones settled before. */
  lemma RecordSettles(was: Portal, revoked: seq<Id>, record: Record, after: Portal, id: Id)
    requires after.credentials == Revoked(was.credentials, Ids(revoked)) && after.records == was.records + [record]
    requires record.revoked == revoked
    ensures Settled(after, id) <==> (id in revoked && RowOf(was.credentials, id).Some?) || Settled(was, id)
  {
    if RowOf(was.credentials, id).None? {
      NoRowStays(was.credentials, Ids(revoked), id);
    } else {
      FirstRowKept(was.credentials, Ids(revoked), id);
      if id in revoked {
        assert after.records[|was.records|] == record;
        assert Listed(after.records, record.consumer, id);
      } else {
        NewlyListed(was.records, record, id);
      }
    }
  }

  lemma NewlyListed(records: seq<Record>, record: Record, id: Id)
    requires id !in record.revoked
    ensures (exists consumer :: Listed(records + [record], consumer, id))
            <==> exists consumer :: Listed(records, consumer, id)
  {
    if consumer :| Listed(records + [record], consumer, id) {
      var i :| 0 <= i < |records + [record]| && (records + [record])[i].consumer == consumer
        && id in (records + [record])[i].revoked;
      assert records[i] == (records + [record])[i];
      assert Listed(records, consumer, id);
    }
    if consumer :| Listed(records, consumer, id) {
      ListedStays(records, records + [record], consumer, id);
    }
  }

  /** What the first pass revokes when its transaction commits. */
  lemma RecreatedSettles(was: Portal, after: Portal, outcome: Outcome, now: int, id: Id)
    requires was.row.Some? && outcome.Repaired? && id in LiveIds(was.credentials, was.row.value)
    requires outcome.revoked == LiveIds(was.credentials, was.row.value)
    requires after.credentials == Revoked(was.credentials, Ids(outcome.revoked))
    requires after.records == was.records + [Record(outcome.consumer, outcome.revoked, false, now)]
    ensures Settled(after, id)
  {
    LiveIdsAre(was.credentials, was.row.value);
    RecordSettles(was, outcome.revoked, Record(outcome.consumer, outcome.revoked, false, now), after, id);
  }

  /** Per stale row, whether the second pass found a consumer or had to recreate it again: at
      its end the row is revoked and on a record exactly when it was so at its beginning, or
      was still stale for the consumer of that moment, unless the pass found one that is not
      the kept one. */
  lemma SecondPassSettles(kept: Kept, second: Portal, fate: Fate, outcome: Outcome, after: Portal, now: int,
      found: bool, id: Id)
    requires second.row.Some? && id in kept.stale && (outcome.Repaired? || outcome.Present?)
    requires found ==> Resumed(second, Some(kept), fate, now, outcome, after)
    requires !found ==> outcome.Repaired? && outcome.revoked == LiveIds(second.credentials, second.row.value)
                        && after.credentials == Revoked(second.credentials, Ids(outcome.revoked))
                        && after.records == second.records + [Record(outcome.consumer, outcome.revoked, false, now)]
                        && Unique(second.credentials)
    ensures Settled(after, id)
      <==> Settled(second, id)
           || (StillStale(second.credentials, second.row.value, id) && (found ==> kept.consumer == second.row.value))
  {
    if outcome.Repaired? {
      RecordSettles(second, outcome.revoked, Record(outcome.consumer, outcome.revoked, found, now), after, id);
      if !found {
        LiveIsStale(second.credentials, second.row.value, id);
      }
    } else if kept.consumer == second.row.value {
      assert id !in LeftStale(second.credentials, kept.consumer, kept.stale);
    }
  }

  /** Where ids are unique, the live ids of a consumer are the ones still stale for it. */
  lemma LiveIsStale(rows: seq<Credential>, consumer: Id, id: Id)
    requires Unique(rows)
    ensures id in LiveIds(rows, consumer) <==> StillStale(rows, consumer, id)
  {
    LiveIdsAre(rows, consumer);
    if id in LiveIds(rows, consumer) {
      var c :| c in rows && c.id == id && c.consumer == consumer && c.live;
      RowIsOnly(rows, c);
    }
  }

  /** Others that touch the stale rows by repairs only leave each of them still stale, or
      settled. */
  ghost predicate OnlyRepaired(ids: seq<Id>, consumer: Id, second: Portal) {
    forall id :: id in ids ==> StillStale(second.credentials, consumer, id) || Settled(second, id)
  }

  /** Then every one of them ends up revoked and on a record. */
  lemma RepairAccounts(first: Portal, kept: Kept, second: Portal, fate: Fate, outcome: Outcome, after: Portal, now: int,
      id: Id)
    requires first.row.Some? && second.row == first.row == Some(kept.consumer)
             && kept.stale == LiveIds(first.credentials, first.row.value)
    requires Resumed(second, Some(kept), fate, now, outcome, after) && (outcome.Repaired? || outcome.Present?)
    requires OnlyRepaired(kept.stale, kept.consumer, second) && id in kept.stale
    ensures Settled(after, id)
  {
    SecondPassSettles(kept, second, fate, outcome, after, now, true, id);
  }

  /** A resumed pass adds a record exactly when a stale row is still live, when some stale
      row is on no record recent enough, or when there were no stale rows at all. */
  lemma RecordsOnce(kept: Kept, second: Portal, now: int, outcome: Outcome, after: Portal)
    requires second.row == Some(kept.consumer) && Resumed(second, Some(kept), Commits, now, outcome, after)
    ensures after.records != second.records
      <==> (exists id :: id in kept.stale && StillStale(second.credentials, kept.consumer, id))
           || !AllRecorded(second.records, kept)
           || kept.stale == []
  {
    var ids := LeftStale(second.credentials, kept.consumer, kept.stale);
    if ids != [] {
      assert ids[0] in ids;
    }
    assert second.records != second.records + [Record(kept.consumer, ids, true, now)];
  }

  /** A repair of a consumer without live credentials is recorded again by the pass that
      resumes it, though another instance has recorded it whole. */
  lemma EmptyRepairRecordedTwice()
    ensures
      var second := Portal(Some(7), [], [Record(7, [], false, 1)]);
      var after := second.(records := [Record(7, [], false, 1), Record(7, [], true, 2)]);
      Resumed(second, Some(Kept(7, [], 0)), Commits, 2, Repaired(7, []), after)
  {
    assert Revoked([], {}) == [];
    assert LeftStale([], 7, []) == [];
    assert Ids([]) == {};
  }

  /** A stale row that its owner revoked between the passes is on no repair record. */
  lemma OwnerRevocationUnlisted()
    ensures
      var first := Portal(Some(7), [Credential(1, 7, true), Credential(2, 7, true)], []);
      var second := Portal(Some(7), [Credential(1, 7, false), Credential(2, 7, true)], []);
      var after := Portal(Some(7), [Credential(1, 7, false), Credential(2, 7, false)], [Record(7, [2], true, 5)]);
      && LiveIds(first.credentials, 7) == [1, 2] && Rely(first, second)
      && Resumed(second, Some(Kept(7, [1, 2], 0)), Commits, 5, Repaired(7, [2]), after)
      && !Listed(after.records, 7, 1)
  {
    hide LiveIds, Revoked, LeftStale;
    FirstListing();
    SecondPassLeaves();
  }

  lemma FirstListing()
    ensures LiveIds([Credential(1, 7, true), Credential(2, 7, true)], 7) == [1, 2]
  {
    var rows := [Credential(1, 7, true), Credential(2, 7, true)];
    assert rows[1..] == [Credential(2, 7, true)];
    assert rows[1..][1..] == [];
  }

  lemma SecondPassLeaves()
    ensures
      var later := [Credential(1, 7, false), Credential(2, 7, true)];
      && LeftStale(later, 7, [1, 2]) == [2]
      && Revoked(later, Ids([2])) == [Credential(1, 7, false), Credential(2, 7, false)]
  {
    var later := [Credential(1, 7, false), Credential(2, 7, true)];
    assert later[1..] == [Credential(2, 7, true)];
    assert RowOf(later, 1) == Some(Credential(1, 7, false)) && RowOf(later, 2) == Some(Credential(2, 7, true));
    assert [1, 2][1..] == [2] && [2][1..] == [];
    assert Revoked(later, Ids([2])) == [Credential(1, 7, false), Credential(2, 7, false)];
  }
}
