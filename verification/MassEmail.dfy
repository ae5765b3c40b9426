/** A mass-email campaign: the worst-case size of a copy, the chunks it is queued in, and
    what any number of partly failing attempts leaves in the outbox. */
module MassEmail {
  import opened Wrappers
  import opened Html

  const CHUNK_BYTES := 4_194_304
  const ROW_OVERHEAD_BYTES := 1024
  const FALLBACK_NAME := "there"

  /* ── Rendering ─────────────────────────────────────────────────────────── */

  /** A part of a template: text of its own, or one of the two variables of a recipient. */
  datatype Piece = Fixed(text: string) | Name | Address

  datatype Template = Template(subject: seq<Piece>, html: seq<Piece>, text: seq<Piece>)

  datatype Rendered = Rendered(subject: string, html: string, text: string)

  datatype Recipient = Recipient(id: nat, name: string, address: string)

  function Filled(pieces: seq<Piece>, name: string, address: string): string {
    if pieces == [] then []
    else
      (match pieces[0] case Fixed(text) => text case Name => name case Address => address)
      + Filled(pieces[1..], name, address)
  }

  /** The subject and the text take a variable verbatim, the HTML body escaped. */
  function Render(template: Template, name: string, address: string): Rendered {
    Rendered(Filled(template.subject, name, address),
             Filled(template.html, Escape(name), Escape(address)),
             Filled(template.text, name, address))
  }

  /** A copy, or the copy with `fallback` for the name when the link policy refuses the
      first; `None` when it refuses both. */
  function CopyFor(template: Template, refuses: Rendered -> bool, name: string, address: string,
      fallback: string): Option<Rendered> {
    var copy := Render(template, name, address);
    if !refuses(copy) then Some(copy)
    else if name == fallback || refuses(Render(template, fallback, address)) then None
    else Some(Render(template, fallback, address))
  }

  function Size(copy: Rendered): nat {
    Bytes(copy.subject) + Bytes(copy.html) + Bytes(copy.text)
  }

  function Max(a: nat, b: nat): nat {
    if a < b then b else a
  }

  /** Each part at the larger of its two sizes. */
  function WorstBytes(plain: Rendered, escaped: Rendered): nat {
    Max(Bytes(plain.subject), Bytes(escaped.subject)) + Max(Bytes(plain.html), Bytes(escaped.html))
    + Max(Bytes(plain.text), Bytes(escaped.text))
  }

  lemma {:induction false} FilledGrows(pieces: seq<Piece>, name: string, address: string, name': string,
      address': string)
    requires Bytes(name) <= Bytes(name') && Bytes(address) <= Bytes(address')
    ensures Bytes(Filled(pieces, name, address)) <= Bytes(Filled(pieces, name', address'))
  {
    if pieces != [] {
      FilledGrows(pieces[1..], name, address, name', address');
      var one := match pieces[0] case Fixed(text) => text case Name => name case Address => address;
      var other := match pieces[0] case Fixed(text) => text case Name => name' case Address => address';
      BytesAppend(one, Filled(pieces[1..], name, address));
      BytesAppend(other, Filled(pieces[1..], name', address'));
    }
  }

  /* ── The worst case ────────────────────────────────────────────────────── */

  datatype Vars = Vars(name: string, address: string)

  /** `raw` measures a text, `esc` its escaped form, both in UTF-8. */
  ghost predicate Measures(raw: string -> nat, esc: string -> nat) {
    && (forall s {:trigger Bytes(s)} :: raw(s) == Bytes(s))
    && (forall s {:trigger Escape(s)} :: esc(s) == Bytes(Escape(s)))
  }

  /** `plain` is at least as large as the recipient raw, and `escaped` as large escaped. */
  ghost predicate Dominates(raw: string -> nat, esc: string -> nat, plain: Vars, escaped: Vars, name: string,
      address: string) {
    && raw(name) <= raw(plain.name) && raw(address) <= raw(plain.address)
    && esc(name) <= esc(escaped.name) && esc(address) <= esc(escaped.address)
  }

  /** The larger of two texts, the first when they are as large. */
  function Wider(size: string -> nat, a: string, b: string): string {
    if size(b) > size(a) then b else a
  }

  /** The largest names and addresses, raw and escaped, each on its own. `neutral` is what a
      campaign makes of a display name. */
  method WorstCase(recipients: seq<Recipient>, neutral: string -> string, raw: string -> nat, esc: string -> nat)
    returns (plain: Vars, escaped: Vars)
    ensures forall i :: 0 <= i < |recipients| ==>
            Dominates(raw, esc, plain, escaped, neutral(recipients[i].name), recipients[i].address)
    ensures raw(FALLBACK_NAME) <= raw(plain.name) && esc(FALLBACK_NAME) <= esc(escaped.name)
  {
    plain, escaped := Vars(FALLBACK_NAME, ""), Vars(FALLBACK_NAME, "");
    for i := 0 to |recipients|
      invariant forall j :: 0 <= j < i ==>
                Dominates(raw, esc, plain, escaped, neutral(recipients[j].name), recipients[j].address)
      invariant raw(FALLBACK_NAME) <= raw(plain.name) && esc(FALLBACK_NAME) <= esc(escaped.name)
    {
      var name, address := neutral(recipients[i].name), recipients[i].address;
      plain := Vars(Wider(raw, plain.name, name), Wider(raw, plain.address, address));
      escaped := Vars(Wider(esc, escaped.name, name), Wider(esc, escaped.address, address));
    }
  }

  /** A harmless text at least as large as `name`, raw and escaped. */
  function InertLike(name: string): string {
    Repeated(Bytes(Escape(name)))
  }

  lemma InertDominates(name: string)
    ensures Bytes(name) <= Bytes(InertLike(name)) && Bytes(Escape(name)) <= Bytes(Escape(InertLike(name)))
  {
    EscapeIsPerCharacter(name);
    EscapeGrows(name);
    RepeatedIsInert(Bytes(Escape(name)));
    EscapeIsPerCharacter(InertLike(name));
  }

  /** The bound on one message, or nothing when the template itself is refused. */
  function MessageBytes(template: Template, refuses: Rendered -> bool, plain: Vars, escaped: Vars): Option<nat> {
    var p := CopyFor(template, refuses, plain.name, plain.address, InertLike(plain.name));
    var e := CopyFor(template, refuses, escaped.name, escaped.address, InertLike(escaped.name));
    if p.None? || e.None? then None else Some(WorstBytes(p.value, e.value))
  }

  lemma CopyHasName(template: Template, refuses: Rendered -> bool, name: string, address: string, fallback: string)
      returns (used: string)
    requires CopyFor(template, refuses, name, address, fallback).Some?
    ensures used == name || used == fallback
    ensures CopyFor(template, refuses, name, address, fallback).value == Render(template, used, address)
  {
    used := if refuses(Render(template, name, address)) then fallback else name;
  }

  /** No copy the fan-out can queue is larger than the bound: not one with the recipient's
      own name, not one with the fallback name, whatever the link policy refuses. */
  lemma EveryCopyFits(template: Template, refuses: Rendered -> bool, raw: string -> nat, esc: string -> nat,
      plain: Vars, escaped: Vars, name: string, address: string)
    requires MessageBytes(template, refuses, plain, escaped).Some?
    requires Measures(raw, esc) && Dominates(raw, esc, plain, escaped, name, address)
    requires raw(FALLBACK_NAME) <= raw(plain.name) && esc(FALLBACK_NAME) <= esc(escaped.name)
    ensures
      var copy := CopyFor(template, refuses, name, address, FALLBACK_NAME);
      copy.Some? ==> Size(copy.value) <= MessageBytes(template, refuses, plain, escaped).value
  {
    if CopyFor(template, refuses, name, address, FALLBACK_NAME).Some? {
      var used := CopyHasName(template, refuses, name, address, FALLBACK_NAME);
      var most := CopyHasName(template, refuses, plain.name, plain.address, InertLike(plain.name));
      var mostEscaped := CopyHasName(template, refuses, escaped.name, escaped.address, InertLike(escaped.name));
      InertDominates(plain.name);
      InertDominates(escaped.name);
      FilledGrows(template.subject, used, address, most, plain.address);
      FilledGrows(template.text, used, address, most, plain.address);
      FilledGrows(template.html, Escape(used), Escape(address), Escape(mostEscaped), Escape(escaped.address));
    }
  }

  /* ── Chunks ────────────────────────────────────────────────────────────── */

  /** How many rows of at most `rowBytes` one transaction takes. */
  function PerChunk(chunkRecipients: nat, rowBytes: nat): nat
    requires rowBytes > 0
  {
    Max(1, if chunkRecipients < CHUNK_BYTES / rowBytes then chunkRecipients else CHUNK_BYTES / rowBytes)
  }

  /** What a chunk of messages of these sizes takes. */
  function ChunkBytes(sizes: seq<nat>): nat {
    if sizes == [] then 0 else sizes[0] + ROW_OVERHEAD_BYTES + ChunkBytes(sizes[1..])
  }

  lemma {:induction false} ChunkBytesBound(sizes: seq<nat>, messageBytes: nat)
    requires forall i :: 0 <= i < |sizes| ==> sizes[i] <= messageBytes
    ensures ChunkBytes(sizes) <= |sizes| * (messageBytes + ROW_OVERHEAD_BYTES)
  {
    if sizes != [] {
      ChunkBytesBound(sizes[1..], messageBytes);
      assert |sizes| * (messageBytes + ROW_OVERHEAD_BYTES)
          == |sizes[1..]| * (messageBytes + ROW_OVERHEAD_BYTES) + messageBytes + ROW_OVERHEAD_BYTES;
    }
  }

  lemma QuotientFits(most: nat, rowBytes: nat, n: nat)
    requires rowBytes > 0 && n <= most / rowBytes
    ensures n * rowBytes <= most
  {
    assert n * rowBytes <= (most / rowBytes) * rowBytes;
  }

  /** A chunk never takes more than its ceiling, as long as one message fits in it. */
  lemma ChunksFit(sizes: seq<nat>, messageBytes: nat, chunkRecipients: nat)
    requires messageBytes + ROW_OVERHEAD_BYTES <= CHUNK_BYTES
    requires |sizes| <= PerChunk(chunkRecipients, messageBytes + ROW_OVERHEAD_BYTES)
    requires forall i :: 0 <= i < |sizes| ==> sizes[i] <= messageBytes
    ensures ChunkBytes(sizes) <= CHUNK_BYTES
  {
    var rowBytes := messageBytes + ROW_OVERHEAD_BYTES;
    ChunkBytesBound(sizes, messageBytes);
    assert CHUNK_BYTES / rowBytes >= 1 by { OneFits(CHUNK_BYTES, rowBytes); }
    QuotientFits(CHUNK_BYTES, rowBytes, |sizes|);
  }

  lemma OneFits(most: nat, rowBytes: nat)
    requires 0 < rowBytes <= most
    ensures most / rowBytes >= 1
  {
    assert most == (most / rowBytes) * rowBytes + most % rowBytes;
  }

  /* ── Keys ──────────────────────────────────────────────────────────────── */

  function IdempotencyKey(actor: string, batch: string, recipient: string): string {
    "mass:" + actor + ":" + batch + ":" + recipient
  }

  /** Ids hold no colon, so the key names one (actor, batch, recipient), whatever the batch
      key an administrator chose. */
  lemma KeysAreInjective(a: string, b: string, r: string, a': string, b': string, r': string)
    requires ':' !in a && ':' !in a' && ':' !in r && ':' !in r'
    requires IdempotencyKey(a, b, r) == IdempotencyKey(a', b', r')
    ensures a == a' && b == b' && r == r'
  {
    var s, t := IdempotencyKey(a, b, r), IdempotencyKey(a', b', r');
    assert s[5 + |a|] == ':' && t[5 + |a'|] == ':';
    assert a == s[5..5 + |a|] && a' == t[5..5 + |a'|];
    assert s[|s| - |r| - 1] == ':' && t[|t| - |r'| - 1] == ':';
    assert r == s[|s| - |r|..] && r' == t[|t| - |r'|..];
    assert |r| == |r'|;
    assert b == s[6 + |a|..|s| - |r| - 1] && b' == t[6 + |a'|..|t| - |r'| - 1];
  }

  /* ── The fan-out ───────────────────────────────────────────────────────── */

  /** A queued message, by its key; `digest` is of the request that queued it. */
  datatype Row = Row(actor: nat, batch: nat, recipient: nat, digest: nat)

  /** The audit row that names and charges a campaign. */
  datatype Intent = Intent(actor: nat, batch: nat, digest: nat, at: nat)

  datatype Admission = Charged | Retry | Reused | OverBudget

  /** How many campaigns `actor` was charged from `since` on. */
  function ChargedSince(intents: seq<Intent>, actor: nat, since: int): nat {
    if intents == [] then 0
    else
      var last := intents[|intents| - 1];
      ChargedSince(intents[..|intents| - 1], actor, since) + if last.actor == actor && last.at >= since then 1 else 0
  }

  /** How many campaigns `actor` was charged in the window ending at `until`. */
  function ChargedWithin(intents: seq<Intent>, actor: nat, since: int, until: int): nat {
    if intents == [] then 0
    else
      var last := intents[|intents| - 1];
      ChargedWithin(intents[..|intents| - 1], actor, since, until) + if last.actor == actor
          && since <= last.at <= until then 1 else 0
  }

  /** The window that charge `i` was made in had room for it. */
  ghost predicate Roomy(intents: seq<Intent>, i: nat, window: nat, limit: nat)
    requires i < |intents|
  {
    ChargedSince(intents[..i], intents[i].actor, intents[i].at - window) < limit
  }

  lemma RoomyStays(intents: seq<Intent>, intent: Intent, i: nat, window: nat, limit: nat)
    requires i < |intents|
    ensures Roomy(intents + [intent], i, window, limit) <==> Roomy(intents, i, window, limit)
  {
    assert (intents + [intent])[..i] == intents[..i];
  }

  /** Every charge was made while its window had room. */
  ghost predicate Paced(intents: seq<Intent>, window: nat, limit: nat) {
    && (forall i, j :: 0 <= i < j < |intents| ==> intents[i].at <= intents[j].at)
    && (forall i :: 0 <= i < |intents| ==> Roomy(intents, i, window, limit))
  }

  lemma PacedOneMore(intents: seq<Intent>, intent: Intent, window: nat, limit: nat)
    requires Paced(intents, window, limit) && forall i :: 0 <= i < |intents| ==> intents[i].at <= intent.at
    requires ChargedSince(intents, intent.actor, intent.at - window) < limit
    ensures Paced(intents + [intent], window, limit)
  {
    var after := intents + [intent];
    forall i | 0 <= i < |after| ensures Roomy(after, i, window, limit) {
      if i < |intents| {
        RoomyStays(intents, intent, i, window, limit);
      } else {
        assert after[..i] == intents;
      }
    }
  }

  lemma {:induction false} WithinIsSince(intents: seq<Intent>, actor: nat, since: int, until: int, earlier: int)
    requires earlier <= since
    ensures ChargedWithin(intents, actor, since, until) <= ChargedSince(intents, actor, earlier)
  {
    if intents != [] {
      WithinIsSince(intents[..|intents| - 1], actor, since, until, earlier);
    }
  }

  /** In no window, wherever it ends, was an administrator charged more than the limit. */
  lemma {:induction false} BudgetHolds(intents: seq<Intent>, actor: nat, window: nat, limit: nat, until: int)
    requires Paced(intents, window, limit)
    ensures ChargedWithin(intents, actor, until - window, until) <= limit
  {
    if intents != [] {
      var front, last := intents[..|intents| - 1], intents[|intents| - 1];
      assert front + [last] == intents;
      forall i | 0 <= i < |front| ensures Roomy(front, i, window, limit) {
        RoomyStays(front, last, i, window, limit);
      }
      BudgetHolds(front, actor, window, limit, until);
      if last.actor == actor && until - window <= last.at <= until {
        WithinIsSince(front, actor, until - window, until, last.at - window);
        assert Roomy(intents, |intents| - 1, window, limit);
      }
    }
  }

  /** The outbox and the audit trail. `reported` sums what every attempt said it queued. */
  class Outbox {
    const window: nat
    const limit: nat
    var intents: seq<Intent>
    var rows: seq<Row>
    ghost var reported: nat

    constructor (window: nat, limit: nat)
      ensures Valid() && this.window == window && this.limit == limit && intents == [] && rows == []
    {
      this.window, this.limit := window, limit;
      intents, rows, reported := [], [], 0;
    }

    ghost predicate Valid()
      reads this
    {
      && (forall i, j :: 0 <= i < j < |rows| ==>
          (rows[i].actor, rows[i].batch, rows[i].recipient) != (rows[j].actor, rows[j].batch, rows[j].recipient))
      && (forall i, j :: 0 <= i < j < |intents| ==>
          (intents[i].actor, intents[i].batch) != (intents[j].actor, intents[j].batch))
      && (forall r :: r in rows ==> exists i :: 0 <= i < |intents| && Covers(intents[i], r))
      && (limit > 0 ==> Paced(intents, window, limit))
      && reported == |rows|
    }

    /** The campaign a row was queued for, with the same content. */
    static predicate Covers(intent: Intent, row: Row) {
      intent.actor == row.actor && intent.batch == row.batch && intent.digest == row.digest
    }

    predicate HasRow(actor: nat, batch: nat, recipient: nat)
      reads this
    {
      exists i :: 0 <= i < |rows| && rows[i].actor == actor && rows[i].batch == batch && rows[i].recipient == recipient
    }

    predicate Started(actor: nat, batch: nat)
      reads this
    {
      exists i :: 0 <= i < |intents| && intents[i].actor == actor && intents[i].batch == batch
    }

    predicate StartedAs(actor: nat, batch: nat, digest: nat)
      reads this
    {
      exists i :: 0 <= i < |intents| && intents[i].actor == actor && intents[i].batch == batch
          && intents[i].digest == digest
    }

    /** Charge a campaign once, recognise its retries, and refuse anything else. */
    method Admit(actor: nat, batch: nat, digest: nat, now: nat) returns (admission: Admission)
      requires Valid() && forall i :: 0 <= i < |intents| ==> intents[i].at <= now
      modifies this`intents
      ensures Valid()
      ensures admission == (if old(StartedAs(actor, batch, digest)) then Retry
                            else if old(Started(actor, batch)) then Reused
                            else if limit > 0
                              && ChargedSince(old(intents), actor, now - window) >= limit then OverBudget
                            else Charged)
      ensures intents == old(intents) + if admission.Charged? then [Intent(actor, batch, digest, now)] else []
      ensures admission.Charged? || admission.Retry? <==> StartedAs(actor, batch, digest)
    {
      if Started(actor, batch) {
        return if StartedAs(actor, batch, digest) then Retry else Reused;
      }
      if limit > 0 && ChargedSince(intents, actor, now - window) >= limit { return OverBudget; }
      if limit > 0 { PacedOneMore(intents, Intent(actor, batch, digest, now), window, limit); }
      CoversStay(intents, Intent(actor, batch, digest, now), rows);
      intents := intents + [Intent(actor, batch, digest, now)];
      assert intents[|intents| - 1] == Intent(actor, batch, digest, now);
      return Charged;
    }

    static lemma CoversStay(before: seq<Intent>, intent: Intent, rows: seq<Row>)
      requires forall r :: r in rows ==> exists i :: 0 <= i < |before| && Covers(before[i], r)
      ensures forall r :: r in rows ==> exists i :: 0 <= i < |before + [intent]| && Covers((before + [intent])[i], r)
    {
      forall r | r in rows ensures exists i :: 0 <= i < |before + [intent]| && Covers((before + [intent])[i], r) {
        var i :| 0 <= i < |before| && Covers(before[i], r);
        assert (before + [intent])[i] == before[i];
      }
    }

    /** Queue one message, unless its key is taken already. */
    method Enqueue(row: Row) returns (created: bool)
      requires Valid() && StartedAs(row.actor, row.batch, row.digest)
      modifies this`rows, this`reported
      ensures Valid() && intents == old(intents)
      ensures created == !old(HasRow(row.actor, row.batch, row.recipient))
      ensures rows == old(rows) + if created then [row] else []
      ensures HasRow(row.actor, row.batch, row.recipient)
    {
      created := !HasRow(row.actor, row.batch, row.recipient);
      if created {
        ghost var before := rows;
        rows := rows + [row];
        reported := reported + 1;
        assert rows[|before|] == row;
        ghost var i :| 0 <= i < |intents| && intents[i].actor == row.actor && intents[i].batch == row.batch
          && intents[i].digest == row.digest;
        assert Covers(intents[i], row);
      }
    }

    /** One chunk's transaction: all of its rows or none. */
    method Chunk(actor: nat, batch: nat, digest: nat, chunk: seq<nat>, refused: set<nat>, fails: bool)
        returns (created: nat)
      requires Valid() && StartedAs(actor, batch, digest)
      modifies this`rows, this`reported
      ensures Valid() && |rows| == |old(rows)| + created && old(rows) <= rows
      ensures fails ==> rows == old(rows)
      ensures !fails ==> forall r :: r in chunk && r !in refused ==> HasRow(actor, batch, r)
      ensures forall i :: |old(rows)| <= i < |rows| ==>
              rows[i].actor == actor && rows[i].batch == batch && rows[i].recipient in chunk
              && rows[i].recipient !in refused
    {
      var was := rows;
      ghost var counted := reported;
      created := 0;
      for i := 0 to |chunk|
        invariant Valid() && intents == old(intents) && |rows| == |was| + created && was <= rows
        invariant forall j :: 0 <= j < i && chunk[j] !in refused ==> HasRow(actor, batch, chunk[j])
        invariant forall j :: |was| <= j < |rows| ==>
                  rows[j].actor == actor && rows[j].batch == batch && rows[j].recipient in chunk
                  && rows[j].recipient !in refused
      {
        if chunk[i] !in refused {
          var before := rows;
          var one := Enqueue(Row(actor, batch, chunk[i], digest));
          KeepsRows(before, rows);
          if one { created := created + 1; }
        }
      }
      if fails {
        rows := was;
        reported := counted;
        created := 0;
      }
    }

    /** A row that was there is still there. */
    static lemma KeepsRows(before: seq<Row>, after: seq<Row>)
      requires before <= after
      ensures forall i :: 0 <= i < |before| ==> after[i] == before[i]
    {}

    /** An attempt: the recipients a chunk at a time, up to the first chunk that fails. What
        it reports is what it added; without a failure every recipient the link policy did
        not refuse is queued. */
    method FanOut(actor: nat, batch: nat, digest: nat, recipients: seq<nat>, refused: set<nat>, perChunk: nat,
        fails: nat -> bool)
      returns (enqueued: nat, complete: bool)
      requires Valid() && StartedAs(actor, batch, digest) && perChunk > 0
      modifies this`rows, this`reported
      ensures Valid() && |rows| == |old(rows)| + enqueued && old(rows) <= rows
      ensures complete <==> forall k: nat :: k * perChunk < |recipients| ==> !fails(k)
      ensures complete ==> forall r :: r in recipients && r !in refused ==> HasRow(actor, batch, r)
      ensures forall i :: |old(rows)| <= i < |rows| ==>
              rows[i].actor == actor && rows[i].batch == batch && rows[i].recipient in recipients
              && rows[i].recipient !in refused
    {
      enqueued := 0;
      var start, chunks := 0, 0;
      while start < |recipients|
        invariant Valid() && intents == old(intents) && |rows| == |old(rows)| + enqueued && old(rows) <= rows
        invariant start == chunks * perChunk && forall k: nat :: k < chunks ==> !fails(k)
        invariant forall j :: 0 <= j < start && j < |recipients| && recipients[j] !in refused ==>
                  HasRow(actor, batch, recipients[j])
        invariant forall i :: |old(rows)| <= i < |rows| ==>
                  rows[i].actor == actor && rows[i].batch == batch && rows[i].recipient in recipients
                  && rows[i].recipient !in refused
        decreases |recipients| - start
      {
        var end := if start + perChunk < |recipients| then start + perChunk else |recipients|;
        var chunk := recipients[start..end];
        var before := rows;
        var created := Chunk(actor, batch, digest, chunk, refused, fails(chunks));
        KeepsRows(before, rows);
        enqueued := enqueued + created;
        if fails(chunks) { return enqueued, false; }
        forall j | start <= j < end && recipients[j] !in refused ensures HasRow(actor, batch, recipients[j]) {
          assert recipients[j] == chunk[j - start];
        }
        start, chunks := start + perChunk, chunks + 1;
      }
      complete := true;
      forall k: nat | k * perChunk < |recipients| ensures !fails(k) {
        assert k < chunks || k * perChunk >= chunks * perChunk;
      }
    }
  }
}
