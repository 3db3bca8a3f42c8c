/** The two journals: the in-memory sink, and the PostgreSQL table with its paged export. */
module AuditSinks {
  import opened Wrappers
  import opened Events
  import opened AuditChain

  // ---- In memory ---------------------------------------------------------------------------

  datatype Stored = Stored(event: Event, prevHash: string, hash: string)

  function Chain(c: Codec, e: Event, prev: string): Stored {
    Stored(e, prev, ComputeHash(c, prev, e))
  }

  function StoredPrev(events: seq<Stored>, i: nat): string
    requires i <= |events|
  {
    if i == 0 then GENESIS else events[i - 1].hash
  }

  predicate IntactAt(c: Codec, events: seq<Stored>, i: nat)
    requires i < |events|
  {
    events[i] == Chain(c, events[i].event, StoredPrev(events, i))
  }

  predicate Intact(c: Codec, events: seq<Stored>) {
    forall i: nat :: i < |events| ==> IntactAt(c, events, i)
  }

  function Recorded(events: seq<Stored>): seq<Event> {
    seq(|events|, i requires 0 <= i < |events| => events[i].event)
  }

  class InMemoryAuditSink {
    const codec: Codec
    var events: seq<Stored>

    predicate Valid()
      reads this
    {
      Intact(codec, events)
    }

    constructor (codec: Codec)
      ensures Valid() && this.codec == codec && events == []
    {
      this.codec := codec;
      events := [];
    }

    /** Every record extends an intact chain, and the journal then reads as before plus the event. */
    method Record(event: Event)
      requires Valid()
      modifies this
      ensures Valid()
      ensures |events| == |old(events)| + 1 && events[..|old(events)|] == old(events)
      ensures Recorded(events) == Recorded(old(events)) + [event]
    {
      var prev := if |events| > 0 then events[|events| - 1].hash else GENESIS;
      ghost var before := events;
      events := events + [Chain(codec, event, prev)];
      forall i: nat | i < |events|
        ensures IntactAt(codec, events, i)
      {
        assert i < |before| ==> IntactAt(codec, before, i);
      }
    }

    method VerifyChain() returns (ok: bool)
      ensures ok <==> Intact(codec, events)
    {
      var prev := GENESIS;
      for i := 0 to |events|
        invariant prev == StoredPrev(events, i)
        invariant forall k: nat :: k < i ==> IntactAt(codec, events, k)
      {
        var stored := events[i];
        if stored.prevHash != prev || stored.hash != ComputeHash(codec, prev, stored.event) {
          assert !IntactAt(codec, events, i);
          return false;
        }
        prev := stored.hash;
      }
      return true;
    }
  }

  /** The row that persists a stored event, with its reporting columns. */
  function RowOf(c: Codec, s: Stored, seqNo: int): Row {
    Row(seqNo, c.canonical(s.event), s.prevHash, s.hash, Some(Columns(s.event)))
  }

  /** Rows written from stored events, whatever their numbers. */
  predicate Persists(c: Codec, rows: seq<Row>, events: seq<Stored>) {
    |rows| == |events| && forall i :: 0 <= i < |rows| ==> rows[i] == RowOf(c, events[i], rows[i].seqNo)
  }

  /** The two verifications agree on what was written from the same events. */
  lemma SinksAgree(c: Codec, rows: seq<Row>, events: seq<Stored>)
    requires Persists(c, rows, events)
    requires forall s :: s in events ==> Faithful(c, s.event)
    ensures Verified(c, GENESIS, rows) <==> Intact(c, events)
  {
    forall i: nat | i < |rows|
      ensures SoundAt(c, GENESIS, rows, i) <==> IntactAt(c, events, i)
    {
      assert Prev(GENESIS, rows, i) == StoredPrev(events, i);
      assert events[i] in events;
      RowSound(c, events[i], rows[i].seqNo, Prev(GENESIS, rows, i));
    }
  }

  lemma RowSound(c: Codec, s: Stored, seqNo: int, prev: string)
    requires Faithful(c, s.event)
    ensures Sound(c, RowOf(c, s, seqNo), prev) <==> s == Chain(c, s.event, prev)
  {
    var row := RowOf(c, s, seqNo);
    assert c.decode(row.payload) == Some(s.event);
    assert ColumnsMatch(c, row);
  }

  /** Whatever is stored in the reporting columns of a row that verifies is what was hashed, in each of the seven. */
  lemma ColumnsAreHashed(c: Codec, s: Stored, seqNo: int, prev: string, shown: map<string, string>)
    requires Faithful(c, s.event) && Sound(c, RowOf(c, s, seqNo).(columns := Some(shown)), prev)
    ensures "kind" in shown ==> shown["kind"] == s.event.kind
    ensures "subject" in shown ==> shown["subject"] == s.event.subject
    ensures "actor" in shown ==> shown["actor"] == s.event.actor
    ensures "action" in shown ==> shown["action"] == s.event.action
    ensures "resource" in shown ==> shown["resource"] == s.event.resource
    ensures "outcome" in shown ==> shown["outcome"] == s.event.outcome
    ensures "reason" in shown ==> shown["reason"] == s.event.reason
    ensures RowOf(c, s, seqNo).columns.value.Keys
            == {"kind", "subject", "actor", "action", "resource", "outcome", "reason"}
  {
    var row := RowOf(c, s, seqNo);
    var told := row.columns.value;
    forall name | name in shown && name in told
      ensures shown[name] == told[name]
    {
      assert c.field(row.payload, name) == told[name];
    }
  }

  // ---- The table ---------------------------------------------------------------------------

  predicate Ordered(table: seq<Row>) {
    forall i, j :: 0 <= i < j < |table| ==> table[i].seqNo < table[j].seqNo
  }

  predicate InRange(row: Row, since: int, until: Option<int>) {
    row.seqNo > since && (until.None? || row.seqNo <= until.value)
  }

  /** The rows of a range of numbers, in table order. */
  function Range(table: seq<Row>, since: int, until: Option<int>): seq<Row> {
    if table == [] then []
    else
      var rest := Range(table[1..], since, until);
      if InRange(table[0], since, until) then [table[0]] + rest else rest
  }

  lemma {:induction false} RangeHas(table: seq<Row>, since: int, until: Option<int>, row: Row)
    ensures row in Range(table, since, until) <==> row in table && InRange(row, since, until)
  {
    if table == [] {
    } else {
      assert row in table <==> row == table[0] || row in table[1..];
      RangeHas(table[1..], since, until, row);
    }
  }

  lemma {:induction false} RangeAppends(a: seq<Row>, b: seq<Row>, since: int, until: Option<int>)
    ensures Range(a + b, since, until) == Range(a, since, until) + Range(b, since, until)
  {
    if a == [] {
      assert a + b == b;
    } else {
      assert (a + b)[0] == a[0] && (a + b)[1..] == a[1..] + b;
      RangeAppends(a[1..], b, since, until);
    }
  }

  lemma {:induction false} RangeOrdered(table: seq<Row>, since: int, until: Option<int>)
    requires Ordered(table)
    ensures Ordered(Range(table, since, until))
  {
    if table == [] {
    } else {
      var rest := Range(table[1..], since, until);
      RangeOrdered(table[1..], since, until);
      forall j | 0 <= j < |rest|
        ensures rest[j] in table[1..]
      {
        RangeHas(table[1..], since, until, rest[j]);
      }
    }
  }

  /** Every row of the range except those up to its `m`-th: what a later page still has to deliver. */
  lemma {:induction false} RangeResumes(table: seq<Row>, since: int, until: Option<int>, m: nat)
    requires Ordered(table) && 0 < m <= |Range(table, since, until)|
    ensures var r := Range(table, since, until);
            Range(table, r[m - 1].seqNo, until) == r[m..]
  {
    var r := Range(table, since, until);
    var last := r[m - 1].seqNo;
    RangeHas(table, since, until, r[m - 1]);
    var rest := Range(table[1..], since, until);
    if InRange(table[0], since, until) {
      assert r == [table[0]] + rest;
      if m == 1 {
        RangeFromFirst(table[1..], since, last, until);
      } else {
        assert r[m - 1] == rest[m - 2];
        RangeHas(table[1..], since, until, rest[m - 2]);
        RangeResumes(table[1..], since, until, m - 1);
        assert table[0].seqNo < last;
        assert r[m..] == rest[m - 1..];
      }
    } else {
      RangeResumes(table[1..], since, until, m);
      assert !InRange(table[0], last, until);
    }
  }

  /** Rows that all come after `last` are selected alike from `since` and from `last`. */
  lemma {:induction false} RangeFromFirst(table: seq<Row>, since: int, last: int, until: Option<int>)
    requires since <= last && forall row :: row in table ==> row.seqNo > last
    ensures Range(table, last, until) == Range(table, since, until)
  {
    if table == [] {
    } else {
      assert table[0] in table;
      RangeFromFirst(table[1..], since, last, until);
    }
  }

  // ---- Paged export ------------------------------------------------------------------------

  predicate IsPrefix(a: seq<Row>, b: seq<Row>) {
    |a| <= |b| && b[..|a|] == a
  }

  /** The table as the queries of one export see it: append-only, ordered, and still after the last snapshot. */
  predicate Grows(snapshots: seq<seq<Row>>) {
    && |snapshots| > 0
    && (forall i :: 0 <= i < |snapshots| ==> Ordered(snapshots[i]))
    && forall i, j :: 0 <= i <= j < |snapshots| ==> IsPrefix(snapshots[i], snapshots[j])
  }

  function At(snapshots: seq<seq<Row>>, i: nat): seq<Row>
    requires |snapshots| > 0
  {
    if i < |snapshots| then snapshots[i] else snapshots[|snapshots| - 1]
  }

  lemma RangeGrows(a: seq<Row>, b: seq<Row>, since: int, until: Option<int>)
    requires IsPrefix(a, b)
    ensures IsPrefix(Range(a, since, until), Range(b, since, until))
  {
    RangeAppends(a, b[|a|..], since, until);
    assert a + b[|a|..] == b;
  }

  lemma AtGrows(snapshots: seq<seq<Row>>, i: nat, j: nat)
    requires Grows(snapshots) && i <= j
    ensures Ordered(At(snapshots, i)) && IsPrefix(At(snapshots, i), At(snapshots, j))
  {
  }

  function Take(rows: seq<Row>, n: nat): seq<Row> {
    if |rows| <= n then rows else rows[..n]
  }

  /** One page: what the query returns when everything of the range up to `last` is out already. */
  lemma PageContinues(table: seq<Row>, since: int, until: Option<int>, out: seq<Row>, last: int, batch: nat)
    requires Ordered(table) && IsPrefix(out, Range(table, since, until))
    requires last == if out == [] then since else out[|out| - 1].seqNo
    ensures var page := Take(Range(table, last, until), batch);
            && IsPrefix(out + page, Range(table, since, until))
            && (|page| < batch ==> out + page == Range(table, since, until))
            && (forall i :: 0 <= i < |page| ==> page[i].seqNo > last)
  {
    var all := Range(table, since, until);
    if out != [] {
      RangeResumes(table, since, until, |out|);
      assert all[|out| - 1] == out[|out| - 1];
    }
    assert Range(table, last, until) == all[|out|..];
    assert all == out + all[|out|..];
    var page := Take(all[|out|..], batch);
    assert IsPrefix(out + page, all);
    forall i | 0 <= i < |page|
      ensures page[i].seqNo > last
    {
      RangeHas(table, last, until, page[i]);
    }
  }

  /** What is out before query `q` is a front of the range, now and at the end, and `last` is its last number. */
  predicate Delivered(
    snapshots: seq<seq<Row>>, since: int, until: Option<int>, q: nat, out: seq<Row>, last: int)
    requires |snapshots| > 0
  {
    && last == (if out == [] then since else out[|out| - 1].seqNo)
    && IsPrefix(out, Range(At(snapshots, q), since, until))
    && IsPrefix(out, Range(At(snapshots, |snapshots|), since, until))
  }

  function Page(snapshots: seq<seq<Row>>, q: nat, last: int, until: Option<int>, batch: nat): seq<Row>
    requires |snapshots| > 0
  {
    Take(Range(At(snapshots, q), last, until), batch)
  }

  lemma PrefixInLater(snapshots: seq<seq<Row>>, since: int, until: Option<int>, out: seq<Row>, i: nat, j: nat)
    requires Grows(snapshots) && (i <= j || j >= |snapshots|)
    requires IsPrefix(out, Range(At(snapshots, i), since, until))
    ensures IsPrefix(out, Range(At(snapshots, j), since, until))
  {
    AtGrows(snapshots, i, if i <= j then j else i);
    RangeGrows(At(snapshots, i), At(snapshots, j), since, until);
  }

  lemma PageDelivers(
    snapshots: seq<seq<Row>>, since: int, until: Option<int>, q: nat, out: seq<Row>, last: int, batch: nat,
    page: seq<Row>, more: seq<Row>, next: int)
    requires Grows(snapshots) && Delivered(snapshots, since, until, q, out, last)
    requires page == Page(snapshots, q, last, until, batch) && more == out + page
    requires next == if more == [] then since else more[|more| - 1].seqNo
    ensures Delivered(snapshots, since, until, q + 1, more, next)
    ensures |page| < batch ==> more == Range(At(snapshots, q), since, until)
  {
    AtGrows(snapshots, q, q);
    PageContinues(At(snapshots, q), since, until, out, last, batch);
    PrefixInLater(snapshots, since, until, more, q, q + 1);
    PrefixInLater(snapshots, since, until, more, q, |snapshots|);
  }

  /** A full page of at least one row lengthens what is out, within the range at the end. */
  lemma FullPageAdvances(
    snapshots: seq<seq<Row>>, since: int, until: Option<int>, q: nat, out: seq<Row>, last: int, page: seq<Row>,
    more: seq<Row>)
    requires |snapshots| > 0 && Delivered(snapshots, since, until, q, more, last)
    requires page != [] && more == out + page
    ensures |out| < |more| <= |Range(At(snapshots, |snapshots|), since, until)|
  {
  }

  /** Where an export stands after some queries. */
  datatype Cursor = Cursor(out: seq<Row>, last: int, done: bool)

  /** What one query and its page do; nothing after the end. */
  function NextPage(snapshots: seq<seq<Row>>, until: Option<int>, batch: nat, q: nat, at: Cursor): Cursor
    requires |snapshots| > 0
  {
    if at.done then at
    else
      var page := Page(snapshots, q, at.last, until, batch);
      Cursor(at.out + page, if page == [] then at.last else page[|page| - 1].seqNo, |page| < batch)
  }

  function AfterQueries(snapshots: seq<seq<Row>>, since: int, until: Option<int>, batch: nat, n: nat): Cursor
    requires |snapshots| > 0
  {
    if n == 0 then Cursor([], since, false)
    else NextPage(snapshots, until, batch, n - 1, AfterQueries(snapshots, since, until, batch, n - 1))
  }

  /** An export before query `q`: what is out, and how many rows of the range at the end are still to go. */
  predicate Standing(
    snapshots: seq<seq<Row>>, since: int, until: Option<int>, batch: nat, q: nat, at: Cursor, left: nat)
  {
    && Grows(snapshots)
    && at == AfterQueries(snapshots, since, until, batch, q)
    && Delivered(snapshots, since, until, q, at.out, at.last)
    && left == |Range(At(snapshots, |snapshots|), since, until)| - |at.out|
  }

  /** Exactly the rows of the range in the table that the last query saw. */
  predicate Exported(snapshots: seq<seq<Row>>, since: int, until: Option<int>, queries: nat, out: seq<Row>) {
    queries >= 1 && |snapshots| > 0 && out == Range(At(snapshots, queries - 1), since, until)
  }

  /** One query: the page goes out, and the export stands one query further. */
  method Query(
    snapshots: seq<seq<Row>>, since: int, until: Option<int>, batch: nat, q: nat, at: Cursor, ghost left: nat)
    returns (next: Cursor, ghost rest: nat)
    requires Standing(snapshots, since, until, batch, q, at, left) && !at.done
    ensures Standing(snapshots, since, until, batch, q + 1, next, rest)
    ensures next.done ==> Exported(snapshots, since, until, q + 1, next.out)
    ensures !next.done && batch >= 1 ==> rest < left
  {
    var page := Page(snapshots, q, at.last, until, batch);
    var out, last := Yield(at.out, at.last, page);
    next := Cursor(out, last, |page| < batch);
    rest := PageStands(snapshots, since, until, batch, q, at, left, page, next);
  }

  lemma PageStands(
    snapshots: seq<seq<Row>>, since: int, until: Option<int>, batch: nat, q: nat, at: Cursor, left: nat,
    page: seq<Row>, next: Cursor)
    returns (rest: nat)
    requires Standing(snapshots, since, until, batch, q, at, left) && !at.done
    requires page == Page(snapshots, q, at.last, until, batch)
    requires next.out == at.out + page && next.done == (|page| < batch)
    requires next.last == if page == [] then at.last else page[|page| - 1].seqNo
    ensures Standing(snapshots, since, until, batch, q + 1, next, rest)
    ensures next.done ==> Exported(snapshots, since, until, q + 1, next.out)
    ensures !next.done && batch >= 1 ==> rest < left
  {
    PageDelivers(snapshots, since, until, q, at.out, at.last, batch, page, next.out, next.last);
    assert next == NextPage(snapshots, until, batch, q, at);
    if page != [] {
      FullPageAdvances(snapshots, since, until, q + 1, at.out, next.last, page, next.out);
    }
    rest := |Range(At(snapshots, |snapshots|), since, until)| - |next.out|;
  }

  lemma Stands(snapshots: seq<seq<Row>>, since: int, until: Option<int>, batch: nat)
    requires Grows(snapshots)
    ensures Standing(snapshots, since, until, batch, 0, Cursor([], since, false),
                     |Range(At(snapshots, |snapshots|), since, until)|)
  {
  }

  /**
   * The paged export: with any batch size of at least one, exactly the rows of the range in the table that the last
   * query saw, once each and in order, however the table grew between the pages.
   */
  method Export(snapshots: seq<seq<Row>>, since: int, until: Option<int>, batch: nat)
    returns (out: seq<Row>, queries: nat)
    requires Grows(snapshots) && batch >= 1
    ensures Exported(snapshots, since, until, queries, out)
    ensures AfterQueries(snapshots, since, until, batch, queries).done
    ensures AfterQueries(snapshots, since, until, batch, queries).out == out
  {
    var at := Cursor([], since, false);
    ghost var left: nat := |Range(At(snapshots, |snapshots|), since, until)|;
    queries := 0;
    Stands(snapshots, since, until, batch);
    while !at.done
      invariant Standing(snapshots, since, until, batch, queries, at, left)
      invariant at.done ==> Exported(snapshots, since, until, queries, at.out)
      decreases !at.done, left
    {
      at, left := Query(snapshots, since, until, batch, queries, at, left);
      queries := queries + 1;
    }
    out := at.out;
  }

  /** With a batch size of zero no number of queries ends the export, and nothing is ever delivered. */
  lemma {:induction false} ZeroBatchNeverEnds(snapshots: seq<seq<Row>>, since: int, until: Option<int>, n: nat)
    requires |snapshots| > 0
    ensures AfterQueries(snapshots, since, until, 0, n) == Cursor([], since, false)
  {
    if n == 0 {
    } else {
      ZeroBatchNeverEnds(snapshots, since, until, n - 1);
      assert Page(snapshots, n - 1, since, until, 0) == [];
    }
  }

  /** The rows of one page go out one by one; `last` follows them. */
  method Yield(delivered: seq<Row>, previous: int, page: seq<Row>) returns (out: seq<Row>, last: int)
    ensures out == delivered + page
    ensures last == if page == [] then previous else page[|page| - 1].seqNo
  {
    out, last := delivered, previous;
    for i := 0 to |page|
      invariant out == delivered + page[..i]
      invariant last == if i == 0 then previous else page[i - 1].seqNo
    {
      last := page[i].seqNo;
      out := out + [page[i]];
      assert page[..i + 1] == page[..i] + [page[i]];
    }
    assert page[..|page|] == page;
  }

  /** In order and once each: the delivered numbers increase, and the rows are those of the range and no others. */
  lemma ExportIsExact(table: seq<Row>, since: int, until: Option<int>)
    requires Ordered(table)
    ensures Ordered(Range(table, since, until))
    ensures forall row :: row in Range(table, since, until) <==>
              row in table && since < row.seqNo && (until.Some? ==> row.seqNo <= until.value)
  {
    RangeOrdered(table, since, until);
    forall row
      ensures row in Range(table, since, until) <==> row in table && InRange(row, since, until)
    {
      RangeHas(table, since, until, row);
    }
  }

  // ---- Appending and pruning ---------------------------------------------------------------

  /** The append that runs under the lock: it follows whatever row is last in the table. */
  function Appended(c: Codec, table: seq<Row>, e: Event, seqNo: int): seq<Row> {
    table + [RowOf(c, Chain(c, e, Head(GENESIS, table)), seqNo)]
  }

  class PostgresAuditSink {
    const codec: Codec
    var table: seq<Row>

    predicate Valid()
      reads this
    {
      Ordered(table)
    }

    constructor (codec: Codec)
      ensures Valid() && this.codec == codec && table == []
    {
      this.codec := codec;
      table := [];
    }

    /** A failed transaction leaves nothing behind; a committed one extends the verified chain by the event. */
    method Record(event: Event, seqNo: int, fails: bool)
      requires Valid()
      requires table != [] ==> table[|table| - 1].seqNo < seqNo
      modifies this
      ensures Valid()
      ensures old(Verified(codec, GENESIS, table)) && Faithful(codec, event) ==> Verified(codec, GENESIS, table)
      ensures table == if fails then old(table) else Appended(codec, old(table), event, seqNo)
    {
      var payload := codec.canonical(event);
      if fails {
        return;
      }
      var prevHash := if table != [] then table[|table| - 1].hash else GENESIS;
      if Verified(codec, GENESIS, table) && Faithful(codec, event) {
        AppendVerifies(codec, GENESIS, table, event, seqNo);
      }
      table := table + [Row(seqNo, payload, prevHash, ComputeHash(codec, prevHash, event), Some(Columns(event)))];
    }
  }

  /** An append extends a chain that verifies from `anchor` exactly when it found the chain's head. */
  lemma AppendVerifies(c: Codec, anchor: string, table: seq<Row>, e: Event, seqNo: int)
    requires Faithful(c, e) && Verified(c, anchor, table)
    ensures Verified(c, anchor, Appended(c, table, e, seqNo)) <==> table != [] || anchor == GENESIS
  {
    var s := Chain(c, e, Head(GENESIS, table));
    var row := RowOf(c, s, seqNo);
    VerifiedSplit(c, anchor, table, [row]);
    RowSound(c, s, seqNo, Head(anchor, table));
    assert SoundAt(c, Head(anchor, table), [row], 0) <==> Sound(c, row, Head(anchor, table));
  }

  /** Cutting an ordered table at a number splits it into what an export up to it holds and what is left. */
  lemma {:induction false} CutAt(table: seq<Row>, low: int, cut: int)
    requires Ordered(table) && low <= cut && forall row :: row in table ==> row.seqNo > low
    ensures Range(table, low, Some(cut)) + Range(table, cut, None) == table
  {
    if table == [] {
    } else {
      assert table[0] in table;
      var rest := table[1..];
      CutAt(rest, low, cut);
      assert table == [table[0]] + rest;
      if table[0].seqNo > cut {
        NoneUpTo(rest, low, cut);
        assert Range(table, low, Some(cut)) == [];
        assert Range(table, cut, None) == [table[0]] + Range(rest, cut, None);
      } else {
        assert Range(table, low, Some(cut)) == [table[0]] + Range(rest, low, Some(cut));
        assert Range(table, cut, None) == Range(rest, cut, None);
      }
    }
  }

  lemma {:induction false} NoneUpTo(table: seq<Row>, low: int, cut: int)
    requires forall row :: row in table ==> row.seqNo > cut
    ensures Range(table, low, Some(cut)) == []
  {
    if table == [] {
    } else {
      assert table[0] in table;
      NoneUpTo(table[1..], low, cut);
    }
  }

  /** What an archive file keeps of the rows: everything but the reporting columns. */
  function Archived(rows: seq<Row>): seq<Row> {
    seq(|rows|, i requires 0 <= i < |rows| => rows[i].(columns := None))
  }

  lemma ArchiveVerifies(c: Codec, anchor: string, rows: seq<Row>)
    requires Verified(c, anchor, rows)
    ensures Verified(c, anchor, Archived(rows)) && Head(anchor, Archived(rows)) == Head(anchor, rows)
  {
    var archive := Archived(rows);
    forall i: nat | i < |rows|
      ensures SoundAt(c, anchor, archive, i)
    {
      assert SoundAt(c, anchor, rows, i);
      assert Prev(anchor, archive, i) == Prev(anchor, rows, i);
    }
  }

  /**
   * Retention, at the first prune as at any later one: after the rows up to `cut` were exported and deleted, the
   * archive verifies from the table's anchor, the live table from the archive's head, and the next append keeps that
   * up exactly when some row survived the cut (or the head happens to be GENESIS).
   */
  lemma PruneKeepsTheChain(c: Codec, anchor: string, table: seq<Row>, low: int, cut: int, e: Event, seqNo: int)
    requires Ordered(table) && Verified(c, anchor, table) && Faithful(c, e)
    requires low <= cut && forall row :: row in table ==> row.seqNo > low
    ensures var archive, live := Archived(Range(table, low, Some(cut))), Range(table, cut, None);
            && Verified(c, anchor, archive)
            && Verified(c, Head(anchor, archive), live)
            && (Verified(c, Head(anchor, archive), Appended(c, live, e, seqNo))
                <==> live != [] || Head(anchor, archive) == GENESIS)
  {
    var archive, live := Range(table, low, Some(cut)), Range(table, cut, None);
    CutAt(table, low, cut);
    VerifiedSplit(c, anchor, archive, live);
    ArchiveVerifies(c, anchor, archive);
    AppendVerifies(c, Head(anchor, archive), live, e, seqNo);
  }
}
