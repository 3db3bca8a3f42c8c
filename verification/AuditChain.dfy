/** Verification of a stretch of the hash chain, and what a verified stretch proves. */
module AuditChain {
  import opened Wrappers
  import opened Events

  /** A stored row; an archive's rows carry no reporting columns. */
  datatype Row = Row(seqNo: int, payload: string, prevHash: string, hash: string, columns: Option<map<string, string>>)

  datatype ChainReport = ChainReport(
    ok: bool, checked: nat, firstSeq: Option<int>, lastSeq: Option<int>, anchor: string,
    head: Option<string>, breakAt: Option<int>, detail: string)

  datatype ReadError = Unreadable

  // ---- Specification -----------------------------------------------------------------------

  predicate HashMatches(c: Codec, row: Row) {
    var e := c.decode(row.payload);
    e.Some? && ComputeHash(c, row.prevHash, e.value) == row.hash
  }

  predicate ColumnsMatch(c: Codec, row: Row) {
    row.columns.Some? ==>
      forall name :: name in row.columns.value ==> c.field(row.payload, name) == row.columns.value[name]
  }

  /** The row follows `prev`, hashes to what it says, and reports what was hashed. */
  predicate Sound(c: Codec, row: Row, prev: string) {
    row.prevHash == prev && HashMatches(c, row) && ColumnsMatch(c, row)
  }

  function Prev(anchor: string, rows: seq<Row>, i: nat): string
    requires i <= |rows|
  {
    if i == 0 then anchor else rows[i - 1].hash
  }

  function Head(anchor: string, rows: seq<Row>): string {
    Prev(anchor, rows, |rows|)
  }

  predicate SoundAt(c: Codec, anchor: string, rows: seq<Row>, i: nat)
    requires i < |rows|
  {
    Sound(c, rows[i], Prev(anchor, rows, i))
  }

  predicate Verified(c: Codec, anchor: string, rows: seq<Row>) {
    forall i: nat :: i < |rows| ==> SoundAt(c, anchor, rows, i)
  }

  function Success(anchor: string, rows: seq<Row>): ChainReport {
    if rows == [] then ChainReport(true, 0, None, None, anchor, None, None, "")
    else ChainReport(true, |rows|, Some(rows[0].seqNo), Some(rows[|rows| - 1].seqNo), anchor,
                     Some(Head(anchor, rows)), None, "")
  }

  /** The report on the first row that does not belong, or the exception that reading it raises. */
  function Break(c: Codec, anchor: string, rows: seq<Row>, i: nat): Result<ChainReport, ReadError>
    requires i < |rows| && !SoundAt(c, anchor, rows, i)
  {
    var row, prev := rows[i], Prev(anchor, rows, i);
    if row.prevHash == prev && c.decode(row.payload).None? then Err(Unreadable)
    else
      var linked := row.prevHash == prev;
      Ok(ChainReport(
           false, i, Some(rows[0].seqNo), Some(row.seqNo), anchor,
           if i == 0 && !linked then None else Some(prev),
           Some(row.seqNo),
           if i == 0 && !linked then "anchor mismatch"
           else if !linked then "prev_hash mismatch"
           else if !HashMatches(c, row) then "hash mismatch"
           else "column mismatch"))
  }

  /** The first `n` rows belong and the next, if any, does not. */
  predicate FirstBreak(c: Codec, anchor: string, rows: seq<Row>, n: nat) {
    n <= |rows| && Verified(c, anchor, rows[..n]) && (n < |rows| ==> !SoundAt(c, anchor, rows, n))
  }

  function ReportAt(c: Codec, anchor: string, rows: seq<Row>, n: nat): Result<ChainReport, ReadError>
    requires FirstBreak(c, anchor, rows, n)
  {
    if n == |rows| then Ok(Success(anchor, rows)) else Break(c, anchor, rows, n)
  }

  /** `r` describes the first row that does not belong, or says that all of them do. */
  ghost predicate Reports(c: Codec, anchor: string, rows: seq<Row>, r: Result<ChainReport, ReadError>) {
    exists n: nat :: FirstBreak(c, anchor, rows, n) && r == ReportAt(c, anchor, rows, n)
  }

  // ---- The loop ----------------------------------------------------------------------------

  method VerifyRows(c: Codec, rows: seq<Row>, anchor: string) returns (r: Result<ChainReport, ReadError>)
    ensures Reports(c, anchor, rows, r)
    ensures (r.Ok? && r.value.ok) <==> Verified(c, anchor, rows)
  {
    var checked, firstSeq, lastSeq, prev := 0, None, None, anchor;
    for i := 0 to |rows|
      invariant checked == i
      invariant Verified(c, anchor, rows[..i])
      invariant prev == Prev(anchor, rows, i)
      invariant firstSeq == if i == 0 then None else Some(rows[0].seqNo)
      invariant lastSeq == if i == 0 then None else Some(rows[i - 1].seqNo)
    {
      var row := rows[i];
      assert !SoundAt(c, anchor, rows, i) ==>
          FirstBreak(c, anchor, rows, i) && ReportAt(c, anchor, rows, i) == Break(c, anchor, rows, i);
      if firstSeq.None? {
        firstSeq := Some(row.seqNo);
        if row.prevHash != anchor {
          return Ok(ChainReport(false, 0, firstSeq, firstSeq, anchor, None, firstSeq, "anchor mismatch"));
        }
      }
      if row.prevHash != prev {
        return Ok(ChainReport(
                    false, checked, firstSeq, Some(row.seqNo), anchor, Some(prev), Some(row.seqNo),
                    "prev_hash mismatch"));
      }
      var event := c.decode(row.payload);
      if event.None? {
        return Err(Unreadable);
      }
      if ComputeHash(c, row.prevHash, event.value) != row.hash {
        return Ok(ChainReport(
                    false, checked, firstSeq, Some(row.seqNo), anchor, Some(prev), Some(row.seqNo),
                    "hash mismatch"));
      }
      if row.columns.Some?
         && exists name :: name in row.columns.value && c.field(row.payload, name) != row.columns.value[name] {
        return Ok(ChainReport(
                    false, checked, firstSeq, Some(row.seqNo), anchor, Some(prev), Some(row.seqNo),
                    "column mismatch"));
      }
      VerifiedStep(c, anchor, rows, i);
      prev := row.hash;
      checked := checked + 1;
      lastSeq := Some(row.seqNo);
    }
    assert rows[..|rows|] == rows;
    r := Ok(ChainReport(true, checked, firstSeq, lastSeq, anchor, if checked > 0 then Some(prev) else None, None, ""));
    assert FirstBreak(c, anchor, rows, |rows|);
  }

  lemma VerifiedStep(c: Codec, anchor: string, rows: seq<Row>, i: nat)
    requires i < |rows|
    ensures Verified(c, anchor, rows[..i + 1]) <==>
            Verified(c, anchor, rows[..i]) && SoundAt(c, anchor, rows, i)
  {
    var more, less := rows[..i + 1], rows[..i];
    forall k: nat | k < i
      ensures SoundAt(c, anchor, more, k) <==> SoundAt(c, anchor, less, k)
    {
      assert more[k] == less[k] && Prev(anchor, more, k) == Prev(anchor, less, k);
    }
    assert more[i] == rows[i] && Prev(anchor, more, i) == Prev(anchor, rows, i);
    assert SoundAt(c, anchor, more, i) <==> SoundAt(c, anchor, rows, i);
  }

  lemma SoundInPrefix(c: Codec, anchor: string, rows: seq<Row>, i: nat, n: nat)
    requires i <= |rows| && n <= |rows|
    ensures i < n && Verified(c, anchor, rows[..n]) ==> SoundAt(c, anchor, rows, i)
  {
    if i < n {
      assert SoundAt(c, anchor, rows[..n], i) || !Verified(c, anchor, rows[..n]);
      assert rows[..n][i] == rows[i] && Prev(anchor, rows[..n], i) == Prev(anchor, rows, i);
    }
  }

  // ---- Splitting ---------------------------------------------------------------------------

  /** A sequence verifies exactly when its front does, and its rest does from the front's head. */
  lemma VerifiedSplit(c: Codec, anchor: string, a: seq<Row>, b: seq<Row>)
    ensures Verified(c, anchor, a + b) <==> Verified(c, anchor, a) && Verified(c, Head(anchor, a), b)
    ensures Head(anchor, a + b) == Head(Head(anchor, a), b)
  {
    var ab := a + b;
    forall i: nat | i < |a|
      ensures SoundAt(c, anchor, ab, i) <==> SoundAt(c, anchor, a, i)
    {
      assert ab[i] == a[i] && Prev(anchor, ab, i) == Prev(anchor, a, i);
    }
    forall i: nat | i < |b|
      ensures SoundAt(c, anchor, ab, |a| + i) <==> SoundAt(c, Head(anchor, a), b, i)
    {
      assert ab[|a| + i] == b[i] && Prev(anchor, ab, |a| + i) == Prev(Head(anchor, a), b, i);
    }
    if Verified(c, anchor, a) && Verified(c, Head(anchor, a), b) {
      forall i: nat | i < |ab|
        ensures SoundAt(c, anchor, ab, i)
      {
        if i >= |a| {
          assert SoundAt(c, Head(anchor, a), b, i - |a|);
        }
      }
    }
  }

  /** The report on `a + b`, from the report on `a` and the report on `b` from `a`'s head. */
  function Join(ra: Result<ChainReport, ReadError>, rb: Result<ChainReport, ReadError>): Result<ChainReport, ReadError>
  {
    if ra.Err? || !ra.value.ok then ra
    else if rb.Err? then rb
    else
      var x, y := ra.value, rb.value;
      Ok(ChainReport(
           y.ok, x.checked + y.checked, x.firstSeq,
           if y.lastSeq.None? then x.lastSeq else y.lastSeq,
           x.anchor,
           if y.head.None? then x.head else y.head,
           y.breakAt,
           if y.detail == "anchor mismatch" then "prev_hash mismatch" else y.detail))
  }

  lemma BreakUnique(c: Codec, anchor: string, rows: seq<Row>, n: nat, m: nat)
    requires FirstBreak(c, anchor, rows, n) && FirstBreak(c, anchor, rows, m)
    ensures n == m
  {
    SoundInPrefix(c, anchor, rows, n, m);
    SoundInPrefix(c, anchor, rows, m, n);
  }

  /** A break in the front is the break of the whole. */
  lemma BreakInFront(c: Codec, anchor: string, a: seq<Row>, b: seq<Row>, n: nat)
    requires FirstBreak(c, anchor, a, n) && n < |a|
    ensures FirstBreak(c, anchor, a + b, n) && ReportAt(c, anchor, a + b, n) == ReportAt(c, anchor, a, n)
  {
    assert (a + b)[..n] == a[..n] && (a + b)[n] == a[n] && Prev(anchor, a + b, n) == Prev(anchor, a, n);
    assert SoundAt(c, anchor, a + b, n) <==> SoundAt(c, anchor, a, n);
  }

  lemma BreakInRest(c: Codec, anchor: string, a: seq<Row>, b: seq<Row>, m: nat)
    requires Verified(c, anchor, a) && FirstBreak(c, Head(anchor, a), b, m)
    ensures FirstBreak(c, anchor, a + b, |a| + m)
  {
    var ab := a + b;
    assert ab[..|a| + m] == a + b[..m];
    VerifiedSplit(c, anchor, a, b[..m]);
    if m < |b| {
      assert Prev(anchor, ab, |a| + m) == Prev(Head(anchor, a), b, m) && ab[|a| + m] == b[m];
      assert SoundAt(c, anchor, ab, |a| + m) <==> SoundAt(c, Head(anchor, a), b, m);
    }
  }

  lemma ReportInFront(c: Codec, anchor: string, a: seq<Row>, b: seq<Row>, k: nat, n: nat)
    requires FirstBreak(c, anchor, a + b, k) && FirstBreak(c, anchor, a, n) && n < |a|
    ensures ReportAt(c, anchor, a + b, k) == ReportAt(c, anchor, a, n)
  {
    BreakInFront(c, anchor, a, b, n);
    BreakUnique(c, anchor, a + b, k, n);
  }

  lemma BreakJoins(c: Codec, anchor: string, a: seq<Row>, b: seq<Row>, m: nat)
    requires a != [] && m < |b|
    requires !SoundAt(c, Head(anchor, a), b, m) && !SoundAt(c, anchor, a + b, |a| + m)
    ensures Break(c, anchor, a + b, |a| + m) == Join(Ok(Success(anchor, a)), Break(c, Head(anchor, a), b, m))
  {
    var ab := a + b;
    assert ab[0] == a[0] && Prev(anchor, ab, |a| + m) == Prev(Head(anchor, a), b, m) && ab[|a| + m] == b[m];
  }

  lemma SuccessJoins(anchor: string, a: seq<Row>, b: seq<Row>)
    requires a != []
    ensures Ok(Success(anchor, a + b)) == Join(Ok(Success(anchor, a)), Ok(Success(Head(anchor, a), b)))
  {
    var ab := a + b;
    assert ab[0] == a[0];
    assert ab[|ab| - 1] == if b == [] then a[|a| - 1] else b[|b| - 1];
  }

  lemma ReportInRest(c: Codec, anchor: string, a: seq<Row>, b: seq<Row>, k: nat, m: nat)
    requires a != [] && Verified(c, anchor, a) && FirstBreak(c, Head(anchor, a), b, m)
    requires FirstBreak(c, anchor, a + b, k)
    ensures ReportAt(c, anchor, a + b, k) == Join(Ok(Success(anchor, a)), ReportAt(c, Head(anchor, a), b, m))
  {
    assert k == |a| + m by {
      BreakInRest(c, anchor, a, b, m);
      BreakUnique(c, anchor, a + b, k, |a| + m);
    }
    if m < |b| {
      BreakJoins(c, anchor, a, b, m);
    } else {
      SuccessJoins(anchor, a, b);
    }
  }

  lemma ReportIsOk(c: Codec, anchor: string, rows: seq<Row>, n: nat)
    requires FirstBreak(c, anchor, rows, n)
    ensures var r := ReportAt(c, anchor, rows, n);
            && (r.Ok? && r.value.ok <==> n == |rows|)
            && (n == |rows| ==> Verified(c, anchor, rows))
            && (n == |rows| && rows != [] ==> r.value.head == Some(Head(anchor, rows)))
  {
    assert n == |rows| ==> rows[..n] == rows;
  }

  /** Verifying a non-empty front and then the rest from the reported head reports what one pass reports. */
  lemma SplitReport(
    c: Codec, anchor: string, a: seq<Row>, b: seq<Row>, r: Result<ChainReport, ReadError>,
    ra: Result<ChainReport, ReadError>, rb: Result<ChainReport, ReadError>)
    requires a != [] && Reports(c, anchor, a + b, r) && Reports(c, anchor, a, ra)
    requires ra.Ok? && ra.value.ok ==> ra.value.head.Some? && Reports(c, ra.value.head.value, b, rb)
    ensures r == Join(ra, rb)
    ensures (r.Ok? && r.value.ok) <==> (ra.Ok? && ra.value.ok && rb.Ok? && rb.value.ok)
  {
    var k: nat :| FirstBreak(c, anchor, a + b, k) && r == ReportAt(c, anchor, a + b, k);
    var n: nat :| FirstBreak(c, anchor, a, n) && ra == ReportAt(c, anchor, a, n);
    ReportIsOk(c, anchor, a, n);
    if n < |a| {
      ReportInFront(c, anchor, a, b, k, n);
    } else {
      var m: nat :| FirstBreak(c, Head(anchor, a), b, m) && rb == ReportAt(c, Head(anchor, a), b, m);
      ReportInRest(c, anchor, a, b, k, m);
    }
  }

  // ---- Tamper evidence ---------------------------------------------------------------------

  function EventAt(c: Codec, row: Row): Event
    requires c.decode(row.payload).Some?
  {
    c.decode(row.payload).value
  }

  function RowInput(c: Codec, row: Row): string
    requires c.decode(row.payload).Some?
  {
    Input(c, row.prevHash, EventAt(c, row))
  }

  /** `x` is one of the texts that verifying `rows` hashes. */
  predicate Hashed(c: Codec, rows: seq<Row>, x: string) {
    exists i :: 0 <= i < |rows| && c.decode(rows[i].payload).Some? && RowInput(c, rows[i]) == x
  }

  /** Why two verified sequences end in the same head. */
  datatype Evidence = Same | Collision(x: string, y: string) | ReachesAnchor(z: string)

  predicate Convicts(c: Codec, anchor: string, a: seq<Row>, b: seq<Row>, e: Evidence) {
    match e
    case Same =>
      |a| == |b| && forall i :: 0 <= i < |a| ==>
        && c.decode(a[i].payload).Some? && c.decode(b[i].payload).Some?
        && c.canonical(EventAt(c, a[i])) == c.canonical(EventAt(c, b[i]))
        && a[i].prevHash == b[i].prevHash && a[i].hash == b[i].hash
    case Collision(x, y) => x != y && c.digest(x) == c.digest(y) && Hashed(c, a, x) && Hashed(c, b, y)
    case ReachesAnchor(z) => c.digest(z) == anchor && (Hashed(c, a, z) || Hashed(c, b, z))
  }

  /** The text that the last row of a verified sequence was hashed from. */
  function LastInput(c: Codec, anchor: string, rows: seq<Row>): (x: string)
    requires rows != [] && Verified(c, anchor, rows)
    ensures c.digest(x) == Head(anchor, rows) && Hashed(c, rows, x)
  {
    assert SoundAt(c, anchor, rows, |rows| - 1);
    RowInput(c, rows[|rows| - 1])
  }

  /** Walk both sequences back from their common head until they differ. */
  function Compare(c: Codec, anchor: string, a: seq<Row>, b: seq<Row>): (e: Evidence)
    requires Verified(c, anchor, a) && Verified(c, anchor, b)
  {
    if a == [] && b == [] then Same
    else if b == [] then ReachesAnchor(LastInput(c, anchor, a))
    else if a == [] then ReachesAnchor(LastInput(c, anchor, b))
    else
      var x, y := LastInput(c, anchor, a), LastInput(c, anchor, b);
      if x != y then Collision(x, y)
      else
        VerifiedFront(c, anchor, a);
        VerifiedFront(c, anchor, b);
        Compare(c, anchor, a[..|a| - 1], b[..|b| - 1])
  }

  lemma VerifiedFront(c: Codec, anchor: string, rows: seq<Row>)
    requires rows != [] && Verified(c, anchor, rows)
    ensures Verified(c, anchor, rows[..|rows| - 1])
    ensures Head(anchor, rows[..|rows| - 1]) == rows[|rows| - 1].prevHash
    ensures HashMatches(c, rows[|rows| - 1])
  {
    assert rows[..|rows| - 1 + 1] == rows;
    assert SoundAt(c, anchor, rows, |rows| - 1);
    VerifiedStep(c, anchor, rows, |rows| - 1);
  }

  lemma {:induction false} PrevLength(c: Codec, anchor: string, rows: seq<Row>)
    requires Digests(c) && |anchor| == 64 && rows != [] && Verified(c, anchor, rows)
    ensures |rows[|rows| - 1].prevHash| == 64
  {
    var i := |rows| - 1;
    assert SoundAt(c, anchor, rows, i);
    if i == 0 {
    } else {
      assert SoundAt(c, anchor, rows, i - 1);
    }
  }

  lemma HashedInMore(c: Codec, rows: seq<Row>, x: string)
    requires rows != [] && Hashed(c, rows[..|rows| - 1], x)
    ensures Hashed(c, rows, x)
  {
    var front := rows[..|rows| - 1];
    var i :| 0 <= i < |front| && c.decode(front[i].payload).Some? && RowInput(c, front[i]) == x;
    assert rows[i] == front[i];
  }

  /**
   * Two sequences that verify from one anchor to one head hold the same events, or the comparison finds, among the
   * texts that were hashed, two with the same digest or one whose digest is the anchor.
   */
  lemma {:induction false} TamperEvident(c: Codec, anchor: string, a: seq<Row>, b: seq<Row>)
    requires Digests(c) && |anchor| == 64
    requires Verified(c, anchor, a) && Verified(c, anchor, b) && Head(anchor, a) == Head(anchor, b)
    ensures Convicts(c, anchor, a, b, Compare(c, anchor, a, b))
    decreases |a|
  {
    if a == [] {
    } else {
      VerifiedFront(c, anchor, a);
    }
    if b != [] {
      VerifiedFront(c, anchor, b);
    }
    if a != [] && b != [] && LastInput(c, anchor, a) == LastInput(c, anchor, b) {
      var p, q := a[|a| - 1], b[|b| - 1];
      PrevLength(c, anchor, a);
      PrevLength(c, anchor, b);
      var x, y := RowInput(c, p), RowInput(c, q);
      assert p.prevHash == x[..64] && q.prevHash == y[..64];
      assert c.canonical(EventAt(c, p)) == x[64..] && c.canonical(EventAt(c, q)) == y[64..];
      TamperEvident(c, anchor, a[..|a| - 1], b[..|b| - 1]);
      EvidenceInMore(c, anchor, a, b, Compare(c, anchor, a[..|a| - 1], b[..|b| - 1]));
    }
  }

  lemma EvidenceInMore(c: Codec, anchor: string, a: seq<Row>, b: seq<Row>, e: Evidence)
    requires a != [] && b != [] && Convicts(c, anchor, a[..|a| - 1], b[..|b| - 1], e)
    requires var p, q := a[|a| - 1], b[|b| - 1];
             && c.decode(p.payload).Some? && c.decode(q.payload).Some?
             && c.canonical(EventAt(c, p)) == c.canonical(EventAt(c, q))
             && p.prevHash == q.prevHash && p.hash == q.hash
    ensures Convicts(c, anchor, a, b, e)
  {
    match e
    case Same =>
      var fa, fb := a[..|a| - 1], b[..|b| - 1];
      assert forall i :: 0 <= i < |fa| ==> a[i] == fa[i] && b[i] == fb[i];
    case Collision(x, y) =>
      HashedInMore(c, a, x);
      HashedInMore(c, b, y);
    case ReachesAnchor(z) =>
      if Hashed(c, a[..|a| - 1], z) {
        HashedInMore(c, a, z);
      } else {
        HashedInMore(c, b, z);
      }
  }

  /** With a codec whose canonical texts read back, equal canonical texts are equal events. */
  lemma SameEvents(c: Codec, anchor: string, a: seq<Row>, b: seq<Row>, i: nat)
    requires Convicts(c, anchor, a, b, Same) && i < |a|
    requires c.decode(a[i].payload).Some? && c.decode(b[i].payload).Some?
    requires Faithful(c, EventAt(c, a[i])) && Faithful(c, EventAt(c, b[i]))
    ensures EventAt(c, a[i]) == EventAt(c, b[i])
  {
    assert c.decode(c.canonical(EventAt(c, a[i]))) == c.decode(c.canonical(EventAt(c, b[i])));
  }

  /** The event is hashed, not the text: a text that reads as the same event verifies just as well. */
  lemma PayloadTextNotPinned(c: Codec, anchor: string, rows: seq<Row>, i: nat, payload: string)
    requires i < |rows| && rows[i].columns.None? && c.decode(payload) == c.decode(rows[i].payload)
    ensures var edited := rows[i := rows[i].(payload := payload)];
            && (Verified(c, anchor, edited) <==> Verified(c, anchor, rows))
            && Head(anchor, edited) == Head(anchor, rows)
  {
    var edited := rows[i := rows[i].(payload := payload)];
    forall k: nat | k < |rows|
      ensures SoundAt(c, anchor, edited, k) <==> SoundAt(c, anchor, rows, k)
    {
      assert Prev(anchor, edited, k) == Prev(anchor, rows, k);
    }
  }
}
