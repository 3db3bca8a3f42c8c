/** The in-process ledger and content backend: the objects the memory service calls, and what each call does. */
module MemoryStores {
  import opened Wrappers

  /** A ledger row, as far as a decision reads it. */
  datatype Record = Record(memoryId: string, writtenFor: string, derivedFrom: set<string>, backend: string, ref: string)

  datatype Content = Content(memoryId: string, text: string)

  /** A search hit: a text and the backend references it was built from. */
  datatype Candidate = Candidate(text: string, refs: seq<string>)

  type Ledger = map<string, Record>

  /** The contents of one namespace, by backend reference. */
  type Contents = map<string, Content>

  // ---- What the calls do -------------------------------------------------------------------

  function PutRow(rows: Ledger, record: Record): Ledger {
    rows[record.memoryId := record]
  }

  function DropRow(rows: Ledger, memoryId: string): Ledger {
    rows - {memoryId}
  }

  /** `r` is a row stored under this reference of this backend, or there is none. */
  predicate Finds(rows: Ledger, backend: string, ref: string, r: Option<Record>) {
    match r
    case Some(row) => row.memoryId in rows && rows[row.memoryId] == row && row.backend == backend && row.ref == ref
    case None => forall m :: m in rows ==> !(rows[m].backend == backend && rows[m].ref == ref)
  }

  function StoreText(contents: Contents, ref: string, content: Content): Contents {
    contents[ref := content]
  }

  function DropText(contents: Contents, ref: string): Contents {
    contents - {ref}
  }

  /** A hit on a single reference is the text stored under it. */
  predicate Hit(contents: Contents, c: Candidate) {
    |c.refs| == 1 ==> c.refs[0] in contents && c.text == contents[c.refs[0]].text
  }

  // ---- The ledger --------------------------------------------------------------------------

  class InMemoryLedger {
    var rows: Ledger

    /** Rows are kept under their own ids. */
    predicate Valid()
      reads this
    {
      forall m :: m in rows ==> rows[m].memoryId == m
    }

    constructor ()
      ensures Valid() && rows == map[]
    {
      rows := map[];
    }

    method Put(record: Record)
      requires Valid()
      modifies this
      ensures Valid() && rows == PutRow(old(rows), record)
    {
      rows := rows[record.memoryId := record];
    }

    method Get(memoryId: string) returns (r: Option<Record>)
      ensures r.Some? <==> memoryId in rows
      ensures r.Some? ==> r.value == rows[memoryId]
    {
      if memoryId in rows {
        return Some(rows[memoryId]);
      }
      return None;
    }

    method GetByBackendRef(backend: string, ref: string) returns (r: Option<Record>)
      requires Valid()
      ensures Finds(rows, backend, ref, r)
    {
      var todo := rows.Keys;
      while todo != {}
        invariant todo <= rows.Keys
        invariant forall m :: m in rows && m !in todo ==> !(rows[m].backend == backend && rows[m].ref == ref)
        decreases |todo|
      {
        var m :| m in todo;
        if rows[m].backend == backend && rows[m].ref == ref {
          return Some(rows[m]);
        }
        todo := todo - {m};
      }
      return None;
    }

    method Delete(memoryId: string)
      requires Valid()
      modifies this
      ensures Valid() && rows == DropRow(old(rows), memoryId)
    {
      rows := rows - {memoryId};
    }
  }

  // ---- The content backend -----------------------------------------------------------------

  datatype Slot = Slot(namespace: string, ref: string)

  function InNamespace(rows: map<Slot, Content>, namespace: string): Contents {
    map ref | ref in (set s | s in rows && s.namespace == namespace :: s.ref) :: rows[Slot(namespace, ref)]
  }

  /** The rows with one more text, or as they were. */
  function Filed(rows: map<Slot, Content>, namespace: string, ref: string, content: Content, fails: bool)
    : map<Slot, Content>
  {
    if fails then rows else rows[Slot(namespace, ref) := content]
  }

  lemma FiledInNamespace(rows: map<Slot, Content>, namespace: string, ref: string, content: Content)
    ensures var after := rows[Slot(namespace, ref) := content];
            && InNamespace(after, namespace) == StoreText(InNamespace(rows, namespace), ref, content)
            && forall other :: other != namespace ==> InNamespace(after, other) == InNamespace(rows, other)
  {
    var after := rows[Slot(namespace, ref) := content];
    forall other | other != namespace
      ensures InNamespace(after, other) == InNamespace(rows, other)
    {
      assert forall r :: Slot(other, r) in after <==> Slot(other, r) in rows;
    }
    assert forall r :: Slot(namespace, r) in after <==> r == ref || Slot(namespace, r) in rows;
  }

  /** The share of the wanted words that a text has. */
  function Score(words: string -> set<string>, query: string, text: string): real {
    var wanted := words(query);
    |wanted * words(text)| as real / (if |wanted| > 1 then |wanted| else 1) as real
  }

  /** The slots of the namespace that share a word with the query. */
  function Matching(words: string -> set<string>, rows: map<Slot, Content>, query: string, namespace: string): set<Slot>
  {
    set s | s in rows && s.namespace == namespace && words(query) * words(rows[s].text) != {}
  }

  /** The slots are distinct matches, best first. */
  predicate Ranked(words: string -> set<string>, rows: map<Slot, Content>, query: string, slots: seq<Slot>) {
    && (forall i :: 0 <= i < |slots| ==> slots[i] in rows)
    && forall i, j :: 0 <= i < j < |slots| ==>
         slots[i] != slots[j] && ScoreAt(words, rows, query, slots[i]) >= ScoreAt(words, rows, query, slots[j])
  }

  /** Nothing in `left` beats a ranked slot. */
  predicate Unbeaten(
    words: string -> set<string>, rows: map<Slot, Content>, query: string, slots: seq<Slot>, left: set<Slot>)
  {
    forall i, s :: 0 <= i < |slots| && s in left ==>
      ScoreAt(words, rows, query, slots[i]) >= ScoreAt(words, rows, query, s)
  }

  function ScoreAt(words: string -> set<string>, rows: map<Slot, Content>, query: string, s: Slot): real {
    if s in rows then Score(words, query, rows[s].text) else 0.0
  }

  /** One text scores at least as high as another exactly when it shares at least as many words with the query. */
  lemma ScoreCountsWords(words: string -> set<string>, query: string, a: string, b: string)
    ensures Score(words, query, a) >= Score(words, query, b) <==>
            |words(query) * words(a)| >= |words(query) * words(b)|
    ensures words(query) != {} && words(query) <= words(a) ==> Score(words, query, a) == 1.0
  {
    var wanted := words(query);
    var n, x, y := if |wanted| > 1 then |wanted| else 1, |wanted * words(a)|, |wanted * words(b)|;
    SharesOrder(x, y, n);
    if wanted != {} && wanted <= words(a) {
      assert wanted * words(a) == wanted;
      assert |wanted| > 0;
    }
  }

  lemma SharesOrder(x: nat, y: nat, n: nat)
    requires n > 0
    ensures x as real / n as real >= y as real / n as real <==> x >= y
  {
    var r := n as real;
    assert x as real / r * r == x as real && y as real / r * r == y as real;
  }

  lemma HitAt(rows: map<Slot, Content>, s: Slot)
    requires s in rows
    ensures Hit(InNamespace(rows, s.namespace), Candidate(rows[s].text, [s.ref]))
  {
    assert s.ref in InNamespace(rows, s.namespace);
  }

  class InMemoryMemoryAdapter {
    var rows: map<Slot, Content>

    constructor ()
      ensures rows == map[]
    {
      rows := map[];
    }

    /** Store under a reference that was never drawn before, or fail without effect; other namespaces do not change. */
    method Store(memoryId: string, text: string, namespace: string, drawn: string, fails: bool)
      returns (ref: Option<string>)
      modifies this
      ensures ref == if fails then None else Some(drawn)
      ensures var before := old(InNamespace(rows, namespace));
              InNamespace(rows, namespace)
              == if fails then before else StoreText(before, drawn, Content(memoryId, text))
      ensures forall other :: other != namespace ==> InNamespace(rows, other) == old(InNamespace(rows, other))
      ensures rows == Filed(old(rows), namespace, drawn, Content(memoryId, text), fails)
    {
      if fails {
        return None;
      }
      FiledInNamespace(rows, namespace, drawn, Content(memoryId, text));
      rows := rows[Slot(namespace, drawn) := Content(memoryId, text)];
      return Some(drawn);
    }

    method Delete(ref: string, namespace: string)
      modifies this
      ensures InNamespace(rows, namespace) == DropText(old(InNamespace(rows, namespace)), ref)
      ensures forall other :: other != namespace ==> InNamespace(rows, other) == old(InNamespace(rows, other))
      ensures rows == old(rows) - {Slot(namespace, ref)}
    {
      rows := rows - {Slot(namespace, ref)};
    }

    /** The best match that is left. */
    method Best(words: string -> set<string>, query: string, left: set<Slot>) returns (best: Slot)
      requires left != {}
      ensures best in left
      ensures forall s :: s in left ==> ScoreAt(words, rows, query, s) <= ScoreAt(words, rows, query, best)
    {
      best :| best in left;
      var todo := left - {best};
      while todo != {}
        invariant best in left && todo <= left
        invariant forall s :: s in left && s !in todo ==>
                    ScoreAt(words, rows, query, s) <= ScoreAt(words, rows, query, best)
        decreases |todo|
      {
        var s :| s in todo;
        if ScoreAt(words, rows, query, s) > ScoreAt(words, rows, query, best) {
          best := s;
        }
        todo := todo - {s};
      }
    }

    /** The `limit` best of the matches, best first, and the matches that are left. */
    method Rank(words: string -> set<string>, query: string, matches: set<Slot>, limit: nat)
      returns (slots: seq<Slot>, left: set<Slot>)
      requires matches <= rows.Keys
      ensures |slots| <= limit && (left != {} ==> |slots| == limit)
      ensures forall s :: s in matches <==> s in slots || s in left
      ensures Ranked(words, rows, query, slots) && Unbeaten(words, rows, query, slots, left)
    {
      slots, left := [], matches;
      while left != {} && |slots| < limit
        invariant |slots| <= limit
        invariant forall s :: s in matches <==> s in slots || s in left
        invariant forall i :: 0 <= i < |slots| ==> slots[i] !in left
        invariant Ranked(words, rows, query, slots) && Unbeaten(words, rows, query, slots, left)
        decreases left
      {
        var best := Best(words, query, left);
        slots, left := slots + [best], left - {best};
      }
    }

    /**
     * The `limit` best matches of the namespace, best first; no match that was left out beats one that was returned,
     * and every hit is the text stored under its one reference.
     */
    method Search(words: string -> set<string>, query: string, namespace: string, limit: nat)
      returns (hits: seq<Candidate>, slots: seq<Slot>, left: set<Slot>)
      ensures |hits| == |slots| <= limit && (left != {} ==> |slots| == limit)
      ensures forall s :: s in slots || s in left <==>
                s in rows && s.namespace == namespace && words(query) * words(rows[s].text) != {}
      ensures Ranked(words, rows, query, slots) && Unbeaten(words, rows, query, slots, left)
      ensures forall i :: 0 <= i < |hits| ==>
                && hits[i] == Candidate(rows[slots[i]].text, [slots[i].ref])
                && Hit(InNamespace(rows, namespace), hits[i])
    {
      slots, left := Rank(words, query, Matching(words, rows, query, namespace), limit);
      hits := [];
      for i := 0 to |slots|
        invariant |hits| == i
        invariant forall j :: 0 <= j < i ==>
                    && hits[j] == Candidate(rows[slots[j]].text, [slots[j].ref])
                    && Hit(InNamespace(rows, namespace), hits[j])
      {
        assert slots[i] in Matching(words, rows, query, namespace);
        HitAt(rows, slots[i]);
        hits := hits + [Candidate(rows[slots[i]].text, [slots[i].ref])];
      }
    }
  }
}
