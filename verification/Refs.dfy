/** Object references `type:id` and resource patterns `type:prefix*`. */
module Refs {
  predicate TypeChar(c: char) {
    'a' <= c <= 'z' || '0' <= c <= '9' || c == '_' || c == '-'
  }

  predicate IdChar(c: char) {
    'A' <= c <= 'Z' || 'a' <= c <= 'z' || '0' <= c <= '9'
    || c == '.' || c == '_' || c == '~' || c == '/' || c == '@' || c == '+' || c == '=' || c == '-'
  }

  const LOWER := "abcdefghijklmnopqrstuvwxyz"

  const UPPER := "ABCDEFGHIJKLMNOPQRSTUVWXYZ"

  const DIGITS := "0123456789"

  lemma LowerListed(c: char)
    ensures 'a' <= c <= 'z' <==> c in LOWER
  {
  }

  lemma UpperListed(c: char)
    ensures 'A' <= c <= 'Z' <==> c in UPPER
  {
  }

  lemma DigitsListed(c: char)
    ensures '0' <= c <= '9' <==> c in DIGITS
  {
  }

  lemma MarksListed(c: char)
    ensures c in "._~/@+=-" <==>
            c == '.' || c == '_' || c == '~' || c == '/' || c == '@' || c == '+' || c == '=' || c == '-'
    ensures c in "_-" <==> c == '_' || c == '-'
  {
  }

  /** The alphabets of ids and types, letter by letter: no quote, space, backslash, colon or star among them. */
  lemma AlphabetsListed(c: char)
    ensures IdChar(c) <==> c in UPPER || c in LOWER || c in DIGITS || c in "._~/@+=-"
    ensures TypeChar(c) <==> c in LOWER || c in DIGITS || c in "_-"
  {
    UpperListed(c);
    LowerListed(c);
    DigitsListed(c);
    MarksListed(c);
  }

  predicate TypeName(s: string) {
    |s| > 0 && 'a' <= s[0] <= 'z' && forall i :: 0 <= i < |s| ==> TypeChar(s[i])
  }

  /** `s` is a type name, a colon at index `i`, and a non-empty id with at most one `*`, at the end. */
  predicate PatternAt(s: string, i: nat) {
    && i + 1 < |s|
    && TypeName(s[..i])
    && s[i] == ':'
    && (forall j :: i < j < |s| - 1 ==> IdChar(s[j]))
    && (IdChar(s[|s| - 1]) || s[|s| - 1] == '*')
  }

  predicate PatternText(s: string) {
    exists i: nat :: i < |s| && PatternAt(s, i)
  }

  predicate EndsWith(s: string, c: char) {
    |s| > 0 && s[|s| - 1] == c
  }

  predicate StartsWith(s: string, prefix: string) {
    |prefix| <= |s| && s[..|prefix|] == prefix
  }

  function Chop(s: string): string
    requires |s| > 0
  {
    s[..|s| - 1]
  }

  /** What the resource expression accepts. Its end anchor also matches before one final newline. */
  predicate ValidPattern(s: string) {
    PatternText(s) || (EndsWith(s, '\n') && PatternText(Chop(s)))
  }

  /** A concrete reference of type `t`, without the final newline that the expression tolerates. */
  predicate PlainText(s: string, t: string) {
    && TypeName(t)
    && |t| + 1 < |s|
    && s[..|t|] == t
    && s[|t|] == ':'
    && forall j :: |t| < j < |s| ==> IdChar(s[j])
  }

  predicate ValidRef(s: string, t: string) {
    PlainText(s, t) || (EndsWith(s, '\n') && PlainText(Chop(s), t))
  }

  /** A concrete reference of some type. */
  ghost predicate Concrete(s: string) {
    exists t :: ValidRef(s, t)
  }

  /** In a valid pattern every `*` but a final one (or one before the final newline) is excluded. */
  lemma StarIsLast(s: string)
    requires ValidPattern(s) && EndsWith(s, '*')
    ensures PatternText(s)
    ensures forall j :: 0 <= j < |s| - 1 ==> s[j] != '*' && s[j] != '\n'
  {
    var i: nat :| i < |s| && PatternAt(s, i);
    forall j | 0 <= j < |s| - 1
      ensures s[j] != '*' && s[j] != '\n'
    {
      if j < i {
        assert s[..i][j] == s[j];
      }
    }
  }

  /** A reference is itself a valid resource pattern. */
  lemma RefIsPattern(s: string, t: string)
    requires ValidRef(s, t)
    ensures ValidPattern(s)
  {
    if PlainText(s, t) {
      assert PatternAt(s, |t|);
    } else {
      assert PatternAt(Chop(s), |t|);
    }
  }

  /** Replacing a final `*` by an id character gives a concrete reference. */
  lemma StarFilled(s: string, c: char)
    requires ValidPattern(s) && EndsWith(s, '*') && IdChar(c)
    ensures Concrete(Chop(s) + [c])
  {
    StarIsLast(s);
    var i: nat :| i < |s| && PatternAt(s, i);
    var r := Chop(s) + [c];
    assert r[..i] == s[..i];
    assert PlainText(r, s[..i]);
    assert ValidRef(r, s[..i]);
  }

  /** A valid pattern with no wildcard character is a concrete reference. */
  lemma NoStarIsConcrete(s: string)
    requires ValidPattern(s)
    requires !EndsWith(s, '*')
    requires EndsWith(s, '\n') ==> !EndsWith(Chop(s), '*')
    ensures Concrete(s)
  {
    if PatternText(s) {
      var i: nat :| i < |s| && PatternAt(s, i);
      assert PlainText(s, s[..i]);
      assert ValidRef(s, s[..i]);
    } else {
      var u := Chop(s);
      var i: nat :| i < |u| && PatternAt(u, i);
      assert PlainText(u, u[..i]);
      assert ValidRef(s, u[..i]);
    }
  }

  /** The text `…*\n` is accepted as a pattern but is no concrete reference. */
  lemma StarNewlineNotConcrete(s: string)
    requires EndsWith(s, '\n') && EndsWith(Chop(s), '*')
    ensures !Concrete(s)
  {
    assert s[|s| - 1] == '\n' && Chop(s)[|s| - 2] == '*';
  }
}
