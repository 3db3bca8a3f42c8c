/** Capabilities and scopes: the prefix-pattern algebra of what an agent may ask for. */
module Scopes {
  import opened Refs

  datatype Kind = Read | Act | Remember

  datatype AnyCapability = Capability(kind: Kind, resource: string)

  type Capability = c: AnyCapability | ValidPattern(c.resource)
    witness (assert PatternAt("a:a", 1); Capability(Read, "a:a"))

  type Scope = set<Capability>

  predicate IsPattern(c: Capability) {
    EndsWith(c.resource, '*')
  }

  predicate Covers(c: Capability, other: Capability) {
    && c.kind == other.kind
    && if IsPattern(c) then StartsWith(other.resource, Chop(c.resource)) else c.resource == other.resource
  }

  predicate ScopeCovers(s: Scope, cap: Capability) {
    exists own :: own in s && Covers(own, cap)
  }

  predicate SubsetOf(s: Scope, other: Scope) {
    forall cap :: cap in s ==> ScopeCovers(other, cap)
  }

  // ---- Meaning -----------------------------------------------------------------------------

  /** The concrete requests a capability stands for. */
  ghost predicate Matches(c: Capability, kind: Kind, r: string) {
    && Concrete(r)
    && c.kind == kind
    && if IsPattern(c) then StartsWith(r, Chop(c.resource)) else r == c.resource
  }

  ghost predicate Included(d: Capability, c: Capability) {
    forall kind, r :: Matches(d, kind, r) ==> Matches(c, kind, r)
  }

  ghost predicate Permits(s: Scope, kind: Kind, r: string) {
    exists c :: c in s && Matches(c, kind, r)
  }

  /** Every concrete request that `s` permits is one that `t` permits. */
  ghost predicate Narrower(s: Scope, t: Scope) {
    forall kind, r :: Permits(s, kind, r) ==> Permits(t, kind, r)
  }

  /** An exact capability ending in `*` and a newline: accepted by the grammar, matched by nothing. */
  predicate Dead(c: Capability) {
    EndsWith(c.resource, '\n') && EndsWith(Chop(c.resource), '*')
  }

  /** `Covers` decides inclusion of meanings, except that a dead capability is included in any other. */
  lemma CoversIsInclusion(c: Capability, d: Capability)
    ensures Included(d, c) <==> Covers(c, d) || Dead(d)
  {
    if Dead(d) {
      StarNewlineNotConcrete(d.resource);
    } else if Included(d, c) {
      if IsPattern(d) {
        var a, b := Chop(d.resource) + "a", Chop(d.resource) + "b";
        StarFilled(d.resource, 'a');
        StarFilled(d.resource, 'b');
        assert Matches(d, d.kind, a) && Matches(d, d.kind, b);
        assert Matches(c, d.kind, a) && Matches(c, d.kind, b);
        if IsPattern(c) {
          var p, q := Chop(c.resource), Chop(d.resource);
          assert forall k :: 0 <= k < |p| ==> a[k] == p[k] && b[k] == p[k];
          assert a[|q|] == 'a' && b[|q|] == 'b';
          assert d.resource[..|p|] == a[..|p|];
        }
      } else {
        NoStarIsConcrete(d.resource);
        assert Matches(d, d.kind, d.resource);
      }
    } else if Covers(c, d) {
      CoversSound(c, d);
    }
  }

  /** The grammar accepts "a:*" with a trailing newline: it means nothing, so "b:b" includes it, without covering it. */
  lemma DeadIsNotCovered()
    ensures ValidPattern("a:*\n") && ValidPattern("b:b")
    ensures Included(Capability(Read, "a:*\n"), Capability(Read, "b:b"))
    ensures !Covers(Capability(Read, "b:b"), Capability(Read, "a:*\n"))
  {
    var text := "a:*\n";
    assert text[|text| - 1] == '\n' && Chop(text) == "a:*";
    assert PatternAt("a:*", 1) && PatternAt("b:b", 1);
    var dead, other: Capability := Capability(Read, text), Capability(Read, "b:b");
    assert Chop(text)[|Chop(text)| - 1] == '*';
    CoversIsInclusion(other, dead);
  }

  lemma CoversSound(c: Capability, d: Capability)
    requires Covers(c, d)
    ensures Included(d, c)
  {
    forall kind, r | Matches(d, kind, r)
      ensures Matches(c, kind, r)
    {
      if IsPattern(c) && IsPattern(d) {
        PrefixesNest(c, d);
      }
    }
  }

  /** Between two patterns, covering is a prefix relation of their prefixes. */
  lemma PrefixesNest(c: Capability, d: Capability)
    requires Covers(c, d) && IsPattern(c) && IsPattern(d)
    ensures StartsWith(Chop(d.resource), Chop(c.resource))
  {
    StarIsLast(c.resource);
    var p, q := Chop(c.resource), Chop(d.resource);
    assert forall k :: 0 <= k < |p| ==> d.resource[k] == p[k] == c.resource[k];
    assert d.resource[|q|] == '*';
    assert q[..|p|] == d.resource[..|p|];
  }

  lemma CoversTransitive(a: Capability, b: Capability, c: Capability)
    requires Covers(a, b) && Covers(b, c)
    ensures Covers(a, c)
  {
    if IsPattern(a) && IsPattern(b) {
      PrefixesNest(a, b);
      var p, q := Chop(a.resource), Chop(b.resource);
      assert c.resource[..|p|] == c.resource[..|q|][..|p|];
    }
  }

  lemma CoversReflexive(c: Capability)
    ensures Covers(c, c)
  {
  }

  lemma ScopeCoversMonotone(s: Scope, t: Scope, cap: Capability)
    requires SubsetOf(s, t) && ScopeCovers(s, cap)
    ensures ScopeCovers(t, cap)
  {
    var own :| own in s && Covers(own, cap);
    var above :| above in t && Covers(above, own);
    CoversTransitive(above, own, cap);
  }

  lemma SubsetReflexive(s: Scope)
    ensures SubsetOf(s, s)
  {
    forall cap | cap in s
      ensures ScopeCovers(s, cap)
    {
      CoversReflexive(cap);
    }
  }

  lemma SubsetTransitive(s: Scope, t: Scope, u: Scope)
    requires SubsetOf(s, t) && SubsetOf(t, u)
    ensures SubsetOf(s, u)
  {
    forall cap | cap in s
      ensures ScopeCovers(u, cap)
    {
      ScopeCoversMonotone(t, u, cap);
    }
  }

  /** The syntactic comparison never lets a wider meaning through. */
  lemma SubsetSound(s: Scope, t: Scope)
    requires SubsetOf(s, t)
    ensures Narrower(s, t)
  {
    forall kind, r | Permits(s, kind, r)
      ensures Permits(t, kind, r)
    {
      var c :| c in s && Matches(c, kind, r);
      var above :| above in t && Covers(above, c);
      CoversSound(above, c);
    }
  }
}
