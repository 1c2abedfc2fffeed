/** The attenuation rule (authority.ts): authority only flows downhill. */
module Authority {
  import opened Types

  datatype Family = Resource | Network

  function FamilyOf(s: Scope): Family {
    if s == NetworkEgress then Network else Resource
  }

  function Strength(s: Scope): nat {
    if s == ResourceWrite then 2 else 1
  }

  predicate ScopeIsNarrower(child: Scope, parent: Scope) {
    FamilyOf(child) == FamilyOf(parent) && Strength(child) <= Strength(parent)
  }

  predicate StartsWith(s: string, prefix: string) {
    |prefix| <= |s| && s[..|prefix|] == prefix
  }

  /** A domain together with everything beneath it. */
  predicate IsPattern(target: string) {
    StartsWith(target, "*.")
  }

  predicate EndsWith(s: string, suffix: string) {
    |suffix| <= |s| && s[|s| - |suffix|..] == suffix
  }

  predicate TargetCovers(parentTarget: string, childTarget: string) {
    if parentTarget == childTarget then true
    else if parentTarget == "*" then true
    else if IsPattern(parentTarget) then EndsWith(childTarget, parentTarget[1..])
    else false
  }

  predicate ExpiryWithin(parentExpiry: Option<Time>, childExpiry: Option<Time>) {
    if parentExpiry.None? then true
    else if childExpiry.None? then false
    else childExpiry.value <= parentExpiry.value
  }

  predicate IsNarrowerThan(child: Shape, parent: Shape) {
    && ScopeIsNarrower(child.scope, parent.scope)
    && TargetCovers(parent.target, child.target)
    && ExpiryWithin(parent.expiresAt, child.expiresAt)
  }

  // --- The order ---------------------------------------------------------

  lemma PatternHead(p: string)
    requires IsPattern(p)
    ensures |p| >= 2 && p[0] == '*' && p[1] == '.'
    ensures p != "*"
  {
    assert p[..2][0] == '*' && p[..2][1] == '.';
  }

  lemma SuffixTransitive(a: string, b: string, c: string)
    requires EndsWith(b, a) && EndsWith(c, b)
    ensures EndsWith(c, a)
  {
    assert b[|b| - |a|..] == c[|c| - |b|..][|b| - |a|..] == c[|c| - |a|..];
  }

  /** A domain pattern never reaches back to its own leading star. */
  lemma PatternSuffix(outer: string, inner: string)
    requires IsPattern(outer)
    requires |inner| > 0 && inner[0] == '*'
    requires EndsWith(inner, outer[1..])
    ensures EndsWith(inner[1..], outer[1..])
  {
    PatternHead(outer);
    var suffix := outer[1..];
    assert inner[|inner| - |suffix|..][0] == suffix[0] == '.';
    assert inner[1..][|inner[1..]| - |suffix|..] == inner[|inner| - |suffix|..];
  }

  /** Nothing but itself covers the full wildcard. */
  lemma StarIsTop(a: string)
    requires TargetCovers(a, "*")
    ensures a == "*"
  {
    if a != "*" {
      PatternHead(a);
      PatternSuffix(a, "*");
      assert false;
    }
  }

  lemma PatternsTransitive(a: string, b: string, c: string)
    requires IsPattern(a) && IsPattern(b)
    requires EndsWith(b, a[1..]) && EndsWith(c, b[1..])
    ensures EndsWith(c, a[1..])
  {
    PatternHead(b);
    PatternSuffix(a, b);
    SuffixTransitive(a[1..], b[1..], c);
  }

  lemma CoversTransitive(a: string, b: string, c: string)
    requires TargetCovers(a, b) && TargetCovers(b, c)
    ensures TargetCovers(a, c)
  {
    if b == "*" {
      StarIsTop(a);
    } else if IsPattern(a) && IsPattern(b) && a != b && b != c {
      PatternsTransitive(a, b, c);
    }
  }

  lemma SamePattern(a: string, b: string)
    requires IsPattern(a) && IsPattern(b)
    requires EndsWith(b, a[1..]) && EndsWith(a, b[1..])
    ensures a == b
  {
    PatternHead(a);
    PatternHead(b);
    PatternSuffix(a, b);
    PatternSuffix(b, a);
    assert a[1..][0..] == b[1..];
    assert a == [a[0]] + a[1..] && b == [b[0]] + b[1..];
  }

  lemma CoversAntisymmetric(a: string, b: string)
    requires TargetCovers(a, b) && TargetCovers(b, a)
    ensures a == b
  {
    if a == "*" {
      StarIsTop(b);
    } else if b == "*" {
      StarIsTop(a);
    } else if a != b {
      SamePattern(a, b);
    }
  }

  lemma NarrowerIsPartialOrder(a: Shape, b: Shape, c: Shape)
    ensures IsNarrowerThan(a, a)
    ensures IsNarrowerThan(a, b) && IsNarrowerThan(b, c) ==> IsNarrowerThan(a, c)
    ensures IsNarrowerThan(a, b) && IsNarrowerThan(b, a) ==> a == b
  {
    if IsNarrowerThan(a, b) && IsNarrowerThan(b, c) {
      CoversTransitive(c.target, b.target, a.target);
    }
    if IsNarrowerThan(a, b) && IsNarrowerThan(b, a) {
      CoversAntisymmetric(a.target, b.target);
    }
  }

  // --- What a shape authorises ------------------------------------------

  /** One use of authority: a scope exercised on a target at an instant. */
  datatype Access = Access(scope: Scope, target: string, at: Time)

  predicate Confers(shape: Shape, use: Access) {
    && ScopeIsNarrower(use.scope, shape.scope)
    && TargetCovers(shape.target, use.target)
    && (shape.expiresAt.Some? ==> use.at < shape.expiresAt.value)
  }

  /** Narrowing is exactly inclusion of conferred authority: nothing a narrower shape
      permits is new, and every shape that permits nothing new is accepted as narrower. */
  lemma NarrowerIsInclusion(child: Shape, parent: Shape)
    ensures IsNarrowerThan(child, parent) <==> forall use: Access :: Confers(child, use) ==> Confers(parent, use)
  {
    if IsNarrowerThan(child, parent) {
      forall use: Access | Confers(child, use)
        ensures Confers(parent, use)
      {
        CoversTransitive(parent.target, child.target, use.target);
      }
    } else if forall use: Access :: Confers(child, use) ==> Confers(parent, use) {
      var last := if child.expiresAt.Some? then child.expiresAt.value - 1
                  else if parent.expiresAt.Some? then parent.expiresAt.value
                  else 0;
      assert Confers(child, Access(child.scope, child.target, last));
      assert false;
    }
  }

  // --- The decision ------------------------------------------------------

  datatype Rule = Human030 | SelfEscalation031 | Narrowing032

  datatype Decision = Decision(allowed: bool, rule: Rule, parent: Option<Id>)

  /** First grant in order whose shape covers the request. */
  function FirstCovering(requested: Shape, held: seq<Grant>): (found: Option<Grant>)
    ensures found.Some? ==> found.value in held && IsNarrowerThan(requested, found.value.shape)
    ensures found.None? <==> forall g | g in held :: !IsNarrowerThan(requested, g.shape)
  {
    if held == [] then None
    else if IsNarrowerThan(requested, held[0].shape) then Some(held[0])
    else FirstCovering(requested, held[1..])
  }

  function AuthorizeGrantRequest(actorKind: PrincipalKind, actor: Id, requested: Shape, beneficiary: Id, held: seq<Grant>)
    : (d: Decision)
    ensures d.allowed <==> actorKind == Human ||
                           (beneficiary != actor && exists g :: g in held && IsNarrowerThan(requested, g.shape))
    ensures d.parent.Some? <==> d.allowed && actorKind == AgentKind
    ensures d.parent.Some? ==> exists g :: g in held && g.id == d.parent.value && IsNarrowerThan(requested, g.shape)
  {
    if actorKind.Human? then Decision(true, Human030, None)
    else if beneficiary == actor then Decision(false, SelfEscalation031, None)
    else
      match FirstCovering(requested, held)
      case None => Decision(false, Narrowing032, None)
      case Some(g) => Decision(true, Narrowing032, Some(g.id))
  }
}
