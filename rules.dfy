/** The rule that makes three cards a Set, per difficulty level. */
module Rules {
  import opened Cards

  /** Three values are all equal or pairwise distinct: the three pairwise
      comparisons agree. */
  function AllSameOrDifferent<T(==)>(a: T, b: T, c: T): (r: bool)
    ensures r <==> (a == b <==> b == c) && (b == c <==> a == c)
  {
    (a == b && b == c && a == c) || (a != b && b != c && a != c)
  }

  /** The rule read as "the three values do not take exactly two distinct values". */
  lemma AllSameOrDifferentBySize<T>(a: T, b: T, c: T)
    ensures AllSameOrDifferent(a, b, c) <==> |{a, b, c}| != 2
    ensures AllSameOrDifferent(a, b, c) <==> |{a, b, c}| == 1 || |{a, b, c}| == 3
  {
    if a == b && b == c {
      assert {a, b, c} == {a};
    } else if a != b && b != c && a != c {
      assert |{a, b}| == 2;
      assert {a, b, c} == {a, b} + {c};
    } else if a == b {
      assert {a, b, c} == {a, c};
    } else if b == c {
      assert {a, b, c} == {a, b};
    } else {
      assert {a, b, c} == {a, b};
    }
  }

  /** The rule does not depend on the order of its three arguments. */
  lemma AllSameOrDifferentSymmetric<T>(a: T, b: T, c: T)
    ensures AllSameOrDifferent(a, b, c) == AllSameOrDifferent(b, a, c) == AllSameOrDifferent(b, c, a)
  {
  }

  /** Whether three cards form a Set: shape and number are checked first,
      then colour, and pattern only outside the normal level and only when
      colour passed. Whatever the order of the checks, the rule is the
      conjunction over the attributes the level tracks. */
  function IsASet(level: Level, card1: Card, card2: Card, card3: Card): (r: bool)
    ensures r <==>
      AllSameOrDifferent(card1.shape, card2.shape, card3.shape) &&
      AllSameOrDifferent(card1.number, card2.number, card3.number) &&
      AllSameOrDifferent(card1.color, card2.color, card3.color) &&
      (level != Normal ==> AllSameOrDifferent(card1.pattern, card2.pattern, card3.pattern))
  {
    var result := AllSameOrDifferent(card1.shape, card2.shape, card3.shape) &&
                  AllSameOrDifferent(card1.number, card2.number, card3.number);
    if !result then result
    else
      var colorResult := AllSameOrDifferent(card1.color, card2.color, card3.color);
      if level == Normal || !colorResult then colorResult
      else AllSameOrDifferent(card1.pattern, card2.pattern, card3.pattern)
  }

  /** Being a Set does not depend on the order of the three cards. */
  lemma IsASetSymmetric(level: Level, x: Card, y: Card, z: Card)
    ensures IsASet(level, x, y, z) == IsASet(level, y, x, z)
    ensures IsASet(level, x, y, z) == IsASet(level, y, z, x)
    ensures IsASet(level, x, y, z) == IsASet(level, x, z, y)
    ensures IsASet(level, x, y, z) == IsASet(level, z, y, x)
    ensures IsASet(level, x, y, z) == IsASet(level, z, x, y)
  {
  }

  /** The normal level never looks at patterns. */
  lemma NormalIgnoresPattern(x: Card, y: Card, z: Card, px: Pattern, py: Pattern, pz: Pattern)
    ensures IsASet(Normal, x, y, z) == IsASet(Normal, x.(pattern := px), y.(pattern := py), z.(pattern := pz))
  {
  }

  /** A Set under the hard or monochrome rule is a Set under the normal rule,
      and the hard and monochrome rules agree on every triple of cards. */
  lemma HardSetIsNormalSet(x: Card, y: Card, z: Card)
    ensures IsASet(Hard, x, y, z) ==> IsASet(Normal, x, y, z)
    ensures IsASet(Hard, x, y, z) == IsASet(Monochrome, x, y, z)
  {
  }

  /** On cards a normal game deals (all plain), the normal rule is the full
      four-attribute rule. */
  lemma NormalDomainIsFullRule(x: Card, y: Card, z: Card)
    requires InDomain(Normal, x) && InDomain(Normal, y) && InDomain(Normal, z)
    ensures IsASet(Normal, x, y, z) == IsASet(Hard, x, y, z)
  {
  }

  /** On cards a monochrome game deals (all light gray), colour never
      decides: the rule is shape, number and pattern. */
  lemma MonochromeIgnoresColor(x: Card, y: Card, z: Card)
    requires InDomain(Monochrome, x) && InDomain(Monochrome, y) && InDomain(Monochrome, z)
    ensures IsASet(Monochrome, x, y, z) <==>
      AllSameOrDifferent(x.shape, y.shape, z.shape) &&
      AllSameOrDifferent(x.number, y.number, z.number) &&
      AllSameOrDifferent(x.pattern, y.pattern, z.pattern)
  {
  }
}
