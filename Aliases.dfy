/**
 * The column/table alias value of the query rewriter: the name the user
 * should see (`originalName`), the name used in the rewritten SQL
 * (`aliasName`) and whether the alias was generated. The class-wide counter
 * that numbers generated aliases is the `AliasGenerator` object.
 */
module Aliases {
  import opened Wrappers
  import opened TextFormat
  import JavaString

  // ---------------------------------------------------------------------
  // Java `int` arithmetic on the counter

  const MinInt32: int := -0x8000_0000
  const MaxInt32: int := 0x7FFF_FFFF
  const Modulus32: int := 0x1_0000_0000

  predicate IsInt32(x: int) {
    MinInt32 <= x <= MaxInt32
  }

  /** The Java `int` congruent to `n` modulo 2^32. */
  function Wrap32(n: int): (r: int)
    ensures IsInt32(r)
    ensures (r - n) % Modulus32 == 0
    ensures 0 <= n <= MaxInt32 ==> r == n
  {
    (n - MinInt32) % Modulus32 + MinInt32
  }

  /** `x++` on a Java `int`: one more, wrapping from the largest to the smallest value. */
  function Inc32(x: int): (r: int)
    requires IsInt32(x)
    ensures IsInt32(r) && (r - x - 1) % Modulus32 == 0
  {
    if x == MaxInt32 then MinInt32 else x + 1
  }

  lemma Inc32OfWrap32(n: int)
    ensures Inc32(Wrap32(n)) == Wrap32(n + 1)
  {
  }

  /** Two counts less than 2^32 apart never wrap to the same `int`. */
  lemma Wrap32InjectiveOnWindow(i: int, j: int)
    requires i < j < i + Modulus32
    ensures Wrap32(i) != Wrap32(j)
  {
  }

  // ---------------------------------------------------------------------
  // The value

  datatype Alias = Alias(originalName: string, aliasName: string, autoGenerated: bool)
  {
    /** The name to display: the user's name for a generated alias, the alias itself otherwise. */
    function ProperName(): (r: string)
      ensures autoGenerated ==> r == originalName
      ensures !autoGenerated ==> r == aliasName
    {
      if autoGenerated then originalName else aliasName
    }

    function ToString(): (r: string)
      ensures r == aliasName
    {
      aliasName
    }

    /** `equals(Object)`: same names, whatever the flags; never equal to a non-alias. */
    predicate Equals(another: JavaObject) {
      match another
      case AliasObject(that) =>
        if originalName == that.originalName && aliasName == that.aliasName then true else false
      case OtherObject => false
    }

    /** `compareTo`: by original name, then by alias name. */
    function CompareTo(o: Alias): int {
      if originalName == o.originalName then JavaString.Compare(aliasName, o.aliasName)
      else JavaString.Compare(originalName, o.originalName)
    }
  }

  /** The argument of `equals(Object)`: an alias, or anything else (including null). */
  datatype JavaObject = AliasObject(alias: Alias) | OtherObject

  /** The public constructor `new Alias(originalName, aliasName)`. */
  function NewAlias(originalName: string, aliasName: string): (a: Alias)
    ensures !a.autoGenerated
    ensures a.originalName == originalName && a.aliasName == aliasName
  {
    Alias(originalName, aliasName, false)
  }

  /** The name a generated alias gets: `String.format("v%d_%d", depth, index)`. */
  function AliasNameFor(depth: int, index: int): string {
    "v" + IntToString(depth) + "_" + IntToString(index)
  }

  /** Reads `depth` and `index` back from a generated alias name. */
  function ParseAliasName(s: string): Option<(int, int)> {
    if s == [] || s[0] != 'v' then None
    else
      match SplitAtFirst(s[1..], '_')
      case None => None
      case Some(parts) =>
        match (ParseInt(parts.0), ParseInt(parts.1))
        case (Some(d), Some(i)) => Some((d, i))
        case _ => None
  }

  lemma AliasNameRoundTrip(depth: int, index: int)
    ensures ParseAliasName(AliasNameFor(depth, index)) == Some((depth, index))
  {
    var d, i := IntToString(depth), IntToString(index);
    var s := AliasNameFor(depth, index);
    assert s[1..] == d + ['_'] + i;
    assert '_' !in d;
    SplitAtFirstOfJoin(d, '_', i);
    ParseIntOfIntToString(depth);
    ParseIntOfIntToString(index);
  }

  /** Different (depth, index) pairs never produce the same alias name. */
  lemma AliasNameInjective(d1: int, i1: int, d2: int, i2: int)
    ensures AliasNameFor(d1, i1) == AliasNameFor(d2, i2) <==> d1 == d2 && i1 == i2
  {
    AliasNameRoundTrip(d1, i1);
    AliasNameRoundTrip(d2, i2);
  }

  // ---------------------------------------------------------------------
  // Display, equality and order

  /** A constructed alias displays its alias name; a generated one displays the user's name. */
  lemma ProperNameOfNewAlias(originalName: string, aliasName: string)
    ensures NewAlias(originalName, aliasName).ProperName() == aliasName
    ensures NewAlias(originalName, aliasName).ProperName() == NewAlias(originalName, aliasName).ToString()
  {
  }

  /** The alias with its generated flag cleared: the part that `equals` looks at. */
  function Unflagged(a: Alias): (r: Alias)
    ensures !r.autoGenerated
  {
    a.(autoGenerated := false)
  }

  /** `equals` is value equality once the generated flag is ignored. */
  lemma EqualsIgnoresFlag(a: Alias, b: Alias)
    ensures a.Equals(AliasObject(b)) <==> Unflagged(a) == Unflagged(b)
    ensures a.Equals(AliasObject(b.(autoGenerated := !b.autoGenerated))) == a.Equals(AliasObject(b))
    ensures !a.Equals(OtherObject)
  {
  }

  /** `equals` on aliases is an equivalence relation. */
  lemma EqualsIsEquivalence(a: Alias, b: Alias, c: Alias)
    ensures a.Equals(AliasObject(a))
    ensures a.Equals(AliasObject(b)) ==> b.Equals(AliasObject(a))
    ensures a.Equals(AliasObject(b)) && b.Equals(AliasObject(c)) ==> a.Equals(AliasObject(c))
  {
  }

  /** `compareTo` returns 0 exactly when `equals` holds. */
  lemma CompareToZeroIffEquals(a: Alias, b: Alias)
    ensures a.CompareTo(b) == 0 <==> a.Equals(AliasObject(b))
  {
    JavaString.CompareZeroIffEqual(a.originalName, b.originalName);
    JavaString.CompareZeroIffEqual(a.aliasName, b.aliasName);
  }

  /** The order is lexicographic on (originalName, aliasName). */
  lemma CompareToLexicographic(a: Alias, b: Alias)
    ensures a.CompareTo(b) < 0 <==>
      JavaString.Compare(a.originalName, b.originalName) < 0
      || (a.originalName == b.originalName && JavaString.Compare(a.aliasName, b.aliasName) < 0)
  {
    JavaString.CompareZeroIffEqual(a.originalName, b.originalName);
  }

  /** Swapping the operands negates `compareTo`, so its sign is antisymmetric. */
  lemma CompareToAntisymmetric(a: Alias, b: Alias)
    ensures b.CompareTo(a) == -a.CompareTo(b)
  {
    JavaString.CompareAntisymmetric(a.originalName, b.originalName);
    JavaString.CompareAntisymmetric(a.aliasName, b.aliasName);
  }

  /** The strict order `compareTo < 0` is transitive. */
  lemma CompareToTransitive(a: Alias, b: Alias, c: Alias)
    requires a.CompareTo(b) < 0 && b.CompareTo(c) < 0
    ensures a.CompareTo(c) < 0
  {
    CompareToLexicographic(a, b);
    CompareToLexicographic(b, c);
    CompareToLexicographic(a, c);
    if a.originalName == b.originalName && b.originalName == c.originalName {
      JavaString.CompareTransitive(a.aliasName, b.aliasName, c.aliasName);
    } else if a.originalName == b.originalName {
    } else if b.originalName == c.originalName {
    } else {
      JavaString.CompareTransitive(a.originalName, b.originalName, c.originalName);
    }
  }

  /** The non-strict order `compareTo <= 0` is transitive as well. */
  lemma CompareToAtMostTransitive(a: Alias, b: Alias, c: Alias)
    requires a.CompareTo(b) <= 0 && b.CompareTo(c) <= 0
    ensures a.CompareTo(c) <= 0
  {
    CompareToZeroIffEquals(a, b);
    CompareToZeroIffEquals(b, c);
    CompareToZeroIffEquals(a, c);
    if a.CompareTo(b) < 0 && b.CompareTo(c) < 0 {
      CompareToTransitive(a, b, c);
    } else if a.CompareTo(b) == 0 {
      JavaString.CompareZeroIffEqual(a.originalName, b.originalName);
      JavaString.CompareZeroIffEqual(a.aliasName, b.aliasName);
      assert a.CompareTo(c) == b.CompareTo(c);
    } else {
      JavaString.CompareZeroIffEqual(b.originalName, c.originalName);
      JavaString.CompareZeroIffEqual(b.aliasName, c.aliasName);
      assert a.CompareTo(c) == a.CompareTo(b);
    }
  }

  // ---------------------------------------------------------------------
  // Generated aliases

  /**
   * `issued` are the aliases handed out since the counter was last reset,
   * `depths` the depth each was asked for: the k-th carries the name
   * `v{depth}_{k}`, with k taken as a Java `int`.
   */
  ghost predicate IssuedInOrder(issued: seq<Alias>, depths: seq<int>) {
    |depths| == |issued|
    && forall k :: 0 <= k < |issued| ==>
      issued[k].autoGenerated && issued[k].aliasName == AliasNameFor(depths[k], Wrap32(k + 1))
  }

  lemma IssuedInOrderAppend(issued: seq<Alias>, depths: seq<int>, a: Alias, depth: int)
    requires IssuedInOrder(issued, depths)
    requires a.autoGenerated && a.aliasName == AliasNameFor(depth, Wrap32(|issued| + 1))
    ensures IssuedInOrder(issued + [a], depths + [depth])
  {
  }

  /** Fewer than 2^31 calls after a reset: the k-th call is numbered exactly k. */
  lemma KthIssuedName(issued: seq<Alias>, depths: seq<int>, k: int)
    requires IssuedInOrder(issued, depths)
    requires 1 <= k <= |issued| && k <= MaxInt32
    ensures issued[k - 1].aliasName == AliasNameFor(depths[k - 1], k)
  {
  }

  /**
   * Up to 2^32 calls after a reset, every generated alias has its own alias
   * name, so no two of them are `equals`.
   */
  lemma IssuedNamesDistinct(issued: seq<Alias>, depths: seq<int>, i: int, j: int)
    requires IssuedInOrder(issued, depths) && |issued| <= Modulus32
    requires 0 <= i < j < |issued|
    ensures issued[i].aliasName != issued[j].aliasName
    ensures !issued[i].Equals(AliasObject(issued[j]))
  {
    Wrap32InjectiveOnWindow(i + 1, j + 1);
    AliasNameInjective(depths[i], Wrap32(i + 1), depths[j], Wrap32(j + 1));
  }

  /** Beyond 2^32 calls the counter has wrapped: call 2^32 + 1 repeats the name of call 1. */
  lemma IssuedNamesRepeatAfterWrap(issued: seq<Alias>, depths: seq<int>)
    requires IssuedInOrder(issued, depths) && |issued| > Modulus32
    requires depths[0] == depths[Modulus32]
    ensures issued[0].aliasName == issued[Modulus32].aliasName
  {
    assert Wrap32(Modulus32 + 1) == 1;
  }

  /** The class-wide `aliasIndex` counter and the aliases it has numbered. */
  class AliasGenerator {
    var aliasIndex: int
    ghost var issued: seq<Alias>
    ghost var depths: seq<int>

    ghost predicate Valid()
      reads this
    {
      IsInt32(aliasIndex) && aliasIndex == Wrap32(|issued|) && IssuedInOrder(issued, depths)
    }

    /** Class initialisation: the counter starts at 0. */
    constructor ()
      ensures Valid() && aliasIndex == 0 && issued == [] && depths == []
    {
      aliasIndex := 0;
      issued, depths := [], [];
    }

    method ResetAliasIndex()
      modifies this
      ensures Valid() && aliasIndex == 0 && issued == [] && depths == []
    {
      aliasIndex := 0;
      issued, depths := [], [];
    }

    /** Bumps the counter, then names the new alias after the new count. */
    method GenAlias(depth: int, originalName: string) returns (a: Alias)
      requires Valid()
      modifies this
      ensures Valid()
      ensures aliasIndex == Inc32(old(aliasIndex))
      ensures a.originalName == originalName && a.autoGenerated
      ensures a.aliasName == AliasNameFor(depth, aliasIndex)
      ensures issued == old(issued) + [a] && depths == old(depths) + [depth]
    {
      Inc32OfWrap32(|issued|);
      aliasIndex := Inc32(aliasIndex);
      var name := "v" + IntToString(depth) + "_" + IntToString(aliasIndex);
      a := NewAlias(originalName, name);
      a := a.(autoGenerated := true);
      IssuedInOrderAppend(issued, depths, a, depth);
      issued, depths := issued + [a], depths + [depth];
    }

    /** An alias for a derived table: a generated alias whose original name is "subquery". */
    method GenDerivedTableAlias(depth: int) returns (a: Alias)
      requires Valid()
      modifies this
      ensures Valid()
      ensures aliasIndex == Inc32(old(aliasIndex))
      ensures a == Alias("subquery", AliasNameFor(depth, aliasIndex), true)
      ensures issued == old(issued) + [a] && depths == old(depths) + [depth]
    {
      a := GenAlias(depth, "subquery");
    }
  }
}
