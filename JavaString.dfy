/**
 * Java's `String.compareTo`: the difference of the first pair of characters
 * that differ, or the difference of the lengths when one string is a prefix
 * of the other. Characters are compared by their code.
 */
module JavaString {

  function Compare(s: string, t: string): int
    decreases |s|
  {
    if s == [] || t == [] then |s| - |t|
    else if s[0] != t[0] then s[0] as int - t[0] as int
    else Compare(s[1..], t[1..])
  }

  /** `compareTo` is zero exactly on equal strings. */
  lemma {:induction false} CompareZeroIffEqual(s: string, t: string)
    ensures Compare(s, t) == 0 <==> s == t
    decreases |s|
  {
    if s != [] && t != [] && s[0] == t[0] {
      CompareZeroIffEqual(s[1..], t[1..]);
      assert s == [s[0]] + s[1..] && t == [t[0]] + t[1..];
    }
  }

  /** Swapping the arguments negates the result. */
  lemma {:induction false} CompareAntisymmetric(s: string, t: string)
    ensures Compare(t, s) == -Compare(s, t)
    decreases |s|
  {
    if s != [] && t != [] && s[0] == t[0] {
      CompareAntisymmetric(s[1..], t[1..]);
    }
  }

  /** The strict order that `compareTo` induces is transitive. */
  lemma {:induction false} CompareTransitive(a: string, b: string, c: string)
    requires Compare(a, b) < 0 && Compare(b, c) < 0
    ensures Compare(a, c) < 0
    decreases |a|
  {
    if a != [] && b != [] && c != [] && a[0] == b[0] && b[0] == c[0] {
      CompareTransitive(a[1..], b[1..], c[1..]);
    }
  }
}
