/** Splitting text at the first occurrence of a separator character. */
module Text {
  import opened Wrappers

  /** The text before and after the first `sep` in `s`, or None when `s` has none. */
  function Cut(s: string, sep: char): (r: Option<(string, string)>)
    ensures r.None? <==> sep !in s
    ensures r.Some? ==> s == r.value.0 + [sep] + r.value.1 && sep !in r.value.0
  {
    if s == [] then None
    else if s[0] == sep then Some(([], s[1..]))
    else match Cut(s[1..], sep)
      case None => None
      case Some((before, after)) =>
        assert s == [s[0]] + s[1..];
        Some(([s[0]] + before, after))
  }

  /** Cutting a text joined at a separator that does not occur in its first part gives the two parts back. */
  lemma {:induction false} CutJoin(a: string, b: string, sep: char)
    ensures sep !in a ==> Cut(a + [sep] + b, sep) == Some((a, b))
    decreases |a|
  {
    if sep !in a && a != [] {
      var s := a + [sep] + b;
      assert s[0] == a[0] != sep;
      assert s[1..] == a[1..] + [sep] + b;
      CutJoin(a[1..], b, sep);
      assert [a[0]] + a[1..] == a;
    }
  }
}
