/** String operations of Python that the source relies on, over `seq<char>`. */
module Text {

  /** `s.find(c)`: the index of the first occurrence of `c`, or -1. */
  function Find(s: string, c: char): (i: int)
    ensures -1 <= i < |s|
    ensures i == -1 <==> c !in s
    ensures 0 <= i ==> s[i] == c && c !in s[..i]
  {
    if |s| == 0 then -1
    else if s[0] == c then 0
    else
      var j := Find(s[1..], c);
      assert s[1..][..if j < 0 then 0 else j] == s[1..if j < 0 then 1 else j + 1];
      if j == -1 then -1 else j + 1
  }

  /** `s.rfind(c)`: the index of the last occurrence of `c`, or -1. */
  function RFind(s: string, c: char): (i: int)
    ensures -1 <= i < |s|
    ensures i == -1 <==> c !in s
    ensures forall k :: i < k < |s| ==> s[k] != c
    ensures 0 <= i ==> s[i] == c
  {
    if |s| == 0 then -1
    else if s[|s| - 1] == c then |s| - 1
    else RFind(s[..|s| - 1], c)
  }

  /** Python's `a < b` on strings: lexicographic order of code points. */
  predicate StrLess(a: string, b: string): (r: bool)
    ensures r ==> a != b
  {
    if |b| == 0 then false
    else if |a| == 0 then true
    else if a[0] != b[0] then a[0] < b[0]
    else StrLess(a[1..], b[1..])
  }

  /** The pieces of `t` between the separator `sep`, as `t.split(sep)`. */
  function Fields(t: string, sep: char): (r: seq<string>)
    ensures |r| >= 1
    decreases |t|
  {
    if sep !in t then [t]
    else
      var i := Find(t, sep);
      [t[..i]] + Fields(t[i + 1..], sep)
  }

  lemma FieldsOfJoin(a: string, sep: char, b: string)
    requires sep !in a
    ensures Fields(a + [sep] + b, sep) == [a] + Fields(b, sep)
  {
    var t := a + [sep] + b;
    assert t[|a|] == sep;
    assert t[..|a|] == a;
    assert forall k :: 0 <= k < |a| ==> t[k] == a[k];
    assert t[|a| + 1..] == b;
  }
}
