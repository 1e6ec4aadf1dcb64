/**
 Comma-separated lists of strings: the shape of the `stroke-dasharray` value,
 which the dash-array builder writes as the first entry followed by
 "," and one more entry per later segment.
 */
module CommaList {

  predicate CommaFree(s: string)
  {
    forall k :: 0 <= k < |s| ==> s[k] != ','
  }

  /** The parts written one after another with a comma between neighbours. */
  function Join(parts: seq<string>): string
    decreases |parts|
  {
    if |parts| == 0 then ""
    else if |parts| == 1 then parts[0]
    else Join(parts[..|parts| - 1]) + "," + parts[|parts| - 1]
  }

  /** The pieces of s between commas, in order; a string with k commas has k + 1 pieces. */
  function Split(s: string): (r: seq<string>)
    ensures |r| >= 1
    decreases |s|
  {
    if |s| == 0 then [""]
    else
      var init := Split(s[..|s| - 1]);
      if s[|s| - 1] == ',' then init + [""]
      else init[..|init| - 1] + [init[|init| - 1] + [s[|s| - 1]]]
  }

  /** A comma-free string is a single piece. */
  lemma {:induction false} SplitCommaFree(s: string)
    requires CommaFree(s)
    ensures Split(s) == [s]
    decreases |s|
  {
    if |s| > 0 {
      SplitCommaFree(s[..|s| - 1]);
      assert s[..|s| - 1] + [s[|s| - 1]] == s;
    }
  }

  /** Appending a comma and a comma-free piece adds exactly that piece. */
  lemma {:induction false} SplitAppend(a: string, b: string)
    requires CommaFree(b)
    ensures Split(a + "," + b) == Split(a) + [b]
    decreases |b|
  {
    var s := a + "," + b;
    if |b| == 0 {
      assert s[..|s| - 1] == a;
    } else {
      var b' := b[..|b| - 1];
      assert s[..|s| - 1] == a + "," + b';
      SplitAppend(a, b');
      assert b' + [b[|b| - 1]] == b;
    }
  }

  /** Splitting a join of comma-free parts gives the parts back. */
  lemma {:induction false} SplitJoin(parts: seq<string>)
    requires |parts| >= 1
    requires forall i :: 0 <= i < |parts| ==> CommaFree(parts[i])
    ensures Split(Join(parts)) == parts
    decreases |parts|
  {
    if |parts| == 1 {
      SplitCommaFree(parts[0]);
    } else {
      var init := parts[..|parts| - 1];
      SplitJoin(init);
      SplitAppend(Join(init), parts[|parts| - 1]);
    }
  }
}
