/** The two `System.String` operations the webhook payload selection relies on. */
module Strings {

  predicate StartsWith(s: string, prefix: string)
  {
    |prefix| <= |s| && s[..|prefix|] == prefix
  }

  /** Ordinal `String.Contains`: `sub` occurs in `s` at some position (the empty string occurs everywhere). */
  function Contains(s: string, sub: string): (b: bool)
    ensures b <==> exists i :: 0 <= i <= |s| && StartsWith(s[i..], sub)
    decreases |s|
  {
    if StartsWith(s, sub) then
      assert StartsWith(s[0..], sub);
      true
    else if s == [] then
      false
    else
      assert forall i :: 1 <= i <= |s| ==> s[i..] == s[1..][i - 1..];
      Contains(s[1..], sub)
  }

  /** `String.Join(sep, xs)`: the elements of `xs` with `sep` between neighbours. */
  function Join(sep: string, xs: seq<string>): string
  {
    if xs == [] then ""
    else if |xs| == 1 then xs[0]
    else xs[0] + sep + Join(sep, xs[1..])
  }

  lemma ContainsAtStart(s: string, rest: string)
    ensures Contains(s + rest, s)
  {
    assert (s + rest)[0..] == s + rest;
    assert StartsWith((s + rest)[0..], s);
  }

  lemma ContainsAfter(front: string, s: string, sub: string)
    requires Contains(s, sub)
    ensures Contains(front + s, sub)
  {
    var i :| 0 <= i <= |s| && StartsWith(s[i..], sub);
    assert (front + s)[|front| + i..] == s[i..];
  }

  /** Every joined element can be found in the joined text. */
  lemma {:induction false} JoinContainsEach(sep: string, xs: seq<string>, k: nat)
    requires k < |xs|
    ensures Contains(Join(sep, xs), xs[k])
  {
    if |xs| == 1 {
      assert xs[0] + "" == xs[0];
      ContainsAtStart(xs[0], "");
    } else if k == 0 {
      assert xs[0] + sep + Join(sep, xs[1..]) == xs[0] + (sep + Join(sep, xs[1..]));
      ContainsAtStart(xs[0], sep + Join(sep, xs[1..]));
    } else {
      JoinContainsEach(sep, xs[1..], k - 1);
      ContainsAfter(xs[0] + sep, Join(sep, xs[1..]), xs[k]);
    }
  }
}
