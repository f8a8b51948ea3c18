/** String helpers used by URL normalisation and the User-Agent parser. */
module Strings {

  import opened Prelude

  /** `sub` occurs in `s` starting at index `i`. */
  ghost predicate OccursAt(s: string, sub: string, i: int) {
    0 <= i && i + |sub| <= |s| && s[i..i + |sub|] == sub
  }

  /** The reference meaning of "`s` contains `sub`": some index where it occurs. */
  ghost predicate HasSubstring(s: string, sub: string) {
    exists i :: OccursAt(s, sub, i)
  }

  /** Substring search, as `String.contains(_:)` does it on plain characters for a non-empty
      search string (only "https" is ever searched for); the empty string counts as found here. */
  function Contains(s: string, sub: string): bool
    decreases |s|
  {
    if |sub| > |s| then false
    else if s[..|sub|] == sub then true
    else Contains(s[1..], sub)
  }

  /** The search agrees with the reference meaning, in both directions. */
  lemma {:induction false} ContainsIsSubstring(s: string, sub: string)
    ensures Contains(s, sub) <==> HasSubstring(s, sub)
    decreases |s|
  {
    if |sub| > |s| {
    } else if s[..|sub|] == sub {
      assert OccursAt(s, sub, 0);
    } else {
      ContainsIsSubstring(s[1..], sub);
      if Contains(s[1..], sub) {
        var i :| OccursAt(s[1..], sub, i);
        assert s[i + 1..i + 1 + |sub|] == sub by {
          forall k | 0 <= k < |sub|
            ensures s[i + 1 + k] == sub[k]
          {
            assert sub[k] == s[1..][i..i + |sub|][k] == s[1..][i + k];
          }
        }
        assert OccursAt(s, sub, i + 1);
      }
      if HasSubstring(s, sub) {
        var i :| OccursAt(s, sub, i);
        assert i != 0;
        assert s[1..][i - 1..i - 1 + |sub|] == sub by {
          forall k | 0 <= k < |sub|
            ensures s[1..][i - 1 + k] == sub[k]
          {
            assert sub[k] == s[i..i + |sub|][k] == s[i + k];
          }
        }
        assert OccursAt(s[1..], sub, i - 1);
      }
    }
  }

  /** Splits `s` around the first occurrence of `c`, or `None` when `c` does not occur. */
  function SplitFirst(s: string, c: char): (r: Option<(string, string)>)
    ensures r.None? <==> c !in s
    ensures r.Some? ==> c !in r.value.0 && s == r.value.0 + [c] + r.value.1
  {
    if |s| == 0 then None
    else if s[0] == c then Some(([], s[1..]))
    else match SplitFirst(s[1..], c)
      case None => None
      case Some(p) => Some(([s[0]] + p.0, p.1))
  }

  /** Splitting a joined string at a separator absent from the left part recovers both parts. */
  lemma {:induction false} SplitFirstOfJoin(a: string, c: char, b: string)
    requires c !in a
    ensures SplitFirst(a + [c] + b, c) == Some((a, b))
    decreases |a|
  {
    var s := a + [c] + b;
    if |a| == 0 {
      assert s == [c] + b;
    } else {
      assert s[0] == a[0] && s[1..] == a[1..] + [c] + b;
      SplitFirstOfJoin(a[1..], c, b);
      assert [a[0]] + a[1..] == a;
    }
  }
}
