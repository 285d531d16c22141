/**
 * String helpers shared by both monitors: Python's `str.lower()` restricted
 * to ASCII, the substring test `sub in s`, and `s.split('/')[-1]`.
 */
module Text {
  import opened Wrappers

  /** ASCII lowercasing of one character; every other character is left alone. */
  function LowerChar(c: char): (r: char)
    ensures !('A' <= r <= 'Z')
    ensures 'A' <= c <= 'Z' ==> r as int == c as int + 32
    ensures !('A' <= c <= 'Z') ==> r == c
  {
    if 'A' <= c <= 'Z' then (c as int + 32) as char else c
  }

  /** `s.lower()`, character by character. */
  function Lower(s: string): (r: string)
    ensures |r| == |s|
    ensures forall i :: 0 <= i < |s| ==> r[i] == LowerChar(s[i])
  {
    seq(|s|, i requires 0 <= i < |s| => LowerChar(s[i]))
  }

  /**
   * Python truthiness of an optional string: unset and "" are both false.
   * Both monitors use it for the webhook setting (`if not WEBHOOK_URL: return`),
   * so it lives here beside the other string helpers.
   */
  predicate Configured(o: Option<string>) {
    o.Some? && o.value != ""
  }

  /** `sub` occurs in `s` starting at position `i`. */
  predicate OccursAt(s: string, sub: string, i: nat) {
    i + |sub| <= |s| && s[i..i + |sub|] == sub
  }

  /**
   * Python's `sub in s` for strings, scanning `s` from the left; the empty
   * string occurs in every string.
   */
  predicate Contains(s: string, sub: string)
    decreases |s|
  {
    if |sub| > |s| then false
    else s[..|sub|] == sub || Contains(s[1..], sub)
  }

  /** Python's `any(w in s for w in words)`, trying the words in order. */
  predicate ContainsAny(s: string, words: seq<string>) {
    words != [] && (Contains(s, words[0]) || ContainsAny(s, words[1..]))
  }

  /** `any(...)` holds exactly when one of the words occurs, both ways. */
  lemma {:induction false} ContainsAnyIff(s: string, words: seq<string>)
    ensures ContainsAny(s, words) <==> exists k | 0 <= k < |words| :: Contains(s, words[k])
  {
    if words != [] {
      ContainsAnyIff(s, words[1..]);
      if k :| 0 < k < |words| && Contains(s, words[k]) {
        assert words[1..][k - 1] == words[k];
      }
      if k :| 0 <= k < |words| - 1 && Contains(s, words[1..][k]) {
        assert words[1..][k] == words[k + 1];
      }
    }
  }

  /** An occurrence at a known position is found by the scan. */
  lemma {:induction false} OccursAtContains(s: string, sub: string, i: nat)
    requires OccursAt(s, sub, i)
    ensures Contains(s, sub)
    decreases i
  {
    if i > 0 {
      assert s[1..][i - 1..i - 1 + |sub|] == s[i..i + |sub|];
      OccursAtContains(s[1..], sub, i - 1);
    }
  }

  /** Whatever the scan finds occurs at some position. */
  lemma {:induction false} ContainsOccurs(s: string, sub: string) returns (i: nat)
    requires Contains(s, sub)
    ensures OccursAt(s, sub, i)
    decreases |s|
  {
    if s[..|sub|] == sub {
      i := 0;
    } else {
      var j := ContainsOccurs(s[1..], sub);
      assert s[1..][j..j + |sub|] == s[j + 1..j + 1 + |sub|];
      i := j + 1;
    }
  }

  /** The scan agrees with the positional reading of `sub in s`, both ways. */
  lemma {:induction false} ContainsIff(s: string, sub: string)
    ensures Contains(s, sub) <==> exists i: nat | i <= |s| :: OccursAt(s, sub, i)
  {
    if Contains(s, sub) {
      var i := ContainsOccurs(s, sub);
    }
    if exists i: nat | i <= |s| :: OccursAt(s, sub, i) {
      var i: nat :| i <= |s| && OccursAt(s, sub, i);
      OccursAtContains(s, sub, i);
    }
  }

  /** Lowercasing keeps every occurrence, so a test on `s.lower()` sees a word in any casing. */
  lemma {:induction false} LowerKeepsOccurrence(s: string, w: string)
    requires Contains(s, w)
    ensures Contains(Lower(s), Lower(w))
  {
    var i := ContainsOccurs(s, w);
    var ls, lw := Lower(s), Lower(w);
    forall k | 0 <= k < |w|
      ensures ls[i..i + |w|][k] == lw[k]
    {
      assert s[i..i + |w|][k] == w[k];
    }
    assert OccursAt(ls, lw, i);
    OccursAtContains(ls, lw, i);
  }

  /** A word with a character that `s` lacks cannot occur in `s`. */
  lemma {:induction false} MissingCharNotContained(s: string, sub: string, k: nat)
    requires k < |sub| && sub[k] !in s
    ensures !Contains(s, sub)
    decreases |s|
  {
    if |sub| <= |s| {
      assert s[..|sub|][k] == s[k];
      assert sub[k] !in s[1..];
      MissingCharNotContained(s[1..], sub, k);
    }
  }

  /**
   * `link.split('/')[-1]`: the longest suffix of `link` that holds no '/'.
   * It is all of `link` when there is no '/', and empty when `link` ends in '/'.
   */
  function LastSegment(link: string): (r: string)
    ensures '/' !in r
    ensures |r| <= |link| && r == link[|link| - |r|..]
    ensures |r| < |link| ==> link[|link| - |r| - 1] == '/'
  {
    if link == [] then []
    else if link[|link| - 1] == '/' then []
    else LastSegment(link[..|link| - 1]) + [link[|link| - 1]]
  }
}
