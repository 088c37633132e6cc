/** String helpers that stand for the JavaScript string methods the source calls
    (`toLowerCase`, `startsWith`, `includes`, `split('-')[0]`, default `sort()` order). */
module Text {
  import opened Wrappers

  /** JavaScript truthiness (`!!x`) of an optional string: present and non-empty.
      The same notion on numbers is `Recommendations.TruthyNumber` and on
      form values `ProfileForm.Truthy`. */
  predicate Truthy(s: Option<string>) {
    s.Some? && s.value != ""
  }

  /** `toLowerCase` on one character, for the ASCII letters. */
  function LowerChar(c: char): char {
    if 'A' <= c <= 'Z' then (c as int + 32) as char else c
  }

  function ToLower(s: string): (r: string)
    ensures |r| == |s|
    ensures forall i :: 0 <= i < |s| ==> r[i] == LowerChar(s[i])
    ensures forall i :: 0 <= i < |r| ==> !('A' <= r[i] <= 'Z')
  {
    seq(|s|, i requires 0 <= i < |s| => LowerChar(s[i]))
  }

  /** `a.toLowerCase() === b.toLowerCase()`: equal lengths, and equal
      position by position once lowered. */
  function EqualsIgnoreCase(a: string, b: string): (r: bool)
    ensures r <==> |a| == |b| && forall i :: 0 <= i < |a| ==> LowerChar(a[i]) == LowerChar(b[i])
    ensures a == b ==> r
  {
    var la, lb := ToLower(a), ToLower(b);
    assert |la| == |lb| ==> (la == lb <==> forall i :: 0 <= i < |la| ==> la[i] == lb[i]);
    la == lb
  }

  /** `s.startsWith(prefix)`. */
  function StartsWith(s: string, prefix: string): (r: bool)
    ensures r <==> |prefix| <= |s| && forall i :: 0 <= i < |prefix| ==> s[i] == prefix[i]
  {
    |prefix| <= |s| && s[..|prefix|] == prefix
  }

  /** `sub` sits in `s` starting at position `k`. */
  predicate OccursAt(s: string, sub: string, k: int) {
    0 <= k && k + |sub| <= |s| && s[k..k + |sub|] == sub
  }

  /** `s.includes(sub)` on strings: `sub` occurs somewhere in `s`. */
  function Contains(s: string, sub: string): (r: bool)
    ensures r <==> exists k :: OccursAt(s, sub, k)
    decreases |s|
  {
    if StartsWith(s, sub) then
      assert OccursAt(s, sub, 0);
      true
    else if s == [] then false
    else
      OccursShift(s, sub);
      Contains(s[1..], sub)
  }

  /** Past a non-matching first position, the occurrences in `s` are those in its tail. */
  lemma OccursShift(s: string, sub: string)
    requires s != [] && !StartsWith(s, sub)
    ensures (exists k :: OccursAt(s, sub, k)) <==> exists k :: OccursAt(s[1..], sub, k)
  {
    if k :| OccursAt(s, sub, k) {
      assert k != 0;
      assert s[1..][k - 1..k - 1 + |sub|] == s[k..k + |sub|];
      assert OccursAt(s[1..], sub, k - 1);
    }
    if k :| OccursAt(s[1..], sub, k) {
      assert s[1..][k..k + |sub|] == s[k + 1..k + 1 + |sub|];
      assert OccursAt(s, sub, k + 1);
    }
  }

  /** `s.split(sep)[0]`: everything before the first `sep`, or all of `s`. */
  function BeforeFirst(s: string, sep: char): (r: string)
    ensures StartsWith(s, r)
    ensures sep !in r
    ensures |r| < |s| ==> s[|r|] == sep
  {
    if s == [] then []
    else if s[0] == sep then []
    else [s[0]] + BeforeFirst(s[1..], sep)
  }

  /** `a` and `b` agree before position `k` and `a` has the smaller character there. */
  predicate SmallerAt(a: string, b: string, k: int) {
    0 <= k < |a| && k < |b| && a[..k] == b[..k] && a[k] < b[k]
  }

  /** The order JavaScript's default `sort()` puts strings in: a prefix comes
      first, and otherwise the first differing character decides. */
  function StrLe(a: string, b: string): (r: bool)
    ensures r <==> StartsWith(b, a) || exists k :: SmallerAt(a, b, k)
    decreases |a|
  {
    if a == [] then true
    else if b == [] then
      assert forall k :: !SmallerAt(a, b, k);
      false
    else if a[0] != b[0] then
      assert a[0] < b[0] ==> SmallerAt(a, b, 0);
      assert forall k :: SmallerAt(a, b, k) ==> k == 0;
      a[0] < b[0]
    else
      SmallerShift(a, b);
      StrLe(a[1..], b[1..])
  }

  /** Past an equal first character, the order is decided by the tails. */
  lemma SmallerShift(a: string, b: string)
    requires a != [] && b != [] && a[0] == b[0]
    ensures (StartsWith(b, a) || exists k :: SmallerAt(a, b, k))
        <==> (StartsWith(b[1..], a[1..]) || exists k :: SmallerAt(a[1..], b[1..], k))
  {
    if k :| SmallerAt(a, b, k) {
      assert k != 0;
      assert a[1..][..k - 1] == a[..k][1..] && b[1..][..k - 1] == b[..k][1..];
      assert SmallerAt(a[1..], b[1..], k - 1);
    }
    if k :| SmallerAt(a[1..], b[1..], k) {
      assert a[..k + 1] == [a[0]] + a[1..][..k] && b[..k + 1] == [b[0]] + b[1..][..k];
      assert SmallerAt(a, b, k + 1);
    }
  }

  lemma {:induction false} StrLeTotal(a: string, b: string)
    ensures StrLe(a, b) || StrLe(b, a)
    decreases |a|
  {
    if a != [] && b != [] && a[0] == b[0] {
      StrLeTotal(a[1..], b[1..]);
    }
  }

  lemma {:induction false} StrLeTransitive(a: string, b: string, c: string)
    requires StrLe(a, b) && StrLe(b, c)
    ensures StrLe(a, c)
    decreases |a|
  {
    if a != [] && b != [] && c != [] && a[0] == b[0] && b[0] == c[0] {
      StrLeTransitive(a[1..], b[1..], c[1..]);
    }
  }
}
