/** Shared building blocks: optional values, dates, formatted text, colours
    and the small numeric helpers (absolute value, clamping) the screens use. */
module Common {

  /** Swift's `Optional`. */
  datatype Option<T> = None | Some(value: T)

  /** A point in time (`Date`), ordered by its instant. */
  datatype Date = Date(instant: real)

  /** `a > b` on dates: `a` is strictly later than `b`. */
  predicate After(a: Date, b: Date)
  {
    a.instant > b.instant
  }

  /** A UUID; generating a fresh one is a foreign effect, so callers pass it in. */
  type Uuid = nat

  /** The text a view shows: a fixed string, or the output of
      `String(format:)` on one number. Every format used by the app carries a
      unit or a degree sign, so a formatted text is never empty. */
  datatype Text = Literal(s: string) | Formatted(format: string, arg: real)

  predicate IsEmptyText(t: Text)
  {
    t.Literal? && t.s == ""
  }

  /** The SwiftUI colours the app uses; `GreenFaded` is `.green.opacity(0.7)`. */
  datatype Color = Green | GreenFaded | Yellow | Orange | Red | Blue

  function Abs(x: real): (r: real)
    ensures r >= 0.0
    ensures r == x || r == -x
  {
    if x < 0.0 then -x else x
  }

  function Max(a: real, b: real): (r: real)
    ensures r >= a && r >= b
    ensures r == a || r == b
  {
    if a >= b then a else b
  }

  function Min(a: real, b: real): (r: real)
    ensures r <= a && r <= b
    ensures r == a || r == b
  {
    if a <= b then a else b
  }

  /** `max(lo, min(hi, x))`, the clamp the indicator views write inline. */
  function Clamp(lo: real, hi: real, x: real): (r: real)
    requires lo <= hi
    ensures lo <= r <= hi
    ensures lo <= x <= hi ==> r == x
    ensures x > hi ==> r == hi
    ensures x < lo ==> r == lo
  {
    Max(lo, Min(hi, x))
  }

  /** `t` occurs in `s` starting at position `i`. */
  predicate OccursAt(s: string, t: string, i: nat)
  {
    i + |t| <= |s| && s[i..i + |t|] == t
  }

  /** `s.contains(t)` on strings, scanning from the front. */
  predicate ContainsSubstring(s: string, t: string)
  {
    |t| <= |s| && (s[..|t|] == t || ContainsSubstring(s[1..], t))
  }

  /** The scan finds `t` exactly when `t` occurs at some position of `s`. */
  lemma {:induction false} ContainsSubstringOccurs(s: string, t: string)
    ensures ContainsSubstring(s, t) <==> exists i: nat :: OccursAt(s, t, i)
  {
    if |t| <= |s| {
      if s[..|t|] != t {
        ContainsSubstringOccurs(s[1..], t);
        forall i: nat | OccursAt(s, t, i)
          ensures i > 0 && OccursAt(s[1..], t, i - 1)
        {
          assert i != 0;
          assert s[1..][i - 1..i - 1 + |t|] == s[i..i + |t|];
        }
        forall i: nat | OccursAt(s[1..], t, i)
          ensures OccursAt(s, t, i + 1)
        {
          assert s[1..][i..i + |t|] == s[i + 1..i + 1 + |t|];
        }
      } else {
        assert OccursAt(s, t, 0);
      }
    }
  }
}
