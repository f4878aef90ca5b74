/** Value wrappers shared by the three components: Kotlin's nullable values,
    calls that either return a value or throw, and calls whose value is unused. */
module Common {

  /** A Kotlin `T?`. */
  datatype Option<T> = None | Some(value: T)

  /** A suspending call that returns a value or throws an exception with a message. */
  datatype Result<T> = Ok(value: T) | Err(message: string)

  /** A suspending call whose return value the caller ignores: it completes or throws. */
  datatype Outcome = Pass | Fail(message: string)

  /** Kotlin's `String.contains(other)`: `sub` occurs somewhere in `s`. */
  predicate Contains(s: string, sub: string)
    decreases |s|
  {
    sub <= s || (|s| > 0 && Contains(s[1..], sub))
  }

  /** `Contains` finds an occurrence of `sub` at any position of `s`. */
  lemma {:induction false} ContainsAt(s: string, sub: string, i: nat)
    requires i + |sub| <= |s|
    ensures s[i..i + |sub|] == sub ==> Contains(s, sub)
    decreases i
  {
    if i > 0 {
      assert s[1..][i - 1..i - 1 + |sub|] == s[i..i + |sub|];
      ContainsAt(s[1..], sub, i - 1);
    } else if s[..|sub|] == sub {
      assert sub <= s;
    }
  }

  /** `sub` occurs in `s` starting at position `i`. */
  predicate OccursAt(s: string, sub: string, i: nat)
  {
    i + |sub| <= |s| && s[i..i + |sub|] == sub
  }

  /** Conversely, `Contains` holds only where `sub` occurs at some position of `s`. */
  lemma {:induction false} ContainsHasOccurrence(s: string, sub: string)
    ensures Contains(s, sub) ==> exists i: nat :: OccursAt(s, sub, i)
    decreases |s|
  {
    if sub <= s {
      assert OccursAt(s, sub, 0);
    } else if |s| > 0 && Contains(s[1..], sub) {
      ContainsHasOccurrence(s[1..], sub);
      var i: nat :| OccursAt(s[1..], sub, i);
      assert s[i + 1..i + 1 + |sub|] == s[1..][i..i + |sub|];
      assert OccursAt(s, sub, i + 1);
    }
  }
}
