/** `PasswordValidator`: a value is a valid password when the regular
    expression `.{8,35}` matches all of it.  `.` matches any character but a
    line terminator, and a `char` here is a whole code point, as the regex
    engine counts them. */
module Passwords {

  const MinLength: nat := 8
  const MaxLength: nat := 35

  /** The characters `.` does not match: the line terminators of
      `java.util.regex` (line feed, carriage return, next line, line
      separator, paragraph separator). */
  predicate IsLineTerminator(c: char)
  {
    c == '\n' || c == '\r' || c == '\U{85}' || c == '\U{2028}' || c == '\U{2029}'
  }

  predicate NoLineTerminator(s: string)
  {
    forall i :: 0 <= i < |s| ==> !IsLineTerminator(s[i])
  }

  /** The greedy `.{..max}`: how many leading characters `.` consumes,
      stopping at a line terminator, at the end of the input, or at `max`. */
  function DotRun(s: string, max: nat): (k: nat)
    ensures k <= max && k <= |s|
    ensures forall i :: 0 <= i < k ==> !IsLineTerminator(s[i])
    ensures k < max && k < |s| ==> IsLineTerminator(s[k])
  {
    if max == 0 || s == [] || IsLineTerminator(s[0]) then 0
    else 1 + DotRun(s[1..], max - 1)
  }

  /** Backtracking from `k` consumed characters down to the minimum: the whole
      match succeeds once the consumed characters reach the end of the input. */
  function Backtrack(s: string, k: nat): bool
    decreases k
  {
    if k < MinLength then false
    else if k == |s| then true
    else Backtrack(s, k - 1)
  }

  /** `isValid`: `matcher(value).matches()` for `.{8,35}`.  The validator
      context plays no part. */
  function IsValid(value: string): bool
  {
    Backtrack(value, DotRun(value, MaxLength))
  }

  lemma {:induction false} BacktrackMeaning(s: string, k: nat)
    ensures Backtrack(s, k) <==> MinLength <= |s| <= k
    decreases k
  {
    if k >= MinLength && k != |s| {
      BacktrackMeaning(s, k - 1);
    }
  }

  /** A value is accepted exactly when it has 8 to 35 characters and none of
      them is a line terminator. */
  lemma IsValidMeaning(value: string)
    ensures IsValid(value) <==> MinLength <= |value| <= MaxLength && NoLineTerminator(value)
  {
    var k := DotRun(value, MaxLength);
    BacktrackMeaning(value, k);
    if |value| <= MaxLength && NoLineTerminator(value) {
      assert k == |value|;
    }
  }

  /** The boundaries: 8 and 35 characters pass, 7 and 36 do not. */
  lemma LengthBoundaries(s: string)
    requires NoLineTerminator(s)
    ensures |s| == 8 ==> IsValid(s)
    ensures |s| == 35 ==> IsValid(s)
    ensures |s| == 7 ==> !IsValid(s)
    ensures |s| == 36 ==> !IsValid(s)
  {
    IsValidMeaning(s);
  }

  /** The match must cover the whole value: a longer value is refused even
      though its first 35 characters would pass on their own. */
  lemma WholeValueMatched(s: string)
    requires |s| > MaxLength && NoLineTerminator(s)
    ensures !IsValid(s)
    ensures IsValid(s[..MaxLength])
  {
    IsValidMeaning(s);
    IsValidMeaning(s[..MaxLength]);
  }

  /** A line feed or carriage return anywhere refuses the value, whatever its
      length. */
  lemma LineBreakRefused(s: string, i: nat)
    requires i < |s| && (s[i] == '\n' || s[i] == '\r')
    ensures !IsValid(s)
  {
    IsValidMeaning(s);
  }

  /** Concrete values. */
  lemma Examples()
    ensures IsValid("password")
    ensures !IsValid("passwor")
    ensures !IsValid("pass\nword")
  {
    IsValidMeaning("password");
    IsValidMeaning("passwor");
    IsValidMeaning("pass\nword");
    assert "pass\nword"[4] == '\n';
  }
}
