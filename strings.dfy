// The two string operations the answer check applies to the typed input:
// lower-casing and trimming surrounding white space (ASCII only).

module Strings {

  predicate IsUpperAscii(c: char) {
    'A' <= c <= 'Z'
  }

  /** The white space characters trimmed from the answer (the ASCII ones). */
  predicate IsSpace(c: char) {
    c == ' ' || c == '\t' || c == '\n' || c == '\r' || c == '\U{0B}' || c == '\U{0C}'
  }

  function LowerChar(c: char): (r: char)
    ensures !IsUpperAscii(r)
    ensures !IsUpperAscii(c) ==> r == c
    ensures IsSpace(r) <==> IsSpace(c)
  {
    if IsUpperAscii(c) then (c as int + 32) as char else c
  }

  /** Lower-cases every ASCII upper-case letter and keeps every other character. */
  function ToLower(s: string): (r: string)
    ensures |r| == |s|
    ensures forall i :: 0 <= i < |r| ==> !IsUpperAscii(r[i])
    ensures forall i :: 0 <= i < |r| ==> (IsSpace(r[i]) <==> IsSpace(s[i]))
    ensures forall i :: 0 <= i < |r| ==> r[i] == s[i] || (IsUpperAscii(s[i]) && r[i] as int == s[i] as int + 32)
  {
    seq(|s|, i requires 0 <= i < |s| => LowerChar(s[i]))
  }

  lemma {:induction false} ToLowerIdempotent(s: string)
    ensures ToLower(ToLower(s)) == ToLower(s)
  {
    var once := ToLower(s);
    forall i | 0 <= i < |once| ensures ToLower(once)[i] == once[i] {
      assert !IsUpperAscii(once[i]);
    }
  }

  /** A string without upper-case letters is its own lower-case form. */
  lemma ToLowerOfLower(s: string)
    requires forall i :: 0 <= i < |s| ==> !IsUpperAscii(s[i])
    ensures ToLower(s) == s
  {
  }

  function TrimLeft(s: string): (r: string)
    ensures |r| <= |s| && r == s[|s| - |r|..]
    ensures r == [] || !IsSpace(r[0])
    ensures forall i :: 0 <= i < |s| - |r| ==> IsSpace(s[i])
  {
    if |s| > 0 && IsSpace(s[0]) then TrimLeft(s[1..]) else s
  }

  function TrimRight(s: string): (r: string)
    ensures |r| <= |s| && r == s[..|r|]
    ensures r == [] || !IsSpace(r[|r| - 1])
    ensures forall i :: |r| <= i < |s| ==> IsSpace(s[i])
  {
    if |s| > 0 && IsSpace(s[|s| - 1]) then TrimRight(s[..|s| - 1]) else s
  }

  /** r is the slice of s that starts at a, and everything of s before and
      after that slice is white space. */
  predicate SliceBetweenSpaces(s: string, r: string, a: int) {
    && 0 <= a <= |s| - |r| && r == s[a..a + |r|]
    && (forall i :: 0 <= i < a ==> IsSpace(s[i]))
    && (forall i :: a + |r| <= i < |s| ==> IsSpace(s[i]))
  }

  /** Removes all leading and trailing white space: the result is a slice of
      the input with only white space around it, and it neither starts nor
      ends with white space. */
  function TrimSpace(s: string): (r: string)
    ensures |r| <= |s|
    ensures r == [] || (!IsSpace(r[0]) && !IsSpace(r[|r| - 1]))
    ensures forall i :: 0 <= i < |r| ==> r[i] in s
    ensures exists a :: SliceBetweenSpaces(s, r, a)
  {
    TrimBothSlice(s);
    TrimRight(TrimLeft(s))
  }

  /** Trimming the left and then the right leaves a slice of the input with
      white space only around it. */
  lemma TrimBothSlice(s: string)
    ensures SliceBetweenSpaces(s, TrimRight(TrimLeft(s)), |s| - |TrimLeft(s)|)
  {
    var left := TrimLeft(s);
    var r := TrimRight(left);
    assert |left| <= |s| && left == s[|s| - |left|..];
    assert forall i :: 0 <= i < |s| - |left| ==> IsSpace(s[i]);
    assert |r| <= |left| && r == left[..|r|];
    assert forall i :: |r| <= i < |left| ==> IsSpace(left[i]);
    SliceOfSuffix(s, left, r);
  }

  /** A prefix of a suffix is a slice, and what is cut off on either side is
      what each cut removed. */
  lemma SliceOfSuffix(s: string, left: string, r: string)
    requires |left| <= |s| && left == s[|s| - |left|..]
    requires forall i :: 0 <= i < |s| - |left| ==> IsSpace(s[i])
    requires |r| <= |left| && r == left[..|r|]
    requires forall i :: |r| <= i < |left| ==> IsSpace(left[i])
    ensures SliceBetweenSpaces(s, r, |s| - |left|)
  {
    var a := |s| - |left|;
    forall i | a + |r| <= i < |s|
      ensures IsSpace(s[i])
    {
      assert s[i] == left[i - a];
    }
  }

  /** Trimming a string that neither starts nor ends with white space keeps it. */
  lemma TrimSpaceOfTrimmed(s: string)
    requires s == [] || (!IsSpace(s[0]) && !IsSpace(s[|s| - 1]))
    ensures TrimSpace(s) == s
  {
  }

  lemma TrimSpaceIdempotent(s: string)
    ensures TrimSpace(TrimSpace(s)) == TrimSpace(s)
  {
    TrimSpaceOfTrimmed(TrimSpace(s));
  }

  /** A string of white space only trims to the empty answer. */
  lemma {:induction false} TrimSpaceOfBlank(s: string)
    requires forall i :: 0 <= i < |s| ==> IsSpace(s[i])
    ensures TrimSpace(s) == []
  {
    if |s| > 0 {
      assert IsSpace(s[0]);
      TrimSpaceOfBlank(s[1..]);
      assert TrimLeft(s) == TrimLeft(s[1..]);
    }
  }

  /** The comparison value of an answer: lower-cased, then trimmed. */
  function Normalize(s: string): (r: string)
    ensures |r| <= |s|
    ensures forall i :: 0 <= i < |r| ==> !IsUpperAscii(r[i])
  {
    TrimSpace(ToLower(s))
  }

  /** A word of lower-case letters is its own comparison value, and so is its
      upper-case spelling. */
  lemma NormalizeWord(s: string, typed: string)
    requires |s| > 0 && forall i :: 0 <= i < |s| ==> 'a' <= s[i] <= 'z'
    requires |typed| == |s|
    requires forall i :: 0 <= i < |s| ==> typed[i] == s[i] || typed[i] as int == s[i] as int - 32
    ensures Normalize(s) == s
    ensures Normalize(typed) == s
  {
    assert ToLower(s) == s;
    assert ToLower(typed) == s;
    TrimSpaceOfTrimmed(s);
  }
}
