/** ASCII case handling used by the zone-name resolution (now.go).

    A Go string is a sequence of bytes. This model represents it as a
    `string` holding one `char` per byte; every operation below is total
    over `char`, and only the bytes 'a'..'z' are ever changed.
 */
module Ascii {

  /** The lowercase ASCII letters, the only bytes the program rewrites. */
  predicate IsLower(c: char) {
    'a' <= c <= 'z'
  }

  /** The uppercase ASCII letters. */
  predicate IsUpper(c: char) {
    'A' <= c <= 'Z'
  }

  /** Distance from a lowercase letter to its uppercase form: the code
      subtracts the space character (' ' == 32), and `'A' - 'a' == -32`. */
  const CaseShift: int := 32

  /** One byte of `toUpper`: a lowercase letter is shifted down by 32,
      every other byte is kept. */
  function UpperByte(c: char): (u: char)
    ensures !IsLower(u)
    ensures IsLower(c) ==> IsUpper(u)
    ensures IsLower(c) ==> u as int + CaseShift == c as int
    ensures !IsLower(c) ==> u == c
  {
    if IsLower(c) then (c as int - CaseShift) as char else c
  }

  /** True when `s` holds no lowercase ASCII letter. */
  predicate NoLower(s: string) {
    forall i :: 0 <= i < |s| ==> !IsLower(s[i])
  }

  /** Reference definition of `toUpper`: the byte-wise uppercasing,
      defined by recursion on the string. */
  function Upper(s: string): (r: string)
    ensures |r| == |s|
    ensures forall i :: 0 <= i < |s| ==> r[i] == UpperByte(s[i])
    ensures NoLower(r)
  {
    if s == [] then [] else [UpperByte(s[0])] + Upper(s[1..])
  }

  /** `toUpper` as the program writes it: allocate a buffer of the input's
      length and fill it byte by byte. Its result is the reference `Upper`. */
  method ToUpper(s: string) returns (r: string)
    ensures |r| == |s|
    ensures forall i :: 0 <= i < |s| && IsLower(s[i]) ==> r[i] as int == s[i] as int - CaseShift
    ensures forall i :: 0 <= i < |s| && !IsLower(s[i]) ==> r[i] == s[i]
    ensures r == Upper(s)
  {
    var b := new char[|s|];
    var i := 0;
    while i < b.Length
      invariant 0 <= i <= b.Length == |s|
      invariant forall j :: 0 <= j < i ==> b[j] == UpperByte(s[j])
    {
      var c := s[i];
      if IsLower(c) {
        c := (c as int - CaseShift) as char;
      }
      b[i] := c;
      i := i + 1;
    }
    r := b[..];
  }

  /** Uppercasing is idempotent: its output has no lowercase letter left
      to change. */
  lemma UpperIdempotent(s: string)
    ensures Upper(Upper(s)) == Upper(s)
  {
  }

  /** The strings `Upper` leaves unchanged are exactly those without a
      lowercase letter. */
  lemma UpperFixedIffNoLower(s: string)
    ensures Upper(s) == s <==> NoLower(s)
  {
    if NoLower(s) {
      assert forall i :: 0 <= i < |s| ==> Upper(s)[i] == s[i];
    }
  }
}
