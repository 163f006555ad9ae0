/**
  Cache-key derivation for the course-notes read. A key is the fixed prefix
  followed by the course id rendered in decimal, as JavaScript's string
  concatenation renders an integral number.
 */
module CacheKeys {
  import opened Outcomes

  const NotesKeyPrefix := "mmaNotes:notes:"

  predicate IsDigit(c: char) {
    '0' <= c <= '9'
  }

  predicate AllDigits(s: string) {
    forall i :: 0 <= i < |s| ==> IsDigit(s[i])
  }

  function DigitChar(d: nat): (c: char)
    requires d < 10
    ensures IsDigit(c)
  {
    (('0' as int) + d) as char
  }

  function DigitValue(c: char): (d: nat)
    requires IsDigit(c)
    ensures d < 10
  {
    (c as int) - ('0' as int)
  }

  /** Decimal digits of a natural number, most significant first, no leading zeros. */
  function Decimal(n: nat): (s: string)
    ensures 0 < |s| && AllDigits(s)
    decreases n
  {
    if n < 10 then [DigitChar(n)] else Decimal(n / 10) + [DigitChar(n % 10)]
  }

  /** The number a string of decimal digits denotes. */
  function DecimalValue(s: string): nat
    requires AllDigits(s)
    decreases |s|
  {
    if s == [] then 0 else 10 * DecimalValue(s[..|s| - 1]) + DigitValue(s[|s| - 1])
  }

  /** Decimal rendering of an integer, with a leading minus sign for negatives. */
  function IntToString(i: int): (s: string)
    ensures 0 < |s|
    ensures i < 0 <==> s[0] == '-'
  {
    if i < 0 then "-" + Decimal(-i) else Decimal(i)
  }

  /** Reads back an integer written by `IntToString`; `None` for anything else. */
  function ParseInt(s: string): Option<int> {
    if 2 <= |s| && s[0] == '-' && AllDigits(s[1..]) then Some(0 - DecimalValue(s[1..]) as int)
    else if 1 <= |s| && AllDigits(s) then Some(DecimalValue(s) as int)
    else None
  }

  /** The cache key of the get-course-notes read for one course. */
  function NotesCacheKey(courseId: int): (key: string)
    ensures |NotesKeyPrefix| < |key|
    ensures key[..|NotesKeyPrefix|] == NotesKeyPrefix
  {
    NotesKeyPrefix + IntToString(courseId)
  }

  /** The course a notes cache key belongs to, if it is one. */
  function CourseIdOfNotesKey(key: string): Option<int> {
    if |NotesKeyPrefix| <= |key| && key[..|NotesKeyPrefix|] == NotesKeyPrefix
    then ParseInt(key[|NotesKeyPrefix|..])
    else None
  }

  lemma {:induction false} DecimalRoundTrip(n: nat)
    ensures DecimalValue(Decimal(n)) == n
    decreases n
  {
    if n >= 10 {
      var s := Decimal(n);
      assert s[..|s| - 1] == Decimal(n / 10);
      DecimalRoundTrip(n / 10);
    }
  }

  lemma IntRoundTrip(i: int)
    ensures ParseInt(IntToString(i)) == Some(i)
  {
    var s := IntToString(i);
    if i < 0 {
      assert s[1..] == Decimal(-i);
      DecimalRoundTrip(-i);
    } else {
      DecimalRoundTrip(i);
    }
  }

  /** Every course's key names that course again. */
  lemma NotesKeyRoundTrip(courseId: int)
    ensures CourseIdOfNotesKey(NotesCacheKey(courseId)) == Some(courseId)
  {
    var key := NotesCacheKey(courseId);
    assert key[|NotesKeyPrefix|..] == IntToString(courseId);
    IntRoundTrip(courseId);
  }

  /** Distinct courses never share a notes cache key. */
  lemma NotesKeyInjective(a: int, b: int)
    ensures NotesCacheKey(a) == NotesCacheKey(b) <==> a == b
  {
    NotesKeyRoundTrip(a);
    NotesKeyRoundTrip(b);
  }
}
