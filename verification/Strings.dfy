/** The text helpers the tables rely on: trimming, caseless comparison, decimal message numbers. */
module Strings {
  import opened Wrappers

  /** The ASCII blanks of strings.TrimSpace. */
  predicate IsSpace(c: char) {
    c in " \t\n\r\U{000B}\U{000C}"
  }

  function TrimLeft(s: string): (t: string)
    ensures |t| <= |s|
  {
    if s != "" && IsSpace(s[0]) then TrimLeft(s[1..]) else s
  }

  function TrimRight(s: string): string {
    if s != "" && IsSpace(s[|s| - 1]) then TrimRight(s[..|s| - 1]) else s
  }

  function Trim(s: string): string {
    TrimRight(TrimLeft(s))
  }

  /** Simple case folding of the ASCII letters; the long s and the Kelvin sign fold onto s and k. */
  function Fold(c: char): char {
    if 'A' <= c <= 'Z' then c + 32 as char
    else if c == '\U{017F}' then 's'
    else if c == '\U{212A}' then 'k'
    else c
  }

  predicate EqualFold(a: string, b: string) {
    |a| == |b| && forall i :: 0 <= i < |a| ==> Fold(a[i]) == Fold(b[i])
  }

  const MAX_UID := 0xFFFF_FFFF

  function Digits(s: string): Option<nat> {
    if s == "" then None
    else
      var c := s[|s| - 1];
      if !('0' <= c <= '9') then None
      else
        var digit := c as int - '0' as int;
        if |s| == 1 then Some(digit)
        else
          var high := Digits(s[..|s| - 1]);
          if high.None? then None else Some(10 * high.value + digit)
  }

  /** parseUIDString: a positive decimal number of 32 bits, blanks around it ignored. */
  function ParseUid(s: string): (r: Option<nat>)
    ensures r.Some? ==> 0 < r.value <= MAX_UID
  {
    var n := Digits(Trim(s));
    if n.Some? && 0 < n.value <= MAX_UID then n else None
  }

  function Decimal(n: nat): string {
    var digit := [('0' as int + n % 10) as char];
    if n < 10 then digit else Decimal(n / 10) + digit
  }

  /** The binary order of texts. */
  predicate TextLess(a: string, b: string) {
    b != "" && (a == "" || a[0] < b[0] || (a[0] == b[0] && TextLess(a[1..], b[1..])))
  }

  lemma {:induction false} TextLessTransitive(a: string, b: string, c: string)
    requires TextLess(a, b) && TextLess(b, c)
    ensures TextLess(a, c)
  {
    if a != "" && a[0] == b[0] == c[0] {
      TextLessTransitive(a[1..], b[1..], c[1..]);
    }
  }

  lemma {:induction false} TextLessTotal(a: string, b: string)
    ensures a == b || TextLess(a, b) || TextLess(b, a)
    ensures !(TextLess(a, b) && TextLess(b, a)) && !TextLess(a, a)
  {
    if a != "" && b != "" {
      TextLessTotal(a[1..], b[1..]);
      if a[0] == b[0] && a[1..] == b[1..] {
        assert a == [a[0]] + a[1..] && b == [b[0]] + b[1..];
      }
    }
    if a != "" { TextLessTotal(a[1..], a[1..]); }
  }

  // --------------------------------------------------- what the helpers compute

  lemma {:induction false} LeftBlanks(s: string) returns (a: string)
    ensures s == a + TrimLeft(s) && forall c :: c in a ==> c in " \t\n\r\U{000B}\U{000C}"
    ensures TrimLeft(s) != "" ==> TrimLeft(s)[0] !in " \t\n\r\U{000B}\U{000C}"
  {
    if s != "" && IsSpace(s[0]) {
      a := LeftBlanks(s[1..]);
      assert s == [s[0]] + s[1..];
      a := [s[0]] + a;
    } else {
      a := "";
    }
  }

  lemma {:induction false} RightBlanks(s: string) returns (b: string)
    ensures s == TrimRight(s) + b && forall c :: c in b ==> c in " \t\n\r\U{000B}\U{000C}"
    ensures TrimRight(s) != "" ==> TrimRight(s)[|TrimRight(s)| - 1] !in " \t\n\r\U{000B}\U{000C}"
  {
    if s != "" && IsSpace(s[|s| - 1]) {
      b := RightBlanks(s[..|s| - 1]);
      assert s == s[..|s| - 1] + [s[|s| - 1]];
      b := b + [s[|s| - 1]];
    } else {
      b := "";
    }
  }

  /** Trimming takes the blanks off both ends, all of them and nothing else. */
  lemma TrimTakesBlanks(s: string) returns (a: string, b: string)
    ensures s == a + Trim(s) + b && forall c :: c in a + b ==> c in " \t\n\r\U{000B}\U{000C}"
    ensures Trim(s) != "" ==>
      Trim(s)[0] !in " \t\n\r\U{000B}\U{000C}" && Trim(s)[|Trim(s)| - 1] !in " \t\n\r\U{000B}\U{000C}"
  {
    a := LeftBlanks(s);
    b := RightBlanks(TrimLeft(s));
    if Trim(s) != "" { assert Trim(s)[0] == TrimLeft(s)[0]; }
  }

  lemma {:induction false} DecimalIsRead(n: nat)
    ensures Digits(Decimal(n)) == Some(n) && Decimal(n) != ""
    ensures forall c :: c in Decimal(n) ==> '0' <= c <= '9'
  {
    if n >= 10 {
      DecimalIsRead(n / 10);
      var d := Decimal(n);
      assert d[..|d| - 1] == Decimal(n / 10);
    }
  }

  lemma {:induction false} DigitsAreDigits(s: string)
    ensures Digits(s).Some? <==> s != "" && forall c :: c in s ==> '0' <= c <= '9'
  {
    if s != "" {
      var front, last := s[..|s| - 1], s[|s| - 1];
      assert s == front + [last];
      assert last in s && forall c :: c in s <==> c in front || c == last;
      if front != "" { DigitsAreDigits(front); }
    }
  }

  lemma BlankFree(s: string)
    requires s != "" && !IsSpace(s[0]) && !IsSpace(s[|s| - 1])
    ensures Trim(s) == s
  {}

  /** A message number is read back from its decimal form exactly if it is positive and fits 32 bits. */
  lemma NumbersAreRead(n: nat)
    ensures ParseUid(Decimal(n)) == if 1 <= n <= 4_294_967_295 then Some(n) else None
  {
    DecimalIsRead(n);
    var d := Decimal(n);
    assert d[0] in d && d[|d| - 1] in d;
    BlankFree(d);
  }

  /** Nothing but digits between blanks is a number. */
  lemma OnlyDigitsAreRead(s: string)
    requires ParseUid(s).Some?
    ensures Trim(s) != "" && forall c :: c in Trim(s) ==> '0' <= c <= '9'
  {
    DigitsAreDigits(Trim(s));
  }
}
