/**
 * Times of day written as text. The components compare "HH:MM" strings in two ways: the
 * availability calendar compares the strings themselves (JavaScript's lexicographic `<`),
 * and the shop front page splits them on ':' and converts the parts with `Number`. For the
 * fixed-width "HH:MM" text that an `<input type="time">` produces the two agree.
 */
module Clock {
  import opened Wrappers

  predicate IsDigit(c: char) { '0' <= c <= '9' }

  function DigitValue(c: char): (v: nat)
    requires IsDigit(c)
    ensures v <= 9
  {
    (c as int) - ('0' as int)
  }

  /**
   * `Number(s)` for text made of decimal digits, where "" reads as 0; `None` stands for NaN.
   * Whitespace, signs, fractions and exponents are not modelled and read as NaN.
   */
  function NumberOf(s: string): (r: Option<nat>)
    ensures r.Some? <==> forall i :: 0 <= i < |s| ==> IsDigit(s[i])
  {
    if s == [] then Some(0)
    else if !IsDigit(s[|s| - 1]) then None
    else
      match NumberOf(s[..|s| - 1])
      case None => None
      case Some(v) => Some(10 * v + DigitValue(s[|s| - 1]))
  }

  /** `s.split(':')`: the pieces between colons, at least one. */
  function SplitColon(s: string): (parts: seq<string>)
    ensures |parts| >= 1
    ensures ':' !in s ==> parts == [s]
  {
    if s == [] then [""]
    else
      var rest := SplitColon(s[1..]);
      assert ':' !in s ==> ':' !in s[1..] && [s[0]] + s[1..] == s;
      if s[0] == ':' then [""] + rest else [[s[0]] + rest[0]] + rest[1..]
  }

  /**
   * `const [h, m] = s.split(':').map(Number); h * 60 + m`: minutes since midnight, or `None`
   * for NaN (a missing minutes part or a part that is not a number).
   */
  function ClockMinutes(s: string): (r: Option<int>)
    ensures ':' !in s ==> r.None?
    ensures r.Some? <==>
      |SplitColon(s)| >= 2 && NumberOf(SplitColon(s)[0]).Some? && NumberOf(SplitColon(s)[1]).Some?
    ensures r.Some? ==> r.value >= 0
  {
    var parts := SplitColon(s);
    if |parts| < 2 then None
    else
      match (NumberOf(parts[0]), NumberOf(parts[1]))
      case (Some(h), Some(m)) => Some(h * 60 + m)
      case _ => None
  }

  /** A valid time of day as an `<input type="time">` yields it: "HH:MM", 00:00 to 23:59. */
  predicate IsHHMM(s: string)
  {
    && |s| == 5
    && IsDigit(s[0]) && IsDigit(s[1]) && s[2] == ':' && IsDigit(s[3]) && IsDigit(s[4])
    && (s[0] < '2' || (s[0] == '2' && s[1] <= '3'))
    && s[3] <= '5'
  }

  /** The minutes since midnight that "HH:MM" denotes. */
  function HHMMValue(s: string): (v: nat)
    requires IsHHMM(s)
    ensures v < 24 * 60
  {
    (10 * DigitValue(s[0]) + DigitValue(s[1])) * 60 + 10 * DigitValue(s[3]) + DigitValue(s[4])
  }

  /** JavaScript's `a < b` on strings: lexicographic order of the characters. */
  function LexLess(a: string, b: string): bool
  {
    if a == [] then b != []
    else if b == [] then false
    else if a[0] != b[0] then a[0] < b[0]
    else LexLess(a[1..], b[1..])
  }

  /** Two digits read as a number. */
  lemma {:induction false} TwoDigits(s: string)
    requires |s| == 2 && IsDigit(s[0]) && IsDigit(s[1])
    ensures NumberOf(s) == Some(10 * DigitValue(s[0]) + DigitValue(s[1]))
  {
    var t := s[..1];
    assert t[..0] == [];
    assert NumberOf(t) == Some(DigitValue(s[0]));
    assert s[..|s| - 1] == t;
  }

  /** Splitting text that starts with a character other than ':' extends the first piece. */
  lemma SplitColonCons(c: char, t: string)
    requires c != ':'
    ensures SplitColon([c] + t) == [[c] + SplitColon(t)[0]] + SplitColon(t)[1..]
  {
    assert ([c] + t)[1..] == t;
  }

  /** Splitting and converting "HH:MM" yields exactly the minutes it denotes. */
  lemma {:induction false} ClockMinutesOfHHMM(s: string)
    requires IsHHMM(s)
    ensures ClockMinutes(s) == Some(HHMMValue(s))
  {
    var empty: string := [];
    assert SplitColon(empty) == [""];
    SplitColonCons(s[4], empty);
    assert [s[4]] + empty == [s[4]];
    var t4: string := [s[4]];
    assert SplitColon(t4) == [t4];
    var t3: string := [s[3], s[4]];
    assert t3 == [s[3]] + t4;
    SplitColonCons(s[3], t4);
    assert SplitColon(t3) == [t3];
    var t2: string := [':', s[3], s[4]];
    assert t2[1..] == t3;
    assert SplitColon(t2) == ["", t3];
    var t1: string := [s[1], ':', s[3], s[4]];
    assert t1 == [s[1]] + t2;
    SplitColonCons(s[1], t2);
    assert [s[1]] + "" == [s[1]];
    assert SplitColon(t1) == [[s[1]], t3];
    assert s == [s[0]] + t1;
    SplitColonCons(s[0], t1);
    assert [s[0]] + [s[1]] == [s[0], s[1]];
    assert [[s[1]], t3][1..] == [t3];
    assert SplitColon(s) == [[s[0], s[1]], t3];
    TwoDigits([s[0], s[1]]);
    TwoDigits([s[3], s[4]]);
  }

  /**
   * For valid times of day, the string comparison the calendar uses orders times exactly as
   * the minute arithmetic of the shop front page does.
   */
  lemma {:induction false} LexLessIsTimeOrder(a: string, b: string)
    requires IsHHMM(a) && IsHHMM(b)
    ensures LexLess(a, b) <==> HHMMValue(a) < HHMMValue(b)
  {
    var a1, b1 := a[1..], b[1..];
    var a2, b2 := a1[1..], b1[1..];
    var a3, b3 := a2[1..], b2[1..];
    var a4, b4 := a3[1..], b3[1..];
    assert a4[1..] == [] && b4[1..] == [];
    if a[0] != b[0] {
      assert LexLess(a, b) <==> a[0] < b[0];
    } else if a[1] != b[1] {
      assert LexLess(a, b) == LexLess(a1, b1);
      assert LexLess(a, b) <==> a[1] < b[1];
    } else if a[3] != b[3] {
      assert LexLess(a, b) == LexLess(a1, b1) == LexLess(a2, b2) == LexLess(a3, b3);
      assert LexLess(a, b) <==> a[3] < b[3];
    } else {
      assert LexLess(a, b) == LexLess(a1, b1) == LexLess(a2, b2) == LexLess(a3, b3);
      assert LexLess(a3, b3) == LexLess(a4, b4);
      assert LexLess(a, b) <==> a[4] < b[4];
    }
  }
}
