/** Text helpers shared by the pipeline model: an Option type, Python's
    `str.join` / `str.split(sep)`, and decimal rendering and parsing of
    integers (Python's `str(int)` and `int(text)` for plain digit strings). */
module Strings {

  datatype Option<+T> = None | Some(value: T)

  predicate IsDigit(c: char) { '0' <= c <= '9' }

  predicate AllDigits(s: string) { forall i :: 0 <= i < |s| ==> IsDigit(s[i]) }

  /** Python's `sep.join(parts)`. */
  function Join(parts: seq<string>, sep: string): string
  {
    if |parts| == 0 then ""
    else if |parts| == 1 then parts[0]
    else parts[0] + sep + Join(parts[1..], sep)
  }

  /** Python's `s.split(c)` for a one-character separator: never empty. */
  function Split(s: string, c: char): (r: seq<string>)
    ensures |r| >= 1
  {
    if |s| == 0 then [""]
    else if s[0] == c then [""] + Split(s[1..], c)
    else
      var rest := Split(s[1..], c);
      [[s[0]] + rest[0]] + rest[1..]
  }

  function Count(s: string, c: char): nat
  {
    if |s| == 0 then 0 else (if s[0] == c then 1 else 0) + Count(s[1..], c)
  }

  lemma {:induction false} SplitLength(s: string, c: char)
    ensures |Split(s, c)| == Count(s, c) + 1
  {
    if |s| > 0 {
      SplitLength(s[1..], c);
    }
  }

  /** No piece of a split contains the separator. */
  lemma {:induction false} SplitPiecesFree(s: string, c: char)
    ensures forall i :: 0 <= i < |Split(s, c)| ==> c !in Split(s, c)[i]
  {
    if |s| > 0 {
      SplitPiecesFree(s[1..], c);
    }
  }

  /** Joining the pieces with the separator gives the text back. */
  lemma {:induction false} JoinSplit(s: string, c: char)
    ensures Join(Split(s, c), [c]) == s
  {
    if |s| > 0 {
      var rest := Split(s[1..], c);
      JoinSplit(s[1..], c);
      if s[0] == c {
        assert Split(s, c) == [""] + rest;
      } else {
        var r := Split(s, c);
        assert r == [[s[0]] + rest[0]] + rest[1..];
        if |rest| == 1 {
          assert Join(r, [c]) == [s[0]] + rest[0];
        } else {
          assert Join(rest, [c]) == rest[0] + [c] + Join(rest[1..], [c]);
          assert r[1..] == rest[1..];
          assert Join(r, [c]) == [s[0]] + rest[0] + [c] + Join(rest[1..], [c]);
        }
      }
    }
  }

  lemma {:induction false} JoinAppend(parts: seq<string>, last: string, sep: string)
    requires |parts| > 0
    ensures Join(parts + [last], sep) == Join(parts, sep) + sep + last
  {
    if |parts| == 1 {
      assert parts + [last] == [parts[0], last];
    } else {
      assert (parts + [last])[1..] == parts[1..] + [last];
      JoinAppend(parts[1..], last, sep);
    }
  }

  /** The position of the first c in s, if any. */
  function FirstIndex(s: string, c: char): (r: Option<nat>)
    ensures r.Some? ==> r.value < |s| && s[r.value] == c && c !in s[..r.value]
    ensures r.None? ==> c !in s
  {
    if |s| == 0 then None
    else if s[0] == c then Some(0)
    else
      var k := FirstIndex(s[1..], c);
      if k.Some? then
        assert s[..k.value + 1] == [s[0]] + s[1..][..k.value];
        Some(k.value + 1)
      else None
  }

  /** The first c after a prefix free of c is the one right after the prefix. */
  lemma FirstIndexAfter(a: string, c: char, b: string)
    requires c !in a
    ensures FirstIndex(a + [c] + b, c) == Some(|a|)
  {
    var s := a + [c] + b;
    assert s[|a|] == c;
    assert s[..|a|] == a;
  }

  /** No piece of the list holds c. */
  predicate PiecesFree(lines: seq<string>, c: char)
  {
    forall i :: 0 <= i < |lines| ==> c !in lines[i]
  }

  lemma PiecesFreeConcat(a: seq<string>, b: seq<string>, c: char)
    requires PiecesFree(a, c) && PiecesFree(b, c)
    ensures PiecesFree(a + b, c)
  {
    forall i | 0 <= i < |a + b| ensures c !in (a + b)[i] {
      if i < |a| { assert (a + b)[i] == a[i]; } else { assert (a + b)[i] == b[i - |a|]; }
    }
  }

  lemma {:induction false} SplitJoin(lines: seq<string>, c: char)
    requires |lines| > 0
    requires forall i :: 0 <= i < |lines| ==> c !in lines[i]
    ensures Split(Join(lines, [c]), c) == lines
  {
    if |lines| == 1 {
      SplitNoSeparator(lines[0], c);
    } else {
      SplitJoin(lines[1..], c);
      SplitPrefix(lines[0], Join(lines[1..], [c]), c);
    }
  }

  lemma {:induction false} SplitNoSeparator(s: string, c: char)
    requires c !in s
    ensures Split(s, c) == [s]
  {
    if |s| > 0 {
      assert c !in s[1..] by { assert forall i :: 0 <= i < |s[1..]| ==> s[1..][i] == s[i + 1]; }
      SplitNoSeparator(s[1..], c);
      assert s[0] != c;
      assert [s[0]] + s[1..] == s;
    }
  }

  lemma {:induction false} SplitPrefix(a: string, b: string, c: char)
    requires c !in a
    ensures Split(a + [c] + b, c) == [a] + Split(b, c)
  {
    if |a| == 0 {
      assert a + [c] + b == [c] + b;
      assert ([c] + b)[1..] == b;
    } else {
      assert (a + [c] + b)[1..] == a[1..] + [c] + b;
      assert c !in a[1..] by { assert forall i :: 0 <= i < |a[1..]| ==> a[1..][i] == a[i + 1]; }
      SplitPrefix(a[1..], b, c);
      assert [a[0]] + a[1..] == a;
    }
  }

  // ---------------------------------------------------------------------
  // Replacing and stripping

  /** Python's `s.replace(c, rep)` for a one-character target. */
  function ReplaceChar(s: string, c: char, rep: string): string
  {
    if |s| == 0 then ""
    else (if s[0] == c then rep else [s[0]]) + ReplaceChar(s[1..], c, rep)
  }

  lemma {:induction false} ReplaceCharConcat(a: string, b: string, c: char, rep: string)
    ensures ReplaceChar(a + b, c, rep) == ReplaceChar(a, c, rep) + ReplaceChar(b, c, rep)
  {
    if |a| > 0 {
      assert (a + b)[1..] == a[1..] + b;
      ReplaceCharConcat(a[1..], b, c, rep);
    } else {
      assert a + b == b;
    }
  }

  /** A one-character replacement keeps the length and changes exactly the positions of c. */
  lemma {:induction false} ReplaceCharPointwise(s: string, c: char, d: char)
    ensures |ReplaceChar(s, c, [d])| == |s|
    ensures forall k :: 0 <= k < |s| ==> ReplaceChar(s, c, [d])[k] == if s[k] == c then d else s[k]
  {
    if |s| > 0 {
      ReplaceCharPointwise(s[1..], c, d);
    }
  }

  /** A character other than c that the replacement does not write is counted as before. */
  lemma {:induction false} ReplaceCharCount(s: string, c: char, rep: string, e: char)
    requires e != c && e !in rep
    ensures multiset(ReplaceChar(s, c, rep))[e] == multiset(s)[e]
  {
    if |s| > 0 {
      ReplaceCharCount(s[1..], c, rep, e);
      assert s == [s[0]] + s[1..];
    }
  }

  /** After the replace no c is left, when the replacement holds no c. */
  lemma {:induction false} ReplaceCharRemoves(s: string, c: char, rep: string)
    requires c !in rep
    ensures c !in ReplaceChar(s, c, rep)
  {
    if |s| > 0 {
      ReplaceCharRemoves(s[1..], c, rep);
    }
  }

  /** Replacing a character that does not occur changes nothing. */
  lemma {:induction false} ReplaceCharAbsent(s: string, c: char, rep: string)
    requires c !in s
    ensures ReplaceChar(s, c, rep) == s
  {
    if |s| > 0 {
      ReplaceCharAbsent(s[1..], c, rep);
      assert [s[0]] + s[1..] == s;
    }
  }

  /** Python's `s.lstrip(chars)`, with the stripped set given as a predicate. */
  function StripLeft(s: string, drop: char -> bool): (r: string)
    ensures |r| <= |s| && r == s[|s| - |r|..]
    ensures |r| > 0 ==> !drop(r[0])
  {
    if |s| > 0 && drop(s[0]) then StripLeft(s[1..], drop) else s
  }

  /** Python's `s.rstrip(chars)`. */
  function StripRight(s: string, drop: char -> bool): (r: string)
    ensures |r| <= |s| && r == s[..|r|]
    ensures |r| > 0 ==> !drop(r[|r| - 1])
  {
    if |s| > 0 && drop(s[|s| - 1]) then StripRight(s[..|s| - 1], drop) else s
  }

  /** Python's `s.strip(chars)`: a slice of s with no dropped character at
      either end (StripSlice: the longest such slice). */
  function Strip(s: string, drop: char -> bool): (r: string)
    ensures |r| <= |s|
    ensures |r| > 0 ==> !drop(r[0]) && !drop(r[|r| - 1])
  {
    StripRight(StripLeft(s, drop), drop)
  }

  /** Everything `lstrip` removes is a dropped character. */
  lemma {:induction false} StripLeftDropped(s: string, drop: char -> bool)
    ensures forall k :: 0 <= k < |s| - |StripLeft(s, drop)| ==> drop(s[k])
  {
    if |s| > 0 && drop(s[0]) {
      var t := s[1..];
      StripLeftDropped(t, drop);
      assert StripLeft(s, drop) == StripLeft(t, drop);
      forall k | 1 <= k < |s| - |StripLeft(s, drop)| ensures drop(s[k]) {
        assert s[k] == t[k - 1];
      }
    }
  }

  /** Everything `rstrip` removes is a dropped character. */
  lemma {:induction false} StripRightDropped(s: string, drop: char -> bool)
    ensures forall k :: |StripRight(s, drop)| <= k < |s| ==> drop(s[k])
  {
    if |s| > 0 && drop(s[|s| - 1]) {
      StripRightDropped(s[..|s| - 1], drop);
    }
  }

  /** r is s with a dropped prefix of length a and a dropped suffix cut off. */
  predicate CutAt(s: string, drop: char -> bool, a: int, r: string)
  {
    0 <= a <= |s| - |r| && r == s[a..a + |r|]
    && (forall k :: 0 <= k < a ==> drop(s[k]))
    && (forall k :: a + |r| <= k < |s| ==> drop(s[k]))
  }

  /** `strip` cuts off only dropped characters, on both sides, and stops at
      the first kept one: the result is empty exactly when every character
      is dropped. */
  lemma StripSlice(s: string, drop: char -> bool)
    ensures exists a :: CutAt(s, drop, a, Strip(s, drop))
    ensures Strip(s, drop) == "" <==> forall k :: 0 <= k < |s| ==> drop(s[k])
  {
    var l := StripLeft(s, drop);
    var r := StripRight(l, drop);
    assert r == Strip(s, drop);
    var a := |s| - |l|;
    StripLeftDropped(s, drop);
    StripRightDropped(l, drop);
    assert r == s[a..a + |r|];
    forall k | a + |r| <= k < |s| ensures drop(s[k]) {
      assert s[k] == l[k - a];
    }
    assert CutAt(s, drop, a, r);
    if |r| > 0 {
      assert s[a] == r[0];
    }
  }

  /** `lstrip` keeps every character that is not dropped, as often as it occurs. */
  lemma {:induction false} StripLeftCounts(s: string, drop: char -> bool, c: char)
    requires !drop(c)
    ensures multiset(StripLeft(s, drop))[c] == multiset(s)[c]
  {
    if |s| > 0 && drop(s[0]) {
      StripLeftCounts(s[1..], drop, c);
      assert StripLeft(s, drop) == StripLeft(s[1..], drop);
      assert s == [s[0]] + s[1..];
      assert multiset(s) == multiset{s[0]} + multiset(s[1..]);
    }
  }

  /** `rstrip` keeps every character that is not dropped, as often as it occurs. */
  lemma {:induction false} StripRightCounts(s: string, drop: char -> bool, c: char)
    requires !drop(c)
    ensures multiset(StripRight(s, drop))[c] == multiset(s)[c]
  {
    if |s| > 0 && drop(s[|s| - 1]) {
      StripRightCounts(s[..|s| - 1], drop, c);
      assert StripRight(s, drop) == StripRight(s[..|s| - 1], drop);
      assert s == s[..|s| - 1] + [s[|s| - 1]];
      assert multiset(s) == multiset(s[..|s| - 1]) + multiset{s[|s| - 1]};
    }
  }

  /** Stripping keeps every character that is not dropped, as often as it occurs. */
  lemma StripCounts(s: string, drop: char -> bool, c: char)
    requires !drop(c)
    ensures multiset(Strip(s, drop))[c] == multiset(s)[c]
  {
    StripLeftCounts(s, drop, c);
    StripRightCounts(StripLeft(s, drop), drop, c);
  }

  /** Stripping only removes characters: one absent before is absent after. */
  lemma StripKeepsAbsent(s: string, drop: char -> bool, c: char)
    requires c !in s
    ensures c !in Strip(s, drop)
  {
    var l := StripLeft(s, drop);
    var r := StripRight(l, drop);
    assert l == s[|s| - |l|..];
    assert c !in l by {
      forall k | 0 <= k < |l| ensures l[k] != c { assert l[k] == s[|s| - |l| + k]; }
    }
    assert r == l[..|r|];
    forall k | 0 <= k < |r| ensures r[k] != c { assert r[k] == l[k]; }
  }

  /** Whitespace as Python's `str.strip()` with no argument sees it. */
  predicate IsSpace(c: char)
  {
    var n := c as int;
    (9 <= n <= 13) || (28 <= n <= 32) || n == 0x85 || n == 0xA0 || n == 0x1680
    || (0x2000 <= n <= 0x200A) || n == 0x2028 || n == 0x2029 || n == 0x202F
    || n == 0x205F || n == 0x3000
  }

  /** Python's `s.strip()`. */
  function StripSpace(s: string): string
  {
    Strip(s, IsSpace)
  }

  lemma DigitNotSpace(c: char)
    requires IsDigit(c)
    ensures !IsSpace(c)
  {
  }

  /** Printable ASCII other than the space is not whitespace. */
  lemma VisibleNotSpace(c: char)
    requires '!' <= c <= '~'
    ensures !IsSpace(c)
  {
  }

  /** Stripping a text with no dropped character at either end changes nothing. */
  lemma StripKeeps(s: string, drop: char -> bool)
    requires |s| > 0 ==> !drop(s[0]) && !drop(s[|s| - 1])
    ensures Strip(s, drop) == s
  {
  }

  /** Every character of the stripped text is a character of the original. */
  lemma StripKeepsProperty(s: string, drop: char -> bool, p: char -> bool)
    requires forall k :: 0 <= k < |s| ==> p(s[k])
    ensures forall k :: 0 <= k < |Strip(s, drop)| ==> p(Strip(s, drop)[k])
  {
    var l := StripLeft(s, drop);
    var r := StripRight(l, drop);
    assert l == s[|s| - |l|..];
    assert forall k :: 0 <= k < |l| ==> l[k] == s[|s| - |l| + k];
    assert r == l[..|r|];
  }

  /** Text with no whitespace at either end is left as it is. */
  lemma StripSpaceKeeps(s: string)
    requires |s| > 0 ==> !IsSpace(s[0]) && !IsSpace(s[|s| - 1])
    ensures StripSpace(s) == s
  {
  }

  // ---------------------------------------------------------------------
  // Decimal rendering of integers

  function DigitChar(d: nat): char
    requires d < 10
  {
    ['0', '1', '2', '3', '4', '5', '6', '7', '8', '9'][d]
  }

  function DigitValue(c: char): nat
    requires IsDigit(c)
  {
    (c as int - '0' as int) as nat
  }

  /** Python's `str(n)` for n >= 0: shortest decimal digits. */
  function NatToString(n: nat): (r: string)
    ensures |r| >= 1 && AllDigits(r)
    ensures n < 10 <==> |r| == 1
  {
    if n < 10 then [DigitChar(n)] else NatToString(n / 10) + [DigitChar(n % 10)]
  }

  /** Python's `str(i)`: a minus sign before the digits of a negative value. */
  function IntToString(i: int): (r: string)
    ensures |r| >= 1
    ensures i >= 0 ==> AllDigits(r)
    ensures i < 0 ==> r[0] == '-' && AllDigits(r[1..])
  {
    if i >= 0 then NatToString(i) else "-" + NatToString(-i)
  }

  /** Value of a digit string (any number of leading zeros). */
  function DigitsValue(s: string): nat
    requires AllDigits(s)
  {
    if |s| == 0 then 0 else 10 * DigitsValue(s[..|s| - 1]) + DigitValue(s[|s| - 1])
  }

  /** Python's `int(s)` restricted to non-empty ASCII digit strings. */
  function ParseNat(s: string): Option<nat>
  {
    if |s| > 0 && AllDigits(s) then Some(DigitsValue(s)) else None
  }

  /** `int(s)` restricted to an optional minus sign before ASCII digits. */
  function ParseInt(s: string): Option<int>
  {
    if |s| > 1 && s[0] == '-' && AllDigits(s[1..]) then Some(0 - DigitsValue(s[1..]) as int)
    else if |s| > 0 && AllDigits(s) then Some(DigitsValue(s))
    else None
  }

  lemma DigitRoundTrip(d: nat)
    requires d < 10
    ensures IsDigit(DigitChar(d)) && DigitValue(DigitChar(d)) == d
  {
  }

  /** Reading back the digits of `str(n)` gives n. */
  lemma {:induction false} NatToStringValue(n: nat)
    ensures DigitsValue(NatToString(n)) == n
  {
    DigitRoundTrip(n % 10);
    if n >= 10 {
      NatToStringValue(n / 10);
      var s := NatToString(n);
      assert s[..|s| - 1] == NatToString(n / 10);
    }
  }

  lemma {:induction false} ParseIntRoundTrip(i: int)
    ensures ParseInt(IntToString(i)) == Some(i)
  {
    if i >= 0 {
      var s := NatToString(i);
      NatToStringValue(i);
      assert s[0] != '-' by { assert IsDigit(s[0]); }
      assert ParseInt(s) == Some(DigitsValue(s));
    } else {
      var t := NatToString(-i);
      var s := "-" + t;
      assert s[1..] == t;
      NatToStringValue(-i);
      assert ParseInt(s) == Some(0 - DigitsValue(t) as int);
    }
  }

  /** Leading zeros do not change the value of a digit string. */
  lemma {:induction false} LeadingZeros(z: string, s: string)
    requires forall i :: 0 <= i < |z| ==> z[i] == '0'
    requires AllDigits(s)
    ensures AllDigits(z + s) && DigitsValue(z + s) == DigitsValue(s)
  {
    if |s| == 0 {
      ZerosValue(z);
      assert z + s == z;
    } else {
      var t := z + s;
      assert t[..|t| - 1] == z + s[..|s| - 1];
      LeadingZeros(z, s[..|s| - 1]);
    }
  }

  lemma {:induction false} ZerosValue(z: string)
    requires forall i :: 0 <= i < |z| ==> z[i] == '0'
    ensures AllDigits(z) && DigitsValue(z) == 0
  {
    if |z| > 0 {
      ZerosValue(z[..|z| - 1]);
    }
  }

  function Zeros(n: nat): (r: string)
    ensures |r| == n && forall i :: 0 <= i < n ==> r[i] == '0'
  {
    if n == 0 then "" else "0" + Zeros(n - 1)
  }

  /** Python's `format(n, "0<width>d")`: zero-padded after any sign. */
  function PadInt(i: int, width: nat): (r: string)
  {
    if i >= 0 then
      var d := NatToString(i);
      (if |d| < width then Zeros(width - |d|) else "") + d
    else
      var d := NatToString(-i);
      "-" + (if |d| + 1 < width then Zeros(width - 1 - |d|) else "") + d
  }

  /** The padded text is made of digits and, for a negative number, one leading minus. */
  lemma PadIntChars(i: int, width: nat)
    ensures forall k :: 0 <= k < |PadInt(i, width)| ==> IsDigit(PadInt(i, width)[k]) || PadInt(i, width)[k] == '-'
  {
    var d := NatToString(if i >= 0 then i else -i);
    var r := PadInt(i, width);
    var z := r[..|r| - |d|];
    assert r == z + d;
    forall k | 0 <= k < |r| ensures IsDigit(r[k]) || r[k] == '-' {
      if k >= |z| {
        assert r[k] == d[k - |z|];
      }
    }
  }

  /** For n >= 0 the padded text is all digits, at least `width` long, and reads back as n. */
  lemma PadNatValue(n: nat, width: nat)
    requires width >= 1
    ensures var r := PadInt(n, width); |r| >= width && AllDigits(r) && DigitsValue(r) == n
    ensures n < Pow10(width) ==> |PadInt(n, width)| == width
  {
    var d := NatToString(n);
    NatToStringValue(n);
    var z := if |d| < width then Zeros(width - |d|) else "";
    LeadingZeros(z, d);
    NatToStringLength(n, width);
  }

  function Pow10(k: nat): (r: nat)
    ensures r >= 1
  {
    if k == 0 then 1 else 10 * Pow10(k - 1)
  }

  lemma {:induction false} NatToStringLength(n: nat, width: nat)
    requires width >= 1
    ensures n < Pow10(width) ==> |NatToString(n)| <= width
  {
    if n >= 10 && n < Pow10(width) {
      assert n / 10 < Pow10(width - 1);
      NatToStringLength(n / 10, width - 1);
    }
  }
}
