/** Caption handling (subs_utils.py): millisecond rounding, SRT timestamps,
    decoding the catalogue's caption field into cues, SRT serialisation and the
    ASS styles and title event built on top of the SRT file. */
module SubsUtils {

  import opened Strings

  // ---------------------------------------------------------------------
  // Timestamps

  /** `decimal_ms`: seconds to milliseconds, to the nearest millisecond with
      ties away from zero (decimal ROUND_HALF_UP). The argument is the exact
      decimal value of the seconds. */
  function DecimalMs(v: real): (r: int)
    ensures v >= 0.0 ==> (r as real) - 0.5 <= v * 1000.0 < (r as real) + 0.5
    ensures v < 0.0 ==> (r as real) - 0.5 < v * 1000.0 <= (r as real) + 0.5
  {
    var x := v * 1000.0;
    if x >= 0.0 then (x + 0.5).Floor else -((-x + 0.5).Floor)
  }

  /** A whole number of milliseconds is kept as it is. */
  lemma DecimalMsExact(n: int)
    ensures DecimalMs(n as real / 1000.0) == n
  {
    var r := DecimalMs(n as real / 1000.0);
    assert n as real / 1000.0 * 1000.0 == n as real;
  }

  datatype Clock = Clock(h: int, m: int, s: int, ms: int)

  /** The floor divisions and remainders of `float_to_srt_time`. */
  function ClockOf(totalMs: int): Clock
  {
    var totalS := totalMs / 1000;
    var totalM := totalS / 60;
    Clock(totalM / 60, totalM % 60, totalS % 60, totalMs % 1000)
  }

  /** The milliseconds a clock reading stands for. */
  function ClockMs(c: Clock): int
  {
    c.h * 3600000 + c.m * 60000 + c.s * 1000 + c.ms
  }

  /** The fields are in range and recombine to the total, also for negative totals. */
  lemma ClockDecomposes(totalMs: int)
    ensures var c := ClockOf(totalMs);
      0 <= c.ms < 1000 && 0 <= c.s < 60 && 0 <= c.m < 60
      && ClockMs(c) == totalMs
    ensures totalMs >= 0 ==> ClockOf(totalMs).h >= 0
  {
    var totalS := totalMs / 1000;
    var totalM := totalS / 60;
    assert totalMs == totalS * 1000 + totalMs % 1000;
    assert totalS == totalM * 60 + totalS % 60;
    assert totalM == (totalM / 60) * 60 + totalM % 60;
  }

  /** `HH:MM:SS,mmm`, each field zero-padded to at least 2, 2, 2 and 3 places. */
  function FormatSrtTime(totalMs: int): string
  {
    ClockText(ClockOf(totalMs))
  }

  function ClockText(c: Clock): string
  {
    PadInt(c.h, 2) + ":" + PadInt(c.m, 2) + ":" + PadInt(c.s, 2) + "," + PadInt(c.ms, 3)
  }

  /** `float_to_srt_time`. */
  function FloatToSrtTime(f: real): string
  {
    FormatSrtTime(DecimalMs(f))
  }

  /** Reads `H:MM:SS,mmm` (H any number of digits) back to milliseconds. */
  function ParseSrtTime(t: string): Option<int>
  {
    var n := |t|;
    if n < 11 || t[n - 10] != ':' || t[n - 7] != ':' || t[n - 4] != ',' then None
    else
      var h, m, s, ms := ParseNat(t[..n - 10]), ParseNat(t[n - 9..n - 7]),
                         ParseNat(t[n - 6..n - 4]), ParseNat(t[n - 3..]);
      if h.Some? && m.Some? && s.Some? && ms.Some? then
        Some(h.value * 3600000 + m.value * 60000 + s.value * 1000 + ms.value)
      else None
  }

  /** Where the fields of `H:MM:SS,mmm` sit, counted from the end. */
  lemma StampFields(H: string, M: string, S: string, MS: string)
    requires |M| == 2 && |S| == 2 && |MS| == 3
    ensures var t := H + ":" + M + ":" + S + "," + MS; var n := |t|;
      n == |H| + 10 && t[n - 10] == ':' && t[n - 7] == ':' && t[n - 4] == ','
      && t[..n - 10] == H && t[n - 9..n - 7] == M && t[n - 6..n - 4] == S && t[n - 3..] == MS
  {
    var t := H + ":" + M + ":" + S + "," + MS;
    var n := |t|;
    assert t[..n - 10] == H;
    assert t[n - 9..n - 7] == M;
    assert t[n - 6..n - 4] == S;
    assert t[n - 3..] == MS;
  }

  /** Round trip: the timestamp text reads back to the milliseconds it was made from. */
  lemma SrtTimeRoundTrip(totalMs: int)
    requires totalMs >= 0
    ensures ParseSrtTime(FormatSrtTime(totalMs)) == Some(totalMs)
  {
    ClockDecomposes(totalMs);
    ClockTextReads(ClockOf(totalMs));
  }

  /** A clock with its fields in range reads back from its text. */
  lemma ClockTextReads(c: Clock)
    requires c.h >= 0 && 0 <= c.m < 60 && 0 <= c.s < 60 && 0 <= c.ms < 1000
    ensures ParseSrtTime(ClockText(c)) == Some(ClockMs(c))
  {
    var H, M, S, MS := PadInt(c.h, 2), PadInt(c.m, 2), PadInt(c.s, 2), PadInt(c.ms, 3);
    assert ParseNat(H) == Some(c.h) by { PadNatValue(c.h, 2); }
    assert |M| == 2 && ParseNat(M) == Some(c.m) by { assert Pow10(2) == 100; PadNatValue(c.m, 2); }
    assert |S| == 2 && ParseNat(S) == Some(c.s) by { assert Pow10(2) == 100; PadNatValue(c.s, 2); }
    assert |MS| == 3 && ParseNat(MS) == Some(c.ms) by { assert Pow10(3) == 1000; PadNatValue(c.ms, 3); }
    ParseStamp(ClockText(c), H, M, S, MS, c);
  }

  /** A stamp whose four fields read as numbers reads as their total in milliseconds. */
  lemma ParseStamp(t: string, H: string, M: string, S: string, MS: string, c: Clock)
    requires t == H + ":" + M + ":" + S + "," + MS
    requires |M| == 2 && |S| == 2 && |MS| == 3
    requires ParseNat(H) == Some(c.h) && ParseNat(M) == Some(c.m)
    requires ParseNat(S) == Some(c.s) && ParseNat(MS) == Some(c.ms)
    ensures ParseSrtTime(t) == Some(ClockMs(c))
  {
    StampFields(H, M, S, MS);
  }

  lemma PadExamples()
    ensures PadInt(0, 2) == "00" && PadInt(1, 2) == "01" && PadInt(3, 2) == "03"
    ensures PadInt(500, 3) == "500" && PadInt(250, 3) == "250"
  {
    assert NatToString(5) == "5";
    assert NatToString(50) == "50";
    assert NatToString(500) == "500";
    assert NatToString(2) == "2";
    assert NatToString(25) == "25";
    assert NatToString(250) == "250";
  }

  lemma ExampleTimes()
    ensures DecimalMs(1.5) == 1500 && DecimalMs(3.25) == 3250
    ensures ClockOf(1500) == Clock(0, 0, 1, 500) && ClockOf(3250) == Clock(0, 0, 3, 250)
  {
  }

  lemma ExampleStamps()
    ensures FormatSrtTime(1500) == "00:00:01,500" && FormatSrtTime(3250) == "00:00:03,250"
  {
    ExampleTimes();
    PadExamples();
  }

  /** The timestamps of the cue `(1.5, 3.25, "Hi")`. */
  lemma SrtTimeExamples()
    ensures FloatToSrtTime(1.5) == "00:00:01,500"
    ensures FloatToSrtTime(3.25) == "00:00:03,250"
  {
    ExampleTimes();
    ExampleStamps();
  }

  // ---------------------------------------------------------------------
  // Caption field

  /** A JSON scalar as `json.loads` hands it over; arrays and objects are `JComposite`. */
  datatype JsonValue = JNull | JBool(b: bool) | JNum(n: real) | JStr(s: string) | JComposite

  /** One caption entry of the decoded object: the keys the parser reads. Text
      values are strings (a missing or JSON-falsy value is `None` or `""`). */
  datatype CaptionEntry = CaptionEntry(
    timeStart: Option<JsonValue>, timeEnd: Option<JsonValue>,
    text: Option<string>, textLower: Option<string>)

  /** The `subs_field` argument: falsy (None, "", empty dict), text that is not
      JSON, or a decoded object whose keys come in insertion order. A JSON
      object has distinct keys (a repeated key keeps its last value); the list
      here does not insist on that, and every lemma about it holds for any list. */
  datatype SubsField = Falsy | BadJson | Decoded(entries: seq<(string, CaptionEntry)>)

  datatype Cue = Cue(start: real, end: real, text: string)

  /** A plain decimal `[+-]digits[.digits]` (at least one digit) after stripping whitespace. */
  function ParseDecimalText(t: string): Option<real>
  {
    var s := StripSpace(t);
    if |s| > 0 && (s[0] == '-' || s[0] == '+') then
      var u := UnsignedDecimal(s[1..]);
      if u.Some? then Some(if s[0] == '-' then -u.value else u.value) else None
    else UnsignedDecimal(s)
  }

  function UnsignedDecimal(s: string): Option<real>
  {
    var parts := Split(s, '.');
    if |parts| == 1 then
      (if |s| > 0 && AllDigits(s) then Some(DigitsValue(s) as real) else None)
    else if |parts| == 2 && AllDigits(parts[0]) && AllDigits(parts[1]) && |parts[0]| + |parts[1]| > 0 then
      Some(DecimalValue(parts[0], parts[1]))
    else None
  }

  /** The value of the decimal numeral `whole.frac`. */
  function DecimalValue(whole: string, frac: string): real
    requires AllDigits(whole) && AllDigits(frac)
  {
    DigitsValue(whole) as real + DigitsValue(frac) as real / Pow10(|frac|) as real
  }

  /** Python's `float(v)`; `None` where it raises. */
  function FloatOf(v: JsonValue): Option<real>
  {
    match v
    case JNum(n) => Some(n)
    case JBool(b) => Some(if b then 1.0 else 0.0)
    case JStr(s) => ParseDecimalText(s)
    case _ => None
  }

  /** Python's `s.replace("\r\n", "\n")`, scanning left to right. */
  function ReplaceCrLf(s: string): string
  {
    if |s| == 0 then ""
    else if |s| >= 2 && s[0] == '\r' && s[1] == '\n' then "\n" + ReplaceCrLf(s[2..])
    else [s[0]] + ReplaceCrLf(s[1..])
  }

  lemma {:induction false} ReplaceCrLfAbsent(s: string)
    requires '\r' !in s
    ensures ReplaceCrLf(s) == s
  {
    if |s| > 0 {
      ReplaceCrLfAbsent(s[1..]);
      assert [s[0]] + s[1..] == s;
    }
  }

  /** CRLF and lone CR become LF, then surrounding whitespace goes. */
  function NormalizeText(s: string): string
  {
    StripSpace(ReplaceChar(ReplaceCrLf(s), '\r', "\n"))
  }

  /** `entry.get("Text", "") or entry.get("text", "") or ""`. */
  function RawText(e: CaptionEntry): string
  {
    if e.text.Some? && e.text.value != "" then e.text.value
    else if e.textLower.Some? && e.textLower.value != "" then e.textLower.value
    else ""
  }

  /** One cue from one entry, with the parser's defaults. */
  function CueOf(e: CaptionEntry): Cue
  {
    var start :=
      if e.timeStart.None? then 0.0
      else if FloatOf(e.timeStart.value).Some? then FloatOf(e.timeStart.value).value
      else 0.0;
    var end :=
      if e.timeEnd.None? then start + 2.0
      else if FloatOf(e.timeEnd.value).Some? then FloatOf(e.timeEnd.value).value
      else start + 2.0;
    Cue(start, end, NormalizeText(RawText(e)))
  }

  /** The cue defaults: start 0.0 and end start + 2.0 when missing or not a number. */
  lemma CueDefaults(e: CaptionEntry)
    ensures (e.timeStart.None? || FloatOf(e.timeStart.value).None?) ==> CueOf(e).start == 0.0
    ensures (e.timeEnd.None? || FloatOf(e.timeEnd.value).None?) ==> CueOf(e).end == CueOf(e).start + 2.0
    ensures e.text.Some? && e.text.value != "" ==> CueOf(e).text == NormalizeText(e.text.value)
    ensures (e.text.None? || e.text.value == "") && e.textLower.Some? ==> CueOf(e).text == NormalizeText(e.textLower.value)
  {
  }

  /** Cue text holds no carriage return and no surrounding whitespace. */
  lemma {:induction false} NormalizeTextClean(s: string)
    ensures '\r' !in NormalizeText(s)
    ensures var t := NormalizeText(s); |t| > 0 ==> !IsSpace(t[0]) && !IsSpace(t[|t| - 1])
  {
    ReplaceCharRemoves(ReplaceCrLf(s), '\r', "\n");
    StripKeepsAbsent(ReplaceChar(ReplaceCrLf(s), '\r', "\n"), IsSpace, '\r');
  }

  // Key order -------------------------------------------------------------

  predicate IsDigitKey(k: string) { |k| > 0 && AllDigits(k) }

  /** Python's `<` on two strings: code-point lexicographic order. */
  predicate TextLe(a: string, b: string)
  {
    |a| == 0 || (|b| > 0 && (a[0] < b[0] || (a[0] == b[0] && TextLe(a[1..], b[1..]))))
  }

  lemma {:induction false} TextLeTotal(a: string, b: string)
    ensures TextLe(a, b) || TextLe(b, a)
  {
    if |a| > 0 && |b| > 0 && a[0] == b[0] {
      TextLeTotal(a[1..], b[1..]);
    }
  }

  /** The sort key `int(k) if k.isdigit() else k`, compared within one kind. */
  predicate KeyLe(a: string, b: string)
  {
    if IsDigitKey(a) && IsDigitKey(b) then DigitsValue(a) <= DigitsValue(b) else TextLe(a, b)
  }

  /** Insert after every entry whose key is not greater (keeps `sorted` stable). */
  function Insert(x: (string, CaptionEntry), s: seq<(string, CaptionEntry)>): (r: seq<(string, CaptionEntry)>)
    ensures multiset(r) == multiset(s) + multiset{x}
  {
    if |s| == 0 then [x]
    else if !KeyLe(s[0].0, x.0) then [x] + s
    else
      assert s == [s[0]] + s[1..];
      [s[0]] + Insert(x, s[1..])
  }

  /** Python's stable `sorted` by the key above, as an insertion sort. */
  function SortEntries(es: seq<(string, CaptionEntry)>): (r: seq<(string, CaptionEntry)>)
    ensures multiset(r) == multiset(es)
  {
    if |es| == 0 then []
    else
      assert es == es[..|es| - 1] + [es[|es| - 1]];
      Insert(es[|es| - 1], SortEntries(es[..|es| - 1]))
  }

  predicate KeysSorted(s: seq<(string, CaptionEntry)>)
  {
    forall i :: 0 <= i < |s| - 1 ==> KeyLe(s[i].0, s[i + 1].0)
  }

  /** The two kinds of key lists the sort can order without raising. */
  predicate AllDigitKeys(es: seq<(string, CaptionEntry)>) { forall i :: 0 <= i < |es| ==> IsDigitKey(es[i].0) }
  predicate NoDigitKeys(es: seq<(string, CaptionEntry)>) { forall i :: 0 <= i < |es| ==> !IsDigitKey(es[i].0) }

  predicate Uniform(es: seq<(string, CaptionEntry)>) { AllDigitKeys(es) || NoDigitKeys(es) }

  lemma KeyLeTotal(a: string, b: string)
    requires IsDigitKey(a) == IsDigitKey(b)
    ensures KeyLe(a, b) || KeyLe(b, a)
  {
    if !IsDigitKey(a) {
      TextLeTotal(a, b);
    }
  }

  lemma {:induction false} InsertSorted(x: (string, CaptionEntry), s: seq<(string, CaptionEntry)>)
    requires KeysSorted(s)
    requires forall i :: 0 <= i < |s| ==> IsDigitKey(s[i].0) == IsDigitKey(x.0)
    ensures KeysSorted(Insert(x, s))
    ensures |Insert(x, s)| > 0 && (Insert(x, s)[0] == x || (|s| > 0 && Insert(x, s)[0] == s[0]))
  {
    if |s| > 0 {
      if !KeyLe(s[0].0, x.0) {
        KeyLeTotal(s[0].0, x.0);
      } else {
        InsertSorted(x, s[1..]);
        var r := Insert(x, s[1..]);
        assert Insert(x, s) == [s[0]] + r;
        if r[0] != x {
          assert |s| > 1 && r[0] == s[1];
        }
      }
    }
  }

  lemma {:induction false} SortEntriesSorted(es: seq<(string, CaptionEntry)>)
    requires Uniform(es)
    ensures KeysSorted(SortEntries(es))
  {
    if |es| > 0 {
      var init := es[..|es| - 1];
      SortEntriesSorted(init);
      var sorted := SortEntries(init);
      forall i | 0 <= i < |sorted| ensures IsDigitKey(sorted[i].0) == IsDigitKey(es[|es| - 1].0) {
        assert sorted[i] in multiset(init);
        var j :| 0 <= j < |init| && init[j] == sorted[i];
      }
      InsertSorted(es[|es| - 1], sorted);
    }
  }

  /** The order `parse_subs_field` walks the keys in: sorted when the keys are
      all digit strings or all other strings; insertion order when they mix,
      because the sort then compares an int with a str and raises. */
  function OrderedEntries(es: seq<(string, CaptionEntry)>): (r: seq<(string, CaptionEntry)>)
    ensures |r| == |es|
  {
    if Uniform(es) then
      var r := SortEntries(es);
      assert |r| == |es| by { assert |multiset(r)| == |multiset(es)|; }
      r
    else es
  }

  /** The key order: the same entries; digit keys by integer value; other keys
      by code points; mixed keys as given. */
  lemma OrderedEntriesSpec(es: seq<(string, CaptionEntry)>)
    ensures multiset(OrderedEntries(es)) == multiset(es)
    ensures AllDigitKeys(es) ==> AllDigitKeys(OrderedEntries(es))
    ensures AllDigitKeys(es) ==> forall i :: 0 <= i < |es| - 1 ==>
      DigitsValue(OrderedEntries(es)[i].0) <= DigitsValue(OrderedEntries(es)[i + 1].0)
    ensures NoDigitKeys(es) ==> forall i :: 0 <= i < |es| - 1 ==>
      TextLe(OrderedEntries(es)[i].0, OrderedEntries(es)[i + 1].0)
    ensures !Uniform(es) ==> OrderedEntries(es) == es
  {
    if Uniform(es) {
      SortEntriesSorted(es);
      var r := SortEntries(es);
      forall i | 0 <= i < |r| ensures IsDigitKey(r[i].0) == AllDigitKeys(es) {
        assert r[i] in multiset(es);
        var j :| 0 <= j < |es| && es[j] == r[i];
      }
    }
  }

  /** The entries whose key is a digit string of integer value `v`, in order. */
  function KeyedBy(s: seq<(string, CaptionEntry)>, v: nat): seq<(string, CaptionEntry)>
  {
    if |s| == 0 then []
    else (if IsDigitKey(s[0].0) && DigitsValue(s[0].0) == v then [s[0]] else []) + KeyedBy(s[1..], v)
  }

  lemma {:induction false} KeyedByConcat(a: seq<(string, CaptionEntry)>, b: seq<(string, CaptionEntry)>, v: nat)
    ensures KeyedBy(a + b, v) == KeyedBy(a, v) + KeyedBy(b, v)
  {
    if |a| == 0 {
      assert a + b == b;
    } else {
      assert (a + b)[1..] == a[1..] + b;
      KeyedByConcat(a[1..], b, v);
    }
  }

  /** In sorted digit keys every key is at least the first one. */
  lemma {:induction false} SortedFromFirst(s: seq<(string, CaptionEntry)>)
    requires KeysSorted(s) && AllDigitKeys(s)
    ensures forall i :: 0 <= i < |s| ==> DigitsValue(s[0].0) <= DigitsValue(s[i].0)
  {
    if |s| > 1 {
      SortedFromFirst(s[1..]);
      forall i | 1 <= i < |s| ensures DigitsValue(s[0].0) <= DigitsValue(s[i].0) {
        assert s[i] == s[1..][i - 1];
      }
    }
  }

  lemma {:induction false} KeyedByAbove(s: seq<(string, CaptionEntry)>, v: nat)
    requires forall i :: 0 <= i < |s| ==> IsDigitKey(s[i].0) && DigitsValue(s[i].0) > v
    ensures KeyedBy(s, v) == []
  {
    if |s| > 0 {
      KeyedByAbove(s[1..], v);
    }
  }

  /** An entry placed before sorted digit keys of larger value comes after
      all of them among its own value, since none shares it. */
  lemma InsertFrontKeyedBy(x: (string, CaptionEntry), s: seq<(string, CaptionEntry)>, v: nat)
    requires |s| > 0 && KeysSorted(s) && AllDigitKeys(s) && IsDigitKey(x.0)
    requires DigitsValue(x.0) < DigitsValue(s[0].0)
    ensures KeyedBy([x] + s, v) == KeyedBy(s, v) + KeyedBy([x], v)
  {
    KeyedByConcat([x], s, v);
    if DigitsValue(x.0) == v {
      SortedFromFirst(s);
      KeyedByAbove(s, v);
      assert KeyedBy([x] + s, v) == KeyedBy([x], v) + [];
    } else {
      assert KeyedBy([x], v) == [];
      assert KeyedBy([x] + s, v) == [] + KeyedBy(s, v);
    }
  }

  lemma KeyedByCons(e: (string, CaptionEntry), r: seq<(string, CaptionEntry)>, t: seq<(string, CaptionEntry)>,
                    x: (string, CaptionEntry), v: nat)
    requires KeyedBy(r, v) == KeyedBy(t, v) + KeyedBy([x], v)
    ensures KeyedBy([e] + r, v) == KeyedBy([e] + t, v) + KeyedBy([x], v)
  {
    var h := if IsDigitKey(e.0) && DigitsValue(e.0) == v then [e] else [];
    assert ([e] + r)[1..] == r && ([e] + t)[1..] == t;
    assert KeyedBy([e] + r, v) == h + KeyedBy(r, v);
    assert KeyedBy([e] + t, v) == h + KeyedBy(t, v);
    assert h + (KeyedBy(t, v) + KeyedBy([x], v)) == (h + KeyedBy(t, v)) + KeyedBy([x], v);
  }

  /** Inserting an entry puts it after every entry of the same key value. */
  lemma {:induction false} InsertKeyedBy(x: (string, CaptionEntry), s: seq<(string, CaptionEntry)>, v: nat)
    requires KeysSorted(s) && AllDigitKeys(s) && IsDigitKey(x.0)
    ensures KeyedBy(Insert(x, s), v) == KeyedBy(s, v) + KeyedBy([x], v)
  {
    if |s| == 0 {
      assert Insert(x, s) == [x];
      assert KeyedBy(s, v) == [];
      assert KeyedBy([x], v) == [] + KeyedBy([x], v);
    } else if !KeyLe(s[0].0, x.0) {
      assert Insert(x, s) == [x] + s;
      InsertFrontKeyedBy(x, s, v);
    } else {
      var t := s[1..];
      assert KeysSorted(t) && AllDigitKeys(t);
      assert Insert(x, s) == [s[0]] + Insert(x, t);
      InsertKeyedBy(x, t, v);
      KeyedByCons(s[0], Insert(x, t), t, x, v);
      assert [s[0]] + t == s;
    }
  }

  lemma SortEntriesDigitKeys(es: seq<(string, CaptionEntry)>)
    requires AllDigitKeys(es)
    ensures AllDigitKeys(SortEntries(es))
  {
    var r := SortEntries(es);
    forall i | 0 <= i < |r| ensures IsDigitKey(r[i].0) {
      assert r[i] in multiset(es);
      var j :| 0 <= j < |es| && es[j] == r[i];
    }
  }

  /** The sort is stable: among digit keys of one integer value (such as
      `"1"` and `"01"`), the entries come out in the order they went in.
      Other keys cannot tie, since the keys of a JSON object are distinct. */
  lemma {:induction false} OrderedEntriesStable(es: seq<(string, CaptionEntry)>, v: nat)
    requires AllDigitKeys(es)
    ensures KeyedBy(OrderedEntries(es), v) == KeyedBy(es, v)
  {
    if |es| > 0 {
      var init, last := es[..|es| - 1], es[|es| - 1];
      assert AllDigitKeys(init);
      OrderedEntriesStable(init, v);
      SortEntriesSorted(init);
      SortEntriesDigitKeys(init);
      InsertKeyedBy(last, SortEntries(init), v);
      assert es == init + [last];
      KeyedByConcat(init, [last], v);
    }
  }

  /** `"1"` and `"01"` are digit keys of the same value. */
  lemma OneAndZeroOne()
    ensures IsDigitKey("1") && IsDigitKey("01") && DigitsValue("1") == DigitsValue("01")
  {
    assert "01"[..1] == "0" && "0"[..0] == "" && "1"[..0] == "";
  }

  function CuesFrom(es: seq<(string, CaptionEntry)>): (r: seq<Cue>)
    ensures |r| == |es|
  {
    if |es| == 0 then [] else CuesFrom(es[..|es| - 1]) + [CueOf(es[|es| - 1].1)]
  }

  /** The cue list `parse_subs_field` returns. */
  function Cues(field: SubsField): seq<Cue>
  {
    match field
    case Falsy => []
    case BadJson => []
    case Decoded(es) => CuesFrom(OrderedEntries(es))
  }

  lemma CuesFromStep(keys: seq<(string, CaptionEntry)>, i: nat)
    requires i < |keys|
    ensures CuesFrom(keys[..i + 1]) == CuesFrom(keys[..i]) + [CueOf(keys[i].1)]
  {
    assert keys[..i + 1][..i] == keys[..i];
  }

  /** `parse_subs_field`: walk the keys in order and append one cue per key. */
  method ParseSubsField(field: SubsField) returns (items: seq<Cue>)
    ensures items == Cues(field)
    ensures field.Decoded? ==> |items| == |field.entries|
    ensures !field.Decoded? ==> items == []
  {
    if !field.Decoded? {
      return [];
    }
    var keys := OrderedEntries(field.entries);
    items := [];
    var i := 0;
    while i < |keys|
      invariant 0 <= i <= |keys|
      invariant items == CuesFrom(keys[..i])
    {
      CuesFromStep(keys, i);
      items := items + [CueOf(keys[i].1)];
      i := i + 1;
    }
    assert keys[..|keys|] == keys;
  }

  /** Text without carriage returns is only stripped. */
  lemma NormalizePlainText(s: string)
    requires '\r' !in s
    ensures NormalizeText(s) == StripSpace(s)
  {
    ReplaceCrLfAbsent(s);
    ReplaceCharAbsent(s, '\r', "\n");
  }

  /** A field with one entry yields exactly that entry's cue, whatever its key. */
  lemma SingleEntryCue(k: string, e: CaptionEntry)
    ensures Cues(Decoded([(k, e)])) == [CueOf(e)]
  {
    var es := [(k, e)];
    if Uniform(es) {
      assert SortEntries(es) == Insert((k, e), SortEntries([])) by { assert es[..0] == []; }
    }
    assert CuesFrom(OrderedEntries(es)) == CuesFrom(es) == CuesFrom([]) + [CueOf(e)] by { assert es[..0] == []; }
  }

  /** `{"0": {"TimeStart": "1.5", "TimeEnd": "3.25", "Text": "Hi"}}` gives one cue (1.5, 3.25, "Hi"). */
  lemma CueExample(start: string, end: string, text: string)
    requires start == "1.5" && end == "3.25" && text == "Hi"
    ensures Cues(Decoded([("0", CaptionEntry(Some(JStr(start)), Some(JStr(end)), Some(text), None))]))
         == [Cue(1.5, 3.25, text)]
  {
    var e := CaptionEntry(Some(JStr(start)), Some(JStr(end)), Some(text), None);
    SingleEntryCue("0", e);
    DecimalTextOneFive(start);
    DecimalTextThreeQuarter(end);
    PlainHi(text);
    assert text != "";
    assert FloatOf(e.timeStart.value) == Some(1.5);
    assert FloatOf(e.timeEnd.value) == Some(3.25);
    assert RawText(e) == text;
    assert CueOf(e) == Cue(1.5, 3.25, text);
  }

  lemma PlainHi(t: string)
    requires t == "Hi"
    ensures NormalizeText(t) == t
  {
    assert '\r' !in t;
    NormalizePlainText(t);
    VisibleNotSpace(t[0]);
    VisibleNotSpace(t[1]);
    StripSpaceKeeps(t);
  }

  /** `float(a + "." + b)` for digit strings a and b. */
  lemma DecimalText(a: string, b: string)
    requires |a| > 0 && |b| > 0 && AllDigits(a) && AllDigits(b)
    ensures ParseDecimalText(a + "." + b) == Some(DecimalValue(a, b))
  {
    var s := a + "." + b;
    assert IsDigit(s[0]) && IsDigit(s[|s| - 1]);
    DigitNotSpace(s[0]);
    DigitNotSpace(s[|s| - 1]);
    StripSpaceKeeps(s);
    assert '.' !in a by { forall k | 0 <= k < |a| ensures a[k] != '.' { assert IsDigit(a[k]); } }
    assert '.' !in b by { forall k | 0 <= k < |b| ensures b[k] != '.' { assert IsDigit(b[k]); } }
    assert Split(s, '.') == [a, b] by {
      assert s == a + ['.'] + b;
      SplitPrefix(a, b, '.');
      SplitNoSeparator(b, '.');
    }
    var parts := Split(s, '.');
    assert |parts| == 2 && parts[0] == a && parts[1] == b;
    assert UnsignedDecimal(s) == Some(DecimalValue(a, b));
    assert s[0] != '-' && s[0] != '+';
  }

  lemma DecimalTextOneFive(t: string)
    requires t == "1.5"
    ensures FloatOf(JStr(t)) == Some(1.5)
  {
    assert t == "1" + "." + "5";
    DecimalText("1", "5");
    DecimalValueExamples();
  }

  lemma DecimalTextThreeQuarter(t: string)
    requires t == "3.25"
    ensures FloatOf(JStr(t)) == Some(3.25)
  {
    assert t == "3" + "." + "25";
    DecimalText("3", "25");
    DecimalValueExamples();
  }

  lemma DecimalValueExamples()
    ensures DecimalValue("1", "5") == 1.5 && DecimalValue("3", "25") == 3.25
  {
    assert DigitsValue("25") == 25;
  }

  // ---------------------------------------------------------------------
  // SRT output

  /** The lines one cue contributes: its 1-based number, the timing line, its
      text lines, then a blank line. */
  function SrtBlock(index: nat, cue: Cue): (r: seq<string>)
    ensures |r| == 3 + |Split(cue.text, '\n')|
  {
    [NatToString(index), FloatToSrtTime(cue.start) + " --> " + FloatToSrtTime(cue.end)]
      + Split(cue.text, '\n') + [""]
  }

  /** All lines `write_srt` joins, numbering the cues from 1. */
  function SrtLines(items: seq<Cue>): seq<string>
  {
    if |items| == 0 then [] else SrtLines(items[..|items| - 1]) + SrtBlock(|items|, items[|items| - 1])
  }

  /** `write_srt`: the text written to the output file (the write itself is I/O). */
  method WriteSrt(items: seq<Cue>) returns (content: string)
    ensures content == Join(SrtLines(items), "\n")
  {
    var lines: seq<string> := [];
    var i := 0;
    while i < |items|
      invariant 0 <= i <= |items|
      invariant lines == SrtLines(items[..i])
    {
      var cue := items[i];
      var timing := FloatToSrtTime(cue.start) + " --> " + FloatToSrtTime(cue.end);
      SrtBlockLines(i + 1, cue, timing);
      lines := lines + ([NatToString(i + 1), timing] + Split(cue.text, '\n') + [""]);
      SrtLinesStep(items, i);
      i := i + 1;
    }
    assert items[..|items|] == items;
    content := Join(lines, "\n");
  }

  lemma SrtBlockLines(index: nat, cue: Cue, timing: string)
    requires timing == FloatToSrtTime(cue.start) + " --> " + FloatToSrtTime(cue.end)
    ensures SrtBlock(index, cue) == [NatToString(index), timing] + Split(cue.text, '\n') + [""]
  {
  }

  lemma SrtLinesStep(items: seq<Cue>, i: nat)
    requires i < |items|
    ensures SrtLines(items[..i + 1]) == SrtLines(items[..i]) + SrtBlock(i + 1, items[i])
  {
    assert items[..i + 1][..i] == items[..i];
  }

  /** Timestamps are one line: digits, a minus sign, colons and a comma. */
  lemma SrtTimeOneLine(f: real)
    ensures '\n' !in FloatToSrtTime(f)
  {
    var c := ClockOf(DecimalMs(f));
    PadIntChars(c.h, 2);
    PadIntChars(c.m, 2);
    PadIntChars(c.s, 2);
    PadIntChars(c.ms, 3);
  }

  lemma TimingLineOneLine(cue: Cue, t: string)
    requires t == FloatToSrtTime(cue.start) + " --> " + FloatToSrtTime(cue.end)
    ensures '\n' !in t
  {
    SrtTimeOneLine(cue.start);
    SrtTimeOneLine(cue.end);
    ArrowOneLine(FloatToSrtTime(cue.start), FloatToSrtTime(cue.end));
  }

  lemma ArrowOneLine(a: string, b: string)
    requires '\n' !in a && '\n' !in b
    ensures '\n' !in a + " --> " + b
  {
    assert forall k :: 0 <= k < |" --> "| ==> " --> "[k] != '\n';
  }

  lemma SrtBlockOneLine(index: nat, cue: Cue)
    ensures PiecesFree(SrtBlock(index, cue), '\n')
  {
    var n := NatToString(index);
    assert PiecesFree([n], '\n') by {
      forall k | 0 <= k < |n| ensures n[k] != '\n' { assert IsDigit(n[k]); }
    }
    var t := FloatToSrtTime(cue.start) + " --> " + FloatToSrtTime(cue.end);
    TimingLineOneLine(cue, t);
    assert PiecesFree([t], '\n');
    SplitPiecesFree(cue.text, '\n');
    var pieces := Split(cue.text, '\n');
    assert PiecesFree(pieces, '\n');
    assert PiecesFree([""], '\n');
    PiecesFreeConcat([n], [t], '\n');
    PiecesFreeConcat([n] + [t], pieces, '\n');
    PiecesFreeConcat([n] + [t] + pieces, [""], '\n');
    assert [n] + [t] == [n, t];
    SrtBlockLines(index, cue, t);
  }

  lemma {:induction false} SrtLinesOneLine(items: seq<Cue>)
    ensures PiecesFree(SrtLines(items), '\n')
  {
    if |items| > 0 {
      var init := items[..|items| - 1];
      SrtLinesOneLine(init);
      SrtBlockOneLine(|items|, items[|items| - 1]);
      PiecesFreeConcat(SrtLines(init), SrtBlock(|items|, items[|items| - 1]), '\n');
    }
  }

  /** Each cue takes its number line, its timing line, one line per text line and a blank line. */
  lemma {:induction false} SrtLinesCount(items: seq<Cue>)
    ensures |SrtLines(items)| == LineCount(items)
  {
    if |items| > 0 {
      SrtLinesCount(items[..|items| - 1]);
      SplitLength(items[|items| - 1].text, '\n');
    }
  }

  function LineCount(items: seq<Cue>): nat
  {
    if |items| == 0 then 0 else LineCount(items[..|items| - 1]) + 4 + Count(items[|items| - 1].text, '\n')
  }

  /** Reading the written file back line by line gives exactly the lines that
      were joined: the cue number, the timing line, the text lines and the blank. */
  lemma WriteSrtLines(items: seq<Cue>)
    requires |items| > 0
    ensures Split(Join(SrtLines(items), "\n"), '\n') == SrtLines(items)
  {
    SrtLinesOneLine(items);
    assert |SrtLines(items)| > 0;
    SplitJoin(SrtLines(items), '\n');
  }

  /** `float_to_srt_time` reads back to the rounded milliseconds. */
  lemma FloatSrtRoundTrip(f: real)
    requires DecimalMs(f) >= 0
    ensures ParseSrtTime(FloatToSrtTime(f)) == Some(DecimalMs(f))
  {
    SrtTimeRoundTrip(DecimalMs(f));
  }

  /** A block starts with the cue number, which reads back as its index, and
      ends with a blank line. */
  lemma SrtBlockShape(index: nat, cue: Cue)
    ensures ParseNat(SrtBlock(index, cue)[0]) == Some(index)
    ensures SrtBlock(index, cue)[|SrtBlock(index, cue)| - 1] == ""
  {
    NumberReadsBack(index);
    var t := FloatToSrtTime(cue.start) + " --> " + FloatToSrtTime(cue.end);
    SrtBlockLines(index, cue, t);
  }

  lemma NumberReadsBack(index: nat)
    ensures ParseNat(NatToString(index)) == Some(index)
  {
    NatToStringValue(index);
  }

  // ---------------------------------------------------------------------
  // SRT to ASS with a title event

  /** The style fields the conversion sets; `outline` is `None` when the style has none. */
  datatype Style = Style(
    fontname: string, fontsize: int, alignment: int,
    marginv: int, marginl: int, marginr: int,
    outline: Option<real>, shadow: real)

  datatype AssEvent = AssEvent(start: int, end: int, text: string, style: string)

  /** A freshly made style: Arial 20, bottom centre, margins 10, outline 2, shadow 2. */
  const NewStyle := Style("Arial", 20, 2, 10, 10, 10, Some(2.0), 2.0)

  /** Numpad alignments: 2 is bottom centre, 8 is top centre. */
  const BottomCenter := 2
  const TopCenter := 8

  /** A title with no known duration stays up for 24 hours. */
  const DayMs := 24 * 3600 * 1000

  /** The x coordinate of the title anchor: the centre of a 1080-wide frame. */
  const TitleX := 540

  /** Python's `int(x)` on a float: truncation toward zero. */
  function Trunc(x: real): (r: int)
    ensures x >= 0.0 ==> r as real <= x < r as real + 1.0
    ensures x < 0.0 ==> r as real - 1.0 < x <= r as real
  {
    if x >= 0.0 then x.Floor else -((-x).Floor)
  }

  /** The subtitle style: the file's own "Default" (or a new one) restyled. */
  function DefaultStyle(existing: Option<Style>, font: string, size: int, marginv: int, marginl: int, marginr: int): Style
  {
    var base := if existing.Some? then existing.value else NewStyle;
    Style(font, size, BottomCenter, marginv, marginl, marginr,
          if base.outline.Some? then base.outline else Some(1.0), 0.0)
  }

  /** The title style: a new style, top centre, no vertical margin, outline 1. */
  function TitleStyle(font: string, size: int, titleSize: Option<int>, marginl: int, marginr: int): Style
  {
    var fs := if titleSize.Some? && titleSize.value != 0 then titleSize.value else size;
    Style(font, fs, TopCenter, 0, marginl, marginr, Some(1.0), 0.0)
  }

  /** The title event's end: the clip duration in whole milliseconds, or a day
      when the duration is missing, zero or truncates to zero. */
  function TitleEnd(durationS: Option<real>): int
  {
    if durationS.Some? && durationS.value != 0.0 && Trunc(durationS.value * 1000.0) != 0 then
      Trunc(durationS.value * 1000.0)
    else DayMs
  }

  /** The override tag `{\pos(540,y)}` that places the title at an absolute point. */
  function PosTag(y: int): string
  {
    "{\\pos(" + NatToString(TitleX) + "," + IntToString(y) + ")}"
  }

  /** The title event: from 0 to the clip end, positioned by the override tag,
      with the title escaped for ASS by `esc`. */
  function TitleEvent(title: string, titlePosY: Option<int>, durationS: Option<real>, esc: string -> string): AssEvent
  {
    var y := if titlePosY.Some? then titlePosY.value else 10;
    AssEvent(0, TitleEnd(durationS), PosTag(y) + esc(title), "Title")
  }

  /** How long the title stays up: the whole clip for a clip of at least a
      millisecond, otherwise a day. */
  lemma TitleEndSpan(durationS: Option<real>)
    ensures durationS.Some? && durationS.value >= 0.001 ==>
      1 <= TitleEnd(durationS) && TitleEnd(durationS) as real <= durationS.value * 1000.0 < TitleEnd(durationS) as real + 1.0
    ensures durationS.None? || (0.0 <= durationS.value < 0.001) ==> TitleEnd(durationS) == DayMs
  {
  }

  /** Reads `{\pos(x,y)}` off the front of an event text: the two coordinates and the rest. */
  function ReadPosTag(t: string): Option<(int, int, string)>
  {
    var open := "{\\pos(";
    if |t| < |open| || t[..|open|] != open then None
    else
      var args := t[|open|..];
      var close := FirstIndex(args, ')');
      if close.None? then None
      else
        var inner, after := args[..close.value], args[close.value + 1..];
        var comma := FirstIndex(inner, ',');
        if comma.None? || |after| == 0 || after[0] != '}' then None
        else
          var x, y := ParseInt(inner[..comma.value]), ParseInt(inner[comma.value + 1..]);
          if x.Some? && y.Some? then Some((x.value, y.value, after[1..])) else None
  }

  /** The title event places the title at (540, y) and carries the escaped title after the tag. */
  lemma PosTagRoundTrip(y: int, body: string)
    ensures ReadPosTag(PosTag(y) + body) == Some((TitleX, y, body))
  {
    var xs, ys := NatToString(TitleX), IntToString(y);
    NumeralFree(xs, ')');
    IntNumeralFree(y, ')');
    NumeralFree(xs, ',');
    NumberReadsBack(TitleX);
    ParseIntRoundTrip(y);
    assert ParseInt(xs) == Some(TitleX) by { assert |xs| > 0 && AllDigits(xs); }
    ReadTag(xs, ys, body, TitleX, y);
  }

  lemma ReadTag(xs: string, ys: string, body: string, x: int, y: int)
    requires ')' !in xs && ')' !in ys && ',' !in xs
    requires ParseInt(xs) == Some(x) && ParseInt(ys) == Some(y)
    ensures ReadPosTag("{\\pos(" + xs + "," + ys + ")}" + body) == Some((x, y, body))
  {
    var open := "{\\pos(";
    var t := open + xs + "," + ys + ")}" + body;
    var inner := xs + [','] + ys;
    assert t[..|open|] == open;
    var args := t[|open|..];
    assert args == inner + [')'] + ("}" + body);
    assert ')' !in inner by {
      forall k | 0 <= k < |inner| ensures inner[k] != ')' {
        if k < |xs| { assert inner[k] == xs[k]; } else if k > |xs| { assert inner[k] == ys[k - |xs| - 1]; }
      }
    }
    FirstIndexAfter(inner, ')', "}" + body);
    assert args[..|inner|] == inner;
    assert args[|inner| + 1..] == "}" + body;
    FirstIndexAfter(xs, ',', ys);
    assert inner[..|xs|] == xs;
    assert inner[|xs| + 1..] == ys;
  }

  lemma NumeralFree(s: string, c: char)
    requires AllDigits(s) && !IsDigit(c)
    ensures c !in s
  {
    forall k | 0 <= k < |s| ensures s[k] != c { assert IsDigit(s[k]); }
  }

  lemma IntNumeralFree(i: int, c: char)
    requires !IsDigit(c) && c != '-'
    ensures c !in IntToString(i)
  {
    var s := IntToString(i);
    forall k | 0 <= k < |s| ensures s[k] != c {
      if i < 0 && k > 0 { assert s[k] == s[1..][k - 1]; }
    }
  }

  /** The loaded subtitle document: its styles by name and its events in order. */
  class SsaFile {
    var styles: map<string, Style>
    var events: seq<AssEvent>

    constructor (styles: map<string, Style>, events: seq<AssEvent>)
      ensures this.styles == styles && this.events == events
    {
      this.styles := styles;
      this.events := events;
    }
  }

  /** What `generate_ass_from_srt` reports. */
  datatype AssResult = Written(path: string) | BackendMissing | GenerationError

  /** `generate_ass_from_srt` on a loaded document: `doc` is `null` when loading
      the SRT file fails; `saved` is whether writing the ASS file succeeds;
      `esc` is the ASS escaping of the subtitle library. */
  method GenerateAss(
    backend: bool, doc: SsaFile?, assPath: string, font: string, size: int,
    marginv: int, marginl: int, marginr: int,
    titleText: Option<string>, titleSize: Option<int>, titlePosY: Option<int>,
    durationS: Option<real>, esc: string -> string, saved: bool)
    returns (result: AssResult)
    modifies doc
    ensures !backend ==> result == BackendMissing && (doc != null ==> unchanged(doc))
    ensures backend && doc == null ==> result == GenerationError
    ensures backend && doc != null ==> result == (if saved then Written(assPath) else GenerationError)
    ensures backend && doc != null ==>
      var titled := titleText.Some? && titleText.value != "";
      var existing := if "Default" in old(doc.styles) then Some(old(doc.styles)["Default"]) else None;
      var withDefault := old(doc.styles)["Default" := DefaultStyle(existing, font, size, marginv, marginl, marginr)];
      doc.styles == (if titled then withDefault["Title" := TitleStyle(font, size, titleSize, marginl, marginr)] else withDefault)
      && doc.events == (if titled then [TitleEvent(titleText.value, titlePosY, durationS, esc)] else []) + old(doc.events)
  {
    if !backend {
      return BackendMissing;
    }
    if doc == null {
      return GenerationError;
    }
    var existing := if "Default" in doc.styles then Some(doc.styles["Default"]) else None;
    doc.styles := doc.styles["Default" := DefaultStyle(existing, font, size, marginv, marginl, marginr)];
    if titleText.Some? && titleText.value != "" {
      doc.styles := doc.styles["Title" := TitleStyle(font, size, titleSize, marginl, marginr)];
      doc.events := [TitleEvent(titleText.value, titlePosY, durationS, esc)] + doc.events;
    }
    result := if saved then Written(assPath) else GenerationError;
  }

  /** The restyled subtitle style sits at the bottom centre with the requested
      font and margins, and always has an outline and no shadow. */
  lemma DefaultStyleShape(existing: Option<Style>, font: string, size: int, marginv: int, marginl: int, marginr: int)
    ensures var st := DefaultStyle(existing, font, size, marginv, marginl, marginr);
      st.alignment == BottomCenter && st.fontname == font && st.fontsize == size
      && st.marginv == marginv && st.marginl == marginl && st.marginr == marginr
      && st.outline.Some? && st.shadow == 0.0
    ensures existing.Some? && existing.value.outline.Some? ==>
      DefaultStyle(existing, font, size, marginv, marginl, marginr).outline == existing.value.outline
    ensures existing.None? ==> DefaultStyle(existing, font, size, marginv, marginl, marginr).outline == Some(2.0)
  {
  }
}
