/**
  The status renderer: the elapsed-round text computed from the
  snapshot's `round_start_time`, and the status message built from a
  snapshot (or from its absence). The clock, the wall-clock formatting in
  the Moscow zone and the library date parser are parameters.
  Instants are integers counting microseconds since the epoch.
 */
module Formatter {
  import opened Wrappers
  import opened PyText

  /** A JSON value as decoded from the status endpoint. `Other` stands for
      floats, arrays and objects: their `str()` text and their truthiness. */
  datatype Value = Null | Bool(b: bool) | Int(i: int) | Str(s: string) | Other(text: string, truthy: bool)

  /** A decoded status document: a JSON object. */
  type Snapshot = map<string, Value>

  /** What the date parser yields: the wall-clock instant it read, counted as if it
      were UTC, and the UTC offset the string carried, if any. */
  datatype Parsed = Parsed(wallMicros: int, offsetMicros: Option<int>)

  const LOBBY := "В лобби"
  const ROUND_ERROR := "Ошибка"
  const CLAMPED := "0 мин"
  const MINUTES_SUFFIX := "мин"
  const MICROS_PER_SECOND := 1_000_000
  const MICROS_PER_MINUTE := 60_000_000
  const ERROR_MARK := '❌'
  const CONNECTION_ERROR := [ERROR_MARK] + " Ошибка подключения\nНе удалось получить данные сервера. Проверьте подключение.\n\n"

  /** Python's `not v`. */
  predicate Falsy(v: Value) {
    match v
    case Null => true
    case Bool(b) => !b
    case Int(i) => i == 0
    case Str(s) => s == ""
    case Other(_, truthy) => !truthy
  }

  /** Python's `not data` for the fetched document: none, or an empty object. */
  predicate NoData(data: Option<Snapshot>) {
    data.None? || |data.value| == 0
  }

  /** Python's `str(v)`, which an f-string uses. */
  function PyStr(v: Value): string {
    match v
    case Null => "None"
    case Bool(b) => if b then "True" else "False"
    case Int(i) => IntToString(i)
    case Str(s) => s
    case Other(text, _) => text
  }

  /** Python's `data.get(key, default)` rendered as text. */
  function FieldText(data: Snapshot, key: string, default: string): (r: string)
    ensures key in data ==> r == PyStr(data[key])
    ensures key !in data ==> r == default
  {
    if key in data then PyStr(data[key]) else default
  }

  /** `frac[:6].ljust(6, '0')`: the first six characters, padded with zeros. */
  function FracDigits(frac: string): (r: string)
    ensures |r| == 6
    ensures forall k :: 0 <= k < 6 ==> r[k] == if k < |frac| then frac[k] else '0'
  {
    var kept := if |frac| <= 6 then frac else frac[..6];
    kept + seq(6 - |kept|, _ => '0')
  }

  /**
    The normalisation before parsing: trailing 'Z's stripped and the fraction
    after a '.' cut or padded to six digits. A second '.' makes the two-way
    unpacking of `split('.')` raise, which gives `None`.
   */
  function Normalise(s: string): (r: Option<string>)
    ensures var clean := RStrip(s, 'Z');
      && (r.None? <==> multiset(clean)['.'] > 1)
      && ('.' !in clean ==> r == Some(clean))
      && (r.Some? && '.' in clean ==>
            exists i :: 0 <= i < |clean| && clean[i] == '.' &&
              r.value == clean[..i] + "." + FracDigits(clean[i + 1..]))
  {
    var clean := RStrip(s, 'Z');
    if '.' !in clean then Some(clean)
    else if multiset(clean)['.'] != 1 then None
    else
      var i := IndexOf(clean, '.');
      Some(clean[..i] + "." + FracDigits(clean[i + 1..]))
  }

  /** The elapsed text for `diff` microseconds between the round start and now. */
  function Elapsed(diff: int): (r: string)
    ensures r == CLAMPED <==> diff < 0
  {
    if diff < 0 then CLAMPED
    else
      var total := diff / MICROS_PER_MINUTE;
      var hours := total / 60;
      var minutes := total % 60;
      if hours > 0 then
        var r := NatToString(hours) + "ч " + NatToString(minutes) + MINUTES_SUFFIX;
        assert |r| > |CLAMPED|;
        r
      else
        var r := NatToString(minutes) + MINUTES_SUFFIX;
        assert r[1] != CLAMPED[1] by {
          if |NatToString(minutes)| > 1 {
            assert IsDigit(r[1]);
          }
        }
        r
  }

  /**
    An independent reader of elapsed texts: the number of whole minutes
    "Hч Mмин", "Mмин" or "0 мин" stands for. It accepts only the canonical
    shapes: numerals without leading zeros, minutes below 60, and an hours
    field only when there is at least one hour.
   */
  function ReadElapsed(t: string): Option<nat> {
    if |t| < |MINUTES_SUFFIX| || t[|t| - |MINUTES_SUFFIX|..] != MINUTES_SUFFIX then None
    else ReadElapsedBody(t[..|t| - |MINUTES_SUFFIX|])
  }

  /** The part of an elapsed text before "мин". */
  function ReadElapsedBody(body: string): Option<nat> {
    if body == "0 " then Some(0)
    else
      var first := LeadingDigits(body);
      ReadFields(first, body[|first|..])
  }

  /** A numeral, then nothing (minutes) or "ч " and a second numeral (hours, minutes). */
  function ReadFields(first: string, rest: string): Option<nat>
    requires AllDigits(first)
  {
    if !Canonical(first) then None
    else if rest == [] then (if DigitsValue(first) < 60 then Some(DigitsValue(first)) else None)
    else if |rest| > 2 && rest[..2] == "ч " && Canonical(rest[2..])
            && DigitsValue(first) > 0 && DigitsValue(rest[2..]) < 60
    then Some(DigitsValue(first) * 60 + DigitsValue(rest[2..]))
    else None
  }

  lemma ReadWithSuffix(body: string)
    ensures ReadElapsed(body + MINUTES_SUFFIX) == ReadElapsedBody(body)
  {
    var t := body + MINUTES_SUFFIX;
    assert t[..|t| - 3] == body;
    assert t[|t| - 3..] == MINUTES_SUFFIX;
  }

  lemma HoursText(hs: string, ms: string)
    requires hs != [] && AllDigits(hs)
    ensures var body := hs + "ч " + ms;
      && LeadingDigits(body) == hs
      && body[|hs|..][..2] == "ч "
      && body[|hs|..][2..] == ms
      && body != "0 "
  {
    var body := hs + "ч " + ms;
    assert body == hs + ("ч " + ms);
    LeadingDigitsOf(hs, "ч " + ms);
    assert body[|hs|..] == "ч " + ms;
    assert |body| > 2;
  }

  lemma ReadHoursBody(hs: string, ms: string)
    requires Canonical(hs) && Canonical(ms) && DigitsValue(hs) > 0 && DigitsValue(ms) < 60
    ensures ReadElapsedBody(hs + "ч " + ms) == Some(DigitsValue(hs) * 60 + DigitsValue(ms))
  {
    var body := hs + "ч " + ms;
    HoursText(hs, ms);
    var rest := body[|hs|..];
    ReadFieldsHours(hs, rest, ms);
    assert ReadElapsedBody(body) == ReadFields(hs, rest);
  }

  lemma ReadFieldsHours(first: string, rest: string, ms: string)
    requires Canonical(first) && Canonical(ms) && DigitsValue(first) > 0 && DigitsValue(ms) < 60
    requires |rest| > 2 && rest[..2] == "ч " && rest[2..] == ms
    ensures ReadFields(first, rest) == Some(DigitsValue(first) * 60 + DigitsValue(ms))
  {
  }

  lemma ReadHoursAndMinutes(hours: nat, minutes: nat)
    requires hours > 0 && minutes < 60
    ensures ReadElapsed(NatToString(hours) + "ч " + NatToString(minutes) + MINUTES_SUFFIX) == Some(hours * 60 + minutes)
  {
    var hs, ms := NatToString(hours), NatToString(minutes);
    NatToStringRoundTrip(hours);
    NatToStringRoundTrip(minutes);
    ReadWithSuffix(hs + "ч " + ms);
    ReadHoursBody(hs, ms);
  }

  lemma ReadMinutes(minutes: nat)
    requires minutes < 60
    ensures ReadElapsed(NatToString(minutes) + MINUTES_SUFFIX) == Some(minutes)
  {
    var ms := NatToString(minutes);
    ReadWithSuffix(ms);
    assert ms != "0 " by {
      assert |ms| != 2 || IsDigit(ms[1]);
    }
    assert ms + [] == ms;
    LeadingDigitsOf(ms, []);
    NatToStringRoundTrip(minutes);
  }

  /** The elapsed text shows the whole minutes since the start, or zero for a start in the future. */
  lemma ElapsedRoundTrip(diff: int)
    ensures ReadElapsed(Elapsed(diff)) == Some(if diff < 0 then 0 else diff / MICROS_PER_MINUTE)
  {
    if diff >= 0 {
      ReadTotal(diff / MICROS_PER_MINUTE);
    } else {
      ReadWithSuffix("0 ");
    }
  }

  lemma ReadTotal(total: nat)
    ensures var hours, minutes := total / 60, total % 60;
      ReadElapsed(if hours > 0 then NatToString(hours) + "ч " + NatToString(minutes) + MINUTES_SUFFIX
                  else NatToString(minutes) + MINUTES_SUFFIX)
      == Some(total)
  {
    var hours, minutes := total / 60, total % 60;
    assert hours * 60 + minutes == total;
    if hours > 0 {
      ReadHoursAndMinutes(hours, minutes);
    } else {
      ReadMinutes(minutes);
    }
  }

  /**
    The converse of the round trip: the reader accepts nothing but printed
    texts. Every text it reads is the clamped text or the elapsed text of
    exactly the minutes it reads, so "0ч 90мин" or "05мин" are not accepted.
   */
  lemma ReadOnlyPrintedTexts(t: string)
    requires ReadElapsed(t).Some?
    ensures var n := ReadElapsed(t).value;
      (t == CLAMPED && n == 0) || t == Elapsed(n * MICROS_PER_MINUTE)
  {
    var body := t[..|t| - |MINUTES_SUFFIX|];
    assert t == body + MINUTES_SUFFIX;
    ReadWithSuffix(body);
    if body != "0 " {
      var first := LeadingDigits(body);
      var rest := body[|first|..];
      assert body == first + rest;
      FieldsArePrinted(first, rest, ReadElapsed(t).value);
    }
  }

  lemma FieldsArePrinted(first: string, rest: string, n: nat)
    requires AllDigits(first) && ReadFields(first, rest) == Some(n)
    ensures first + rest + MINUTES_SUFFIX == Elapsed(n * MICROS_PER_MINUTE)
  {
    CanonicalIsPrinted(first);
    ElapsedOfMinutes(n);
    if rest == [] {
      assert n == DigitsValue(first) < 60;
      assert first + rest == first;
    } else {
      var ms := rest[2..];
      CanonicalIsPrinted(ms);
      assert rest == "ч " + ms;
      PrintedHours(first, ms, n);
    }
  }

  /** `Elapsed` on a whole number of minutes, split into hours and minutes. */
  lemma ElapsedOfMinutes(n: nat)
    ensures Elapsed(n * MICROS_PER_MINUTE) ==
      if n / 60 > 0 then NatToString(n / 60) + "ч " + NatToString(n % 60) + MINUTES_SUFFIX
      else NatToString(n % 60) + MINUTES_SUFFIX
  {
    assert (n * MICROS_PER_MINUTE) / MICROS_PER_MINUTE == n;
  }

  lemma PrintedHours(first: string, ms: string, n: nat)
    requires Canonical(first) && Canonical(ms)
    requires n == DigitsValue(first) * 60 + DigitsValue(ms) && DigitsValue(first) > 0 && DigitsValue(ms) < 60
    requires NatToString(DigitsValue(first)) == first && NatToString(DigitsValue(ms)) == ms
    ensures n / 60 > 0 && first + ("ч " + ms) + MINUTES_SUFFIX == NatToString(n / 60) + "ч " + NatToString(n % 60) + MINUTES_SUFFIX
  {
    assert n / 60 == DigitsValue(first) && n % 60 == DigitsValue(ms);
  }

  /** Ninety minutes read "1ч 30мин". */
  lemma ElapsedNinetyMinutes()
    ensures Elapsed(5400 * MICROS_PER_SECOND) == "1ч 30мин"
  {
    assert NatToString(30) == "30";
  }

  /**
    `calculate_round_time`: the lobby text for a missing or empty start, the
    error text when the start cannot be normalised or parsed (a non-string
    start fails at `rstrip`), and otherwise the elapsed text measured from
    the parsed wall-clock instant taken as UTC, whatever offset it carried.
   */
  function RoundTime(start: Value, now: int, parse: string -> Option<Parsed>): (r: string)
    ensures r == LOBBY <==> Falsy(start)
    ensures !Falsy(start) && !start.Str? ==> r == ROUND_ERROR
    ensures !Falsy(start) && start.Str? ==>
      (r == ROUND_ERROR <==> Normalise(start.s).None? || parse(Normalise(start.s).value).None?)
    ensures !Falsy(start) && start.Str? && Normalise(start.s).Some? && parse(Normalise(start.s).value).Some? ==>
      r == Elapsed(now - parse(Normalise(start.s).value).value.wallMicros)
  {
    if Falsy(start) then LOBBY
    else if !start.Str? then ROUND_ERROR
    else match Normalise(start.s)
      case None => ROUND_ERROR
      case Some(clean) =>
        match parse(clean)
        case None => ROUND_ERROR
        case Some(p) => ElapsedIsNotFixedText(now - p.wallMicros); Elapsed(now - p.wallMicros)
  }

  /** No elapsed text coincides with the lobby or the error text. */
  lemma ElapsedIsNotFixedText(diff: int)
    ensures Elapsed(diff) != LOBBY && Elapsed(diff) != ROUND_ERROR
  {
    var t := Elapsed(diff);
    if diff >= 0 {
      var total := diff / MICROS_PER_MINUTE;
      var tail := if total / 60 > 0 then NatToString(total / 60) + "ч " + NatToString(total % 60) else NatToString(total % 60);
      assert t == tail + MINUTES_SUFFIX;
      assert t[|t| - 1] == 'н';
    }
  }

  /** Python's `int(x)` on the clock's seconds: truncation toward zero. */
  function TruncSeconds(micros: int): (r: int)
    ensures micros >= 0 ==> 0 <= r * MICROS_PER_SECOND <= micros < (r + 1) * MICROS_PER_SECOND
    ensures micros < 0 ==> (r - 1) * MICROS_PER_SECOND < micros <= r * MICROS_PER_SECOND <= 0
  {
    if micros >= 0 then micros / MICROS_PER_SECOND else -((-micros) / MICROS_PER_SECOND)
  }

  function Footer(now: int, formatTime: int -> string): string {
    "Обновлено: " + formatTime(now) + "\n\n[Обновление: " + IntToString(TruncSeconds(now)) + "]"
  }

  /** One line "caption value" of the status message. */
  function Line(caption: string, value: string): string {
    caption + value + "\n"
  }

  function StartTime(data: Snapshot): Value {
    if "round_start_time" in data then data["round_start_time"] else Null
  }

  function StatusBody(data: Snapshot, now: int, parse: string -> Option<Parsed>): string {
    Line("**Онлайн:** ", FieldText(data, "players", "N/A")) +
    Line("**Карта:** ", FieldText(data, "map", "Неизвестно")) +
    Line("**Раунд:** ", FieldText(data, "round_id", "N/A")) +
    Line("**Режим:** ", FieldText(data, "preset", "N/A")) +
    Line("**Время от начала смены:** ", RoundTime(StartTime(data), now, parse)) + "\n"
  }

  /** `create_status_message`: the connection-error text when there is no data, the status lines otherwise. */
  function CreateStatusMessage(data: Option<Snapshot>, now: int, formatTime: int -> string,
                               parse: string -> Option<Parsed>): (r: string)
    ensures NoData(data) <==> |r| >= |CONNECTION_ERROR| && r[..|CONNECTION_ERROR|] == CONNECTION_ERROR
    ensures var footer := Footer(now, formatTime); |r| >= |footer| && r[|r| - |footer|..] == footer
  {
    if NoData(data) then CONNECTION_ERROR + Footer(now, formatTime)
    else
      var body := StatusBody(data.value, now, parse);
      var r := body + Footer(now, formatTime);
      assert r[0] == '*' && CONNECTION_ERROR[0] == ERROR_MARK;
      r
  }

  lemma InFiveParts(l1: string, l2: string, l3: string, l4: string, l5: string, tail: string)
    ensures var r := l1 + l2 + l3 + l4 + l5 + tail;
      IsSubstring(l1, r) && IsSubstring(l2, r) && IsSubstring(l3, r) && IsSubstring(l4, r) && IsSubstring(l5, r)
  {
    var p1, p2, p3, p4 := l1, l1 + l2, l1 + l2 + l3, l1 + l2 + l3 + l4;
    OccursAtEnd([], l1);
    assert [] + l1 == l1;
    OccursExtended(l1, p1, l2, 0);
    OccursExtended(l1, p2, l3, 0);
    OccursExtended(l1, p3, l4, 0);
    OccursExtended(l1, p4, l5, 0);
    OccursExtended(l1, p4 + l5, tail, 0);
    OccursAtEnd(p1, l2);
    OccursExtended(l2, p2, l3, |p1|);
    OccursExtended(l2, p3, l4, |p1|);
    OccursExtended(l2, p4, l5, |p1|);
    OccursExtended(l2, p4 + l5, tail, |p1|);
    OccursAtEnd(p2, l3);
    OccursExtended(l3, p3, l4, |p2|);
    OccursExtended(l3, p4, l5, |p2|);
    OccursExtended(l3, p4 + l5, tail, |p2|);
    OccursAtEnd(p3, l4);
    OccursExtended(l4, p4, l5, |p3|);
    OccursExtended(l4, p4 + l5, tail, |p3|);
    OccursAtEnd(p4, l5);
    OccursExtended(l5, p4 + l5, tail, |p4|);
  }

  lemma StatusShowsFields(data: Snapshot, now: int, formatTime: int -> string, parse: string -> Option<Parsed>)
    requires |data| > 0
    ensures var r := CreateStatusMessage(Some(data), now, formatTime, parse);
      && IsSubstring(Line("**Онлайн:** ", FieldText(data, "players", "N/A")), r)
      && IsSubstring(Line("**Карта:** ", FieldText(data, "map", "Неизвестно")), r)
      && IsSubstring(Line("**Раунд:** ", FieldText(data, "round_id", "N/A")), r)
      && IsSubstring(Line("**Режим:** ", FieldText(data, "preset", "N/A")), r)
      && IsSubstring(Line("**Время от начала смены:** ", RoundTime(StartTime(data), now, parse)), r)
  {
    MessageLines(data, now, formatTime, parse);
    InFiveParts(Line("**Онлайн:** ", FieldText(data, "players", "N/A")),
                Line("**Карта:** ", FieldText(data, "map", "Неизвестно")),
                Line("**Раунд:** ", FieldText(data, "round_id", "N/A")),
                Line("**Режим:** ", FieldText(data, "preset", "N/A")),
                Line("**Время от начала смены:** ", RoundTime(StartTime(data), now, parse)),
                "\n" + Footer(now, formatTime));
  }

  lemma MessageLines(data: Snapshot, now: int, formatTime: int -> string, parse: string -> Option<Parsed>)
    requires |data| > 0
    ensures CreateStatusMessage(Some(data), now, formatTime, parse) ==
      Line("**Онлайн:** ", FieldText(data, "players", "N/A")) +
      Line("**Карта:** ", FieldText(data, "map", "Неизвестно")) +
      Line("**Раунд:** ", FieldText(data, "round_id", "N/A")) +
      Line("**Режим:** ", FieldText(data, "preset", "N/A")) +
      Line("**Время от начала смены:** ", RoundTime(StartTime(data), now, parse)) +
      ("\n" + Footer(now, formatTime))
  {
    var l1 := Line("**Онлайн:** ", FieldText(data, "players", "N/A"));
    var l2 := Line("**Карта:** ", FieldText(data, "map", "Неизвестно"));
    var l3 := Line("**Раунд:** ", FieldText(data, "round_id", "N/A"));
    var l4 := Line("**Режим:** ", FieldText(data, "preset", "N/A"));
    var l5 := Line("**Время от начала смены:** ", RoundTime(StartTime(data), now, parse));
    var footer := Footer(now, formatTime);
    var body := StatusBody(data, now, parse);
    assert CreateStatusMessage(Some(data), now, formatTime, parse) == body + footer;
    assert body == l1 + l2 + l3 + l4 + l5 + "\n";
    Regroup(l1 + l2 + l3 + l4 + l5, "\n", footer);
  }

  lemma Regroup(a: string, b: string, c: string)
    ensures (a + b) + c == a + (b + c)
  {
  }

  /** A document with ten players on the map Delta shows both. */
  lemma TenPlayersOnDelta(now: int, formatTime: int -> string, parse: string -> Option<Parsed>)
    ensures var r := CreateStatusMessage(Some(map["players" := Int(10), "map" := Str("Delta")]), now, formatTime, parse);
      IsSubstring("10", r) && IsSubstring("Delta", r)
  {
    var data := map["players" := Int(10), "map" := Str("Delta")];
    assert NatToString(1) == "1";
    assert FieldText(data, "players", "N/A") == "10";
    assert FieldText(data, "map", "Неизвестно") == "Delta";
    StatusShowsFields(data, now, formatTime, parse);
    OccursAtEnd("**Онлайн:** ", "10");
    OccursExtended("10", "**Онлайн:** " + "10", "\n", |"**Онлайн:** "|);
    OccursAtEnd("**Карта:** ", "Delta");
    OccursExtended("Delta", "**Карта:** " + "Delta", "\n", |"**Карта:** "|);
    var r := CreateStatusMessage(Some(data), now, formatTime, parse);
    SubstringTransitive("10", Line("**Онлайн:** ", "10"), r);
    SubstringTransitive("Delta", Line("**Карта:** ", "Delta"), r);
  }
}
