/**
 * Choosing the checkpoint to resume from in a remote `ls -l` listing. A line names a checkpoint
 * when the pattern `\s+(\w+)\s+(\d+)\s+(\d+):(\d+)\s+(model_\d+_steps\.zip)` occurs in it; the
 * month, day, hour and minute it captures make a timestamp in the current year, and the
 * checkpoint with the latest timestamp (the first of equals) is the one chosen.
 */
module LatestCheckpoint {
  import opened Wrappers
  import opened Text

  // ---------------------------------------------------------------------------------------
  // The pattern.

  /** The character classes of the pattern: `\s`, `\w` and `\d`. */
  datatype CharClass = Space | Word | Digit

  predicate IsDigit(ch: char) {
    '0' <= ch <= '9'
  }

  predicate IsLetter(ch: char) {
    ('a' <= ch <= 'z') || ('A' <= ch <= 'Z')
  }

  predicate InClass(ch: char, k: CharClass) {
    match k
    case Space => IsSpace(ch)
    case Word => IsLetter(ch) || IsDigit(ch) || ch == '_'
    case Digit => IsDigit(ch)
  }

  /** The character at `t` is of class `k`. */
  predicate ClassAt(s: string, t: nat, k: CharClass)
    requires t < |s|
  {
    InClass(s[t], k)
  }

  predicate AllIn(s: string, i: nat, j: nat, k: CharClass)
    requires i <= j <= |s|
  {
    forall t :: i <= t < j ==> ClassAt(s, t, k)
  }

  /** The end of the longest run of class `k` that starts at `i`. */
  function Span(s: string, i: nat, k: CharClass): (j: nat)
    requires i <= |s|
    ensures i <= j <= |s|
    ensures AllIn(s, i, j, k)
    ensures j == |s| || !ClassAt(s, j, k)
    decreases |s| - i
  {
    if i < |s| && ClassAt(s, i, k) then Span(s, i + 1, k) else i
  }

  /** A run of class `k` from `i` to `j` that the next character does not continue is the
      longest one. */
  lemma {:induction false} SpanExact(s: string, i: nat, j: nat, k: CharClass)
    requires i <= j <= |s| && AllIn(s, i, j, k)
    requires j == |s| || !ClassAt(s, j, k)
    ensures Span(s, i, k) == j
    decreases j - i
  {
    if i < j {
      SpanExact(s, i + 1, j, k);
    }
  }

  /** Where the pieces of a match that starts at `p` end: the spaces at `a`, the month at `b`,
      the spaces at `c`, the day at `d`, the spaces at `e`, the hour at `f` (where the colon
      is), the minute at `g`, the spaces at `h` (where the file name starts) and the digits of
      the file name at `k`. */
  datatype Positions = Positions(a: nat, b: nat, c: nat, d: nat, e: nat, f: nat, g: nat, h: nat, k: nat)

  const ModelPrefix: string := "model_"
  const StepsSuffix: string := "_steps.zip"

  /** `s` from `p` to `d` is spaces, a month word, spaces and the day's digits, ending at `a`,
      `b`, `c` and `d`. */
  predicate DateLayout(s: string, p: nat, a: nat, b: nat, c: nat, d: nat) {
    p < a < b < c < d <= |s| && AllIn(s, p, a, Space) && AllIn(s, a, b, Word) && AllIn(s, b, c, Space)
    && AllIn(s, c, d, Digit)
  }

  /** `s` from `d` to `g` is spaces, the hour's digits, a colon and the minute's digits, ending
      at `e`, `f` (the colon) and `g`. */
  predicate TimeLayout(s: string, d: nat, e: nat, f: nat, g: nat) {
    d < e < f && f + 1 < g <= |s| && AllIn(s, d, e, Space) && AllIn(s, e, f, Digit) && s[f] == ':'
    && AllIn(s, f + 1, g, Digit)
  }

  /** `s` from `g` on is spaces and then `model_`, digits and `_steps.zip`, the spaces ending at
      `h` and the digits at `k`. */
  predicate NameLayout(s: string, g: nat, h: nat, k: nat) {
    g < h && h + 6 < k && k + 10 <= |s| && AllIn(s, g, h, Space) && s[h..h + 6] == ModelPrefix
    && AllIn(s, h + 6, k, Digit) && s[k..k + 10] == StepsSuffix
  }

  /** `ps` cuts `s` from `p` on into the pieces of the pattern, each of its class and none
      empty. */
  predicate Layout(s: string, p: nat, ps: Positions) {
    DateLayout(s, p, ps.a, ps.b, ps.c, ps.d) && TimeLayout(s, ps.d, ps.e, ps.f, ps.g)
    && NameLayout(s, ps.g, ps.h, ps.k)
  }

  /** The date part of the pattern at `p`. Every piece is followed by a character outside its
      class, so each run is taken whole and no backtracking is needed. */
  function DateAt(s: string, p: nat): (r: Option<(nat, nat, nat, nat)>)
    requires p <= |s|
    ensures r.Some? ==> DateLayout(s, p, r.value.0, r.value.1, r.value.2, r.value.3)
  {
    var a := Span(s, p, Space);
    var b := Span(s, a, Word);
    var c := Span(s, b, Space);
    var d := Span(s, c, Digit);
    if a == p || b == a || c == b || d == c then None else Some((a, b, c, d))
  }

  /** The time part of the pattern at `d`. */
  function TimeAt(s: string, d: nat): (r: Option<(nat, nat, nat)>)
    requires d <= |s|
    ensures r.Some? ==> TimeLayout(s, d, r.value.0, r.value.1, r.value.2)
  {
    var e := Span(s, d, Space);
    var f := Span(s, e, Digit);
    if e == d || f == e || f == |s| || s[f] != ':' then None
    else
      var g := Span(s, f + 1, Digit);
      if g == f + 1 then None else Some((e, f, g))
  }

  /** The file name part of the pattern at `g`. */
  function NameAt(s: string, g: nat): (r: Option<(nat, nat)>)
    requires g <= |s|
    ensures r.Some? ==> NameLayout(s, g, r.value.0, r.value.1)
  {
    var h := Span(s, g, Space);
    if h == g || h + 6 > |s| || s[h..h + 6] != ModelPrefix then None
    else
      var k := Span(s, h + 6, Digit);
      if k == h + 6 || k + 10 > |s| || s[k..k + 10] != StepsSuffix then None
      else Some((h, k))
  }

  /** The pattern after its leading `.*?`, tried at `p`. */
  function MatchAt(s: string, p: nat): (r: Option<Positions>)
    requires p <= |s|
    ensures r.Some? ==> Layout(s, p, r.value)
  {
    match DateAt(s, p)
    case None => None
    case Some((a, b, c, d)) =>
      match TimeAt(s, d)
      case None => None
      case Some((e, f, g)) =>
        match NameAt(s, g)
        case None => None
        case Some((h, k)) => Some(Positions(a, b, c, d, e, f, g, h, k))
  }

  /** A run of class `k` from `i` to `j` followed by a character of another class. */
  lemma RunEnds(s: string, i: nat, j: nat, k: CharClass, next: CharClass)
    requires i <= j < |s| && AllIn(s, i, j, k) && ClassAt(s, j, next)
    requires k != next && (k == Space || next == Space)
    ensures Span(s, i, k) == j
  {
    SpanExact(s, i, j, k);
  }

  lemma DateAtComplete(s: string, p: nat, a: nat, b: nat, c: nat, d: nat)
    requires DateLayout(s, p, a, b, c, d) && d < |s| && ClassAt(s, d, Space)
    ensures DateAt(s, p) == Some((a, b, c, d))
  {
    RunEnds(s, p, a, Space, Word);
    RunEnds(s, a, b, Word, Space);
    RunEnds(s, b, c, Space, Digit);
    RunEnds(s, c, d, Digit, Space);
  }

  lemma TimeAtComplete(s: string, d: nat, e: nat, f: nat, g: nat)
    requires TimeLayout(s, d, e, f, g) && g < |s| && ClassAt(s, g, Space)
    ensures TimeAt(s, d) == Some((e, f, g))
  {
    RunEnds(s, d, e, Space, Digit);
    SpanExact(s, e, f, Digit);
    RunEnds(s, f + 1, g, Digit, Space);
  }

  lemma NameAtComplete(s: string, g: nat, h: nat, k: nat)
    requires NameLayout(s, g, h, k)
    ensures NameAt(s, g) == Some((h, k))
  {
    assert s[h] == ModelPrefix[0];
    SpanExact(s, g, h, Space);
    assert s[k] == StepsSuffix[0];
    SpanExact(s, h + 6, k, Digit);
  }

  /** Every match at `p` is the one `MatchAt` finds: the pattern cuts a line in one way only. */
  lemma {:induction false} MatchAtComplete(s: string, p: nat, ps: Positions)
    requires Layout(s, p, ps)
    ensures MatchAt(s, p) == Some(ps)
  {
    assert ClassAt(s, ps.e, Digit) && ClassAt(s, ps.g, Space);
    DateAtComplete(s, p, ps.a, ps.b, ps.c, ps.d);
    TimeAtComplete(s, ps.d, ps.e, ps.f, ps.g);
    NameAtComplete(s, ps.g, ps.h, ps.k);
  }

  /** The first present value of `ms` from `p` on, with its index. */
  function FirstSome<T>(ms: seq<Option<T>>, p: nat): (r: Option<(nat, T)>)
    requires p <= |ms|
    ensures r.Some? ==> p <= r.value.0 < |ms| && ms[r.value.0] == Some(r.value.1)
    decreases |ms| - p
  {
    if p == |ms| then None
    else
      match ms[p]
      case Some(x) => Some((p, x))
      case None => FirstSome(ms, p + 1)
  }

  /** Nothing present comes before what `FirstSome` finds. */
  lemma {:induction false} FirstSomeIsFirst<T>(ms: seq<Option<T>>, p: nat, q: nat)
    requires p <= q < |ms| && ms[q].Some?
    ensures FirstSome(ms, p).Some? && FirstSome(ms, p).value.0 <= q
    decreases q - p
  {
    if ms[p].None? {
      FirstSomeIsFirst(ms, p + 1, q);
    }
  }

  /** The positions of a match follow each other within a line of length `n`. */
  predicate InOrder(ps: Positions, n: nat) {
    ps.a <= ps.b <= ps.c <= ps.d <= ps.e <= ps.f < ps.g <= ps.h <= ps.k && ps.k + 10 <= n
  }

  /** The pattern tried at every position of the line, the end included. */
  function Matches(s: string): (ms: seq<Option<Positions>>)
    ensures |ms| == |s| + 1 && forall q :: 0 <= q <= |s| ==> ms[q] == MatchAt(s, q)
  {
    seq(|s| + 1, q requires 0 <= q <= |s| => MatchAt(s, q))
  }

  /** `re.search`: the lazy `.*?` makes the match start at the first position where the rest of
      the pattern matches. */
  function Search(s: string): (r: Option<(nat, Positions)>)
    ensures r.Some? ==> r.value.0 <= |s| && InOrder(r.value.1, |s|)
  {
    FirstSome(Matches(s), 0)
  }

  /** What the search finds is a match. */
  lemma SearchSound(s: string)
    requires Search(s).Some?
    ensures Layout(s, Search(s).value.0, Search(s).value.1)
  {
  }

  /** Every match of the line starts at or after the one the search finds. */
  lemma SearchFindsFirst(s: string, q: nat, ps: Positions)
    requires Layout(s, q, ps)
    ensures Search(s).Some? && Search(s).value.0 <= q
  {
    MatchAtComplete(s, q, ps);
    FirstSomeIsFirst(Matches(s), 0, q);
  }

  /** The five groups of a match. */
  datatype Groups = Groups(month: string, day: string, hour: string, minute: string, filename: string)

  function GroupsOf(s: string, ps: Positions): Groups
    requires InOrder(ps, |s|)
  {
    Groups(s[ps.a..ps.b], s[ps.c..ps.d], s[ps.e..ps.f], s[ps.f + 1..ps.g], s[ps.h..ps.k + 10])
  }

  /** The file name of a match is `model_`, digits and `_steps.zip`. */
  lemma FilenameShape(s: string, p: nat, ps: Positions)
    requires Layout(s, p, ps)
    ensures var name := GroupsOf(s, ps).filename;
      |name| > 16 && name[..6] == ModelPrefix && name[|name| - 10..] == StepsSuffix
      && forall t :: 6 <= t < |name| - 10 ==> IsDigit(name[t])
  {
    var name := GroupsOf(s, ps).filename;
    assert name[..6] == s[ps.h..ps.h + 6];
    assert name[|name| - 10..] == s[ps.k..ps.k + 10];
    forall t | 6 <= t < |name| - 10
      ensures IsDigit(name[t])
    {
      assert name[t] == s[ps.h + t];
      assert ClassAt(s, ps.h + t, Digit);
    }
  }

  // ---------------------------------------------------------------------------------------
  // The timestamp.

  /** `datetime(year, month, day, hour, minute)`. */
  datatype Timestamp = Timestamp(year: int, month: int, day: int, hour: int, minute: int)

  /** The order of `datetime`: year, then month, day, hour and minute. */
  predicate Earlier(x: Timestamp, y: Timestamp) {
    x.year < y.year || (x.year == y.year && (x.month < y.month || (x.month == y.month &&
    (x.day < y.day || (x.day == y.day && (x.hour < y.hour || (x.hour == y.hour && x.minute < y.minute)))))))
  }

  /** `Earlier` is a strict total order. */
  lemma EarlierTotal(x: Timestamp, y: Timestamp)
    ensures Earlier(x, y) || Earlier(y, x) || x == y
    ensures !(Earlier(x, y) && Earlier(y, x))
  {
  }

  lemma EarlierTransitive(x: Timestamp, y: Timestamp, z: Timestamp)
    requires Earlier(x, y) && Earlier(y, z)
    ensures Earlier(x, z)
  {
  }

  /** Why a line that matches makes no timestamp; each is a `ValueError` in Python. */
  datatype ParseError = UnknownMonth(name: string) | DayOutOfRange | HourOutOfRange | MinuteOutOfRange

  function Lower(ch: char): char {
    if 'A' <= ch <= 'Z' then (ch as int + 32) as char else ch
  }

  /** The number of the month whose English abbreviation is `x`, `y`, `z` in lower case. */
  function MonthOf(x: char, y: char, z: char): (r: Option<int>)
    ensures r.Some? ==> 1 <= r.value <= 12
  {
    if [x, y, z] == "jan" then Some(1) else if [x, y, z] == "feb" then Some(2)
    else if [x, y, z] == "mar" then Some(3) else if [x, y, z] == "apr" then Some(4)
    else if [x, y, z] == "may" then Some(5) else if [x, y, z] == "jun" then Some(6)
    else if [x, y, z] == "jul" then Some(7) else if [x, y, z] == "aug" then Some(8)
    else if [x, y, z] == "sep" then Some(9) else if [x, y, z] == "oct" then Some(10)
    else if [x, y, z] == "nov" then Some(11) else if [x, y, z] == "dec" then Some(12)
    else None
  }

  /** `datetime.strptime(name, "%b").month`: the abbreviated English month name, in any case. */
  function MonthNumber(name: string): (r: Option<int>)
    ensures r.Some? ==> 1 <= r.value <= 12 && |name| == 3
  {
    if |name| != 3 then None else MonthOf(Lower(name[0]), Lower(name[1]), Lower(name[2]))
  }

  /** `strptime` reads "Mar" as 3 and "DEC" as 12, and does not read "March". */
  lemma MonthExamples()
    ensures MonthNumber("Mar") == Some(3)
    ensures MonthNumber("DEC") == Some(12)
    ensures MonthNumber("March") == None
  {
    assert MonthOf('m', 'a', 'r') == Some(3);
    assert MonthOf('d', 'e', 'c') == Some(12);
  }

  /** `int(digits)` for a run of decimal digits. */
  function DigitsValue(s: string): int {
    if s == [] then 0 else 10 * DigitsValue(s[..|s| - 1]) + (s[|s| - 1] as int - '0' as int)
  }

  lemma DigitsValueExamples()
    ensures DigitsValue("07") == 7 && DigitsValue("23") == 23
  {
    assert "07"[..1] == "0" && "23"[..1] == "2";
  }

  predicate IsLeapYear(year: int) {
    year % 4 == 0 && (year % 100 != 0 || year % 400 == 0)
  }

  function DaysInMonth(year: int, month: int): int
    requires 1 <= month <= 12
  {
    if month == 2 then (if IsLeapYear(year) then 29 else 28)
    else if month == 4 || month == 6 || month == 9 || month == 11 then 30
    else 31
  }

  /** A checkpoint file of the listing and the time it was written. */
  datatype Checkpoint = Checkpoint(filename: string, time: Timestamp)

  /** A valid date and time of `year`. */
  predicate ValidTime(t: Timestamp, year: int) {
    t.year == year && 1 <= t.month <= 12 && 1 <= t.day <= DaysInMonth(year, t.month)
    && 0 <= t.hour <= 23 && 0 <= t.minute <= 59
  }

  /** `strptime` for the month, then `datetime(year, month, int(day), int(hour), int(minute))`,
      which checks the day against the month and year, then the hour, then the minute. */
  function ToCheckpoint(gr: Groups, year: int): (r: Result<Checkpoint, ParseError>)
    ensures r.Ok? ==> r.value.filename == gr.filename && ValidTime(r.value.time, year)
    ensures r == Err(UnknownMonth(gr.month)) <==> MonthNumber(gr.month).None?
    ensures MonthNumber(gr.month).Some? ==>
      var t := Timestamp(year, MonthNumber(gr.month).value, DigitsValue(gr.day), DigitsValue(gr.hour), DigitsValue(gr.minute));
      (r.Ok? <==> ValidTime(t, year)) && (r.Ok? ==> r.value.time == t)
  {
    match MonthNumber(gr.month)
    case None => Err(UnknownMonth(gr.month))
    case Some(month) =>
      var day, hour, minute := DigitsValue(gr.day), DigitsValue(gr.hour), DigitsValue(gr.minute);
      if !(1 <= day <= DaysInMonth(year, month)) then Err(DayOutOfRange)
      else if !(0 <= hour <= 23) then Err(HourOutOfRange)
      else if !(0 <= minute <= 59) then Err(MinuteOutOfRange)
      else Ok(Checkpoint(gr.filename, Timestamp(year, month, day, hour, minute)))
  }

  /** `parse_ls_line`: no checkpoint when the pattern does not occur in the line, the file name
      and the timestamp of the first match when it does, and an error when the match does not
      make a date and time of the current year (the clock's year is a parameter). */
  function ParseLsLine(line: string, year: int): (r: Result<Option<Checkpoint>, ParseError>)
    ensures r == Ok(None) <==> Search(line).None?
    ensures r.Ok? && r.value.Some? ==> (Search(line).Some?
      && r.value.value.filename == GroupsOf(line, Search(line).value.1).filename
      && ValidTime(r.value.value.time, year))
    ensures Search(line).Some? ==> (r.Ok? <==> ToCheckpoint(GroupsOf(line, Search(line).value.1), year).Ok?)
    ensures r.Ok? && r.value.Some? ==> r.value.value == ToCheckpoint(GroupsOf(line, Search(line).value.1), year).value
    ensures r.Err? ==> Search(line).Some? && r.error == ToCheckpoint(GroupsOf(line, Search(line).value.1), year).error
  {
    match Search(line)
    case None => Ok(None)
    case Some(m) =>
      match ToCheckpoint(GroupsOf(line, m.1), year)
      case Err(e) => Err(e)
      case Ok(cp) => Ok(Some(cp))
  }

  /** A piece of a line: `piece` between `x` and `y`. */
  lemma Piece(x: string, piece: string, y: string, k: CharClass)
    requires forall t :: 0 <= t < |piece| ==> InClass(piece[t], k)
    ensures AllIn(x + piece + y, |x|, |x| + |piece|, k)
    ensures (x + piece + y)[|x|..|x| + |piece|] == piece
  {
    var s := x + piece + y;
    forall t | |x| <= t < |x| + |piece|
      ensures ClassAt(s, t, k)
    {
      assert s[t] == piece[t - |x|];
    }
  }

  /** The line `ls -l` prints for a checkpoint, from the month name on. */
  function ListingLine(month: string, day: string, hour: string, minute: string, digits: string): string {
    " " + month + " " + day + " " + hour + ":" + minute + " " + ModelPrefix + digits + StepsSuffix
  }

  predicate AllDigits(s: string) {
    s != [] && forall t :: 0 <= t < |s| ==> IsDigit(s[t])
  }

  /** A listing line whose fields make a valid time of the year parses to the checkpoint it
      names, written at that time. */
  lemma {:induction false} ListingLineParses(month: string, day: string, hour: string, minute: string, digits: string, year: int)
    requires |month| == 3 && forall t :: 0 <= t < 3 ==> IsLetter(month[t])
    requires MonthNumber(month).Some?
    requires AllDigits(day) && AllDigits(hour) && AllDigits(minute) && AllDigits(digits)
    requires ValidTime(Timestamp(year, MonthNumber(month).value, DigitsValue(day), DigitsValue(hour), DigitsValue(minute)), year)
    ensures ParseLsLine(ListingLine(month, day, hour, minute, digits), year)
      == Ok(Some(Checkpoint(ModelPrefix + digits + StepsSuffix,
           Timestamp(year, MonthNumber(month).value, DigitsValue(day), DigitsValue(hour), DigitsValue(minute)))))
  {
    var s := ListingLine(month, day, hour, minute, digits);
    var ps := LayoutOfListingLine(month, day, hour, minute, digits);
    SearchFindsFirst(s, 0, ps);
    assert Search(s).value.0 == 0;
    assert MatchAt(s, 0) == Some(ps) by {
      MatchAtComplete(s, 0, ps);
    }
    assert Search(s).value.1 == ps;
    GroupsOfListingLine(month, day, hour, minute, digits, ps);
  }

  /** Where the pieces of a listing line end. */
  function ListingPositions(month: string, day: string, hour: string, minute: string, digits: string): Positions {
    var a := 1;
    var b := a + |month|;
    var c := b + 1;
    var d := c + |day|;
    var e := d + 1;
    var f := e + |hour|;
    var g := f + 1 + |minute|;
    var h := g + 1;
    Positions(a, b, c, d, e, f, g, h, h + 6 + |digits|)
  }

  lemma LayoutOfListingLine(month: string, day: string, hour: string, minute: string, digits: string)
    returns (ps: Positions)
    requires |month| == 3 && forall t :: 0 <= t < 3 ==> IsLetter(month[t])
    requires AllDigits(day) && AllDigits(hour) && AllDigits(minute) && AllDigits(digits)
    ensures ps == ListingPositions(month, day, hour, minute, digits)
    ensures Layout(ListingLine(month, day, hour, minute, digits), 0, ps)
  {
    ps := ListingPositions(month, day, hour, minute, digits);
    DateOfListingLine(month, day, hour, minute, digits);
    TimeOfListingLine(month, day, hour, minute, digits);
    NameOfListingLine(month, day, hour, minute, digits);
  }

  lemma DateOfListingLine(month: string, day: string, hour: string, minute: string, digits: string)
    requires |month| == 3 && forall t :: 0 <= t < 3 ==> IsLetter(month[t])
    requires AllDigits(day)
    ensures var ps := ListingPositions(month, day, hour, minute, digits);
      DateLayout(ListingLine(month, day, hour, minute, digits), 0, ps.a, ps.b, ps.c, ps.d)
  {
    var rest := " " + hour + ":" + minute + " " + ModelPrefix + digits + StepsSuffix;
    assert ListingLine(month, day, hour, minute, digits) == " " + month + " " + day + rest;
    Piece([], " ", month + " " + day + rest, Space);
    Piece(" ", month, " " + day + rest, Word);
    Piece(" " + month, " ", day + rest, Space);
    Piece(" " + month + " ", day, rest, Digit);
  }

  lemma TimeOfListingLine(month: string, day: string, hour: string, minute: string, digits: string)
    requires AllDigits(hour) && AllDigits(minute)
    ensures var ps := ListingPositions(month, day, hour, minute, digits);
      TimeLayout(ListingLine(month, day, hour, minute, digits), ps.d, ps.e, ps.f, ps.g)
  {
    var front := " " + month + " " + day;
    var rest := " " + ModelPrefix + digits + StepsSuffix;
    assert ListingLine(month, day, hour, minute, digits) == front + " " + hour + ":" + minute + rest;
    Piece(front, " ", hour + ":" + minute + rest, Space);
    Piece(front + " ", hour, ":" + minute + rest, Digit);
    Piece(front + " " + hour + ":", minute, rest, Digit);
  }

  lemma NameOfListingLine(month: string, day: string, hour: string, minute: string, digits: string)
    requires AllDigits(digits)
    ensures var ps := ListingPositions(month, day, hour, minute, digits);
      NameLayout(ListingLine(month, day, hour, minute, digits), ps.g, ps.h, ps.k)
  {
    var front := " " + month + " " + day + " " + hour + ":" + minute;
    var s := ListingLine(month, day, hour, minute, digits);
    assert s == front + " " + ModelPrefix + digits + StepsSuffix;
    Piece(front, " ", ModelPrefix + digits + StepsSuffix, Space);
    Piece(front + " " + ModelPrefix, digits, StepsSuffix, Digit);
    var ps := ListingPositions(month, day, hour, minute, digits);
    assert s[ps.h..ps.h + 6] == ModelPrefix;
    assert s[ps.k..ps.k + 10] == StepsSuffix;
  }

  lemma GroupsOfListingLine(month: string, day: string, hour: string, minute: string, digits: string, ps: Positions)
    requires ps == ListingPositions(month, day, hour, minute, digits)
    ensures InOrder(ps, |ListingLine(month, day, hour, minute, digits)|)
    ensures GroupsOf(ListingLine(month, day, hour, minute, digits), ps)
      == Groups(month, day, hour, minute, ModelPrefix + digits + StepsSuffix)
  {
    var s := ListingLine(month, day, hour, minute, digits);
    var tail := ModelPrefix + digits + StepsSuffix;
    assert s[ps.a..ps.b] == month;
    assert s[ps.c..ps.d] == day;
    assert s[ps.e..ps.f] == hour;
    assert s[ps.f + 1..ps.g] == minute;
    assert s[ps.h..ps.k + 10] == tail;
  }

  /** The search finds nothing exactly when the pattern occurs nowhere in the line. */
  lemma SearchNone(s: string)
    ensures Search(s).None? <==> forall q: nat, ps: Positions :: !Layout(s, q, ps)
  {
    forall q: nat, ps: Positions | Layout(s, q, ps)
      ensures Search(s).Some?
    {
      SearchFindsFirst(s, q, ps);
    }
    if Search(s).Some? {
      SearchSound(s);
    }
  }

  // ---------------------------------------------------------------------------------------
  // Run names and the latest checkpoint.

  /** Why `get_run_names` fails: a blank line has no last word (`IndexError`). */
  datatype RunNameError = BlankLine(index: nat)

  /** The length of the run of non-space characters at the end of `s`. */
  function TailRun(s: string): (n: nat)
    ensures n <= |s|
    ensures forall j :: |s| - n <= j < |s| ==> !IsSpace(s[j])
    ensures n == |s| || IsSpace(s[|s| - n - 1])
    decreases |s|
  {
    if s == [] || IsSpace(s[|s| - 1]) then 0 else 1 + TailRun(s[..|s| - 1])
  }

  /** `line.split()[-1]`: the last maximal run of non-space characters of the line, when it has
      one. */
  function LastWord(line: string): Option<string>
    decreases |line|
  {
    if line == [] then None
    else if IsSpace(line[|line| - 1]) then LastWord(line[..|line| - 1])
    else Some(line[|line| - TailRun(line)..])
  }

  /** A line has a last word exactly when it is not blank. */
  lemma {:induction false} LastWordNone(line: string)
    ensures LastWord(line).None? <==> AllSpace(line)
    decreases |line|
  {
    if line != [] && IsSpace(line[|line| - 1]) {
      var init := line[..|line| - 1];
      LastWordNone(init);
      assert forall j :: 0 <= j < |init| ==> init[j] == line[j];
    }
  }

  /** The last word is a non-empty run of non-space characters that only spaces follow and that
      starts the line or follows a space, which is what the last item of `split()` is. */
  lemma {:induction false} LastWordFound(line: string)
    requires LastWord(line).Some?
    ensures exists k: nat :: LastWordAt(line, k, LastWord(line).value)
    decreases |line|
  {
    var init := line[..|line| - 1];
    var w := LastWord(line).value;
    if IsSpace(line[|line| - 1]) {
      LastWordFound(init);
      var k: nat :| LastWordAt(init, k, w);
      assert line == init + [line[|line| - 1]];
      LastWordAtSpace(init, line[|line| - 1], k, w);
    } else {
      assert LastWordAt(line, |line| - |w|, w);
    }
  }

  /** A space after the line keeps its last word. */
  lemma LastWordAtSpace(line: string, ch: char, k: nat, w: string)
    requires LastWordAt(line, k, w) && IsSpace(ch)
    ensures LastWordAt(line + [ch], k, w)
  {
    var longer := line + [ch];
    assert longer[k..k + |w|] == line[k..k + |w|];
    assert longer[k + |w|..] == line[k + |w|..] + [ch];
  }

  /** `w` is a non-empty run of non-space characters at `k` in `line`, only spaces follow it and
      it starts the line or follows a space. */
  predicate LastWordAt(line: string, k: nat, w: string) {
    w != [] && k + |w| <= |line| && line[k..k + |w|] == w
    && (forall j :: 0 <= j < |w| ==> !IsSpace(w[j]))
    && AllSpace(line[k + |w|..]) && (k == 0 || IsSpace(line[k - 1]))
  }

  /** `get_run_names`: the last word of every line after the header line, or the first blank
      line after the header. */
  method GetRunNames(lsOutput: string) returns (r: Result<seq<string>, RunNameError>)
    ensures RunNames(LastWords(SplitLines(lsOutput)), r)
  {
    r := RunNamesOf(SplitLines(lsOutput));
  }

  /** The last word of every line. */
  function LastWords(lines: seq<string>): (ws: seq<Option<string>>)
    ensures |ws| == |lines|
    decreases |lines|
  {
    if lines == [] then [] else LastWords(lines[..|lines| - 1]) + [LastWord(lines[|lines| - 1])]
  }

  lemma {:induction false} LastWordsAt(lines: seq<string>, i: nat)
    requires i < |lines|
    ensures LastWords(lines)[i] == LastWord(lines[i])
    decreases |lines|
  {
    if i < |lines| - 1 {
      LastWordsAt(lines[..|lines| - 1], i);
    }
  }

  /** `r` is what `get_run_names` gives for lines whose last words are `ws`: the last word of
      each line after the first, or an error at the first blank one. */
  predicate RunNames(ws: seq<Option<string>>, r: Result<seq<string>, RunNameError>) {
    (r.Ok? <==> forall i :: 1 <= i < |ws| ==> ws[i].Some?)
    && (r.Ok? ==> (|r.value| == (if |ws| == 0 then 0 else |ws| - 1)
        && forall i :: 0 <= i < |r.value| ==> Some(r.value[i]) == ws[i + 1]))
    && (r.Err? ==> (1 <= r.error.index < |ws| && ws[r.error.index].None?
        && forall i :: 1 <= i < r.error.index ==> ws[i].Some?))
  }

  /** `lines[i].split()[-1]`, when the line has a word. */
  method SplitLast(lines: seq<string>, i: nat) returns (word: Option<string>)
    requires i < |lines|
    ensures word == LastWords(lines)[i]
  {
    word := LastWord(lines[i]);
    LastWordsAt(lines, i);
  }

  /** The loop of `get_run_names` over the lines of the listing. */
  method RunNamesOf(lines: seq<string>) returns (r: Result<seq<string>, RunNameError>)
    ensures RunNames(LastWords(lines), r)
  {
    ghost var ws := LastWords(lines);
    var runNames: seq<string> := [];
    if |lines| == 0 {
      return Ok(runNames);
    }
    var i := 1;
    while i < |lines|
      invariant 1 <= i <= |lines|
      invariant |runNames| == i - 1
      invariant forall j :: 1 <= j < i ==> ws[j].Some?
      invariant forall j :: 0 <= j < |runNames| ==> Some(runNames[j]) == ws[j + 1]
    {
      var word := SplitLast(lines, i);
      if word.None? {
        return Err(BlankLine(i));
      }
      runNames := runNames + [word.value];
      i := i + 1;
    }
    return Ok(runNames);
  }

  /** Why `get_latest_checkpoint` fails. */
  datatype CheckpointError = Unparsable(error: ParseError) | NoCheckpoints

  /** `parse_ls_line` of every line of the listing. */
  function ParseLines(lines: seq<string>, year: int): (r: seq<Result<Option<Checkpoint>, ParseError>>)
    ensures |r| == |lines|
    decreases |lines|
  {
    if lines == [] then [] else ParseLines(lines[..|lines| - 1], year) + [ParseLsLine(lines[|lines| - 1], year)]
  }

  lemma {:induction false} ParseLinesAt(lines: seq<string>, year: int, i: nat)
    requires i < |lines|
    ensures ParseLines(lines, year)[i] == ParseLsLine(lines[i], year)
    decreases |lines|
  {
    if i < |lines| - 1 {
      ParseLinesAt(lines[..|lines| - 1], year, i);
    }
  }

  /** The checkpoints of the parsed lines, in order, or the first parse error. */
  function Collect(parsed: seq<Result<Option<Checkpoint>, ParseError>>): Result<seq<Checkpoint>, ParseError>
    decreases |parsed|
  {
    if parsed == [] then Ok([])
    else
      match Collect(parsed[..|parsed| - 1])
      case Err(e) => Err(e)
      case Ok(cs) =>
        match parsed[|parsed| - 1]
        case Err(e) => Err(e)
        case Ok(None) => Ok(cs)
        case Ok(Some(cp)) => Ok(cs + [cp])
  }

  /** Collecting succeeds exactly when every line parses; the checkpoints are then the parsed
      ones, each present line's checkpoint among them. */
  lemma {:induction false} CollectOk(parsed: seq<Result<Option<Checkpoint>, ParseError>>)
    ensures Collect(parsed).Ok? <==> forall i :: 0 <= i < |parsed| ==> parsed[i].Ok?
    ensures Collect(parsed).Ok? ==> forall cp :: cp in Collect(parsed).value ==>
      exists i :: 0 <= i < |parsed| && parsed[i] == Ok(Some(cp))
    ensures Collect(parsed).Ok? ==> forall i :: 0 <= i < |parsed| && parsed[i].value.Some? ==>
      parsed[i].value.value in Collect(parsed).value
    decreases |parsed|
  {
    if parsed != [] {
      var init := parsed[..|parsed| - 1];
      CollectOk(init);
      assert forall i :: 0 <= i < |init| ==> init[i] == parsed[i];
      if Collect(parsed).Ok? {
        forall i | 0 <= i < |parsed| && parsed[i].value.Some?
          ensures parsed[i].value.value in Collect(parsed).value
        {
          if i < |init| {
            assert init[i].value.Some?;
          }
        }
      }
    }
  }

  /** When a line fails to parse, collecting fails with the error of the first such line. */
  lemma {:induction false} CollectFirstError(parsed: seq<Result<Option<Checkpoint>, ParseError>>, i: nat)
    requires i < |parsed| && parsed[i].Err? && forall j :: 0 <= j < i ==> parsed[j].Ok?
    ensures Collect(parsed) == Err(parsed[i].error)
    decreases |parsed|
  {
    var init := parsed[..|parsed| - 1];
    if i < |init| {
      assert forall j :: 0 <= j < i ==> init[j] == parsed[j];
      CollectFirstError(init, i);
    } else {
      CollectOk(init);
      assert forall j :: 0 <= j < |init| ==> init[j] == parsed[j];
    }
  }

  /** The index of the first checkpoint with the latest timestamp: `max` with a key keeps the
      first of equal items. */
  function FirstLatest(cs: seq<Checkpoint>): (i: nat)
    requires |cs| > 0
    ensures i < |cs|
    ensures forall j :: 0 <= j < |cs| ==> !Earlier(cs[i].time, cs[j].time)
    ensures forall j :: 0 <= j < i ==> Earlier(cs[j].time, cs[i].time)
    decreases |cs|
  {
    if |cs| == 1 then 0
    else
      var i := FirstLatest(cs[..|cs| - 1]);
      assert forall j :: 0 <= j < |cs| - 1 ==> cs[j] == cs[..|cs| - 1][j];
      if Earlier(cs[i].time, cs[|cs| - 1].time) then
        LastIsLatest(cs, i);
        |cs| - 1
      else
        i
  }

  /** When the last checkpoint is later than the latest of the others, it is later than each. */
  lemma LastIsLatest(cs: seq<Checkpoint>, i: nat)
    requires i < |cs| - 1 && Earlier(cs[i].time, cs[|cs| - 1].time)
    requires forall j :: 0 <= j < |cs| - 1 ==> !Earlier(cs[i].time, cs[j].time)
    ensures forall j :: 0 <= j < |cs| - 1 ==> Earlier(cs[j].time, cs[|cs| - 1].time)
  {
    forall j | 0 <= j < |cs| - 1
      ensures Earlier(cs[j].time, cs[|cs| - 1].time)
    {
      EarlierTotal(cs[j].time, cs[i].time);
      if Earlier(cs[j].time, cs[i].time) {
        EarlierTransitive(cs[j].time, cs[i].time, cs[|cs| - 1].time);
      }
    }
  }

  /** What `get_latest_checkpoint` answers for the parsed lines. */
  function Latest(parsed: seq<Result<Option<Checkpoint>, ParseError>>): Result<string, CheckpointError> {
    match Collect(parsed)
    case Err(e) => Err(Unparsable(e))
    case Ok(cs) => if cs == [] then Err(NoCheckpoints) else Ok(cs[FirstLatest(cs)].filename)
  }

  /** `get_latest_checkpoint`: the file name of the latest checkpoint of the listing, the first
      one listed among equally recent ones; an error when a line does not parse or no line
      names a checkpoint. */
  method GetLatestCheckpoint(lsOutput: string, year: int) returns (r: Result<string, CheckpointError>)
    ensures r == Latest(ParseLines(SplitLines(lsOutput), year))
  {
    var lines := SplitLines(lsOutput);
    ghost var parsed := ParseLines(lines, year);
    var checkpoints: seq<Checkpoint> := [];
    var i := 0;
    while i < |lines|
      invariant 0 <= i <= |lines|
      invariant Collect(parsed[..i]) == Ok(checkpoints)
    {
      var result := ParseLsLine(lines[i], year);
      ParseLinesAt(lines, year, i);
      CollectStep(parsed, i, checkpoints);
      if result.Err? {
        CollectErrorStays(parsed, i + 1);
        return Err(Unparsable(result.error));
      }
      if result.value.Some? {
        checkpoints := checkpoints + [result.value.value];
      }
      i := i + 1;
    }
    assert parsed[..i] == parsed;
    if checkpoints == [] {
      return Err(NoCheckpoints);
    }
    var latest := FirstLatest(checkpoints);
    return Ok(checkpoints[latest].filename);
  }

  /** Collecting one more parsed line. */
  lemma CollectStep(parsed: seq<Result<Option<Checkpoint>, ParseError>>, i: nat, cs: seq<Checkpoint>)
    requires i < |parsed| && Collect(parsed[..i]) == Ok(cs)
    ensures Collect(parsed[..i + 1]) ==
      match parsed[i]
      case Err(e) => Err(e)
      case Ok(None) => Ok(cs)
      case Ok(Some(cp)) => Ok(cs + [cp])
  {
    assert parsed[..i + 1][..i] == parsed[..i];
  }

  /** Once a prefix of the parsed lines fails, so do all of them. */
  lemma {:induction false} CollectErrorStays(parsed: seq<Result<Option<Checkpoint>, ParseError>>, n: nat)
    requires n <= |parsed| && Collect(parsed[..n]).Err?
    ensures Collect(parsed) == Collect(parsed[..n])
    decreases |parsed| - n
  {
    if n < |parsed| {
      assert parsed[..n + 1][..n] == parsed[..n];
      CollectErrorStays(parsed, n + 1);
    } else {
      assert parsed[..n] == parsed;
    }
  }

  /** The answer is an error exactly when a line does not parse (the first such line's error)
      or no line names a checkpoint; otherwise it names the checkpoint of a line that no line's
      checkpoint is later than, and every line before it with a checkpoint has an earlier one. */
  lemma LatestIsLatest(parsed: seq<Result<Option<Checkpoint>, ParseError>>)
    ensures Latest(parsed) == Err(NoCheckpoints) <==> forall i :: 0 <= i < |parsed| ==> parsed[i] == Ok(None)
    ensures Latest(parsed).Ok? ==> exists i :: (0 <= i < |parsed| && parsed[i].Ok? && parsed[i].value.Some?
      && parsed[i].value.value.filename == Latest(parsed).value
      && forall j :: 0 <= j < |parsed| && parsed[j].Ok? && parsed[j].value.Some? ==>
           !Earlier(parsed[i].value.value.time, parsed[j].value.value.time))
  {
    CollectOk(parsed);
    if Collect(parsed).Ok? {
      var cs := Collect(parsed).value;
      if cs != [] {
        var best := cs[FirstLatest(cs)];
        assert best in cs;
        var i :| 0 <= i < |parsed| && parsed[i] == Ok(Some(best));
        forall j | 0 <= j < |parsed| && parsed[j].Ok? && parsed[j].value.Some?
          ensures !Earlier(best.time, parsed[j].value.value.time)
        {
          var cp := parsed[j].value.value;
          assert cp in cs;
        }
      }
    }
  }
}
