/** The typed clock box: what a written time says, how a box takes it, and what stepping does. Digits and
    letters are the plain ones. */
module ClockBox {
  import opened Basics

  const END_OF_DAY := 1440
  const SLOT_MIN := 15

  // ----- Reading a written time -----

  /** An hour, minutes if they were written, and the half of the day if one was. */
  datatype Written = Written(hour: nat, minute: Option<nat>, half: Option<char>)

  predicate IsDigit(c: char) {
    '0' <= c <= '9'
  }

  function Value(c: char): (v: nat)
    requires IsDigit(c)
    ensures v <= 9
  {
    c as int - '0' as int
  }

  predicate IsBlank(c: char) {
    c == ' ' || '\t' <= c <= '\r'
  }

  function AfterBlanks(text: string): (rest: string)
    ensures |rest| <= |text| && (rest == [] || !IsBlank(rest[0]))
  {
    if text != [] && IsBlank(text[0]) then AfterBlanks(text[1..]) else text
  }

  /** What may follow the half of the day's first letter. */
  predicate HalfEnd(rest: string) {
    rest in {"", ".", "m", "m.", ".m", ".m."}
  }

  function Perhaps(yes: bool, text: string): string {
    if yes then text else ""
  }

  /** That is, a full stop or none, and then "m" with a full stop or none, or nothing. */
  lemma HalfEndIs(rest: string)
    ensures HalfEnd(rest) <==> exists dot: bool, m: bool, stop: bool ::
                                 rest == Perhaps(dot, ".") + Perhaps(m, "m" + Perhaps(stop, "."))
  {
    assert "" == Perhaps(false, ".") + Perhaps(false, "m" + Perhaps(false, "."));
    assert "." == Perhaps(true, ".") + Perhaps(false, "m" + Perhaps(false, "."));
    assert "m" == Perhaps(false, ".") + Perhaps(true, "m" + Perhaps(false, "."));
    assert "m." == Perhaps(false, ".") + Perhaps(true, "m" + Perhaps(true, "."));
    assert ".m" == Perhaps(true, ".") + Perhaps(true, "m" + Perhaps(false, "."));
    assert ".m." == Perhaps(true, ".") + Perhaps(true, "m" + Perhaps(true, "."));
  }

  /** The end of a written time: nothing, or "a" or "p" with what goes with it. None when it is neither. */
  function ReadHalf(text: string): Option<Option<char>> {
    var rest := AfterBlanks(text);
    if rest == [] then Some(None)
    else if rest[0] in {'a', 'p'} && HalfEnd(rest[1..]) then Some(Some(rest[0]))
    else None
  }

  predicate TwoDigits(text: string) {
    |text| >= 2 && IsDigit(text[0]) && IsDigit(text[1])
  }

  function TwoValue(text: string): (v: nat)
    requires TwoDigits(text)
    ensures v <= 99
  {
    10 * Value(text[0]) + Value(text[1])
  }

  /** After an hour: minutes with or without a colon, then the half; or the half alone. */
  function ReadRest(hour: nat, text: string): Option<Written> {
    var minutes := if text != [] && text[0] == ':' then text[1..] else text;
    if TwoDigits(minutes) && ReadHalf(minutes[2..]).Some? then
      Some(Written(hour, Some(TwoValue(minutes)), ReadHalf(minutes[2..]).value))
    else if ReadHalf(text).Some? then Some(Written(hour, None, ReadHalf(text).value))
    else None
  }

  /** The whole text as a written time: two digits of hour if that leads anywhere, else one. */
  function ReadWritten(text: string): Option<Written> {
    if TwoDigits(text) && ReadRest(TwoValue(text), text[2..]).Some? then ReadRest(TwoValue(text), text[2..])
    else if text != [] && IsDigit(text[0]) then ReadRest(Value(text[0]), text[1..])
    else None
  }

  function Lower(text: string): (lower: string)
    ensures |lower| == |text|
  {
    seq(|text|, i requires 0 <= i < |text| =>
      if 'A' <= text[i] <= 'Z' then (text[i] as int + 32) as char else text[i])
  }

  function Stripped(text: string): string {
    var front := AfterBlanks(text);
    BeforeBlanks(front)
  }

  function BeforeBlanks(text: string): string {
    if text != [] && IsBlank(text[|text| - 1]) then BeforeBlanks(text[..|text| - 1]) else text
  }

  function Found(text: string): Option<Written> {
    ReadWritten(Lower(Stripped(text)))
  }

  predicate Blank(text: string) {
    forall i :: 0 <= i < |text| ==> IsBlank(text[i])
  }

  lemma {:induction false} BlanksGoInFront(before: string, text: string)
    requires Blank(before)
    ensures AfterBlanks(before + text) == AfterBlanks(text)
  {
    if before == [] {
      assert before + text == text;
    } else {
      assert (before + text)[1..] == before[1..] + text;
      BlanksGoInFront(before[1..], text);
    }
  }

  lemma {:induction false} BlanksGoBehind(text: string, after: string)
    requires Blank(after)
    ensures BeforeBlanks(text + after) == BeforeBlanks(text)
  {
    if after == [] {
      assert text + after == text;
    } else {
      assert (text + after)[..|text + after| - 1] == text + after[..|after| - 1];
      BlanksGoBehind(text, after[..|after| - 1]);
    }
  }

  lemma {:induction false} FrontThenBehind(text: string, after: string)
    requires Blank(after)
    ensures BeforeBlanks(AfterBlanks(text + after)) == BeforeBlanks(AfterBlanks(text))
  {
    if text != [] && IsBlank(text[0]) {
      assert (text + after)[1..] == text[1..] + after;
      FrontThenBehind(text[1..], after);
    } else if text != [] {
      assert AfterBlanks(text + after) == text + after;
      BlanksGoBehind(text, after);
    } else {
      assert text + after == after + [];
      BlanksGoInFront(after, []);
    }
  }

  lemma {:induction false} LowerThenBlanks(text: string)
    ensures AfterBlanks(Lower(text)) == Lower(AfterBlanks(text))
  {
    if text != [] && IsBlank(text[0]) {
      assert Lower(text)[1..] == Lower(text[1..]);
      LowerThenBlanks(text[1..]);
    }
  }

  lemma {:induction false} LowerThenBlanksBehind(text: string)
    ensures BeforeBlanks(Lower(text)) == Lower(BeforeBlanks(text))
  {
    if text != [] && IsBlank(text[|text| - 1]) {
      assert Lower(text)[..|text| - 1] == Lower(text[..|text| - 1]);
      LowerThenBlanksBehind(text[..|text| - 1]);
    }
  }

  /** Neither blanks around a time nor capital letters in it change what it says. */
  lemma BlanksAndCaseDoNotMatter(before: string, text: string, after: string)
    requires Blank(before) && Blank(after)
    ensures Found(before + text + after) == Found(text) == Found(Lower(text))
  {
    assert before + text + after == before + (text + after);
    BlanksGoInFront(before, text + after);
    FrontThenBehind(text, after);
    LowerThenBlanks(text);
    LowerThenBlanksBehind(AfterBlanks(text));
    assert Lower(Lower(Stripped(text))) == Lower(Stripped(text));
  }

  /** The minute of the day a written time says, or none. */
  function MinuteOf(written: Written, end: bool): Option<nat> {
    var minute := if written.minute.Some? then written.minute.value else 0;
    if minute > 59 then None
    else if written.half.Some? && !(1 <= written.hour <= 12) then None
    else
      var hour := if written.half.None? then written.hour
                  else written.hour % 12 + (if written.half.value == 'p' then 12 else 0);
      var minutes := hour * 60 + minute;
      if minutes == END_OF_DAY then (if end then Some(END_OF_DAY) else None)
      else if hour > 23 then None
      else Some(if end && minutes == 0 then END_OF_DAY else minutes)
  }

  function ReadClock(text: string, end: bool, whole: bool): Option<nat> {
    match Found(text)
    case None => None
    case Some(written) => if whole && written.minute.None? then None else MinuteOf(written, end)
  }

  // ----- Writing a time -----

  function Digit(d: nat): (c: char)
    requires d <= 9
    ensures IsDigit(c) && Value(c) == d
  {
    ('0' as int + d) as char
  }

  function Two(n: nat): (text: string)
    requires n <= 99
    ensures |text| == 2 && TwoDigits(text) && TwoValue(text) == n
  {
    [Digit(n / 10), Digit(n % 10)]
  }

  function OnTwelve(hours: nat): (h: nat)
    ensures 1 <= h <= 12
  {
    if hours % 12 == 0 then 12 else hours % 12
  }

  /** A minute of the day as the 24-hour or the 12-hour clock writes it; the end of the day is 24:00 on the
      one and 12:00 AM on the other. */
  function ClockText(minutes: nat, clock24: bool): string
    requires minutes <= END_OF_DAY
  {
    var hours, minute := minutes / 60, minutes % 60;
    if clock24 then Two(hours) + ":" + Two(minute)
    else
      var h := OnTwelve(hours);
      (if h < 10 then [Digit(h)] else Two(h)) + ":" + Two(minute) + (if hours % 24 < 12 then " AM" else " PM")
  }

  // ----- The reader is the pattern -----

  /** The text is `blanks` blanks and then a half of the day, or nothing. */
  predicate HalfAt(text: string, half: Option<char>, blanks: nat) {
    && blanks <= |text| && (forall i :: 0 <= i < blanks ==> IsBlank(text[i]))
    && (half.None? ==> blanks == |text|)
    && (half.Some? ==> blanks < |text| && text[blanks] == half.value && half.value in {'a', 'p'}
                       && HalfEnd(text[blanks + 1..]))
  }

  ghost predicate HalfText(text: string, half: Option<char>) {
    exists blanks: nat :: blanks <= |text| && HalfAt(text, half, blanks)
  }

  predicate HourText(text: string, digits: nat, hour: nat) {
    || (digits == 1 && text != [] && IsDigit(text[0]) && hour == Value(text[0]))
    || (digits == 2 && TwoDigits(text) && hour == TwoValue(text))
  }

  predicate MinuteText(text: string, minute: nat) {
    TwoDigits(text) && minute == TwoValue(text)
  }

  /** One or two digits of hour; then minutes or not, with a colon or not; then blanks and a half or not. */
  ghost predicate IsWritten(text: string, written: Written) {
    exists digits: nat, colon: bool :: Parts(text, written, digits, colon)
  }

  ghost predicate Parts(text: string, written: Written, digits: nat, colon: bool) {
    && HourText(text, digits, written.hour)
    && var rest := text[digits..];
       match written.minute
       case None => !colon && HalfText(rest, written.half)
       case Some(minute) =>
         && (colon ==> rest != [] && rest[0] == ':')
         && var tail := if colon then rest[1..] else rest;
            MinuteText(tail, minute) && HalfText(tail[2..], written.half)
  }

  lemma {:induction false} BlanksThenHalf(text: string, blanks: nat)
    requires blanks <= |text| && forall i :: 0 <= i < blanks ==> IsBlank(text[i])
    requires blanks == |text| || !IsBlank(text[blanks])
    ensures AfterBlanks(text) == text[blanks..]
  {
    if blanks > 0 {
      BlanksThenHalf(text[1..], blanks - 1);
      assert text[1..][blanks - 1..] == text[blanks..];
    }
  }

  lemma {:induction false} BlanksCounted(text: string) returns (blanks: nat)
    ensures blanks <= |text| && (forall i :: 0 <= i < blanks ==> IsBlank(text[i]))
    ensures AfterBlanks(text) == text[blanks..]
  {
    if text != [] && IsBlank(text[0]) {
      var rest := BlanksCounted(text[1..]);
      blanks := rest + 1;
      assert text[1..][rest..] == text[blanks..];
    } else {
      blanks := 0;
    }
  }

  lemma HalfIsRead(text: string, half: Option<char>)
    ensures ReadHalf(text) == Some(half) <==> HalfText(text, half)
  {
    if ReadHalf(text) == Some(half) {
      var blanks := BlanksCounted(text);
      assert half.Some? ==> text[blanks..][1..] == text[blanks + 1..];
      assert HalfAt(text, half, blanks);
    }
    if HalfText(text, half) {
      var blanks: nat :| blanks <= |text| && HalfAt(text, half, blanks);
      BlanksThenHalf(text, blanks);
      assert half.Some? ==> text[blanks..][1..] == text[blanks + 1..];
    }
  }

  /** What follows minutes or an hour never starts with a digit or a colon. */
  lemma HalfStarts(text: string, half: Option<char>)
    requires HalfText(text, half)
    ensures text != [] ==> !IsDigit(text[0]) && text[0] != ':'
  {
    var blanks: nat :| blanks <= |text| && HalfAt(text, half, blanks);
  }

  lemma RestIsRead(text: string, hour: nat, written: Written, colon: bool)
    requires written.hour == hour
    requires match written.minute
             case None => !colon && HalfText(text, written.half)
             case Some(minute) =>
               (colon ==> text != [] && text[0] == ':')
               && MinuteText(if colon then text[1..] else text, minute)
               && HalfText((if colon then text[1..] else text)[2..], written.half)
    ensures ReadRest(hour, text) == Some(written)
  {
    match written.minute
    case None => {
      HalfIsRead(text, written.half);
      HalfStarts(text, written.half);
    }
    case Some(minute) => HalfIsRead((if colon then text[1..] else text)[2..], written.half);
  }

  /** The reader finds exactly the texts of that form, and there is one way to read each. */
  lemma ReaderIsThePattern(text: string, written: Written)
    ensures ReadWritten(text) == Some(written) <==> IsWritten(text, written)
  {
    if ReadWritten(text) == Some(written) {
      WrittenHasParts(text, written);
    }
    if IsWritten(text, written) {
      var digits: nat, colon: bool :| Parts(text, written, digits, colon);
      PartsAreRead(text, written, digits, colon);
    }
  }

  lemma RestHasParts(text: string, hour: nat, written: Written)
    requires ReadRest(hour, text) == Some(written)
    ensures written.hour == hour
    ensures match written.minute
            case None => HalfText(text, written.half)
            case Some(minute) =>
              var colon := text != [] && text[0] == ':';
              var tail := if colon then text[1..] else text;
              MinuteText(tail, minute) && HalfText(tail[2..], written.half)
  {
    var minutes := if text != [] && text[0] == ':' then text[1..] else text;
    if written.minute.Some? {
      HalfIsRead(minutes[2..], written.half);
    } else {
      HalfIsRead(text, written.half);
    }
  }

  lemma WrittenHasParts(text: string, written: Written)
    requires ReadWritten(text) == Some(written)
    ensures IsWritten(text, written)
  {
    hide ReadRest;
    var digits := if TwoDigits(text) && ReadRest(TwoValue(text), text[2..]).Some? then 2 else 1;
    var rest := text[digits..];
    RestHasParts(rest, if digits == 2 then TwoValue(text) else Value(text[0]), written);
    assert Parts(text, written, digits, written.minute.Some? && rest != [] && rest[0] == ':');
  }

  lemma PartsAreRead(text: string, written: Written, digits: nat, colon: bool)
    requires Parts(text, written, digits, colon)
    ensures ReadWritten(text) == Some(written)
  {
    RestIsRead(text[digits..], written.hour, written, colon);
    if digits == 1 && TwoDigits(text) {
      OneDigitThenMinutes(text, written, colon);
    }
  }

  /** Three digits in a row are one of hour and two of minutes: two of hour lead nowhere. */
  lemma OneDigitThenMinutes(text: string, written: Written, colon: bool)
    requires Parts(text, written, 1, colon) && TwoDigits(text)
    ensures ReadRest(TwoValue(text), text[2..]).None?
  {
    var rest := text[1..];
    if written.minute.None? {
      HalfStarts(rest, written.half);
      assert false;
    }
    assert !colon;
    var two := text[2..];
    assert rest[2..] == two[1..];
    HalfStarts(two[1..], written.half);
    assert IsDigit(two[0]) && !TwoDigits(two);
    assert AfterBlanks(two) == two;
  }

  /** What the clock writes, in small letters and in parts. */
  function Shown(minutes: nat, clock24: bool): (string, string, string)
    requires minutes <= END_OF_DAY
  {
    var hours := minutes / 60;
    var h := if clock24 then hours else OnTwelve(hours);
    (if clock24 || h >= 10 then Two(h) else [Digit(h)], Two(minutes % 60),
     if clock24 then "" else if hours % 24 < 12 then " am" else " pm")
  }

  lemma ShownParts(minutes: nat, clock24: bool)
    requires minutes <= END_OF_DAY
    ensures var (hour, minute, tail) := Shown(minutes, clock24);
            var text := ClockText(minutes, clock24);
            Stripped(text) == text && Lower(text) == hour + ":" + minute + tail
  {
    hide Two, Digit;
  }

  lemma PartsTogether(hour: string, minute: string, tail: string, written: Written, m: nat)
    requires 1 <= |hour| <= 2 && HourText(hour, |hour|, written.hour)
    requires |minute| == 2 && MinuteText(minute, m) && written.minute == Some(m)
    requires HalfText(tail, written.half)
    ensures ReadWritten(hour + ":" + minute + tail) == Some(written)
  {
    var text := hour + ":" + minute + tail;
    var rest := text[|hour|..];
    assert rest == ":" + minute + tail && rest[1..] == minute + tail && rest[1..][2..] == tail;
    assert Parts(text, written, |hour|, true);
    ReaderIsThePattern(text, written);
  }

  lemma ShownIsWritten(minutes: nat, clock24: bool)
    requires minutes <= END_OF_DAY
    ensures var hours := minutes / 60;
            Found(ClockText(minutes, clock24))
              == Some(Written(if clock24 then hours else OnTwelve(hours), Some(minutes % 60),
                              if clock24 then None else if hours % 24 < 12 then Some('a') else Some('p')))
  {
    hide ReadWritten, Stripped, Lower, ClockText, Two, Digit;
    ShownParts(minutes, clock24);
    var (hour, minute, tail) := Shown(minutes, clock24);
    var hours := minutes / 60;
    var half: Option<char> := if clock24 then None else if hours % 24 < 12 then Some('a') else Some('p');
    var written := Written(if clock24 then hours else OnTwelve(hours), Some(minutes % 60), half);
    assert HalfText(tail, half) by {
      assert half.Some? ==> tail[2..] == "m";
      assert HalfAt(tail, half, if clock24 then 0 else 1);
    }
    PartsTogether(hour, minute, tail, written, minutes % 60);
  }

  /** Hours counted twice twelve and minutes make up the minute of the day again. */
  lemma TwelveAgain(minutes: nat)
    requires minutes <= END_OF_DAY
    ensures var hours := minutes / 60;
            (OnTwelve(hours) % 12 + (if hours % 24 < 12 then 0 else 12)) * 60 + minutes % 60
              == if minutes == END_OF_DAY then 0 else minutes
  {
    var hours := minutes / 60;
    assert hours == 24 <==> minutes == END_OF_DAY;
    assert OnTwelve(hours) % 12 == hours % 12;
    assert minutes == hours * 60 + minutes % 60;
  }

  /** The minute's own hour on the clock the time is written for, and its own half if one is written; an end
      box also takes hour 0 for the end of the day. */
  predicate HourOf(written: Written, end: bool, minutes: nat) {
    match written.half
    case None => written.hour == minutes / 60 || (end && written.hour == 0 && minutes == END_OF_DAY)
    case Some(half) => written.hour == OnTwelve(minutes / 60) && (half == 'a' <==> minutes / 60 % 24 < 12)
  }

  /** A written time says a minute of the day exactly when it names that minute's hour and the minutes past it,
      an hour alone meaning none. The end of the day belongs to end boxes, midnight to the others. */
  lemma SaysItsMinute(written: Written, end: bool, minutes: nat)
    requires written.half.Some? ==> written.half.value in {'a', 'p'}
    ensures MinuteOf(written, end) == Some(minutes)
       <==> && (if end then 0 < minutes <= END_OF_DAY else minutes < END_OF_DAY)
            && minutes % 60 == (if written.minute.Some? then written.minute.value else 0)
            && HourOf(written, end, minutes)
  {
    var minute := if written.minute.Some? then written.minute.value else 0;
    if minutes <= END_OF_DAY {
      assert minutes == minutes / 60 * 60 + minutes % 60;
      TwelveAgain(minutes);
    }
  }

  /** What the box writes it reads back as the same minute, on either clock. */
  lemma WrittenIsReadBack(minutes: nat, clock24: bool, end: bool, whole: bool)
    requires if end then 0 < minutes <= END_OF_DAY else minutes < END_OF_DAY
    ensures ReadClock(ClockText(minutes, clock24), end, whole) == Some(minutes)
  {
    hide ClockText, Found;
    ShownIsWritten(minutes, clock24);
    TwelveAgain(minutes);
    assert minutes == minutes / 60 * 60 + minutes % 60;
  }

  // ----- The box -----

  datatype Problem = NoProblem | NoTime | OutsideLimits | NotAfterStart

  /** `start` is the minute of the box this one ends, if it is paired; `before` the minutes from before the
      student began to type. */
  datatype Box = Box(
    end: bool,
    clock24: bool,
    minTime: nat,
    maxTime: nat,
    start: Option<nat>,
    time: nat,
    text: string,
    before: Option<nat>,
    problem: Problem)

  function MinutesOf(end: bool, time: nat): nat {
    if end && time == 0 then END_OF_DAY else time
  }

  function Minutes(b: Box): nat {
    MinutesOf(b.end, b.time)
  }

  function Low(b: Box): nat {
    var low := MinutesOf(b.end, b.minTime);
    if low != END_OF_DAY then low else 0
  }

  function High(b: Box): nat {
    if b.end && b.maxTime >= 1439 then END_OF_DAY else MinutesOf(b.end, b.maxTime)
  }

  /** The two minutes a bare hour can mean on the 12-hour clock, the first in the morning. */
  function Readings(written: Written): (nat, nat) {
    var morning := written.hour % 12 * 60 + (if written.minute.Some? then written.minute.value else 0);
    (if morning == 0 then END_OF_DAY else morning, morning + 720)
  }

  /** The text as this box reads it: an end box's bare hour takes the half of the day by its start. */
  function Read(b: Box, text: string, whole: bool): Option<nat> {
    var minutes := ReadClock(text, b.end, whole);
    var found := Found(text);
    if minutes.None? || b.start.None? || found.None? || found.value.half.Some? || b.clock24 then minutes
    else if !(1 <= found.value.hour <= 12) then minutes
    else
      var (first, second) := Readings(found.value);
      var start := b.start.value;
      if first > start && (second <= start || first <= second) then Some(first)
      else if second > start then Some(second)
      else minutes
  }

  /** A time typed without its half is read as the earliest after the start, of the morning's and the
      afternoon's; only when neither is later is it read as it would be unpaired. */
  lemma BareTimeIsTheEarliestAfterTheStart(b: Box, text: string, whole: bool)
    requires b.end && b.start.Some? && !b.clock24
    requires Found(text).Some? && Found(text).value.half.None? && 1 <= Found(text).value.hour <= 12
    requires ReadClock(text, true, whole).Some?
    ensures var written, start := Found(text).value, b.start.value;
            var am, pm := MinuteOf(written.(half := Some('a')), true), MinuteOf(written.(half := Some('p')), true);
            var read := Read(b, text, whole);
            && am.Some? && pm.Some? && read.Some?
            && (am.value > start || pm.value > start ==>
                  && read in {am, pm} && read.value > start
                  && (am.value > start ==> read.value <= am.value)
                  && (pm.value > start ==> read.value <= pm.value))
            && (am.value <= start && pm.value <= start ==> read == ReadClock(text, true, whole))
  {
    hide Found;
  }

  /** Only the end box of a start, on the 12-hour clock, reads its text so, and only an hour that names no half
      of the day; to any other box the text says what it says. */
  lemma OthersReadPlainly(b: Box, text: string, whole: bool)
    requires b.start.None? || b.clock24 || Found(text).None? || Found(text).value.half.Some?
             || !(1 <= Found(text).value.hour <= 12)
    ensures Read(b, text, whole) == ReadClock(text, b.end, whole)
  {
    hide Found;
  }

  /** Asked for the whole time, an hour alone says none; otherwise nothing is read differently. */
  lemma WholeTimesOnly(b: Box, text: string)
    ensures Read(b, text, true)
         == if Found(text).Some? && Found(text).value.minute.Some? then Read(b, text, false) else None
  {
    hide Found;
  }

  predicate Allowed(b: Box, minutes: nat) {
    Low(b) <= minutes <= High(b)
  }

  /** The box takes a minute its limits allow, and a line under it goes. */
  function Taken(b: Box, minutes: nat, asTyped: bool): Box
    requires minutes <= END_OF_DAY
  {
    if !Allowed(b, minutes) then b
    else
      var t := b.(time := minutes % END_OF_DAY, problem := NoProblem);
      if asTyped then t else t.(text := ShownText(t))
  }

  function ShownText(b: Box): string {
    if Minutes(b) <= END_OF_DAY then ClockText(Minutes(b), b.clock24) else ""
  }

  function AfterEdited(b: Box, text: string): Box {
    var typed := b.(text := text, before := if b.before.None? then Some(Minutes(b)) else b.before);
    match Read(typed, text, true)
    case Some(minutes) => if minutes <= END_OF_DAY then Taken(typed, minutes, true) else typed
    case None => typed
  }

  /** The student is done typing. */
  function AfterSettle(b: Box): Box {
    var minutes := Read(b, b.text, false);
    var settled := b.(before := None);
    if minutes.None? || !Allowed(b, minutes.value) || minutes.value > END_OF_DAY then
      var back := if b.before.Some? && b.before.value != Minutes(b) && b.before.value <= END_OF_DAY
                  then Taken(settled, b.before.value, true) else settled;
      back.(problem := if minutes.None? then NoTime else OutsideLimits)
    else
      var taken := Taken(settled, minutes.value, false);
      if taken.start.Some? && Minutes(taken) <= taken.start.value then taken.(problem := NotAfterStart) else taken
  }

  function Clamp(low: int, high: int, x: int): int {
    var capped := if x < high then x else high;
    if capped < low then low else capped
  }

  /** Where `steps` quarter hours take a minute: from between two quarters, the first step goes to the one on
      that side. */
  function Goal(low: int, high: int, now: int, steps: int): int {
    var count := if steps < 0 && now % SLOT_MIN != 0 then steps + 1 else steps;
    Clamp(low, high, now - now % SLOT_MIN + count * SLOT_MIN)
  }

  function AfterStep(b: Box, steps: int): Box {
    var settled := AfterSettle(b);
    if settled.problem != NoProblem then settled
    else
      var goal := Goal(Low(settled), High(settled), Minutes(settled), steps);
      if 0 <= goal <= END_OF_DAY then Taken(settled, goal, false) else settled
  }

  // ----- What typing and settling keep -----

  /** Times of day, and minutes within the limits, now and before typing began. */
  predicate Sound(b: Box) {
    && b.minTime < END_OF_DAY && b.maxTime < END_OF_DAY && b.time < END_OF_DAY
    && Allowed(b, Minutes(b))
    && (b.before.Some? ==> Allowed(b, b.before.value) && b.before.value <= END_OF_DAY && (b.end ==> b.before.value > 0))
  }

  lemma ReadIsAMinute(b: Box, text: string, whole: bool)
    ensures var read := Read(b, text, whole);
            read.Some? ==> read.value <= END_OF_DAY && (b.end ==> read.value > 0)
  {
    hide Found;
  }

  lemma TakenIsIt(b: Box, minutes: nat, asTyped: bool)
    requires Sound(b) && Allowed(b, minutes) && minutes <= END_OF_DAY && (b.end ==> minutes > 0)
    ensures var t := Taken(b, minutes, asTyped);
            && Minutes(t) == minutes && Sound(t)
            && t == b.(time := t.time, problem := NoProblem,
                       text := if asTyped then b.text else ClockText(minutes, b.clock24))
  {
    hide ClockText;
  }

  lemma EditKeepsSound(b: Box, text: string)
    requires Sound(b)
    ensures Sound(AfterEdited(b, text))
    ensures AfterEdited(b, text).before == if b.before.Some? then b.before else Some(Minutes(b))
  {
    hide Read;
    var typed := b.(text := text, before := if b.before.None? then Some(Minutes(b)) else b.before);
    ReadIsAMinute(typed, text, true);
    var read := Read(typed, text, true);
    if read.Some? && Allowed(typed, read.value) {
      TakenIsIt(typed, read.value, true);
    }
  }

  /** Settling on text that says no time, or none the limits allow, puts back the minutes from before typing
      and leaves the text with a line under it; any other text becomes its minutes. */
  lemma SettleTakesOrPutsBack(b: Box)
    requires Sound(b)
    ensures var after, read := AfterSettle(b), Read(b, b.text, false);
            && Sound(after) && after.before == None
            && (read.Some? && Allowed(b, read.value) ==>
                  && Minutes(after) == read.value && after.text == ClockText(Minutes(after), b.clock24)
                  && after.problem
                     == (if b.start.Some? && read.value <= b.start.value then NotAfterStart else NoProblem))
            && (read.None? || !Allowed(b, read.value) ==>
                  && Minutes(after) == (if b.before.Some? then b.before.value else Minutes(b))
                  && after.text == b.text && after.problem == (if read.None? then NoTime else OutsideLimits))
  {
    hide Read, ClockText, Taken, Sound;
    var read := Read(b, b.text, false);
    if read.Some? && Allowed(b, read.value) {
      SettleTakes(b, read.value);
    } else {
      SettlePutsBack(b);
    }
  }

  lemma SettleTakes(b: Box, minutes: nat)
    requires Sound(b) && Read(b, b.text, false) == Some(minutes) && Allowed(b, minutes)
    ensures var after := AfterSettle(b);
            && Sound(after) && after.before == None && Minutes(after) == minutes
            && after.text == ClockText(Minutes(after), b.clock24)
            && after.problem == (if b.start.Some? && minutes <= b.start.value then NotAfterStart else NoProblem)
  {
    hide Read, ClockText, Taken;
    ReadIsAMinute(b, b.text, false);
    TakenIsIt(b.(before := None), minutes, false);
  }

  lemma SettlePutsBack(b: Box)
    requires Sound(b)
    requires var read := Read(b, b.text, false); read.None? || !Allowed(b, read.value)
    ensures var after, read := AfterSettle(b), Read(b, b.text, false);
            && Sound(after) && after.before == None
            && Minutes(after) == (if b.before.Some? then b.before.value else Minutes(b))
            && after.text == b.text && after.problem == (if read.None? then NoTime else OutsideLimits)
  {
    hide Read, ClockText, Taken;
    if b.before.Some? {
      TakenIsIt(b.(before := None), b.before.value, true);
    }
  }

  /** While the student types, a whole time the limits allow is taken at once and the text stays as typed; any
      other text leaves the minutes alone. */
  lemma TypingTakesWholeTimes(b: Box, text: string)
    requires Sound(b)
    ensures var after, read := AfterEdited(b, text), Read(b, text, true);
            && after.text == text
            && Minutes(after) == (if read.Some? && Allowed(b, read.value) then read.value else Minutes(b))
            && after.problem == (if read.Some? && Allowed(b, read.value) then NoProblem else b.problem)
  {
    var typed := b.(text := text, before := if b.before.None? then Some(Minutes(b)) else b.before);
    assert Read(typed, text, true) == Read(b, text, true);
    hide Read;
    ReadIsAMinute(typed, text, true);
    var read := Read(typed, text, true);
    if read.Some? && Allowed(typed, read.value) {
      TakenIsIt(typed, read.value, true);
    }
  }

  function EditAll(b: Box, texts: seq<string>): Box {
    if texts == [] then b else AfterEdited(EditAll(b, texts[..|texts| - 1]), texts[|texts| - 1])
  }

  lemma {:induction false} TypingRemembers(b: Box, texts: seq<string>)
    requires Sound(b) && b.before.None? && texts != []
    ensures var typed := EditAll(b, texts);
            && Sound(typed) && typed.before == Some(Minutes(b)) && typed.text == texts[|texts| - 1]
            && typed == typed.(end := b.end, minTime := b.minTime, maxTime := b.maxTime, start := b.start,
                               clock24 := b.clock24)
  {
    hide Read;
    if |texts| > 1 {
      TypingRemembers(b, texts[..|texts| - 1]);
      EditKeepsSound(EditAll(b, texts[..|texts| - 1]), texts[|texts| - 1]);
    } else {
      EditKeepsSound(b, texts[0]);
      assert EditAll(b, []) == b;
      assert texts[..0] == [];
    }
  }

  /** However the student types, half-written times taken on the way included: if what is left says no time,
      the box has the minutes from before they began. */
  lemma NonsenseLeavesTheMinutes(b: Box, texts: seq<string>)
    requires Sound(b) && b.before.None? && texts != []
    requires Read(b, texts[|texts| - 1], false).None?
    ensures Minutes(AfterSettle(EditAll(b, texts))) == Minutes(b)
    ensures AfterSettle(EditAll(b, texts)).problem == NoTime
  {
    TypingRemembers(b, texts);
    SettleTakesOrPutsBack(EditAll(b, texts));
  }

  /** Stepping keeps the minutes within the limits but for one case: an end box that can go down to midnight
      and not up to the end of the day, stepped down to it. The program gives no end box a latest time, so the
      case is one of the class alone. */
  lemma StepKeepsLimitsUnless(b: Box, steps: int)
    requires Sound(b) && Low(b) <= High(b)
    ensures var settled, after := AfterSettle(b), AfterStep(b, steps);
            var goal := Goal(Low(b), High(b), Minutes(settled), steps);
            (Allowed(after, Minutes(after)) <==>
               !(settled.problem == NoProblem && b.end && goal == 0 && High(b) < END_OF_DAY))
  {
    hide Read, ClockText, AfterSettle, Goal;
    SettleTakesOrPutsBack(b);
    SettleKeepsLimits(b);
    var settled := AfterSettle(b);
    GoalLands(Low(b), High(b), Minutes(settled), steps);
    var goal := Goal(Low(b), High(b), Minutes(settled), steps);
    if settled.problem == NoProblem {
      StepTakesGoal(settled, goal);
    }
  }

  /** The minutes a box within its limits has once it took a minute of them. */
  lemma StepTakesGoal(b: Box, goal: int)
    requires Sound(b) && 0 <= Low(b) <= goal <= High(b)
    ensures goal <= END_OF_DAY
    ensures var t := Taken(b, goal, false);
            && Low(t) == Low(b) && High(t) == High(b)
            && Minutes(t) == (if b.end && goal == 0 then END_OF_DAY
                              else if goal == END_OF_DAY && !b.end then 0 else goal)
  {
    hide ClockText;
  }

  /** An end box at rest that goes up to `maxTime`. */
  function EndBox(minutes: nat, maxTime: nat): Box
    requires minutes <= END_OF_DAY
  {
    Box(true, true, 0, maxTime, None, minutes, ClockText(minutes, true), None, NoProblem)
  }

  /** Such a box: an end box up to eight in the evening, stepped down from a quarter past midnight. */
  lemma AnEndBoxLeavesItsLimits()
    ensures var after := AfterStep(EndBox(15, 1200), -1);
            Minutes(after) == END_OF_DAY && !Allowed(after, Minutes(after))
  {
    hide ClockText, Found;
    var b := EndBox(15, 1200);
    RestReadsItself(b);
    StepKeepsLimitsUnless(b, -1);
  }

  lemma SettleKeepsLimits(b: Box)
    ensures var after := AfterSettle(b);
            && after.end == b.end && after.minTime == b.minTime && after.maxTime == b.maxTime
            && after.clock24 == b.clock24 && after.start == b.start
  {
    hide Read, ClockText;
  }

  // ----- Stepping -----

  /** The unpaired box at rest: its text is its time, and no line under it. */
  predicate AtRest(b: Box) {
    && Sound(b) && Low(b) <= High(b)
    && b.start.None? && b.before.None? && b.problem == NoProblem
    && b.text == ClockText(Minutes(b), b.clock24)
  }

  lemma RestReadsItself(b: Box)
    requires AtRest(b)
    ensures AfterSettle(b).problem == NoProblem && Minutes(AfterSettle(b)) == Minutes(b)
    ensures AfterSettle(b) == b
  {
    hide ClockText, Found;
    assert b.end ==> Minutes(b) > 0;
    WrittenIsReadBack(Minutes(b), b.clock24, b.end, false);
  }

  lemma GoalLands(low: int, high: int, now: int, steps: int)
    requires 0 <= low <= now <= high
    ensures var goal := Goal(low, high, now, steps);
            low <= goal <= high && (goal % SLOT_MIN == 0 || goal == low || goal == high)
  {
  }

  /** Midnight taken by an end box is the end of the day. */
  lemma TakenMidnight(b: Box)
    requires Sound(b) && b.end && High(b) == END_OF_DAY && Low(b) == 0
    ensures var t := Taken(b, 0, false);
            && Minutes(t) == END_OF_DAY && Sound(t)
            && t == b.(time := 0, problem := NoProblem, text := ClockText(END_OF_DAY, b.clock24))
  {
    hide ClockText;
  }

  /** A step that does not go down to midnight in an end box leaves it at rest on the goal. */
  lemma StepLands(b: Box, steps: int)
    requires AtRest(b)
    ensures var goal := Goal(Low(b), High(b), Minutes(b), steps);
            var after := AfterStep(b, steps);
            && Low(b) <= goal <= High(b) && 0 <= goal <= END_OF_DAY
            && (!(b.end && goal == 0) ==> AtRest(after) && Minutes(after) == goal)
            && (b.end && goal == 0 && High(b) == END_OF_DAY ==> AtRest(after) && Minutes(after) == END_OF_DAY)
            && after == b.(time := after.time, text := after.text)
  {
    hide ClockText, AfterSettle, Taken, Goal;
    RestReadsItself(b);
    GoalLands(Low(b), High(b), Minutes(b), steps);
    var goal := Goal(Low(b), High(b), Minutes(b), steps);
    if !(b.end && goal == 0) {
      TakenIsIt(b, goal, false);
    } else if High(b) == END_OF_DAY {
      TakenMidnight(b);
    } else {
      TakenChangesOnlyTheTime(b);
    }
  }

  lemma TakenChangesOnlyTheTime(b: Box)
    requires b.problem == NoProblem
    ensures var t := Taken(b, 0, false); t == b.(time := t.time, text := t.text)
  {
    hide ClockText;
  }

  function Down(steps: int): int {
    if steps < 0 then -1 else 1
  }

  /** `steps` single steps, one after another. */
  function Singles(b: Box, steps: int): Box
    decreases if steps < 0 then -steps else steps
  {
    if steps == 0 then b else Singles(AfterStep(b, Down(steps)), steps - Down(steps))
  }

  lemma GoalThenGoal(low: int, high: int, now: int, steps: int)
    requires 0 <= low <= now <= high && steps != 0 && steps != Down(steps)
    ensures Goal(low, high, Goal(low, high, now, Down(steps)), steps - Down(steps)) == Goal(low, high, now, steps)
  {
  }

  /** Down to midnight from `now` it is this many steps. */
  function StepsToMidnight(now: nat): nat {
    (now + SLOT_MIN - 1) / SLOT_MIN
  }

  /** In an unpaired box `steps` single steps are one step of `steps`, and end on a quarter hour or a limit.
      This holds for every box that does not end something, for every end box with a later start of day, and
      in any end box as long as the steps do not pass midnight. */
  lemma {:induction false} SinglesAreOneStep(b: Box, steps: int)
    requires AtRest(b) && steps != 0
    requires b.end ==> Low(b) > 0 || steps > 0 || -steps < StepsToMidnight(Minutes(b))
    ensures var once, one := Singles(b, steps), AfterStep(b, steps);
            && AtRest(once) && Minutes(once) == Minutes(one) == Goal(Low(b), High(b), Minutes(b), steps)
            && (Minutes(one) % SLOT_MIN == 0 || Minutes(one) == Low(b) || Minutes(one) == High(b))
    decreases if steps < 0 then -steps else steps
  {
    hide AfterStep, ClockText, Goal;
    var low, high, now := Low(b), High(b), Minutes(b);
    StepLands(b, steps);
    GoalLands(low, high, now, steps);
    NotMidnight(low, high, now, steps, b.end);
    var first := AfterStep(b, Down(steps));
    StepLands(b, Down(steps));
    NotMidnight(low, high, now, Down(steps), b.end);
    if steps == Down(steps) {
      assert Singles(first, 0) == first;
    } else {
      if b.end && low == 0 && steps < 0 {
        FewerSteps(low, high, now, steps);
      }
      GoalThenGoal(low, high, now, steps);
      SinglesAreOneStep(first, steps - Down(steps));
    }
  }

  lemma NotMidnight(low: int, high: int, now: int, steps: int, end: bool)
    requires 0 <= low <= now <= high <= END_OF_DAY && steps != 0 && (end ==> now > 0)
    requires end ==> low > 0 || steps > 0 || -steps < StepsToMidnight(now)
    ensures end ==> Goal(low, high, now, steps) > 0
  {
  }

  lemma FewerSteps(low: int, high: int, now: int, steps: int)
    requires 0 <= low <= now <= high <= END_OF_DAY && steps < -1 && -steps < StepsToMidnight(now)
    ensures -steps - 1 < StepsToMidnight(Goal(low, high, now, -1))
  {
  }

  /** An end box for the whole day. */
  predicate WholeDay(b: Box) {
    b.end && Low(b) == 0 && High(b) == END_OF_DAY
  }

  lemma {:induction false} DownFromMidnight(b: Box, down: nat, more: nat)
    requires AtRest(b) && WholeDay(b) && down < 96 && Minutes(b) == END_OF_DAY - SLOT_MIN * down
    ensures Minutes(Singles(b, 0 - more)) == END_OF_DAY - SLOT_MIN * ((down + more) % 96)
    decreases more
  {
    hide AfterStep, ClockText, Goal;
    if more > 0 {
      StepLands(b, -1);
      OneQuarterDown(down, more);
      DownFromMidnight(AfterStep(b, -1), if down == 95 then 0 else down + 1, more - 1);
    }
  }

  lemma OneQuarterDown(down: nat, more: nat)
    requires down < 96 && more > 0
    ensures Goal(0, END_OF_DAY, END_OF_DAY - SLOT_MIN * down, -1) == END_OF_DAY - SLOT_MIN * (down + 1)
    ensures (down + more) % 96 == ((if down == 95 then 0 else down + 1) + (more - 1)) % 96
  {
    var now := END_OF_DAY - SLOT_MIN * down;
    assert now == SLOT_MIN * (96 - down) && now % SLOT_MIN == 0;
  }

  lemma {:induction false} DownPastMidnight(b: Box, steps: nat)
    requires AtRest(b) && WholeDay(b) && steps >= StepsToMidnight(Minutes(b))
    ensures Minutes(Singles(b, 0 - steps)) == END_OF_DAY - SLOT_MIN * ((steps - StepsToMidnight(Minutes(b))) % 96)
    decreases steps
  {
    hide AfterStep, ClockText;
    StepLands(b, -1);
    var first := AfterStep(b, -1);
    if Minutes(b) <= SLOT_MIN {
      DownFromMidnight(first, 0, steps - 1);
    } else {
      DownPastMidnight(first, steps - 1);
    }
  }

  /** Two single steps down from a quarter past midnight end fifteen minutes before it, one step of two at the
      end of the day. */
  lemma TwoStepsDownAreNotOne()
    ensures Minutes(Singles(EndBox(15, 1439), -2)) != Minutes(AfterStep(EndBox(15, 1439), -2))
  {
    hide Singles, AfterStep, ClockText;
    SinglesDownExactly(EndBox(15, 1439), 2);
    assert StepsToMidnight(15) == 1;
  }

  /** Down an end box of the whole day, single steps are one long step exactly until they pass midnight, which
      the box reads as the end of the day, and again on every whole day after. */
  lemma SinglesDownExactly(b: Box, steps: nat)
    requires AtRest(b) && WholeDay(b) && steps > 0
    ensures var k := StepsToMidnight(Minutes(b));
            Minutes(Singles(b, 0 - steps)) == Minutes(AfterStep(b, 0 - steps)) <==> steps <= k || (steps - k) % 96 == 0
  {
    hide AfterStep, ClockText, Singles;
    var k := StepsToMidnight(Minutes(b));
    if steps < k {
      SinglesAreOneStep(b, 0 - steps);
    } else {
      DownPastMidnight(b, steps);
      StepLands(b, 0 - steps);
    }
  }

  // ----- Every run -----

  datatype Input = Typed(text: string) | Settles | Steps(steps: int)

  function Next(b: Box, input: Input): Box {
    match input
    case Typed(text) => AfterEdited(b, text)
    case Settles => AfterSettle(b)
    case Steps(steps) => AfterStep(b, steps)
  }

  function Run(b: Box, inputs: seq<Input>): Box {
    if inputs == [] then b else Next(Run(b, inputs[..|inputs| - 1]), inputs[|inputs| - 1])
  }

  lemma StepKeepsSound(b: Box, steps: int)
    requires Sound(b) && Low(b) <= High(b) && !(b.end && Low(b) == 0 && High(b) < END_OF_DAY)
    ensures Sound(AfterStep(b, steps))
  {
    hide AfterSettle, Taken, ClockText, Goal;
    SettleTakesOrPutsBack(b);
    SettleKeepsLimits(b);
    var settled := AfterSettle(b);
    GoalLands(Low(b), High(b), Minutes(settled), steps);
    var goal := Goal(Low(b), High(b), Minutes(settled), steps);
    if settled.problem == NoProblem {
      if b.end && goal == 0 {
        TakenMidnight(settled);
      } else {
        TakenIsIt(settled, goal, false);
      }
    }
  }

  lemma InputKeepsLimits(b: Box, input: Input)
    ensures var after := Next(b, input); after.end == b.end && after.minTime == b.minTime && after.maxTime == b.maxTime
  {
    hide Read, ClockText, AfterSettle;
    SettleKeepsLimits(b);
  }

  /** Over every run of typing, settling and stepping the minutes stay within the limits. */
  lemma {:induction false} EveryRunStaysWithinLimits(b: Box, inputs: seq<Input>)
    requires Sound(b) && Low(b) <= High(b) && !(b.end && Low(b) == 0 && High(b) < END_OF_DAY)
    ensures var after := Run(b, inputs);
            && Sound(after) && Allowed(after, Minutes(after))
            && after.end == b.end && after.minTime == b.minTime && after.maxTime == b.maxTime
  {
    hide Next;
    if inputs != [] {
      var front, last := inputs[..|inputs| - 1], inputs[|inputs| - 1];
      EveryRunStaysWithinLimits(b, front);
      var before := Run(b, front);
      InputKeepsLimits(before, last);
      InputKeepsSound(before, last);
    }
  }

  lemma InputKeepsSound(b: Box, input: Input)
    requires Sound(b) && Low(b) <= High(b) && !(b.end && Low(b) == 0 && High(b) < END_OF_DAY)
    ensures Sound(Next(b, input))
  {
    hide AfterSettle, AfterStep, AfterEdited, Sound;
    match input
    case Typed(text) => EditKeepsSound(b, text);
    case Settles => SettleTakesOrPutsBack(b);
    case Steps(steps) => StepKeepsSound(b, steps);
  }

  // ----- The field itself -----

  class ClockField {
    const end: bool
    const clock24: bool
    const minTime: nat
    const maxTime: nat
    var start: Option<nat>
    var time: nat
    var text: string
    var before: Option<nat>
    var problem: Problem

    function All(): Box
      reads this
    {
      Box(end, clock24, minTime, maxTime, start, time, text, before, problem)
    }

    constructor (ends: bool, on24: bool, low: nat, high: nat, shown: nat)
      requires low < END_OF_DAY && high < END_OF_DAY && shown < END_OF_DAY
      ensures All() == Box(ends, on24, low, high, None, shown, ClockText(MinutesOf(ends, shown), on24), None, NoProblem)
    {
      end, clock24, minTime, maxTime := ends, on24, low, high;
      start, time, before, problem := None, shown, None, NoProblem;
      text := ClockText(MinutesOf(ends, shown), on24);
    }

    method Take(minutes: nat, asTyped: bool) returns (taken: bool)
      requires minutes <= END_OF_DAY
      modifies this`time, this`text, this`problem
      ensures All() == Taken(old(All()), minutes, asTyped)
      ensures taken == Allowed(old(All()), minutes)
    {
      if !Allowed(All(), minutes) {
        return false;
      }
      problem := NoProblem;
      time := minutes % END_OF_DAY;
      if !asTyped {
        text := ShownText(All());
      }
      return true;
    }

    method Edited(typed: string)
      modifies this`time, this`text, this`problem, this`before
      ensures All() == AfterEdited(old(All()), typed)
    {
      hide Read, Taken;
      text := typed;
      if before.None? {
        before := Some(MinutesOf(end, time));
      }
      var minutes := Read(All(), typed, true);
      if minutes.Some? && minutes.value <= END_OF_DAY {
        var _ := Take(minutes.value, true);
      }
    }

    method Settle()
      modifies this`time, this`text, this`problem, this`before
      ensures All() == AfterSettle(old(All()))
    {
      hide Read, Taken;
      var minutes := Read(All(), text, false);
      var began := before;
      before := None;
      if minutes.None? || !Allowed(All(), minutes.value) || minutes.value > END_OF_DAY {
        if began.Some? && began.value != MinutesOf(end, time) && began.value <= END_OF_DAY {
          var _ := Take(began.value, true);
        }
        problem := if minutes.None? then NoTime else OutsideLimits;
        return;
      }
      var _ := Take(minutes.value, false);
      if start.Some? && MinutesOf(end, time) <= start.value {
        problem := NotAfterStart;
      }
    }

    method StepBy(steps: int)
      modifies this`time, this`text, this`problem, this`before
      ensures All() == AfterStep(old(All()), steps)
    {
      hide AfterSettle, Taken;
      Settle();
      if problem != NoProblem {
        return;
      }
      var now: int := MinutesOf(end, time);
      var count := if steps < 0 && now % SLOT_MIN != 0 then steps + 1 else steps;
      var goal := Clamp(Low(All()), High(All()), now - now % SLOT_MIN + count * SLOT_MIN);
      if 0 <= goal <= END_OF_DAY {
        var _ := Take(goal, false);
      }
    }
  }
}
