/**
 * A timestamped notification and its canonical rendering
 * `"[HH:MM:SS] text"`, as used by the evolved hub.
 */
module LogMessages {
  import opened Text

  type Hour = h: int | 0 <= h < 24
  type Sexagesimal = n: int | 0 <= n < 60

  /**
   * The instant a message was created. Only hour, minute and second reach
   * the rendered form; `day` and `nanosecond` stand for the rest of the
   * instant, which the rendering ignores.
   */
  datatype Timestamp = Timestamp(day: int, hour: Hour, minute: Sexagesimal, second: Sexagesimal, nanosecond: int)

  datatype LogMessage = LogMessage(ts: Timestamp, message: string) {

    /** `"[HH:MM:SS] "` followed by the text, each clock field zero-padded to two digits. */
    function String(): (s: string)
      ensures |s| == 11 + |message| && s[11..] == message
    {
      Format(ts.hour, ts.minute, ts.second, message)
    }
  }

  /** Reading a rendered entry back gives its clock fields and its text. */
  lemma StringParses(lm: LogMessage)
    ensures ParseEntry(lm.String()) == Some(Entry(lm.ts.hour, lm.ts.minute, lm.ts.second, lm.message))
  {
    ParseFormat(lm.ts.hour, lm.ts.minute, lm.ts.second, lm.message);
  }

  /** A new entry for text `m` created at instant `now` (the clock is a parameter here). */
  function NewLogMessage(m: string, now: Timestamp): (lm: LogMessage)
    ensures lm.message == m && lm.ts == now
  {
    LogMessage(now, m)
  }

  predicate IsDigit(c: char) {
    '0' <= c <= '9'
  }

  function DigitValue(c: char): (d: nat)
    requires IsDigit(c)
    ensures d < 10
  {
    c as int - '0' as int
  }

  function Digit(d: nat): (c: char)
    requires d < 10
    ensures IsDigit(c) && DigitValue(c) == d
  {
    ('0' as int + d) as char
  }

  predicate IsTwoDigits(s: string) {
    |s| == 2 && IsDigit(s[0]) && IsDigit(s[1])
  }

  /** The number a two-digit decimal string denotes. */
  function TwoDigitValue(s: string): (n: nat)
    requires IsTwoDigits(s)
    ensures n < 100
  {
    DigitValue(s[0]) * 10 + DigitValue(s[1])
  }

  /** `%02d` for a number below 100. */
  function Pad2(n: nat): (s: string)
    requires n < 100
    ensures IsTwoDigits(s) && TwoDigitValue(s) == n
  {
    [Digit(n / 10), Digit(n % 10)]
  }

  /** Two-digit strings and numbers below 100 correspond one to one. */
  lemma Pad2OfValue(s: string)
    requires IsTwoDigits(s)
    ensures Pad2(TwoDigitValue(s)) == s
  {
    var n := TwoDigitValue(s);
    assert n / 10 == DigitValue(s[0]) && n % 10 == DigitValue(s[1]);
  }

  /** `fmt.Sprintf("[%02d:%02d:%02d] %s", hour, minute, second, text)`. */
  function Format(hour: nat, minute: nat, second: nat, text: string): (s: string)
    requires hour < 100 && minute < 100 && second < 100
    ensures |s| == 11 + |text| && s[11..] == text
    ensures s[0] == '[' && s[3] == ':' && s[6] == ':' && s[9..11] == "] "
    ensures NoNewline(text) ==> NoNewline(s)
  {
    "[" + Pad2(hour) + ":" + Pad2(minute) + ":" + Pad2(second) + "] " + text
  }

  /** The fields read back from a rendered entry. */
  datatype Entry = Entry(hour: nat, minute: nat, second: nat, text: string)

  /** Reads a line of the form `"[HH:MM:SS] text"`; `None` for anything else. */
  function ParseEntry(s: string): Option<Entry>
  {
    if |s| >= 11 && s[0] == '[' && IsTwoDigits(s[1..3]) && s[3] == ':' && IsTwoDigits(s[4..6])
       && s[6] == ':' && IsTwoDigits(s[7..9]) && s[9] == ']' && s[10] == ' '
    then Some(Entry(TwoDigitValue(s[1..3]), TwoDigitValue(s[4..6]), TwoDigitValue(s[7..9]), s[11..]))
    else None
  }

  /** Reading a formatted entry gives back its clock fields and its text verbatim. */
  lemma ParseFormat(hour: nat, minute: nat, second: nat, text: string)
    requires hour < 100 && minute < 100 && second < 100
    ensures ParseEntry(Format(hour, minute, second, text)) == Some(Entry(hour, minute, second, text))
  {
    var s := Format(hour, minute, second, text);
    assert s[1..3] == Pad2(hour) && s[4..6] == Pad2(minute) && s[7..9] == Pad2(second);
    assert s[11..] == text;
  }

  /** Every line that parses is the formatting of what it parses to. */
  lemma FormatParse(s: string)
    requires ParseEntry(s).Some?
    ensures var e := ParseEntry(s).value;
            e.hour < 100 && e.minute < 100 && e.second < 100 && Format(e.hour, e.minute, e.second, e.text) == s
  {
    Pad2OfValue(s[1..3]);
    Pad2OfValue(s[4..6]);
    Pad2OfValue(s[7..9]);
    assert s == s[..1] + s[1..3] + s[3..4] + s[4..6] + s[6..7] + s[7..9] + s[9..11] + s[11..];
  }

  /** The rendering depends on the clock time of day and the text only. */
  lemma StringIgnoresDateAndNanos(a: LogMessage, b: LogMessage)
    requires a.ts.hour == b.ts.hour && a.ts.minute == b.ts.minute && a.ts.second == b.ts.second
    requires a.message == b.message
    ensures a.String() == b.String()
  {
  }

  /** Rendered entries differ exactly when their clock fields or texts do. */
  lemma StringInjective(a: LogMessage, b: LogMessage)
    requires a.String() == b.String()
    ensures a.ts.hour == b.ts.hour && a.ts.minute == b.ts.minute && a.ts.second == b.ts.second
    ensures a.message == b.message
  {
    StringParses(a);
    StringParses(b);
  }

  /** Each entry rendered, in order: the lines `Dump` writes and the frames a replay sends. */
  function Rendered(ms: seq<LogMessage>): (r: seq<string>)
    ensures |r| == |ms|
    ensures forall i :: 0 <= i < |ms| ==> r[i] == ms[i].String()
  {
    if ms == [] then [] else Rendered(ms[..|ms| - 1]) + [ms[|ms| - 1].String()]
  }

  lemma RenderedSnoc(ms: seq<LogMessage>, i: nat)
    requires i < |ms|
    ensures Rendered(ms[..i + 1]) == Rendered(ms[..i]) + [ms[i].String()]
  {
    assert ms[..i + 1][..i] == ms[..i];
  }

  /** Dumping one more entry writes its rendering as one more line. */
  lemma JoinedRenderedSnoc(ms: seq<LogMessage>, i: nat)
    requires i < |ms|
    ensures Joined(Rendered(ms[..i + 1])) == Joined(Rendered(ms[..i])) + ms[i].String() + "\n"
  {
    RenderedSnoc(ms, i);
    JoinedSnoc(Rendered(ms[..i]), ms[i].String());
  }
}
