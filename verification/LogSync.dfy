/** The message texts mom keeps in two places (packages/mom/src/context.ts, packages/mom/src/agent.ts):
    a live prompt carries a time stamp and an attachments section, the log does not. The sync must
    recognise the one as the other. */
module LogSync {
  import opened Wrappers
  import opened Numerals

  // ---------------------------------------------------------------- the prompt

  /** Local time and the zone's offset in minutes. */
  datatype Clock = Clock(year: nat, month: nat, day: nat, hour: nat, minute: nat, second: nat, offset: int) {
    /** A calendar date with a four-digit year, and a zone less than a day away. */
    predicate Valid() {
      && 1000 <= year <= 9999 && 1 <= month <= 12 && 1 <= day <= 31
      && hour < 24 && minute < 60 && second < 60 && -1440 < offset < 1440
    }
  }

  function Pad(n: nat): string {
    if n < 10 then "0" + Decimal(n) else Decimal(n)
  }

  function Abs(n: int): nat {
    if n < 0 then -n else n
  }

  function Stamp(c: Clock): string {
    Decimal(c.year) + "-" + Pad(c.month) + "-" + Pad(c.day) + " "
    + Pad(c.hour) + ":" + Pad(c.minute) + ":" + Pad(c.second)
    + (if c.offset >= 0 then "+" else "-") + Pad(Abs(c.offset) / 60) + ":" + Pad(Abs(c.offset) % 60)
  }

  /** JavaScript's `a || b` on strings. */
  function Or(a: string, b: string): string {
    if a != "" then a else b
  }

  const MARKER := "\n\n<slack_attachments>\n"

  function Lines(paths: seq<string>): string {
    if paths == [] then "" else if |paths| == 1 then paths[0] else paths[0] + "\n" + Lines(paths[1..])
  }

  function Attachments(paths: seq<string>): string {
    if paths == [] then "" else MARKER + (Lines(paths) + "\n</slack_attachments>")
  }

  function Says(name: string, text: string): string {
    "[" + name + "]: " + text
  }

  /** The user message of a run. */
  function LivePrompt(c: Clock, userName: string, text: string, paths: seq<string>): string {
    ("[" + Stamp(c) + "] ") + (Says(Or(userName, "unknown"), text) + Attachments(paths))
  }

  /** The text the sync builds from the message's line in the log. */
  function LogText(userName: string, user: string, text: string): string {
    Says(Or(Or(userName, user), "unknown"), text)
  }

  lemma PadDenotes(n: nat)
    requires n < 100
    ensures |Pad(n)| == 2 && ValueOf(Pad(n)) == n
  {
    DecimalDenotes(n);
    if n < 10 {
      assert ("0" + Decimal(n))[..1] == "0" && "0"[..0] == "";
    } else {
      assert Decimal(n / 10) == [Digit(n / 10)];
    }
  }

  /** The stamp tells the date, the time and the zone's offset at fixed places. */
  lemma StampTells(c: Clock)
    requires c.Valid()
    ensures var s := Stamp(c);
            && |s| == 25
            && ValueOf(s[..4]) == c.year && ValueOf(s[5..7]) == c.month && ValueOf(s[8..10]) == c.day
            && ValueOf(s[11..13]) == c.hour && ValueOf(s[14..16]) == c.minute && ValueOf(s[17..19]) == c.second
            && 60 * ValueOf(s[20..22]) + ValueOf(s[23..25]) == (if s[19] == '+' then c.offset else -c.offset)
            && s[4] == s[7] == '-' && s[10] == ' ' && s[13] == s[16] == s[22] == ':' && s[19] in {'+', '-'}
  {
    var date := Decimal(c.year) + "-" + Pad(c.month) + "-" + Pad(c.day) + " ";
    var time := date + Pad(c.hour) + ":" + Pad(c.minute) + ":" + Pad(c.second);
    var sign := if c.offset >= 0 then "+" else "-";
    var s := time + sign + Pad(Abs(c.offset) / 60) + ":" + Pad(Abs(c.offset) % 60);
    assert s == Stamp(c);
    hide Stamp, Pad, Decimal, ValueOf;
    YearDenotes(c.year);
    PadDenotes(c.month);
    PadDenotes(c.day);
    DateTells(Decimal(c.year), Pad(c.month), Pad(c.day));
    TimeTells(date, c.hour, c.minute, c.second);
    ZoneTells(time, sign, Abs(c.offset));
    assert date <= time <= s;
    Prefixes(date, time, s);
  }

  lemma DateTells(year: string, month: string, day: string)
    requires |year| == 4 && |month| == |day| == 2
    ensures var s := year + "-" + month + "-" + day + " ";
            && |s| == 11 && s[..4] == year && s[4] == s[7] == '-' && s[10] == ' '
            && s[5..7] == month && s[8..10] == day
  {
  }

  lemma TimeTells(date: string, hour: nat, minute: nat, second: nat)
    requires |date| == 11 && hour < 24 && minute < 60 && second < 60
    ensures var s := date + Pad(hour) + ":" + Pad(minute) + ":" + Pad(second);
            && |s| == 19 && s[13] == s[16] == ':'
            && ValueOf(s[11..13]) == hour && ValueOf(s[14..16]) == minute && ValueOf(s[17..19]) == second
  {
    hide Pad, ValueOf;
    PadDenotes(hour);
    PadDenotes(minute);
    PadDenotes(second);
    var s := date + Pad(hour) + ":" + Pad(minute) + ":" + Pad(second);
    assert s[11..13] == Pad(hour) && s[14..16] == Pad(minute) && s[17..19] == Pad(second);
  }

  lemma ZoneTells(time: string, sign: string, offset: nat)
    requires |time| == 19 && |sign| == 1 && offset < 1440
    ensures var s := time + sign + Pad(offset / 60) + ":" + Pad(offset % 60);
            && |s| == 25 && s[19] == sign[0] && s[22] == ':'
            && 60 * ValueOf(s[20..22]) + ValueOf(s[23..25]) == offset
  {
    hide Pad, ValueOf;
    PadDenotes(offset / 60);
    PadDenotes(offset % 60);
    var s := time + sign + Pad(offset / 60) + ":" + Pad(offset % 60);
    assert s[20..22] == Pad(offset / 60) && s[23..25] == Pad(offset % 60);
  }

  lemma Prefixes(date: string, time: string, s: string)
    requires |date| == 11 && |time| == 19 && date <= time <= s
    ensures s[..4] == date[..4] && s[5..7] == date[5..7] && s[8..10] == date[8..10]
    ensures s[11..13] == time[11..13] && s[14..16] == time[14..16] && s[17..19] == time[17..19]
    ensures s[4] == date[4] && s[7] == date[7] && s[10] == date[10] && s[13] == time[13] && s[16] == time[16]
  {
    assert s[..19] == time && time[..11] == date;
  }

  lemma YearDenotes(year: nat)
    requires 1000 <= year <= 9999
    ensures |Decimal(year)| == 4 && ValueOf(Decimal(year)) == year
  {
    DecimalDenotes(year);
    DecimalDigits(year, 4);
    DecimalDigits(year, 3);
    Thousands();
  }

  lemma Thousands()
    ensures Power10(3) == 1000 && Power10(4) == 10000
  {
  }

  /** The whole prompt, and the whole text the sync compares it with. */
  lemma PromptText(c: Clock, userName: string, user: string, text: string, path: string)
    ensures var name := if userName != "" then userName else "unknown";
            && LivePrompt(c, userName, text, []) == "[" + Stamp(c) + "] [" + name + "]: " + text
            && LivePrompt(c, userName, text, [path])
               == "[" + Stamp(c) + "] [" + name + "]: " + text
                  + "\n\n<slack_attachments>\n" + path + "\n</slack_attachments>"
    ensures LogText(userName, user, text)
         == "[" + (if userName != "" then userName else if user != "" then user else "unknown") + "]: " + text
  {
    hide Stamp;
    var name := if userName != "" then userName else "unknown";
    Regrouped("[" + Stamp(c) + "] ", name, text, "\n\n<slack_attachments>\n", path, "\n</slack_attachments>");
    Regrouped("[" + Stamp(c) + "] ", name, text, "", "", "");
    assert "[" + Stamp(c) + "] " + "[" == "[" + Stamp(c) + "] [" && Lines([path]) == path;
    var said := "[" + name + "]: " + text;
    assert said + ("" + ("" + "")) == said && said + "" == said;
  }

  lemma Regrouped(stamp: string, name: string, text: string, marker: string, path: string, end: string)
    ensures stamp + (("[" + name + "]: " + text) + (marker + (path + end)))
         == stamp + "[" + name + "]: " + text + marker + path + end
  {
  }

  lemma LinesSnoc(paths: seq<string>, path: string)
    requires paths != []
    ensures Lines(paths + [path]) == Lines(paths) + "\n" + path
  {
    if |paths| == 1 {
      assert (paths + [path])[1..] == [path];
    } else {
      assert (paths + [path])[1..] == paths[1..] + [path];
      LinesSnoc(paths[1..], path);
    }
  }

  // ---------------------------------------------------------------- normalisation

  /** The pattern of the stamp: `0` stands for any digit and `+` for either sign. */
  const PATTERN := "[0000-00-00 00:00:00+00:00] "

  predicate Matches(s: string, pattern: string) {
    |s| == |pattern| && forall i | 0 <= i < |s| :: Fits(s[i], pattern[i])
  }

  predicate Fits(c: char, p: char) {
    if p == '0' then '0' <= c <= '9' else if p == '+' then c == '+' || c == '-' else c == p
  }

  predicate StartsWithStamp(s: string) {
    |s| >= |PATTERN| && Matches(s[..|PATTERN|], PATTERN)
  }

  function StripStamp(s: string): string {
    if StartsWithStamp(s) then s[|PATTERN|..] else s
  }

  predicate MarkerAt(s: string, k: nat) {
    k + |MARKER| <= |s| && s[k..k + |MARKER|] == MARKER
  }

  predicate HasMarker(s: string) {
    exists k: nat | k < |s| :: MarkerAt(s, k)
  }

  /** The first marker at or behind k, or the end of the text. */
  function FirstMarker(s: string, k: nat): (r: nat)
    requires k <= |s|
    ensures k <= r <= |s| && (r == |s| || MarkerAt(s, r))
    ensures forall i: nat | k <= i < r :: !MarkerAt(s, i)
    decreases |s| - k
  {
    if k == |s| || MarkerAt(s, k) then k else FirstMarker(s, k + 1)
  }

  function StripAttachments(s: string): string {
    s[..FirstMarker(s, 0)]
  }

  function Normalise(s: string): string {
    StripAttachments(StripStamp(s))
  }

  lemma PadDigits(n: nat)
    requires n < 100
    ensures Matches(Pad(n), "00")
  {
    if n >= 10 {
      assert Decimal(n / 10) == [Digit(n / 10)];
    }
  }

  lemma YearDigits(n: nat)
    requires 1000 <= n <= 9999
    ensures Matches(Decimal(n), "0000")
  {
    assert Decimal(n / 1000) == [Digit(n / 1000)];
    assert Decimal(n / 100) == Decimal(n / 1000) + [Digit(n / 100 % 10)];
    assert Decimal(n / 10) == Decimal(n / 100) + [Digit(n / 10 % 10)];
    assert Decimal(n) == Decimal(n / 10) + [Digit(n % 10)];
  }

  lemma Append(s: string, p: string, t: string, q: string)
    requires Matches(s, p) && Matches(t, q)
    ensures Matches(s + t, p + q)
  {
  }

  lemma AppendPadded(s: string, p: string, separator: string, q: string, n: nat)
    requires Matches(s, p) && Matches(separator, q) && n < 100
    ensures Matches(s + separator + Pad(n), p + q + "00")
  {
    PadDigits(n);
    Append(s, p, separator, q);
    Append(s + separator, p + q, Pad(n), "00");
  }

  lemma DateMatches(c: Clock)
    requires c.Valid()
    ensures Matches(Decimal(c.year) + "-" + Pad(c.month) + "-" + Pad(c.day), "0000-00-00")
  {
    hide Pad, Decimal;
    YearDigits(c.year);
    AppendPadded(Decimal(c.year), "0000", "-", "-", c.month);
    AppendPadded(Decimal(c.year) + "-" + Pad(c.month), "0000-00", "-", "-", c.day);
  }

  lemma TimeMatches(date: string, hour: nat, minute: nat, second: nat)
    requires Matches(date, "0000-00-00") && hour < 24 && minute < 60 && second < 60
    ensures Matches(date + " " + Pad(hour) + ":" + Pad(minute) + ":" + Pad(second), "0000-00-00 00:00:00")
  {
    hide Pad, Decimal;
    AppendPadded(date, "0000-00-00", " ", " ", hour);
    AppendPadded(date + " " + Pad(hour), "0000-00-00 00", ":", ":", minute);
    AppendPadded(date + " " + Pad(hour) + ":" + Pad(minute), "0000-00-00 00:00", ":", ":", second);
  }

  lemma ZoneMatches(time: string, sign: string, hours: nat, minutes: nat)
    requires Matches(time, "0000-00-00 00:00:00") && (sign == "+" || sign == "-") && hours < 24 && minutes < 60
    ensures Matches(time + sign + Pad(hours) + ":" + Pad(minutes), "0000-00-00 00:00:00+00:00")
  {
    hide Pad, Decimal;
    AppendPadded(time, "0000-00-00 00:00:00", sign, "+", hours);
    AppendPadded(time + sign + Pad(hours), "0000-00-00 00:00:00+00", ":", ":", minutes);
  }

  lemma StampMatches(c: Clock)
    requires c.Valid()
    ensures Matches(Stamp(c), "0000-00-00 00:00:00+00:00")
  {
    hide Matches, Pad, Decimal;
    DateMatches(c);
    var date := Decimal(c.year) + "-" + Pad(c.month) + "-" + Pad(c.day);
    TimeMatches(date, c.hour, c.minute, c.second);
    var time := date + " " + Pad(c.hour) + ":" + Pad(c.minute) + ":" + Pad(c.second);
    ZoneMatches(time, if c.offset >= 0 then "+" else "-", Abs(c.offset) / 60, Abs(c.offset) % 60);
  }

  /** The stamp a run writes is the stamp the sync recognises. */
  lemma StampRoundTrip(c: Clock, rest: string)
    requires c.Valid()
    ensures StripStamp(("[" + Stamp(c) + "] ") + rest) == rest
  {
    hide Stamp, Fits;
    StampMatches(c);
    Brackets(Stamp(c));
    var head := "[" + Stamp(c) + "] ";
    assert (head + rest)[..|PATTERN|] == head;
  }

  lemma Brackets(s: string)
    requires Matches(s, "0000-00-00 00:00:00+00:00")
    ensures Matches("[" + s + "] ", PATTERN)
  {
    hide Matches;
    assert Matches("[", "[") && Matches("] ", "] ") by { MatchesItself("["); MatchesItself("] "); }
    Append("[", "[", s, "0000-00-00 00:00:00+00:00");
    Append("[" + s, "[" + "0000-00-00 00:00:00+00:00", "] ", "] ");
    assert "[" + "0000-00-00 00:00:00+00:00" + "] " == PATTERN;
  }

  lemma MatchesItself(s: string)
    requires '0' !in s && '+' !in s
    ensures Matches(s, s)
  {
  }

  /** Cutting at the first marker leaves no marker. */
  lemma StripLeavesNoMarker(s: string)
    ensures !HasMarker(StripAttachments(s))
  {
    var r := FirstMarker(s, 0);
    forall k: nat | k < r
      ensures !MarkerAt(s[..r], k)
    {
      assert !MarkerAt(s, k);
      if k + |MARKER| <= r {
        SameSlice(s, r, k, k + |MARKER|);
      }
    }
  }

  lemma SameSlice(s: string, r: nat, i: nat, j: nat)
    requires i <= j <= r <= |s|
    ensures s[..r][i..j] == s[i..j]
  {
  }

  lemma StripFixed(s: string)
    ensures StripAttachments(s) == s <==> !HasMarker(s)
  {
    StripLeavesNoMarker(s);
    assert s[..|s|] == s;
  }

  /** The marker overlaps itself in its last character only. */
  lemma MarkerOverlap(j: nat)
    requires 0 < j < |MARKER| - 1
    ensures MARKER[j..] != MARKER[..|MARKER| - j]
  {
    assert MARKER[..|MARKER| - j][0] == '\n' && MARKER[..|MARKER| - j][1] == '\n';
    assert MARKER[j..][0] == MARKER[j] && MARKER[j..][1] == MARKER[j + 1];
  }

  /** A body that ends like the marker, one line break short: an attachments section behind it supplies
      the missing character. */
  predicate EndsInOpenMarker(body: string) {
    |body| >= |MARKER| - 1 && body[|body| - (|MARKER| - 1)..] == MARKER[..|MARKER| - 1]
  }

  predicate Clean(body: string, paths: seq<string>) {
    !HasMarker(body) && (paths != [] ==> !EndsInOpenMarker(body))
  }

  /** A marker of the whole that starts in the body lies in the body or reaches over its end. */
  lemma MarkerInWhole(body: string, tail: string, k: nat)
    requires k < |body| && MarkerAt(body + (MARKER + tail), k)
    ensures MarkerAt(body, k) || EndsInOpenMarker(body)
  {
    var s := body + (MARKER + tail);
    if k + |MARKER| <= |body| {
      assert s[k..k + |MARKER|] == body[k..k + |MARKER|];
    } else {
      var j := |body| - k;
      var at := s[k..k + |MARKER|];
      assert MARKER[..j] == at[..j] == body[k..];
      assert MARKER[j..] == at[j..];
      assert at[j..] == (MARKER + tail)[..|MARKER| - j] == MARKER[..|MARKER| - j];
      if j < |MARKER| - 1 {
        MarkerOverlap(j);
        assert false;
      }
    }
  }

  /** The attachments section is cut off cleanly in exactly these cases. */
  lemma StripRoundTrip(body: string, paths: seq<string>)
    ensures StripAttachments(body + Attachments(paths)) == body <==> Clean(body, paths)
    ensures StripAttachments(body + Attachments(paths)) <= body
  {
    if paths == [] {
      assert body + "" == body;
      StripFixed(body);
    } else {
      var tail := Lines(paths) + "\n</slack_attachments>";
      var s := body + (MARKER + tail);
      assert s[|body|..|body| + |MARKER|] == MARKER;
      assert MarkerAt(s, |body|);
      var r := FirstMarker(s, 0);
      assert r <= |body|;
      assert s[..r] == body[..r];
      if r < |body| {
        MarkerInWhole(body, tail, r);
      } else {
        assert body[..r] == body;
        StripLeavesNoMarker(s);
        if EndsInOpenMarker(body) {
          OpenMarkerCloses(body, tail);
        }
      }
    }
  }

  lemma OpenMarkerCloses(body: string, tail: string)
    requires EndsInOpenMarker(body)
    ensures MarkerAt(body + (MARKER + tail), |body| - (|MARKER| - 1))
  {
    var s, k := body + (MARKER + tail), |body| - (|MARKER| - 1);
    assert s[k..k + |MARKER|] == MARKER[..|MARKER| - 1] + [MARKER[0]] == MARKER;
  }

  /** When the two sides name the author alike: the live prompt does not fall back on the user id. */
  predicate SameName(userName: string, user: string) {
    userName != "" || user in {"", "unknown"}
  }

  lemma OnlyUnknownIsUnknown(user: string, text: string)
    requires user != "" && Says(user, text) <= Says("unknown", text)
    ensures user == "unknown"
  {
    var s, live := Says(user, text), Says("unknown", text);
    assert live == "[unknown" + ("]: " + text);
    assert live[1 + |user|] == s[1 + |user|] == ']';
    assert |user| == 7;
    assert s[1..8] == live[1..8] == "unknown";
  }

  /** Normalising a live prompt gives the log's text exactly when the author is named alike and the
      text has no attachments marker of its own, complete or completed by the section behind it. */
  lemma NormaliseInvertsPrompt(c: Clock, userName: string, user: string, text: string, paths: seq<string>)
    requires c.Valid()
    ensures Normalise(LivePrompt(c, userName, text, paths)) == LogText(userName, user, text)
       <==> SameName(userName, user) && Clean(LogText(userName, user, text), paths)
  {
    hide Stamp, Says, Clean, FirstMarker, StripStamp, Attachments, StripAttachments;
    var body := Says(Or(userName, "unknown"), text);
    StampRoundTrip(c, body + Attachments(paths));
    StripRoundTrip(body, paths);
    if !SameName(userName, user) {
      if Says(user, text) <= body {
        OnlyUnknownIsUnknown(user, text);
      }
    }
  }

  /** A text that ends in an open marker and has an attachment is one that is not recognised. */
  lemma OpenMarkerIsLost(c: Clock, userName: string, user: string, text: string, path: string)
    requires c.Valid()
    ensures var open := text + MARKER[..|MARKER| - 1];
            Normalise(LivePrompt(c, userName, open, [path])) != LogText(userName, user, open)
  {
    hide LivePrompt, Normalise, HasMarker, SameName;
    var open := text + MARKER[..|MARKER| - 1];
    NormaliseInvertsPrompt(c, userName, user, open, [path]);
    var body := LogText(userName, user, open);
    assert body[|body| - (|MARKER| - 1)..] == MARKER[..|MARKER| - 1];
  }

  /** A name without a closing bracket never makes a log text look stamped. */
  lemma LogTextUnstamped(name: string, text: string)
    requires ']' !in name
    ensures !StartsWithStamp(Says(name, text))
  {
    var s, k := Says(name, text), 1 + |name|;
    if |s| >= |PATTERN| {
      assert s[k] == ']' && s[k + 1] == ':';
      var i := if k < 26 then k else if k == 26 then 27 else 26;
      assert k > 26 ==> s[26] == name[25];
      assert PATTERN[26] == ']' && PATTERN[27] == ' ';
      assert !Fits(s[i], PATTERN[i]) && s[..|PATTERN|][i] == s[i];
    }
  }

  /** Normalising leaves a text as it is exactly if it has neither a stamp nor a marker. */
  lemma NormaliseFixed(t: string)
    ensures Normalise(t) == t <==> !StartsWithStamp(t) && !HasMarker(t)
  {
    StripFixed(t);
    if StartsWithStamp(t) {
      assert |Normalise(t)| <= |StripStamp(t)| < |t|;
    }
  }

  // ---------------------------------------------------------------- the sync

  datatype Part = TextPart(text: string) | OtherPart

  datatype Entry = NotFromUser | UserString(content: string, sent: int) | UserParts(parts: seq<Part>, timestamp: int)

  class SessionManager {
    var entries: seq<Entry>

    constructor (entries: seq<Entry>)
      ensures this.entries == entries
    {
      this.entries := entries;
    }

    method AppendMessage(e: Entry)
      modifies this
      ensures entries == old(entries) + [e]
    {
      entries := entries + [e];
    }
  }

  /** A line of the log; absent fields are empty, `millis` is what the date reads as, if it is a date. */
  datatype LogLine = Malformed
    | LogLine(ts: string, date: string, millis: Option<int>, user: string, userName: string, text: string, isBot: bool)

  datatype Message = Message(time: int, text: string)

  predicate Eligible(l: LogLine, exclude: string) {
    l.LogLine? && l.ts != "" && l.date != "" && !(exclude != "" && l.ts == exclude) && !l.isBot
  }

  function TextOf(l: LogLine): string
    requires l.LogLine?
  {
    LogText(l.userName, l.user, l.text)
  }

  /** A date that cannot be read, or that reads as zero, becomes the present. */
  function TimeOf(l: LogLine, now: int): int
    requires l.LogLine?
  {
    if l.millis.None? || l.millis.value == 0 then now else l.millis.value
  }

  function PartTexts(parts: seq<Part>): set<string> {
    set p | p in parts && p.TextPart? :: Normalise(p.text)
  }

  function EntryTexts(e: Entry): set<string> {
    match e
    case NotFromUser => {}
    case UserString(content, _) => {Normalise(content)}
    case UserParts(parts, _) => PartTexts(parts)
  }

  function Existing(entries: seq<Entry>): set<string> {
    set e, t | e in entries && t in EntryTexts(e) :: t
  }

  function Texts(messages: seq<Message>): set<string> {
    set m | m in messages :: m.text
  }

  function EligibleTexts(lines: seq<LogLine>, exclude: string): set<string> {
    set l | l in lines && Eligible(l, exclude) :: TextOf(l)
  }

  /** What the first k lines add to a session that has the texts `existing`. */
  function Fresh(lines: seq<LogLine>, k: nat, exclude: string, now: nat -> int, existing: set<string>): seq<Message>
    requires k <= |lines|
  {
    if k == 0 then []
    else
      var before := Fresh(lines, k - 1, exclude, now, existing);
      var l := lines[k - 1];
      if !Eligible(l, exclude) || TextOf(l) in existing + Texts(before) then before
      else before + [Message(TimeOf(l, now(k - 1)), TextOf(l))]
  }

  /** The library's stable sort. */
  function Insert(m: Message, sorted: seq<Message>): seq<Message> {
    if sorted == [] || m.time <= sorted[0].time then [m] + sorted
    else [sorted[0]] + Insert(m, sorted[1..])
  }

  function Sort(messages: seq<Message>): seq<Message> {
    if messages == [] then [] else Insert(messages[0], Sort(messages[1..]))
  }

  function Wrap(messages: seq<Message>): seq<Entry> {
    seq(|messages|, i requires 0 <= i < |messages| => UserParts([TextPart(messages[i].text)], messages[i].time))
  }

  /** The session after a sync. */
  function Synced(entries: seq<Entry>, lines: seq<LogLine>, exclude: string, now: nat -> int): seq<Entry> {
    entries + Wrap(Sort(Fresh(lines, |lines|, exclude, now, Existing(entries))))
  }

  /** A user message holds this text, as a string or as one of its text parts. */
  predicate HoldsText(e: Entry, s: string) {
    (e.UserString? && e.content == s) || (e.UserParts? && TextPart(s) in e.parts)
  }

  /** The session already has this text: some user message holds it, stamp and attachments aside. */
  ghost predicate HasText(entries: seq<Entry>, t: string) {
    exists e, s :: e in entries && HoldsText(e, s) && Normalise(s) == t
  }

  lemma ExistingMeaning(entries: seq<Entry>, t: string)
    ensures t in Existing(entries) <==> HasText(entries, t)
  {
    hide Normalise;
    if e, s :| e in entries && HoldsText(e, s) && Normalise(s) == t {
      assert t in EntryTexts(e);
    }
    if t in Existing(entries) {
      var e :| e in entries && t in EntryTexts(e);
      if e.UserString? {
        assert HoldsText(e, e.content) && Normalise(e.content) == t;
      } else {
        var part :| part in e.parts && part.TextPart? && Normalise(part.text) == t;
        assert HoldsText(e, part.text);
      }
    }
  }

  /** A line of the log says this: it has a time stamp and a date, is not the excluded message and not
      from a bot, and this is its author and text. */
  predicate LineSays(l: LogLine, exclude: string, t: string) {
    && l.LogLine? && l.ts != "" && l.date != "" && (exclude == "" || l.ts != exclude) && !l.isBot
    && var name := if l.userName != "" then l.userName else if l.user != "" then l.user else "unknown";
    t == "[" + name + "]: " + l.text
  }

  lemma EligibleMeaning(lines: seq<LogLine>, exclude: string, t: string)
    ensures t in EligibleTexts(lines, exclude) <==> exists l <- lines :: LineSays(l, exclude, t)
  {
    if l :| l in lines && LineSays(l, exclude, t) {
      assert Eligible(l, exclude) && TextOf(l) == t;
    }
    if t in EligibleTexts(lines, exclude) {
      var l :| l in lines && Eligible(l, exclude) && TextOf(l) == t;
      assert LineSays(l, exclude, t);
    }
  }

  /** This text is among the entries added behind `from`. */
  ghost predicate AddedText(entries: seq<Entry>, from: nat, t: string) {
    exists k :: from <= k < |entries| && entries[k].UserParts? && entries[k].parts == [TextPart(t)]
  }

  /** What the sync adds: user messages of one text each, in order of time, no text twice. */
  ghost predicate AddedInOrder(entries: seq<Entry>, from: nat) {
    && (forall k | from <= k < |entries| ::
          entries[k].UserParts? && |entries[k].parts| == 1 && entries[k].parts[0].TextPart?)
    && (forall j, k | from <= j < k < |entries| ::
          entries[j].timestamp <= entries[k].timestamp && entries[j].parts != entries[k].parts)
  }

  /** The session keeps what it had and gains, in order and each once, exactly the texts that some line
      says and that it did not have. */
  ghost predicate AddsWhatIsNew(before: seq<Entry>, after: seq<Entry>, lines: seq<LogLine>, exclude: string) {
    && before <= after && AddedInOrder(after, |before|)
    && forall t :: AddedText(after, |before|, t)
              <==> (exists l <- lines :: LineSays(l, exclude, t)) && !HasText(before, t)
  }

  method SyncLogToSessionManager(session: SessionManager, lines: seq<LogLine>, exclude: string, now: nat -> int)
      returns (count: nat)
    modifies session
    ensures session.entries == Synced(old(session.entries), lines, exclude, now)
    ensures count == |session.entries| - |old(session.entries)|
    ensures AddsWhatIsNew(old(session.entries), session.entries, lines, exclude)
  {
    hide *;
    ghost var before := session.entries;
    SyncedMeaning(before, lines, exclude, now);
    var existingMessages := CollectExisting(session.entries);
    var newMessages := FindNew(lines, exclude, now, existingMessages);
    SortIsStable(newMessages);
    AppendAll(session, Sort(newMessages));
    SyncedIs(before, lines, exclude, now);
    count := |newMessages|;
  }

  /** The loop over the log's lines. */
  method FindNew(lines: seq<LogLine>, exclude: string, now: nat -> int, existing: set<string>)
    returns (newMessages: seq<Message>)
    ensures newMessages == Fresh(lines, |lines|, exclude, now, existing)
  {
    hide Fresh, Texts, LogText, TimeOf;
    var existingMessages := existing;
    newMessages := [];
    FreshNone(lines, exclude, now, existing);
    for k := 0 to |lines|
      invariant newMessages == Fresh(lines, k, exclude, now, existing)
      invariant existingMessages == existing + Texts(newMessages)
    {
      var l := lines[k];
      FreshSnoc(lines, k, exclude, now, existing);
      if Eligible(l, exclude) {
        var messageText := TextOf(l);
        if messageText !in existingMessages {
          var m := Message(TimeOf(l, now(k)), messageText);
          TextsSnoc(newMessages, m);
          newMessages := newMessages + [m];
          existingMessages := existingMessages + {messageText};
        }
      }
    }
  }

  /** The loop that appends the messages found. */
  method AppendAll(session: SessionManager, sorted: seq<Message>)
    modifies session
    ensures session.entries == old(session.entries) + Wrap(sorted) && |Wrap(sorted)| == |sorted|
  {
    for k := 0 to |sorted|
      invariant session.entries == old(session.entries) + Wrap(sorted)[..k]
    {
      session.AppendMessage(UserParts([TextPart(sorted[k].text)], sorted[k].time));
    }
    assert Wrap(sorted)[..|sorted|] == Wrap(sorted);
  }

  lemma SyncedIs(entries: seq<Entry>, lines: seq<LogLine>, exclude: string, now: nat -> int)
    ensures Synced(entries, lines, exclude, now)
         == entries + Wrap(Sort(Fresh(lines, |lines|, exclude, now, Existing(entries))))
  {
  }

  lemma SyncedMeaning(entries: seq<Entry>, lines: seq<LogLine>, exclude: string, now: nat -> int)
    ensures AddsWhatIsNew(entries, Synced(entries, lines, exclude, now), lines, exclude)
  {
    var added := Fresh(lines, |lines|, exclude, now, Existing(entries));
    var sorted, n := Sort(added), |entries|;
    hide Fresh, Existing, Sort, HasText, LineSays, EligibleTexts;
    assert lines[..|lines|] == lines;
    FreshMeaning(lines, |lines|, exclude, now, Existing(entries));
    SortIsStable(added);
    StillDistinct(added, sorted);
    SameElements(sorted, added);
    var synced := entries + Wrap(sorted);
    WrappedInOrder(entries, sorted);
    forall t
      ensures AddedText(synced, n, t) <==> (exists l <- lines :: LineSays(l, exclude, t)) && !HasText(entries, t)
    {
      WrappedText(entries, sorted, t);
      ExistingMeaning(entries, t);
      EligibleMeaning(lines, exclude, t);
      assert t in Texts(added) <==> t in Texts(sorted);
    }
  }

  lemma WrappedInOrder(entries: seq<Entry>, sorted: seq<Message>)
    requires Sorted(sorted) && Distinct(sorted)
    ensures AddedInOrder(entries + Wrap(sorted), |entries|)
  {
    var synced, n := entries + Wrap(sorted), |entries|;
    assert forall k | n <= k < |synced| ::
        synced[k] == UserParts([TextPart(sorted[k - n].text)], sorted[k - n].time);
    forall j, k | n <= j < k < |synced|
      ensures synced[j].timestamp <= synced[k].timestamp && synced[j].parts != synced[k].parts
    {
      assert sorted[j - n].time <= sorted[k - n].time && sorted[j - n].text != sorted[k - n].text;
      assert synced[j].parts[0] == TextPart(sorted[j - n].text) && synced[k].parts[0] == TextPart(sorted[k - n].text);
    }
  }

  lemma WrappedText(entries: seq<Entry>, sorted: seq<Message>, t: string)
    ensures AddedText(entries + Wrap(sorted), |entries|, t) <==> t in Texts(sorted)
  {
    var synced, n := entries + Wrap(sorted), |entries|;
    if k :| n <= k < |synced| && synced[k].UserParts? && synced[k].parts == [TextPart(t)] {
      assert synced[k].parts[0] == TextPart(sorted[k - n].text);
      assert sorted[k - n] in sorted;
    }
    if t in Texts(sorted) {
      var m :| m in sorted && m.text == t;
      var i :| 0 <= i < |sorted| && sorted[i] == m;
      assert synced[n + i] == UserParts([TextPart(t)], m.time);
    }
  }

  /** Reordering keeps the texts apart. */
  lemma StillDistinct(a: seq<Message>, b: seq<Message>)
    requires Distinct(a) && multiset(a) == multiset(b)
    ensures Distinct(b)
  {
    forall i, j | 0 <= i < j < |b|
      ensures b[i].text != b[j].text
    {
      if b[i].text == b[j].text {
        assert b[i] in multiset(a) && b[j] in multiset(a);
        var p :| 0 <= p < |a| && a[p] == b[i];
        var q :| 0 <= q < |a| && a[q] == b[j];
        assert p == q;
        TwiceCounted(b, i, j);
        OnceCounted(a, p);
      }
    }
  }

  lemma TwiceCounted(b: seq<Message>, i: nat, j: nat)
    requires i < j < |b| && b[i] == b[j]
    ensures multiset(b)[b[i]] >= 2
  {
    assert b == b[..i] + [b[i]] + b[i + 1..j] + [b[j]] + b[j + 1..];
  }

  lemma {:induction false} OnceCounted(a: seq<Message>, p: nat)
    requires Distinct(a) && p < |a|
    ensures multiset(a)[a[p]] == 1
  {
    assert a == a[..p] + [a[p]] + a[p + 1..];
    assert a[p] !in a[..p] && a[p] !in a[p + 1..];
  }

  /** Lines of the excluded message and of bots make no difference: without them the sync adds the same
      texts, and needs no exclusion. */
  function Kept(lines: seq<LogLine>, exclude: string): seq<LogLine> {
    if lines == [] then []
    else
      var l := lines[|lines| - 1];
      Kept(lines[..|lines| - 1], exclude)
      + if l.LogLine? && ((exclude != "" && l.ts == exclude) || l.isBot) then [] else [l]
  }

  lemma {:induction false} KeptMeaning(lines: seq<LogLine>, exclude: string)
    ensures forall l :: l in Kept(lines, exclude)
                   <==> l in lines && !(l.LogLine? && ((exclude != "" && l.ts == exclude) || l.isBot))
  {
    if lines != [] {
      KeptMeaning(lines[..|lines| - 1], exclude);
      assert lines == lines[..|lines| - 1] + [lines[|lines| - 1]];
    }
  }

  lemma ExcludedMakesNoDifference(entries: seq<Entry>, lines: seq<LogLine>, exclude: string, now: nat -> int,
                                  other: nat -> int)
    ensures var kept := Kept(lines, exclude);
            Texts(Fresh(kept, |kept|, "", other, Existing(entries)))
            == Texts(Fresh(lines, |lines|, exclude, now, Existing(entries)))
  {
    var kept := Kept(lines, exclude);
    assert kept[..|kept|] == kept && lines[..|lines|] == lines;
    FreshMeaning(kept, |kept|, "", other, Existing(entries));
    FreshMeaning(lines, |lines|, exclude, now, Existing(entries));
    KeptMeaning(lines, exclude);
    hide Fresh, Existing, Kept, LogText;
    forall t
      ensures t in EligibleTexts(kept, "") <==> t in EligibleTexts(lines, exclude)
    {
      EligibleMeaning(kept, "", t);
      EligibleMeaning(lines, exclude, t);
      if l :| l in lines && LineSays(l, exclude, t) {
        assert l in kept && LineSays(l, "", t);
      }
      if l :| l in kept && LineSays(l, "", t) {
        assert l in lines && LineSays(l, exclude, t);
      }
    }
  }

  lemma FreshNone(lines: seq<LogLine>, exclude: string, now: nat -> int, existing: set<string>)
    ensures Fresh(lines, 0, exclude, now, existing) == [] && Texts([]) == {}
  {
  }

  lemma FreshSnoc(lines: seq<LogLine>, k: nat, exclude: string, now: nat -> int, existing: set<string>)
    requires k < |lines|
    ensures Fresh(lines, k + 1, exclude, now, existing)
         == (var before := Fresh(lines, k, exclude, now, existing);
             if !Eligible(lines[k], exclude) || TextOf(lines[k]) in existing + Texts(before) then before
             else before + [Message(TimeOf(lines[k], now(k)), TextOf(lines[k]))])
  {
  }

  method CollectExisting(entries: seq<Entry>) returns (existing: set<string>)
    ensures existing == Existing(entries)
  {
    hide Normalise, PartTexts;
    existing := {};
    for k := 0 to |entries|
      invariant existing == Existing(entries[..k])
    {
      assert entries[..k + 1] == entries[..k] + [entries[k]];
      ExistingUnion(entries[..k], [entries[k]]);
      assert entries[k] in [entries[k]];
      assert Existing([entries[k]]) == EntryTexts(entries[k]);
      match entries[k] {
        case NotFromUser =>
        case UserString(content, _) => existing := existing + {Normalise(content)};
        case UserParts(parts, _) =>
          var texts := CollectParts(parts);
          existing := existing + texts;
      }
    }
    assert entries[..|entries|] == entries;
  }

  method CollectParts(parts: seq<Part>) returns (texts: set<string>)
    ensures texts == PartTexts(parts)
  {
    texts := {};
    for k := 0 to |parts|
      invariant texts == PartTexts(parts[..k])
    {
      assert parts[..k + 1] == parts[..k] + [parts[k]];
      if parts[k].TextPart? {
        texts := texts + {Normalise(parts[k].text)};
      }
    }
    assert parts[..|parts|] == parts;
  }

  lemma TextsSnoc(messages: seq<Message>, m: Message)
    ensures Texts(messages + [m]) == Texts(messages) + {m.text}
  {
    forall x | x in messages
      ensures x in messages + [m]
    {
    }
    assert m in messages + [m];
  }

  predicate Sorted(messages: seq<Message>) {
    forall i, j | 0 <= i < j < |messages| :: messages[i].time <= messages[j].time
  }

  /** The messages of one time, in their order. */
  function At(messages: seq<Message>, time: int): seq<Message> {
    if messages == [] then []
    else (if messages[0].time == time then [messages[0]] else []) + At(messages[1..], time)
  }

  lemma {:induction false} InsertPermutes(m: Message, sorted: seq<Message>)
    ensures multiset(Insert(m, sorted)) == multiset([m] + sorted)
  {
    if sorted != [] && m.time > sorted[0].time {
      InsertPermutes(m, sorted[1..]);
      assert sorted == [sorted[0]] + sorted[1..];
    }
  }

  lemma SortedCons(m: Message, rest: seq<Message>)
    requires Sorted(rest) && forall i | 0 <= i < |rest| :: m.time <= rest[i].time
    ensures Sorted([m] + rest)
  {
  }

  lemma InsertAbove(m: Message, sorted: seq<Message>, time: int)
    requires m.time >= time && forall x <- sorted :: x.time >= time
    ensures forall x <- Insert(m, sorted) :: x.time >= time
  {
    InsertPermutes(m, sorted);
    forall x | x in Insert(m, sorted)
      ensures x.time >= time
    {
      assert x in multiset([m] + sorted);
    }
  }

  lemma {:induction false} InsertSorts(m: Message, sorted: seq<Message>)
    requires Sorted(sorted)
    ensures Sorted(Insert(m, sorted))
  {
    if sorted != [] && m.time > sorted[0].time {
      var rest := Insert(m, sorted[1..]);
      InsertSorts(m, sorted[1..]);
      InsertAbove(m, sorted[1..], sorted[0].time);
      SortedCons(sorted[0], rest);
    }
  }

  lemma {:induction false} InsertKeepsOrder(m: Message, sorted: seq<Message>, time: int)
    ensures At(Insert(m, sorted), time) == At([m] + sorted, time)
  {
    assert ([m] + sorted)[1..] == sorted;
    if sorted != [] && m.time > sorted[0].time {
      var rest := Insert(m, sorted[1..]);
      InsertKeepsOrder(m, sorted[1..], time);
      assert ([m] + sorted[1..])[1..] == sorted[1..];
      assert ([sorted[0]] + rest)[1..] == rest;
    }
  }

  /** Sorted by time, a permutation, and messages of one time keep the log's order. */
  lemma {:induction false} SortIsStable(messages: seq<Message>)
    ensures Sorted(Sort(messages))
    ensures multiset(Sort(messages)) == multiset(messages)
    ensures forall time :: At(Sort(messages), time) == At(messages, time)
    ensures |Sort(messages)| == |messages|
  {
    hide Insert, At, Sorted;
    if messages != [] {
      SortIsStable(messages[1..]);
      var sorted := Sort(messages[1..]);
      assert messages == [messages[0]] + messages[1..];
      InsertPermutes(messages[0], sorted);
      InsertSorts(messages[0], sorted);
      forall time
        ensures At(Sort(messages), time) == At(messages, time)
      {
        InsertKeepsOrder(messages[0], sorted, time);
        AtCons(messages[0], sorted, time);
        AtCons(messages[0], messages[1..], time);
      }
    } else {
      SortedTrivially();
    }
    assert |Sort(messages)| == |multiset(Sort(messages))| == |multiset(messages)|;
  }

  lemma AtCons(m: Message, rest: seq<Message>, time: int)
    ensures At([m] + rest, time) == (if m.time == time then [m] else []) + At(rest, time)
  {
    assert ([m] + rest)[1..] == rest;
  }

  lemma SortedTrivially()
    ensures Sorted([])
  {
  }

  predicate Distinct(messages: seq<Message>) {
    forall i, j | 0 <= i < j < |messages| :: messages[i].text != messages[j].text
  }

  /** The messages added are pairwise distinct and cover exactly the log's texts that are not there. */
  lemma {:induction false} FreshMeaning(lines: seq<LogLine>, k: nat, exclude: string, now: nat -> int,
                                        existing: set<string>)
    requires k <= |lines|
    ensures Distinct(Fresh(lines, k, exclude, now, existing))
    ensures Texts(Fresh(lines, k, exclude, now, existing)) == EligibleTexts(lines[..k], exclude) - existing
  {
    if k > 0 {
      FreshMeaning(lines, k - 1, exclude, now, existing);
      var before, l := Fresh(lines, k - 1, exclude, now, existing), lines[k - 1];
      EligibleSnoc(lines[..k - 1], l, exclude);
      assert lines[..k] == lines[..k - 1] + [l];
      if Eligible(l, exclude) && TextOf(l) !in existing + Texts(before) {
        var m := Message(TimeOf(l, now(k - 1)), TextOf(l));
        TextsSnoc(before, m);
        forall i | 0 <= i < |before|
          ensures before[i].text != m.text
        {
          assert before[i].text in Texts(before);
        }
      }
    }
  }

  lemma EligibleSnoc(lines: seq<LogLine>, l: LogLine, exclude: string)
    ensures EligibleTexts(lines + [l], exclude)
         == EligibleTexts(lines, exclude) + (if Eligible(l, exclude) then {TextOf(l)} else {})
  {
    forall x | x in lines
      ensures x in lines + [l]
    {
    }
    assert l in lines + [l];
  }

  /** Each message added has the time of the first line with its text. */
  lemma {:induction false} FreshIsFirst(lines: seq<LogLine>, k: nat, exclude: string, now: nat -> int,
                                        existing: set<string>, m: Message)
      returns (i: nat)
    requires k <= |lines| && m in Fresh(lines, k, exclude, now, existing)
    ensures i < k && Eligible(lines[i], exclude) && m == Message(TimeOf(lines[i], now(i)), TextOf(lines[i]))
    ensures m.text !in EligibleTexts(lines[..i], exclude)
    ensures LineSays(lines[i], exclude, m.text)
    ensures m.time == if lines[i].millis.None? || lines[i].millis.value == 0 then now(i) else lines[i].millis.value
  {
    if m in Fresh(lines, k - 1, exclude, now, existing) {
      i := FreshIsFirst(lines, k - 1, exclude, now, existing, m);
    } else {
      i := k - 1;
      FreshMeaning(lines, k - 1, exclude, now, existing);
    }
  }

  lemma WrapTexts(messages: seq<Message>)
    ensures forall t :: t in Existing(Wrap(messages)) <==> exists m :: m in messages && t == Normalise(m.text)
  {
    forall m | m in messages
      ensures Normalise(m.text) in Existing(Wrap(messages))
    {
      var i :| 0 <= i < |messages| && messages[i] == m;
      var e := Wrap(messages)[i];
      assert TextPart(m.text) in e.parts;
      assert Normalise(m.text) in EntryTexts(e);
    }
  }

  lemma ExistingUnion(a: seq<Entry>, b: seq<Entry>)
    ensures Existing(a + b) == Existing(a) + Existing(b)
  {
    forall e | e in a || e in b
      ensures e in a + b
    {
    }
  }

  lemma ExistingUnmarked(entries: seq<Entry>, t: string)
    requires t in Existing(entries)
    ensures !HasMarker(t)
  {
    forall s: string
      ensures !HasMarker(Normalise(s))
    {
      StripLeavesNoMarker(StripStamp(s));
    }
  }

  /** After a sync the session has the texts it had and the normalised new ones. */
  lemma ExistingAfter(entries: seq<Entry>, lines: seq<LogLine>, exclude: string, now: nat -> int)
    ensures Existing(Synced(entries, lines, exclude, now))
         == Existing(entries) + (set t | t in EligibleTexts(lines, exclude) - Existing(entries) :: Normalise(t))
  {
    hide Normalise, Fresh, Sort, EntryTexts, EligibleTexts;
    var added := Fresh(lines, |lines|, exclude, now, Existing(entries));
    assert lines[..|lines|] == lines;
    FreshMeaning(lines, |lines|, exclude, now, Existing(entries));
    SortIsStable(added);
    ExistingUnion(entries, Wrap(Sort(added)));
    WrapTexts(Sort(added));
    SameElements(Sort(added), added);
    NormalisedTexts(added, Existing(Wrap(Sort(added))));
  }

  lemma SameElements(a: seq<Message>, b: seq<Message>)
    requires multiset(a) == multiset(b)
    ensures forall m :: m in a <==> m in b
  {
    forall m
      ensures m in a <==> m in b
    {
      assert m in multiset(a) <==> m in multiset(b);
    }
  }

  lemma NormalisedTexts(added: seq<Message>, texts: set<string>)
    requires forall t :: t in texts <==> exists m :: m in added && t == Normalise(m.text)
    ensures texts == set t | t in Texts(added) :: Normalise(t)
  {
    hide Normalise;
    forall t | t in Texts(added)
      ensures Normalise(t) in texts
    {
      var m :| m in added && m.text == t;
    }
    forall m | m in added
      ensures m.text in Texts(added)
    {
    }
  }

  /** What a second sync of the same log adds: the eligible texts that the session did not have and
      that no new text normalises to. */
  lemma SecondSync(entries: seq<Entry>, lines: seq<LogLine>, exclude: string, now: nat -> int, later: nat -> int)
    ensures var once, eligible := Synced(entries, lines, exclude, now), EligibleTexts(lines, exclude);
            && Texts(Fresh(lines, |lines|, exclude, later, Existing(once)))
               == eligible - (Existing(entries) + (set t | t in eligible - Existing(entries) :: Normalise(t)))
            && (Synced(once, lines, exclude, later) == once
                <==> Texts(Fresh(lines, |lines|, exclude, later, Existing(once))) == {})
  {
    hide Normalise, Existing, Fresh, Sort, EligibleTexts;
    var once := Synced(entries, lines, exclude, now);
    var again := Fresh(lines, |lines|, exclude, later, Existing(once));
    assert lines[..|lines|] == lines;
    FreshMeaning(lines, |lines|, exclude, later, Existing(once));
    ExistingAfter(entries, lines, exclude, now);
    SortIsStable(again);
    if again == [] {
      assert Texts(again) == {};
      assert Synced(once, lines, exclude, later) == once;
    } else {
      assert again[0].text in Texts(again);
      assert |Synced(once, lines, exclude, later)| > |once|;
    }
  }

  /** Seen from the texts: one with a marker is always added again, one with neither marker nor stamp
      never; so if no text looks stamped, exactly those with a marker are. */
  lemma SecondSyncByText(entries: seq<Entry>, lines: seq<LogLine>, exclude: string, now: nat -> int, later: nat -> int)
    ensures var eligible := EligibleTexts(lines, exclude);
            var again := Texts(Fresh(lines, |lines|, exclude, later, Existing(Synced(entries, lines, exclude, now))));
            && (forall t <- eligible :: HasMarker(t) ==> t in again)
            && (forall t <- again :: HasMarker(t) || StartsWithStamp(t))
            && ((forall t <- eligible :: !StartsWithStamp(t)) ==> again == set t | t in eligible && HasMarker(t))
  {
    hide HasMarker, StartsWithStamp, Existing, Fresh, Synced, EligibleTexts, Texts, Normalise;
    SecondSync(entries, lines, exclude, now, later);
    var eligible := EligibleTexts(lines, exclude);
    forall t | t in eligible
      ensures HasMarker(t) ==> t !in Existing(entries) && forall u :: Normalise(u) != t
      ensures !HasMarker(t) && !StartsWithStamp(t) ==> Normalise(t) == t
    {
      NormaliseFixed(t);
      if HasMarker(t) {
        MarkedIsNew(entries, t);
      }
    }
  }

  lemma MarkedIsNew(entries: seq<Entry>, t: string)
    requires HasMarker(t)
    ensures t !in Existing(entries) && forall u :: Normalise(u) != t
  {
    forall u
      ensures Normalise(u) != t
    {
      StripLeavesNoMarker(StripStamp(u));
    }
    if t in Existing(entries) {
      ExistingUnmarked(entries, t);
    }
  }

  lemma NoLineBreak(t: string)
    requires '\n' !in t
    ensures !HasMarker(t)
  {
    forall k: nat | k < |t|
      ensures !MarkerAt(t, k)
    {
      assert MARKER[0] == '\n' && t[k] in t;
      assert k + |MARKER| <= |t| ==> t[k..k + |MARKER|][0] == t[k];
    }
  }

  lemma StampHasNoLineBreak(s: string)
    requires Matches(s, PATTERN)
    ensures '\n' !in s
  {
    assert forall i | 0 <= i < |PATTERN| :: PATTERN[i] != '\n';
  }

  lemma StampedText(c: Clock)
    requires c.Valid()
    ensures var t := Says(Stamp(c) + "] x", "hi");
            StartsWithStamp(t) && !HasMarker(t)
  {
    hide Stamp, Fits, HasMarker;
    var t, head := Says(Stamp(c) + "] x", "hi"), "[" + Stamp(c) + "] ";
    StampMatches(c);
    Brackets(Stamp(c));
    assert t == head + "x]: hi";
    assert t[..|PATTERN|] == head;
    StampHasNoLineBreak(head);
    NoLineBreak(t);
  }

  /** A name that looks like a stamp, whatever its date, is stripped from the synced text too, so its
      message is added again, without any marker. */
  lemma StampedNameAddedAgain(c: Clock, now: nat -> int, later: nat -> int)
    requires c.Valid()
    ensures var l := LogLine("1", "2024-01-01", None, "U1", Stamp(c) + "] x", "hi", false);
            && StartsWithStamp(TextOf(l)) && !HasMarker(TextOf(l))
            && Texts(Fresh([l], 1, "", later, Existing(Synced([], [l], "", now)))) == {TextOf(l)}
  {
    var l := LogLine("1", "2024-01-01", None, "U1", Stamp(c) + "] x", "hi", false);
    StampedText(c);
    NormaliseFixed(TextOf(l));
    OneLine(l);
    hide StartsWithStamp, HasMarker, Normalise, LogText, Fresh, Synced, Stamp, EligibleTexts;
    SecondSync([], [l], "", now, later);
    assert Existing([]) == {};
  }

  lemma OneLine(l: LogLine)
    requires Eligible(l, "")
    ensures EligibleTexts([l], "") == {TextOf(l)}
  {
    assert [l][0] in [l];
  }

  /** A message prompted live is added by a later sync exactly if it cannot be recognised and its text
      is nowhere else in the session. */
  lemma LiveMessageNotRepeated(before: seq<Entry>, after: seq<Entry>, lines: seq<LogLine>, l: LogLine, c: Clock,
                               paths: seq<string>,
                               sent: int, exclude: string, now: nat -> int)
    requires c.Valid() && l in lines && l.LogLine? && LineSays(l, exclude, TextOf(l))
    ensures var prompted := UserParts([TextPart(LivePrompt(c, l.userName, l.text, paths))], sent);
            var recognised := SameName(l.userName, l.user) && Clean(TextOf(l), paths);
            var added := Texts(Fresh(lines, |lines|, exclude, now, Existing(before + [prompted] + after)));
            TextOf(l) in added <==> !recognised && TextOf(l) !in Existing(before + after)
  {
    hide LivePrompt, Normalise, SameName, Clean, LogText, Fresh, Texts;
    var live := LivePrompt(c, l.userName, l.text, paths);
    var prompted := UserParts([TextPart(live)], sent);
    NormaliseInvertsPrompt(c, l.userName, l.user, l.text, paths);
    assert EntryTexts(prompted) == {Normalise(live)} by {
      assert TextPart(live) in prompted.parts;
    }
    assert Existing([prompted]) == {Normalise(live)} by {
      assert prompted in [prompted];
    }
    hide Existing;
    ExistingUnion(before + [prompted], after);
    ExistingUnion(before, [prompted]);
    ExistingUnion(before, after);
    assert lines[..|lines|] == lines;
    FreshMeaning(lines, |lines|, exclude, now, Existing(before + [prompted] + after));
    assert TextOf(l) in EligibleTexts(lines, exclude);
  }
}
