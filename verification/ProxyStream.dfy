/** Decoding the chunked line protocol of the proxy (packages/agent/src/proxy.ts, the read loop of
    `streamProxy`). `decode` stands for `JSON.parse`: nothing when it throws. */
module ProxyStream {
  import opened Wrappers
  import opened ProxyMessage

  type Decoder = string -> Option<ProxyEvent>

  // ---- Lines ----

  function Front(lines: seq<string>): seq<string>
    requires lines != []
  {
    lines[..|lines| - 1]
  }

  function Last(lines: seq<string>): string
    requires lines != []
  {
    lines[|lines| - 1]
  }

  /** What one more character does to the lines of a text. */
  function Grow(lines: seq<string>, c: char): (r: seq<string>)
    requires lines != []
    ensures r != []
  {
    if c == '\n' then lines + [""] else Front(lines) + [Last(lines) + [c]]
  }

  /** `text.split("\n")`. */
  function Split(text: string): (r: seq<string>)
    ensures r != []
  {
    if text == "" then [""] else Grow(Split(text[..|text| - 1]), text[|text| - 1])
  }

  function JoinLines(lines: seq<string>): string
    requires lines != []
  {
    if |lines| == 1 then lines[0] else JoinLines(Front(lines)) + "\n" + Last(lines)
  }

  lemma GrowJoined(lines: seq<string>, c: char)
    requires lines != []
    ensures JoinLines(Grow(lines, c)) == JoinLines(lines) + [c]
  {
    var after := Grow(lines, c);
    if c == '\n' {
      assert Front(after) == lines && Last(after) == "";
      assert JoinLines(lines) + "\n" + "" == JoinLines(lines) + [c];
    } else {
      assert Front(after) == Front(lines) && Last(after) == Last(lines) + [c];
      if |lines| > 1 {
        assert JoinLines(Front(lines)) + "\n" + (Last(lines) + [c]) == JoinLines(lines) + [c];
      }
    }
  }

  /** Splitting loses nothing and leaves no newline in any line. */
  lemma {:induction false} SplitIsExact(text: string)
    ensures JoinLines(Split(text)) == text
    ensures forall i | 0 <= i < |Split(text)| :: '\n' !in Split(text)[i]
  {
    hide JoinLines;
    if text != "" {
      var front, c := text[..|text| - 1], text[|text| - 1];
      SplitIsExact(front);
      GrowJoined(Split(front), c);
      assert front + [c] == text;
    } else {
      SplitNothing();
    }
  }

  lemma SplitNothing()
    ensures JoinLines(Split("")) == ""
  {
  }

  lemma SplitSnoc(text: string, c: char)
    ensures Split(text + [c]) == Grow(Split(text), c)
  {
    assert (text + [c])[..|text|] == text;
  }

  lemma GrowAppend(head: seq<string>, tail: seq<string>, c: char)
    requires tail != []
    ensures Grow(head + tail, c) == head + Grow(tail, c)
  {
    assert Last(head + tail) == Last(tail) && Front(head + tail) == head + Front(tail);
  }

  /** More text only continues the last line. */
  lemma {:induction false} SplitAppend(a: string, b: string)
    ensures Split(a + b) == Front(Split(a)) + Split(Last(Split(a)) + b)
  {
    var last := Last(Split(a));
    if b == "" {
      assert a + b == a && last + b == last;
      SplitIsExact(a);
      SplitOneLine(last);
    } else {
      hide Split, Grow;
      var front, c := b[..|b| - 1], b[|b| - 1];
      SplitAppend(a, front);
      assert a + b == (a + front) + [c] && last + b == (last + front) + [c];
      SplitSnoc(a + front, c);
      SplitSnoc(last + front, c);
      GrowAppend(Front(Split(a)), Split(last + front), c);
    }
  }

  lemma {:induction false} SplitOneLine(line: string)
    requires '\n' !in line
    ensures Split(line) == [line]
  {
    if line != "" {
      var front, c := line[..|line| - 1], line[|line| - 1];
      assert front + [c] == line && c in line;
      SplitOneLine(front);
      SplitSnoc(front, c);
      hide Split;
      assert Front([front]) == [] && Last([front]) == front;
    }
  }

  // ---- What the client does with a line ----

  /** The white space and line terminators of ECMAScript, which `trim` removes. */
  predicate Blank(c: char) {
    var code := c as int;
    || 0x09 <= code <= 0x0D || 0x2000 <= code <= 0x200A
    || code in {0x20, 0xA0, 0x1680, 0x2028, 0x2029, 0x202F, 0x205F, 0x3000, 0xFEFF}
  }

  function Trim(s: string): string {
    if s == "" then s
    else if Blank(s[0]) then Trim(s[1..])
    else if Blank(s[|s| - 1]) then Trim(s[..|s| - 1])
    else s
  }

  /** Trimming takes off blanks, and all that stand outside. */
  lemma {:induction false} TrimMeaning(s: string) returns (a: nat, b: nat)
    ensures a <= b <= |s| && Trim(s) == s[a..b]
    ensures forall k | 0 <= k < a || b <= k < |s| :: Blank(s[k])
    ensures a < b ==> !Blank(s[a]) && !Blank(s[b - 1])
    decreases |s|
  {
    hide Blank;
    a, b := 0, |s|;
    if s != "" && Blank(s[0]) {
      a, b := TrimMeaning(s[1..]);
      a, b := a + 1, b + 1;
    } else if s != "" && Blank(s[|s| - 1]) {
      a, b := TrimMeaning(s[..|s| - 1]);
    }
  }

  /** The blanks of a line of JSON are blank, and no printable character of ASCII is. */
  lemma BlankMeaning(c: char)
    ensures c in {' ', '\t', '\n', '\r'} ==> Blank(c)
    ensures '!' <= c <= '~' ==> !Blank(c)
  {
  }

  datatype Line = Skipped | Malformed | Event(event: ProxyEvent)

  const PREFIX := "data: "

  function ReadLine(decode: Decoder, line: string): Line {
    if |line| < 6 || line[..6] != PREFIX then Skipped
    else
      var data := Trim(line[6..]);
      if data == "" then Skipped
      else
        match decode(data)
        case None => Malformed
        case Some(e) => Event(e)
  }

  /** The client after some lines: the message, the events passed on, and whether it has thrown. */
  datatype Client = Client(partial: Partial, emitted: seq<AssistantEvent>, failed: bool)

  function HandleLine(parse: JsonParser, decode: Decoder, c: Client, line: string): Client {
    if c.failed then c
    else
      match ReadLine(decode, line)
      case Skipped => c
      case Malformed => c.(failed := true)
      case Event(e) =>
        match Step(parse, c.partial, e)
        case None => c.(failed := true)
        case Some(m) => Client(m, c.emitted + (if Report(m, e).Emitted? then [Report(m, e).event] else []), false)
  }

  function HandleLines(parse: JsonParser, decode: Decoder, c: Client, lines: seq<string>): Client {
    if lines == [] then c else HandleLine(parse, decode, HandleLines(parse, decode, c, Front(lines)), Last(lines))
  }

  lemma {:induction false} HandleAppend(parse: JsonParser, decode: Decoder, c: Client, a: seq<string>, b: seq<string>)
    ensures HandleLines(parse, decode, c, a + b) == HandleLines(parse, decode, HandleLines(parse, decode, c, a), b)
  {
    if b == [] {
      assert a + b == a;
    } else {
      assert Front(a + b) == a + Front(b);
      HandleAppend(parse, decode, c, a, Front(b));
    }
  }

  lemma {:induction false} FailureIsFinal(parse: JsonParser, decode: Decoder, c: Client, lines: seq<string>)
    requires c.failed
    ensures HandleLines(parse, decode, c, lines) == c
  {
    if lines != [] {
      FailureIsFinal(parse, decode, c, Front(lines));
    }
  }

  const START := Client(EMPTY, [], false)

  class ProxyReader {
    const decode: Decoder
    const partial: PartialMessage
    var buffer: string
    var emitted: seq<AssistantEvent>
    var failed: bool

    constructor (parse: JsonParser, decode: Decoder)
      ensures fresh(partial) && this.decode == decode && partial.parse == parse
      ensures View() == START && buffer == ""
    {
      this.decode := decode;
      partial := new PartialMessage(parse);
      buffer, emitted, failed := "", [], false;
    }

    function View(): Client reads this, partial {
      Client(partial.View(), emitted, failed)
    }

    method Handle(line: string)
      requires !failed
      modifies this`emitted, this`failed, partial
      ensures View() == HandleLine(partial.parse, decode, old(View()), line)
      ensures failed <==>
        && |line| >= 6 && line[..6] == "data: " && Trim(line[6..]) != ""
        && (decode(Trim(line[6..])) == None
            || Step(partial.parse, old(partial.View()), decode(Trim(line[6..])).value) == None)
      ensures failed ==> partial.View() == old(partial.View()) && emitted == old(emitted)
    {
      if |line| >= 6 && line[..6] == PREFIX {
        var data := Trim(line[6..]);
        if data != "" {
          var proxyEvent := decode(data);
          if proxyEvent.None? {
            failed := true;
            return;
          }
          var out := partial.ProcessProxyEvent(proxyEvent.value);
          if out.Threw? {
            failed := true;
          } else if out.Emitted? {
            emitted := emitted + [out.event];
          }
        }
      }
    }

    /** One chunk of the decoded stream: complete lines are handled, the rest waits in the buffer. */
    method Receive(chunk: string)
      requires !failed
      modifies this, partial
      ensures var lines := Split(old(buffer) + chunk);
              && buffer == Last(lines)
              && View() == HandleLines(partial.parse, decode, old(View()), Front(lines))
    {
      hide Split, HandleLine;
      buffer := buffer + chunk;
      var lines := Split(buffer);
      buffer := lines[|lines| - 1];
      lines := lines[..|lines| - 1];
      var i := 0;
      while i < |lines| && !failed
        invariant 0 <= i <= |lines|
        invariant View() == HandleLines(partial.parse, decode, old(View()), lines[..i])
        invariant buffer == Last(Split(old(buffer) + chunk)) && lines == Front(Split(old(buffer) + chunk))
      {
        assert Front(lines[..i + 1]) == lines[..i];
        Handle(lines[i]);
        i := i + 1;
      }
      HandleAppend(partial.parse, decode, old(View()), lines[..i], lines[i..]);
      assert lines[..i] + lines[i..] == lines;
      if failed {
        FailureIsFinal(partial.parse, decode, View(), lines[i..]);
      }
    }

    /** The read loop. However the text is cut into chunks, the client handles the complete lines of the
        whole text, and unless it has thrown the buffer holds exactly the unterminated tail. */
    method ReadAll(chunks: seq<string>)
      requires View() == START && buffer == ""
      modifies this, partial
      ensures var lines := Split(Concat(chunks));
              && View() == HandleLines(partial.parse, decode, START, Front(lines))
              && (!failed ==> buffer == Last(lines))
    {
      var k := 0;
      while k < |chunks| && !failed
        invariant 0 <= k <= |chunks|
        invariant View() == HandleLines(partial.parse, decode, START, Front(Split(Concat(chunks[..k]))))
        invariant !failed ==> buffer == Last(Split(Concat(chunks[..k])))
      {
        assert chunks[..k + 1][..k] == chunks[..k];
        NextChunk(partial.parse, decode, Concat(chunks[..k]), chunks[k]);
        Receive(chunks[k]);
        k := k + 1;
      }
      ConcatSplit(chunks, k);
      MoreText(partial.parse, decode, Concat(chunks[..k]), Concat(chunks[k..]));
    }
  }

  lemma NextChunk(parse: JsonParser, decode: Decoder, text: string, chunk: string)
    ensures var lines := Split(Last(Split(text)) + chunk);
            && Last(Split(text + chunk)) == Last(lines)
            && HandleLines(parse, decode, START, Front(Split(text + chunk)))
               == HandleLines(parse, decode, HandleLines(parse, decode, START, Front(Split(text))), Front(lines))
  {
    SplitAppend(text, chunk);
    var lines := Split(Last(Split(text)) + chunk);
    assert Front(Split(text + chunk)) == Front(Split(text)) + Front(lines);
    HandleAppend(parse, decode, START, Front(Split(text)), Front(lines));
  }

  /** Once the client has thrown, the text that follows changes nothing; no text changes nothing. */
  lemma MoreText(parse: JsonParser, decode: Decoder, text: string, more: string)
    requires more == "" || HandleLines(parse, decode, START, Front(Split(text))).failed
    ensures HandleLines(parse, decode, START, Front(Split(text + more)))
            == HandleLines(parse, decode, START, Front(Split(text)))
    ensures more == "" ==> text + more == text
  {
    if more == "" {
      assert text + more == text;
    } else {
      NextChunk(parse, decode, text, more);
      FailureIsFinal(parse, decode, HandleLines(parse, decode, START, Front(Split(text))),
                     Front(Split(Last(Split(text)) + more)));
    }
  }

  lemma {:induction false} ConcatSplit(chunks: seq<string>, k: nat)
    requires k <= |chunks|
    ensures Concat(chunks) == Concat(chunks[..k]) + Concat(chunks[k..])
  {
    if k == |chunks| {
      assert chunks[..k] == chunks && Concat(chunks) + "" == Concat(chunks);
    } else {
      var front := chunks[..|chunks| - 1];
      ConcatSplit(front, k);
      assert front[..k] == chunks[..k] && front[k..] == chunks[k..][..|chunks| - k - 1];
    }
  }

  // ---- From the server's message to the client's ----

  type Encoder = ProxyEvent -> string

  /** The server's side: one "data: " line an event, then an empty line. */
  function Wire(encode: Encoder, es: seq<ProxyEvent>): string {
    if es == [] then "" else Wire(encode, es[..|es| - 1]) + ("data: " + encode(es[|es| - 1]) + "\n" + "\n")
  }

  function WireLines(encode: Encoder, es: seq<ProxyEvent>): seq<string> {
    if es == [] then [] else WireLines(encode, es[..|es| - 1]) + ["data: " + encode(es[|es| - 1])] + [""]
  }

  /** The server's JSON text is one trimmed line, and the client's parser reads it back. */
  predicate Readable(encode: Encoder, decode: Decoder, e: ProxyEvent) {
    && decode(encode(e)) == Some(e)
    && encode(e) != "" && Trim(encode(e)) == encode(e) && '\n' !in encode(e)
  }

  lemma RecordSplits(line: string)
    requires '\n' !in line
    ensures Split("" + (line + "\n" + "\n")) == [line] + [""] + [""]
  {
    var ended := line + "\n";
    SplitOneLine(line);
    assert ended[..|line|] == line && (ended + "\n")[..|ended|] == ended;
    assert "" + (ended + "\n") == ended + "\n";
  }

  lemma {:induction false} WireSplits(encode: Encoder, decode: Decoder, es: seq<ProxyEvent>)
    requires forall e | e in es :: Readable(encode, decode, e)
    ensures Split(Wire(encode, es)) == WireLines(encode, es) + [""]
  {
    if es != [] {
      var front, e := es[..|es| - 1], es[|es| - 1];
      assert e in es;
      WireSplits(encode, decode, front);
      var line := PREFIX + encode(e);
      assert '\n' !in line;
      assert Wire(encode, es) == Wire(encode, front) + (line + "\n" + "\n");
      assert WireLines(encode, es) == WireLines(encode, front) + [line] + [""];
      hide Split, Wire, WireLines, Readable;
      RecordSplits(line);
      SplitAppend(Wire(encode, front), line + "\n" + "\n");
      assert Last(WireLines(encode, front) + [""]) == "";
      assert Front(WireLines(encode, front) + [""]) == WireLines(encode, front);
    }
  }

  lemma EventLine(encode: Encoder, decode: Decoder, e: ProxyEvent)
    requires Readable(encode, decode, e)
    ensures ReadLine(decode, PREFIX + encode(e)) == Event(e)
    ensures ReadLine(decode, "") == Skipped
  {
    hide Trim;
    var line := PREFIX + encode(e);
    assert line[..6] == PREFIX && line[6..] == encode(e);
  }

  lemma HandleSnoc(parse: JsonParser, decode: Decoder, c: Client, lines: seq<string>, line: string)
    ensures HandleLines(parse, decode, c, lines + [line])
            == HandleLine(parse, decode, HandleLines(parse, decode, c, lines), line)
  {
    assert Front(lines + [line]) == lines;
  }

  /** One record, its event line and the empty line behind it, is one step of the message. */
  lemma RecordHandled(parse: JsonParser, encode: Encoder, decode: Decoder, c: Client, e: ProxyEvent)
    requires Readable(encode, decode, e) && !c.failed && Step(parse, c.partial, e).Some?
    ensures var d := HandleLine(parse, decode, HandleLine(parse, decode, c, PREFIX + encode(e)), "");
            && !d.failed && d.partial == Step(parse, c.partial, e).value
            && (Silent(d.partial, e) ==> d.emitted == c.emitted)
            && (!Silent(d.partial, e) ==>
                  |d.emitted| == |c.emitted| + 1 && c.emitted <= d.emitted
                  && Tells(d.emitted[|c.emitted|], e, d.partial))
  {
    hide Readable, ReadLine, Step;
    EventLine(encode, decode, e);
    if e.TextEnd? || e.ThinkingEnd? {
      EndHoldsText(parse, c.partial, e);
    }
  }

  lemma {:induction false} WireHandled(parse: JsonParser, encode: Encoder, decode: Decoder, es: seq<ProxyEvent>)
    requires forall e | e in es :: Readable(encode, decode, e)
    requires Fold(parse, es).Some?
    ensures var c := HandleLines(parse, decode, START, WireLines(encode, es));
            !c.failed && c.partial == Fold(parse, es).value
  {
    if es == [] {
      NothingHandled(parse, encode, decode);
    } else {
      hide Readable, HandleLine, HandleLines, Step;
      var front, e := es[..|es| - 1], es[|es| - 1];
      assert e in es;
      WireHandled(parse, encode, decode, front);
      var before, line := WireLines(encode, front), PREFIX + encode(e);
      RecordHandled(parse, encode, decode, HandleLines(parse, decode, START, before), e);
      HandleSnoc(parse, decode, START, before, line);
      HandleSnoc(parse, decode, START, before + [line], "");
    }
  }

  lemma NothingHandled(parse: JsonParser, encode: Encoder, decode: Decoder)
    ensures HandleLines(parse, decode, START, WireLines(encode, [])) == START && Fold(parse, []) == Some(EMPTY)
  {
  }

  // ---- What the consumer is told ----

  /** A block that is a tool call. */
  predicate HoldsCall(m: Partial, i: nat) {
    i < |m.content| && m.content[i].Some? && m.content[i].value.ToolCall?
  }

  /** A block that is text or thinking. */
  predicate HoldsText(m: Partial, i: nat) {
    i < |m.content| && m.content[i].Some? && !m.content[i].value.ToolCall?
  }

  lemma EndHoldsText(parse: JsonParser, before: Partial, e: ProxyEvent)
    requires (e.TextEnd? || e.ThinkingEnd?) && Step(parse, before, e).Some?
    ensures HoldsText(Step(parse, before, e).value, e.contentIndex)
    ensures Step(parse, before, e).value.content[e.contentIndex].value.Text? <==> e.TextEnd?
  {
  }

  /** The consumer is told nothing of kinds the client does not know, nor of the end of no tool call. */
  predicate Silent(m: Partial, e: ProxyEvent) {
    e.Unhandled? || (e.ToolCallEnd? && !HoldsCall(m, e.contentIndex))
  }

  /** The consumer is told of this event, with the message as it is then. */
  predicate Tells(a: AssistantEvent, e: ProxyEvent, m: Partial) {
    match e
    case Start => a == Started(m)
    case Done(reason, _) => a == Finished(reason, m)
    case Failure(reason, _, _) => a == FailedWith(reason, m)
    case Unhandled(_) => false
    case TextStart(i) => a == BlockStarted(i, m)
    case ThinkingStart(i) => a == BlockStarted(i, m)
    case ToolCallStart(i, _, _) => a == BlockStarted(i, m)
    case TextDelta(i, delta) => a == BlockDelta(i, delta, m)
    case ThinkingDelta(i, delta) => a == BlockDelta(i, delta, m)
    case ToolCallDelta(i, delta) => a == BlockDelta(i, delta, m)
    case TextEnd(i, _) => HoldsText(m, i) && a == BlockEnded(i, TextOf(m.content[i].value), m)
    case ThinkingEnd(i, _) => HoldsText(m, i) && a == BlockEnded(i, TextOf(m.content[i].value), m)
    case ToolCallEnd(i) => HoldsCall(m, i) && a == ToolCallEnded(i, m.content[i].value, m)
  }

  /** The events the client knows. */
  function Known(es: seq<ProxyEvent>): seq<ProxyEvent> {
    if es == [] then []
    else Known(es[..|es| - 1]) + if es[|es| - 1].Unhandled? then [] else [es[|es| - 1]]
  }

  lemma KnownSnoc(es: seq<ProxyEvent>, e: ProxyEvent)
    ensures Known(es + [e]) == if e.Unhandled? then Known(es) else Known(es) + [e]
  {
    assert (es + [e])[..|es|] == es;
  }

  lemma FoldSnoc(parse: JsonParser, es: seq<ProxyEvent>, e: ProxyEvent)
    ensures Fold(parse, es + [e]) == if Fold(parse, es).None? then None else Step(parse, Fold(parse, es).value, e)
  {
    assert (es + [e])[..|es|] == es;
  }

  lemma UnhandledSteps(parse: JsonParser, m: Partial, e: ProxyEvent)
    requires e.Unhandled?
    ensures Step(parse, m, e) == Some(m)
  {
  }

  lemma {:induction false} FoldKnown(parse: JsonParser, es: seq<ProxyEvent>)
    ensures Fold(parse, Known(es)) == Fold(parse, es)
  {
    hide Step;
    if es != [] {
      hide Fold, Known;
      var front, e := es[..|es| - 1], es[|es| - 1];
      assert front + [e] == es;
      FoldKnown(parse, front);
      KnownSnoc(front, e);
      FoldSnoc(parse, front, e);
      FoldSnoc(parse, Known(front), e);
      if e.Unhandled? && Fold(parse, front).Some? {
        UnhandledSteps(parse, Fold(parse, front).value, e);
      }
    }
  }

  lemma {:induction false} KnownAtIndex(es: seq<ProxyEvent>, i: nat)
    ensures AtIndex(Known(es), i) == AtIndex(es, i)
  {
    if es != [] {
      var front, e := es[..|es| - 1], es[|es| - 1];
      KnownAtIndex(front, i);
      if e.Unhandled? {
        assert Known(es) == Known(front);
      } else {
        assert (Known(front) + [e])[..|Known(front)|] == Known(front);
      }
    }
  }

  /** The consumer is told of every known event, once and in order, each time with the message that the
      events up to this one make. */
  ghost predicate TellsAll(parse: JsonParser, emitted: seq<AssistantEvent>, known: seq<ProxyEvent>) {
    |emitted| == |known| && forall j | 0 <= j < |known| :: TellsNth(parse, emitted[j], known, j)
  }

  predicate TellsNth(parse: JsonParser, a: AssistantEvent, known: seq<ProxyEvent>, j: nat)
    requires j < |known|
  {
    Fold(parse, known[..j + 1]).Some? && Tells(a, known[j], Fold(parse, known[..j + 1]).value)
  }

  lemma TellsNext(parse: JsonParser, emitted: seq<AssistantEvent>, known: seq<ProxyEvent>, after: seq<AssistantEvent>,
                  e: ProxyEvent)
    requires TellsAll(parse, emitted, known) && emitted <= after && |after| == |emitted| + 1
    requires Fold(parse, known + [e]).Some? && Tells(after[|emitted|], e, Fold(parse, known + [e]).value)
    ensures TellsAll(parse, after, known + [e])
  {
    hide Tells, Fold;
    var all := known + [e];
    assert all[..|known| + 1] == all && all[|known|] == e;
    forall j | 0 <= j < |all|
      ensures TellsNth(parse, after[j], all, j)
    {
      if j < |known| {
        assert TellsNth(parse, emitted[j], known, j);
        assert all[..j + 1] == known[..j + 1] && after[j] == emitted[j];
      }
    }
  }

  /** Whenever a tool call ends, its block is a tool call. */
  ghost predicate EndsFit(parse: JsonParser, es: seq<ProxyEvent>) {
    forall k | 0 <= k < |es| && es[k].ToolCallEnd? ::
      Fold(parse, es[..k + 1]).Some? && HoldsCall(Fold(parse, es[..k + 1]).value, es[k].contentIndex)
  }

  lemma {:induction false} FoldPrefix(parse: JsonParser, es: seq<ProxyEvent>, k: nat)
    requires k <= |es| && Fold(parse, es).Some?
    ensures Fold(parse, es[..k]).Some?
  {
    if k < |es| {
      var front := es[..|es| - 1];
      FoldPrefix(parse, front, k);
      assert front[..k] == es[..k];
    } else {
      assert es[..k] == es;
    }
  }

  lemma {:induction false} AtIndexPrefix(es: seq<ProxyEvent>, k: nat, i: nat)
    requires k <= |es|
    ensures AtIndex(es[..k], i) <= AtIndex(es, i)
  {
    if k < |es| {
      var front := es[..|es| - 1];
      AtIndexPrefix(front, k, i);
      assert front[..k] == es[..k];
    } else {
      assert es[..k] == es;
    }
  }

  lemma {:induction false} NoEndInside(i: nat, c: Content, deltas: seq<string>, n: nat)
    requires n <= |deltas|
    ensures |StreamOf(i, c, deltas, n)| == n + 1
    ensures forall e <- StreamOf(i, c, deltas, n) :: !e.ToolCallEnd?
  {
    if n > 0 {
      NoEndInside(i, c, deltas, n - 1);
    }
  }

  /** Where a tool call's end stands among the events of its block: behind all the others. */
  lemma EndIsLast(part: seq<ProxyEvent>, i: nat, c: Content, deltas: seq<string>)
    requires part != [] && part <= StreamOf(i, c, deltas, |deltas|) + [EndOf(i, c)] && part[|part| - 1].ToolCallEnd?
    ensures part == StreamOf(i, c, deltas, |deltas|) + [EndOf(i, c)] && c.ToolCall?
  {
    NoEndInside(i, c, deltas, |deltas|);
    PrefixLast(part, StreamOf(i, c, deltas, |deltas|), EndOf(i, c));
    hide StreamOf;
  }

  lemma PrefixLast(part: seq<ProxyEvent>, front: seq<ProxyEvent>, last: ProxyEvent)
    requires part != [] && part <= front + [last]
    ensures part == front + [last] || part[|part| - 1] in front
    ensures part == front + [last] ==> part[|part| - 1] == last
  {
  }

  /** What is streamed well ends its tool calls well. */
  lemma StreamsEndWell(parse: JsonParser, es: seq<ProxyEvent>, cs: seq<Content>, pieces: seq<seq<string>>)
    requires StreamsAll(parse, es, cs, pieces) && Fold(parse, es).Some?
    ensures EndsFit(parse, es)
  {
    hide Fold, AtIndex, StreamOf, EndOf, FoldBlock, FoldContent, Unsigned;
    forall k | 0 <= k < |es| && es[k].ToolCallEnd?
      ensures Fold(parse, es[..k + 1]).Some?
      ensures HoldsCall(Fold(parse, es[..k + 1]).value, es[k].contentIndex)
    {
      var i, part := es[k].contentIndex, es[..k + 1];
      assert es[k] in es && i < |cs|;
      FoldPrefix(parse, es, k + 1);
      AtIndexPrefix(es, k + 1, i);
      AtIndexLast(part, i);
      EndIsLast(AtIndex(part, i), i, cs[i], pieces[i]);
      EndBuilds(parse, i, cs[i], pieces[i]);
      FoldKeepsContent(parse, part);
      BlocksAreIndependent(parse, part);
      UnsignedCall(cs[i]);
      assert At(FoldContent(parse, part).value, i) == Some(Unsigned(cs[i]));
    }
  }

  lemma UnsignedCall(c: Content)
    ensures Unsigned(c).ToolCall? <==> c.ToolCall?
  {
  }

  lemma AtIndexLast(es: seq<ProxyEvent>, i: nat)
    requires es != [] && Index(es[|es| - 1]) == Some(i)
    ensures AtIndex(es, i) != [] && AtIndex(es, i)[|AtIndex(es, i)| - 1] == es[|es| - 1]
  {
  }

  lemma ClosingFits(parse: JsonParser, es: seq<ProxyEvent>, e: ProxyEvent)
    requires EndsFit(parse, es) && !e.ToolCallEnd?
    ensures EndsFit(parse, es + [e])
  {
    hide Fold;
    var all := es + [e];
    forall k | 0 <= k < |all| && all[k].ToolCallEnd?
      ensures Fold(parse, all[..k + 1]).Some? && HoldsCall(Fold(parse, all[..k + 1]).value, all[k].contentIndex)
    {
      assert all[..k + 1] == es[..k + 1];
    }
  }

  /** The deltas the consumer was told of for this index since its start. */
  function DeltasTold(emitted: seq<AssistantEvent>, i: nat): string {
    if emitted == [] then ""
    else
      var before, a := DeltasTold(emitted[..|emitted| - 1], i), emitted[|emitted| - 1];
      if a.BlockStarted? && a.contentIndex == i then ""
      else if a.BlockDelta? && a.contentIndex == i then before + a.delta
      else before
  }

  lemma {:induction false} DeltasAreTold(parse: JsonParser, emitted: seq<AssistantEvent>, known: seq<ProxyEvent>,
                                         i: nat)
    requires TellsAll(parse, emitted, known)
    ensures DeltasTold(emitted, i) == SinceStart(AtIndex(known, i))
  {
    hide *;
    ToldLength(parse, emitted, known);
    if known == [] {
      NothingTold(i);
    } else {
      var n := |known| - 1;
      TellsFront(parse, emitted, known);
      DeltasAreTold(parse, emitted[..n], known[..n], i);
      LastTold(parse, emitted, known, i);
      assert known[..n] + [known[n]] == known && emitted[..n] + [emitted[n]] == emitted;
      AtIndexSnoc(known[..n], known[n], i);
      SinceStartSnoc(AtIndex(known[..n], i), known[n]);
      DeltasToldSnoc(emitted[..n], emitted[n], i);
    }
  }

  lemma ToldLength(parse: JsonParser, emitted: seq<AssistantEvent>, known: seq<ProxyEvent>)
    requires TellsAll(parse, emitted, known)
    ensures |emitted| == |known|
  {
    hide TellsNth;
  }

  lemma NothingTold(i: nat)
    ensures DeltasTold([], i) == SinceStart(AtIndex([], i))
  {
  }

  lemma LastTold(parse: JsonParser, emitted: seq<AssistantEvent>, known: seq<ProxyEvent>, i: nat)
    requires TellsAll(parse, emitted, known) && known != []
    ensures var a, e := emitted[|known| - 1], known[|known| - 1];
            && (a.BlockStarted? && a.contentIndex == i <==> Index(e) == Some(i) && Begins(e))
            && (a.BlockDelta? && a.contentIndex == i <==> Index(e) == Some(i) && Carries(e))
            && (Carries(e) ==> a.BlockDelta? && a.delta == e.delta)
  {
    hide Fold;
    var n := |known| - 1;
    assert TellsNth(parse, emitted[n], known, n);
    DeltaTold(emitted[n], known[n], Fold(parse, known[..n + 1]).value, i);
  }

  lemma DeltasToldSnoc(emitted: seq<AssistantEvent>, a: AssistantEvent, i: nat)
    ensures DeltasTold(emitted + [a], i)
         == if a.BlockStarted? && a.contentIndex == i then ""
            else if a.BlockDelta? && a.contentIndex == i then DeltasTold(emitted, i) + a.delta
            else DeltasTold(emitted, i)
  {
    assert (emitted + [a])[..|emitted|] == emitted;
  }

  /** What an event and what is told of it do to the deltas so far. */
  lemma DeltaTold(a: AssistantEvent, e: ProxyEvent, m: Partial, i: nat)
    requires Tells(a, e, m)
    ensures a.BlockStarted? && a.contentIndex == i <==> Index(e) == Some(i) && Begins(e)
    ensures a.BlockDelta? && a.contentIndex == i <==> Index(e) == Some(i) && Carries(e)
    ensures Carries(e) ==> a.BlockDelta? && a.delta == e.delta
  {
  }

  predicate Begins(e: ProxyEvent) {
    e.TextStart? || e.ThinkingStart? || e.ToolCallStart?
  }

  predicate Carries(e: ProxyEvent) {
    e.TextDelta? || e.ThinkingDelta? || e.ToolCallDelta?
  }

  lemma AtIndexSnoc(es: seq<ProxyEvent>, e: ProxyEvent, i: nat)
    ensures AtIndex(es + [e], i) == if Index(e) == Some(i) then AtIndex(es, i) + [e] else AtIndex(es, i)
  {
    assert (es + [e])[..|es|] == es;
  }

  lemma SinceStartSnoc(es: seq<ProxyEvent>, e: ProxyEvent)
    ensures SinceStart(es + [e])
         == if Begins(e) then "" else if Carries(e) then SinceStart(es) + e.delta else SinceStart(es)
  {
    assert (es + [e])[..|es|] == es;
  }

  lemma TellsFront(parse: JsonParser, emitted: seq<AssistantEvent>, known: seq<ProxyEvent>)
    requires TellsAll(parse, emitted, known) && known != []
    ensures TellsAll(parse, emitted[..|known| - 1], known[..|known| - 1])
  {
    hide Fold, Tells;
    var front := known[..|known| - 1];
    forall j | 0 <= j < |front|
      ensures TellsNth(parse, emitted[..|front|][j], front, j)
    {
      assert TellsNth(parse, emitted[j], known, j);
      assert front[..j + 1] == known[..j + 1];
    }
  }

  lemma {:induction false} StreamSpells(i: nat, c: Content, deltas: seq<string>, n: nat)
    requires n <= |deltas|
    ensures SinceStart(StreamOf(i, c, deltas, n)) == Concat(deltas[..n])
  {
    if n == 0 {
      assert [StartOf(i, c)][..0] == [];
    } else {
      var before, e := StreamOf(i, c, deltas, n - 1), DeltaOf(i, c, deltas[n - 1]);
      StreamSpells(i, c, deltas, n - 1);
      assert (before + [e])[..|before|] == before;
      assert deltas[..n][..n - 1] == deltas[..n - 1];
    }
  }

  lemma BlockSpells(i: nat, c: Content, deltas: seq<string>)
    ensures SinceStart(StreamOf(i, c, deltas, |deltas|) + [EndOf(i, c)]) == Concat(deltas)
  {
    var stream, e := StreamOf(i, c, deltas, |deltas|), EndOf(i, c);
    StreamSpells(i, c, deltas, |deltas|);
    assert (stream + [e])[..|stream|] == stream && deltas[..|deltas|] == deltas;
  }

  lemma FrontFits(parse: JsonParser, es: seq<ProxyEvent>)
    requires EndsFit(parse, es) && es != []
    ensures EndsFit(parse, es[..|es| - 1])
  {
    hide Fold;
    var front := es[..|es| - 1];
    forall k | 0 <= k < |front| && front[k].ToolCallEnd?
      ensures Fold(parse, front[..k + 1]).Some?
      ensures HoldsCall(Fold(parse, front[..k + 1]).value, front[k].contentIndex)
    {
      assert front[..k + 1] == es[..k + 1];
    }
  }

  lemma LastStep(parse: JsonParser, es: seq<ProxyEvent>)
    requires es != [] && Fold(parse, es).Some? && EndsFit(parse, es)
    ensures var front, e := es[..|es| - 1], es[|es| - 1];
            && Fold(parse, front).Some? && Step(parse, Fold(parse, front).value, e) == Fold(parse, es)
            && (Silent(Fold(parse, es).value, e) <==> e.Unhandled?)
            && Known(es) == Known(front) + (if e.Unhandled? then [] else [e])
            && Fold(parse, Known(es)) == Fold(parse, es)
  {
    assert es[..|es|] == es;
    FoldKnown(parse, es);
  }

  lemma {:induction false} AllTold(parse: JsonParser, encode: Encoder, decode: Decoder, es: seq<ProxyEvent>)
    requires forall e | e in es :: Readable(encode, decode, e)
    requires Fold(parse, es).Some? && EndsFit(parse, es)
    ensures TellsAll(parse, HandleLines(parse, decode, START, WireLines(encode, es)).emitted, Known(es))
  {
    if es == [] {
      NothingHandled(parse, encode, decode);
    } else {
      hide Readable, HandleLine, HandleLines, Step, Fold, Known, Tells, Silent, TellsAll, EndsFit;
      var front, e := es[..|es| - 1], es[|es| - 1];
      assert e in es;
      FrontFits(parse, es);
      LastStep(parse, es);
      AllTold(parse, encode, decode, front);
      WireHandled(parse, encode, decode, front);
      var before, line := WireLines(encode, front), PREFIX + encode(e);
      var c := HandleLines(parse, decode, START, before);
      RecordHandled(parse, encode, decode, c, e);
      HandleSnoc(parse, decode, START, before, line);
      HandleSnoc(parse, decode, START, before + [line], "");
      if e.Unhandled? {
        assert Known(front) + [] == Known(front);
      } else {
        TellsNext(parse, c.emitted, Known(front), HandleLines(parse, decode, START, WireLines(encode, es)).emitted, e);
      }
    }
  }

  /** End to end: if the server streams the blocks of a message in any interleaving and the text
      arrives in any chunks (`ReadAll` handles these very lines), the client ends with that message,
      tool calls without their signatures; so with the very message exactly if no tool call is signed. */
  lemma MessageArrives(parse: JsonParser, encode: Encoder, decode: Decoder, es: seq<ProxyEvent>, cs: seq<Content>,
                       pieces: seq<seq<string>>, reason: StopReason, errorMessage: Option<string>, usage: Usage)
    requires StreamsAll(parse, es, cs, pieces)
    requires forall e | e in es :: !e.Done? && !e.Failure?
    requires reason.Error? || reason.Aborted? || errorMessage == None
    requires forall e | e in es + [Closing(reason, errorMessage, usage)] :: Readable(encode, decode, e)
    ensures var text := Wire(encode, es + [Closing(reason, errorMessage, usage)]);
            var c := HandleLines(parse, decode, START, Front(Split(text)));
            && !c.failed
            && c.partial == Partial(Filled(UnsignedAll(cs)), reason, errorMessage, usage)
            && (c.partial == Partial(Filled(cs), reason, errorMessage, usage) <==> forall b <- cs :: !Signed(b))
  {
    hide StreamsAll, Readable, HandleLines, Filled, UnsignedAll, Signed, Split;
    var all := es + [Closing(reason, errorMessage, usage)];
    ReconstructsMessage(parse, es, cs, pieces, reason, errorMessage, usage);
    WireSplits(encode, decode, all);
    WireHandled(parse, encode, decode, all);
    assert Front(WireLines(encode, all) + [""]) == WireLines(encode, all);
  }

  lemma ClosingAtIndex(es: seq<ProxyEvent>, closing: ProxyEvent, i: nat)
    requires Index(closing) == None
    ensures AtIndex(es + [closing], i) == AtIndex(es, i)
  {
    assert (es + [closing])[..|es|] == es;
  }

  lemma {:induction false} KnownKinds(es: seq<ProxyEvent>)
    ensures forall e <- Known(es) :: e in es && !e.Unhandled?
  {
    if es != [] {
      KnownKinds(es[..|es| - 1]);
    }
  }

  /** Under the same conditions the consumer is told everything: every event the client knows, once and
      in order, each with the message that the events up to it make; for each block deltas that spell its
      pieces; and, last and only once, the end, by its kind, with the whole message. */
  lemma EventsArrive(parse: JsonParser, encode: Encoder, decode: Decoder, es: seq<ProxyEvent>, cs: seq<Content>,
                     pieces: seq<seq<string>>, reason: StopReason, errorMessage: Option<string>, usage: Usage)
    requires StreamsAll(parse, es, cs, pieces)
    requires forall e | e in es :: !e.Done? && !e.Failure?
    requires reason.Error? || reason.Aborted? || errorMessage == None
    requires forall e | e in es + [Closing(reason, errorMessage, usage)] :: Readable(encode, decode, e)
    ensures var all := es + [Closing(reason, errorMessage, usage)];
            var emitted := HandleLines(parse, decode, START, Front(Split(Wire(encode, all)))).emitted;
            var message := Partial(Filled(UnsignedAll(cs)), reason, errorMessage, usage);
            && TellsAll(parse, emitted, Known(all)) && emitted != []
            && emitted[|emitted| - 1] == (if reason.Error? || reason.Aborted? then FailedWith(reason, message)
                                          else Finished(reason, message))
            && (forall j | 0 <= j < |emitted| - 1 :: !emitted[j].Finished? && !emitted[j].FailedWith?)
            && (forall i | 0 <= i < |cs| :: DeltasTold(emitted, i) == Concat(pieces[i]))
  {
    var closing := Closing(reason, errorMessage, usage);
    var all := es + [closing];
    assert Index(closing) == None && (closing.Done? || closing.Failure?) && closing.reason == reason;
    assert closing.Failure? <==> reason.Error? || reason.Aborted?;
    hide *;
    ReconstructsMessage(parse, es, cs, pieces, reason, errorMessage, usage);
    AllEventsTold(parse, encode, decode, es, cs, pieces, closing);
    var emitted := HandleLines(parse, decode, START, Front(Split(Wire(encode, all)))).emitted;
    KnownSnoc(es, closing);
    KnownKinds(es);
    FoldKnown(parse, all);
    ClosingTold(parse, emitted, Known(es), closing);
    PiecesTold(parse, emitted, es, closing, cs, pieces);
  }

  lemma AllEventsTold(parse: JsonParser, encode: Encoder, decode: Decoder, es: seq<ProxyEvent>, cs: seq<Content>,
                      pieces: seq<seq<string>>, closing: ProxyEvent)
    requires StreamsAll(parse, es, cs, pieces) && Fold(parse, es + [closing]).Some? && !closing.ToolCallEnd?
    requires forall e | e in es + [closing] :: Readable(encode, decode, e)
    ensures TellsAll(parse, HandleLines(parse, decode, START, Front(Split(Wire(encode, es + [closing])))).emitted,
                     Known(es + [closing]))
  {
    var all := es + [closing];
    var lines := WireLines(encode, all);
    assert all[..|es|] == es && Front(lines + [""]) == lines;
    hide *;
    FoldPrefix(parse, all, |es|);
    StreamsEndWell(parse, es, cs, pieces);
    ClosingFits(parse, es, closing);
    WireSplits(encode, decode, all);
    AllTold(parse, encode, decode, all);
  }

  lemma PiecesTold(parse: JsonParser, emitted: seq<AssistantEvent>, es: seq<ProxyEvent>, closing: ProxyEvent,
                   cs: seq<Content>, pieces: seq<seq<string>>)
    requires StreamsAll(parse, es, cs, pieces) && Index(closing) == None
    requires TellsAll(parse, emitted, Known(es + [closing]))
    ensures |pieces| == |cs| && forall i | 0 <= i < |cs| :: DeltasTold(emitted, i) == Concat(pieces[i])
  {
    var all := es + [closing];
    forall i | 0 <= i < |cs|
      ensures DeltasTold(emitted, i) == Concat(pieces[i])
    {
      hide StreamsAll, Known, TellsAll, DeltasTold, SinceStart, AtIndex, StreamOf, EndOf, Concat;
      DeltasAreTold(parse, emitted, Known(all), i);
      KnownAtIndex(all, i);
      ClosingAtIndex(es, closing, i);
      BlockStream(parse, es, cs, pieces, i);
      BlockSpells(i, cs[i], pieces[i]);
    }
  }

  lemma BlockStream(parse: JsonParser, es: seq<ProxyEvent>, cs: seq<Content>, pieces: seq<seq<string>>, i: nat)
    requires StreamsAll(parse, es, cs, pieces) && i < |cs|
    ensures |pieces| == |cs|
    ensures AtIndex(es, i) == StreamOf(i, cs[i], pieces[i], |pieces[i]|) + [EndOf(i, cs[i])]
  {
  }

  lemma ClosingTold(parse: JsonParser, emitted: seq<AssistantEvent>, known: seq<ProxyEvent>, closing: ProxyEvent)
    requires TellsAll(parse, emitted, known + [closing]) && (closing.Done? || closing.Failure?)
    requires forall e <- known :: !e.Done? && !e.Failure?
    ensures emitted != [] && Fold(parse, known + [closing]).Some?
    ensures var m := Fold(parse, known + [closing]).value;
            emitted[|emitted| - 1]
            == if closing.Done? then Finished(closing.reason, m) else FailedWith(closing.reason, m)
    ensures forall j | 0 <= j < |emitted| - 1 :: !emitted[j].Finished? && !emitted[j].FailedWith?
  {
    hide Fold;
    var all := known + [closing];
    assert all[..|known| + 1] == all && TellsNth(parse, emitted[|known|], all, |known|);
    forall j | 0 <= j < |known|
      ensures !emitted[j].Finished? && !emitted[j].FailedWith?
    {
      assert TellsNth(parse, emitted[j], all, j) && all[j] in known;
    }
  }
}
