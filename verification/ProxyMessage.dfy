/** Rebuilding an assistant message from events whose `partial` field was stripped
    (packages/agent/src/proxy.ts, `processProxyEvent`).

    `parse` stands for `parseStreamingJson`: it gives a tool call's arguments for the JSON received so
    far, or nothing when its answer is falsy, in which case the arguments are "{}". */
module ProxyMessage {
  import opened Wrappers

  datatype Content =
    | Text(text: string, textSignature: Option<string>)
    | Thinking(thinking: string, thinkingSignature: Option<string>)
    | ToolCall(id: string, name: string, arguments: string, partialJson: Option<string>,
               thoughtSignature: Option<string>)

  datatype StopReason = Stop | Length | ToolUse | Aborted | Error

  datatype Usage = Usage(input: nat, output: nat, cacheRead: nat, cacheWrite: nat, totalTokens: nat)

  datatype ProxyEvent =
    | Start
    | TextStart(contentIndex: nat)
    | TextDelta(contentIndex: nat, delta: string)
    | TextEnd(contentIndex: nat, contentSignature: Option<string>)
    | ThinkingStart(contentIndex: nat)
    | ThinkingDelta(contentIndex: nat, delta: string)
    | ThinkingEnd(contentIndex: nat, contentSignature: Option<string>)
    | ToolCallStart(contentIndex: nat, id: string, toolName: string)
    | ToolCallDelta(contentIndex: nat, delta: string)
    | ToolCallEnd(contentIndex: nat)
    | Done(reason: StopReason, usage: Usage)
    | Failure(reason: StopReason, errorMessage: Option<string>, usage: Usage)
    | Unhandled(kind: string)

  /** The message under construction; a slot that no `start` has filled yet is a hole. */
  datatype Partial = Partial(content: seq<Option<Content>>, stopReason: StopReason, errorMessage: Option<string>,
                             usage: Usage)

  const EMPTY := Partial([], Stop, None, Usage(0, 0, 0, 0, 0))

  /** The event passed on, with the message as it is then. */
  datatype AssistantEvent =
    | Started(partial: Partial)
    | BlockStarted(contentIndex: nat, partial: Partial)
    | BlockDelta(contentIndex: nat, delta: string, partial: Partial)
    | BlockEnded(contentIndex: nat, content: string, partial: Partial)
    | ToolCallEnded(contentIndex: nat, toolCall: Content, partial: Partial)
    | Finished(reason: StopReason, message: Partial)
    | FailedWith(reason: StopReason, error: Partial)

  datatype Outcome = Emitted(event: AssistantEvent) | Ignored | Threw(error: string)

  type JsonParser = string -> Option<string>

  // ---- One event, one block ----

  function At(content: seq<Option<Content>>, i: nat): Option<Content> {
    if i < |content| then content[i] else None
  }

  function Holes(n: nat): (r: seq<Option<Content>>)
    ensures |r| == n && forall i | 0 <= i < n :: r[i] == None
  {
    seq(n, i => None)
  }

  /** Assigning past the end of an array leaves holes. */
  function Put(content: seq<Option<Content>>, i: nat, c: Content): (r: seq<Option<Content>>)
    ensures |r| == if i < |content| then |content| else i + 1
    ensures At(r, i) == Some(c)
    ensures forall j: nat | j != i :: At(r, j) == At(content, j)
  {
    if i < |content| then content[i := Some(c)] else content + Holes(i - |content|) + [Some(c)]
  }

  function Arguments(parse: JsonParser, json: string): string {
    if parse(json).Some? then parse(json).value else "{}"
  }

  /** What becomes of a block: `None` when the event does not fit it and processing throws. */
  function StepBlock(parse: JsonParser, b: Option<Content>, e: ProxyEvent): Option<Option<Content>> {
    match e
    case TextStart(_) => Some(Some(Text("", None)))
    case ThinkingStart(_) => Some(Some(Thinking("", None)))
    case ToolCallStart(_, id, name) => Some(Some(ToolCall(id, name, "{}", Some(""), None)))
    case TextDelta(_, delta) =>
      if b.Some? && b.value.Text? then Some(Some(b.value.(text := b.value.text + delta))) else None
    case TextEnd(_, signature) =>
      if b.Some? && b.value.Text? then Some(Some(b.value.(textSignature := signature))) else None
    case ThinkingDelta(_, delta) =>
      if b.Some? && b.value.Thinking? then Some(Some(b.value.(thinking := b.value.thinking + delta))) else None
    case ThinkingEnd(_, signature) =>
      if b.Some? && b.value.Thinking? then Some(Some(b.value.(thinkingSignature := signature))) else None
    case ToolCallDelta(_, delta) =>
      if b.Some? && b.value.ToolCall? then
        var json := (if b.value.partialJson.Some? then b.value.partialJson.value else "undefined") + delta;
        Some(Some(b.value.(partialJson := Some(json), arguments := Arguments(parse, json))))
      else None
    case ToolCallEnd(_) =>
      if b.Some? && b.value.ToolCall? then Some(Some(b.value.(partialJson := None))) else Some(b)
    case _ => Some(b)
  }

  function Index(e: ProxyEvent): Option<nat> {
    match e
    case Start => None
    case Done(_, _) => None
    case Failure(_, _, _) => None
    case Unhandled(_) => None
    case _ => Some(e.contentIndex)
  }

  function StepContent(parse: JsonParser, content: seq<Option<Content>>, e: ProxyEvent): Option<seq<Option<Content>>> {
    if Index(e).None? then Some(content)
    else
      var i := e.contentIndex;
      match StepBlock(parse, At(content, i), e)
      case None => None
      case Some(None) => Some(content)
      case Some(Some(c)) => Some(Put(content, i, c))
  }

  function Step(parse: JsonParser, m: Partial, e: ProxyEvent): Option<Partial> {
    match StepContent(parse, m.content, e)
    case None => None
    case Some(content) =>
      match e
      case Done(reason, usage) => Some(m.(content := content, stopReason := reason, usage := usage))
      case Failure(reason, message, usage) =>
        Some(m.(content := content, stopReason := reason, errorMessage := message, usage := usage))
      case _ => Some(m.(content := content))
  }

  /** The event passed on once the message has become `m`. */
  function Report(m: Partial, e: ProxyEvent): Outcome {
    match e
    case Start => Emitted(Started(m))
    case TextStart(i) => Emitted(BlockStarted(i, m))
    case ThinkingStart(i) => Emitted(BlockStarted(i, m))
    case ToolCallStart(i, _, _) => Emitted(BlockStarted(i, m))
    case TextDelta(i, delta) => Emitted(BlockDelta(i, delta, m))
    case ThinkingDelta(i, delta) => Emitted(BlockDelta(i, delta, m))
    case ToolCallDelta(i, delta) => Emitted(BlockDelta(i, delta, m))
    case TextEnd(i, _) =>
      var text := if At(m.content, i).Some? && At(m.content, i).value.Text? then m.content[i].value.text else "";
      Emitted(BlockEnded(i, text, m))
    case ThinkingEnd(i, _) =>
      var thinking :=
        if At(m.content, i).Some? && At(m.content, i).value.Thinking? then m.content[i].value.thinking else "";
      Emitted(BlockEnded(i, thinking, m))
    case ToolCallEnd(i) =>
      if At(m.content, i).Some? && At(m.content, i).value.ToolCall?
      then Emitted(ToolCallEnded(i, m.content[i].value, m))
      else Ignored
    case Done(reason, _) => Emitted(Finished(reason, m))
    case Failure(reason, _, _) => Emitted(FailedWith(reason, m))
    case Unhandled(_) => Ignored
  }

  /** The `partial` object that `streamProxy` fills. */
  class PartialMessage {
    const parse: JsonParser
    var content: seq<Option<Content>>
    var stopReason: StopReason
    var errorMessage: Option<string>
    var usage: Usage

    constructor (parse: JsonParser)
      ensures this.parse == parse && View() == EMPTY
    {
      this.parse := parse;
      content, stopReason, errorMessage, usage := [], Stop, None, Usage(0, 0, 0, 0, 0);
    }

    function View(): Partial reads this {
      Partial(content, stopReason, errorMessage, usage)
    }

    /** The cases `text_start`, `text_delta` and `text_end`. */
    method ProcessText(e: ProxyEvent) returns (out: Outcome)
      requires e.TextStart? || e.TextDelta? || e.TextEnd?
      modifies this`content
      ensures out.Threw? <==> Step(parse, old(View()), e).None?
      ensures !out.Threw? ==> Some(View()) == Step(parse, old(View()), e) && out == Report(View(), e)
      ensures out.Threw? ==> View() == old(View())
    {
      hide Put;
      var i := e.contentIndex;
      if e.TextStart? {
        content := Put(content, i, Text("", None));
        return Emitted(BlockStarted(i, View()));
      }
      var c := At(content, i);
      if c.None? || !c.value.Text? {
        return Threw(if e.TextDelta? then "Received text_delta for non-text content"
                     else "Received text_end for non-text content");
      }
      if e.TextDelta? {
        content := Put(content, i, c.value.(text := c.value.text + e.delta));
        return Emitted(BlockDelta(i, e.delta, View()));
      }
      content := Put(content, i, c.value.(textSignature := e.contentSignature));
      return Emitted(BlockEnded(i, c.value.text, View()));
    }

    /** The cases `thinking_start`, `thinking_delta` and `thinking_end`. */
    method ProcessThinking(e: ProxyEvent) returns (out: Outcome)
      requires e.ThinkingStart? || e.ThinkingDelta? || e.ThinkingEnd?
      modifies this`content
      ensures out.Threw? <==> Step(parse, old(View()), e).None?
      ensures !out.Threw? ==> Some(View()) == Step(parse, old(View()), e) && out == Report(View(), e)
      ensures out.Threw? ==> View() == old(View())
    {
      hide Put;
      var i := e.contentIndex;
      if e.ThinkingStart? {
        content := Put(content, i, Thinking("", None));
        return Emitted(BlockStarted(i, View()));
      }
      var c := At(content, i);
      if c.None? || !c.value.Thinking? {
        return Threw(if e.ThinkingDelta? then "Received thinking_delta for non-thinking content"
                     else "Received thinking_end for non-thinking content");
      }
      if e.ThinkingDelta? {
        content := Put(content, i, c.value.(thinking := c.value.thinking + e.delta));
        return Emitted(BlockDelta(i, e.delta, View()));
      }
      content := Put(content, i, c.value.(thinkingSignature := e.contentSignature));
      return Emitted(BlockEnded(i, c.value.thinking, View()));
    }

    /** The cases `toolcall_start`, `toolcall_delta` and `toolcall_end`. */
    method ProcessToolCall(e: ProxyEvent) returns (out: Outcome)
      requires e.ToolCallStart? || e.ToolCallDelta? || e.ToolCallEnd?
      modifies this`content
      ensures out.Threw? <==> Step(parse, old(View()), e).None?
      ensures !out.Threw? ==> Some(View()) == Step(parse, old(View()), e) && out == Report(View(), e)
      ensures out.Threw? ==> View() == old(View())
    {
      hide Put, Arguments;
      var i := e.contentIndex;
      if e.ToolCallStart? {
        content := Put(content, i, ToolCall(e.id, e.toolName, "{}", Some(""), None));
        return Emitted(BlockStarted(i, View()));
      }
      var c := At(content, i);
      if c.None? || !c.value.ToolCall? {
        if e.ToolCallDelta? {
          return Threw("Received toolcall_delta for non-toolCall content");
        }
        PutBack(content, i);
        return Ignored;
      }
      if e.ToolCallDelta? {
        var json := (if c.value.partialJson.Some? then c.value.partialJson.value else "undefined") + e.delta;
        content := Put(content, i, c.value.(partialJson := Some(json), arguments := Arguments(parse, json)));
        return Emitted(BlockDelta(i, e.delta, View()));
      }
      content := Put(content, i, c.value.(partialJson := None));
      return Emitted(ToolCallEnded(i, c.value.(partialJson := None), View()));
    }

    /** An event that does not fit its block throws and changes nothing. */
    method ProcessProxyEvent(e: ProxyEvent) returns (out: Outcome)
      modifies this
      ensures out.Threw? <==> Step(parse, old(View()), e).None?
      ensures !out.Threw? ==> Some(View()) == Step(parse, old(View()), e) && out == Report(View(), e)
      ensures out.Threw? ==> View() == old(View())
      ensures out.Threw? <==>
        || ((e.TextDelta? || e.TextEnd?)
            && (At(old(content), e.contentIndex) == None || !At(old(content), e.contentIndex).value.Text?))
        || ((e.ThinkingDelta? || e.ThinkingEnd?)
            && (At(old(content), e.contentIndex) == None || !At(old(content), e.contentIndex).value.Thinking?))
        || (e.ToolCallDelta?
            && (At(old(content), e.contentIndex) == None || !At(old(content), e.contentIndex).value.ToolCall?))
    {
      if e.Start? {
        return Emitted(Started(View()));
      } else if e.TextStart? || e.TextDelta? || e.TextEnd? {
        out := ProcessText(e);
      } else if e.ThinkingStart? || e.ThinkingDelta? || e.ThinkingEnd? {
        out := ProcessThinking(e);
      } else if e.ToolCallStart? || e.ToolCallDelta? || e.ToolCallEnd? {
        out := ProcessToolCall(e);
      } else if e.Done? {
        stopReason, usage := e.reason, e.usage;
        return Emitted(Finished(e.reason, View()));
      } else if e.Failure? {
        stopReason, errorMessage, usage := e.reason, e.errorMessage, e.usage;
        return Emitted(FailedWith(e.reason, View()));
      } else {
        return Ignored;
      }
    }
  }

  lemma PutBack(content: seq<Option<Content>>, i: nat)
    ensures At(content, i).Some? ==> Put(content, i, At(content, i).value) == content
  {
  }

  // ---- Many events ----

  /** All events in order, `None` once one throws. */
  function FoldContent(parse: JsonParser, es: seq<ProxyEvent>): Option<seq<Option<Content>>> {
    if es == [] then Some([])
    else
      match FoldContent(parse, es[..|es| - 1])
      case None => None
      case Some(content) => StepContent(parse, content, es[|es| - 1])
  }

  /** The events of one block. */
  function AtIndex(es: seq<ProxyEvent>, i: nat): seq<ProxyEvent> {
    if es == [] then []
    else
      var before, e := AtIndex(es[..|es| - 1], i), es[|es| - 1];
      if Index(e) == Some(i) then before + [e] else before
  }

  /** One block on its own, `None` once an event throws. */
  function FoldBlock(parse: JsonParser, es: seq<ProxyEvent>): Option<Option<Content>> {
    if es == [] then Some(None)
    else
      match FoldBlock(parse, es[..|es| - 1])
      case None => None
      case Some(b) => StepBlock(parse, b, es[|es| - 1])
  }

  lemma FoldBlockSnoc(parse: JsonParser, es: seq<ProxyEvent>, e: ProxyEvent)
    ensures FoldBlock(parse, es + [e]) ==
      match FoldBlock(parse, es) case None => None case Some(b) => StepBlock(parse, b, e)
  {
    assert (es + [e])[..|es|] == es;
  }

  /** Blocks do not disturb each other, however their events are interleaved: processing throws exactly
      when some block's own events throw, and otherwise every block is what its own events make it. */
  lemma {:induction false} BlocksAreIndependent(parse: JsonParser, es: seq<ProxyEvent>)
    ensures FoldContent(parse, es).Some? <==> forall i: nat :: FoldBlock(parse, AtIndex(es, i)).Some?
    ensures FoldContent(parse, es).Some? ==>
      forall i: nat :: FoldBlock(parse, AtIndex(es, i)) == Some(At(FoldContent(parse, es).value, i))
  {
    hide FoldBlock;
    FoldNothing(parse);
    if es == [] {
      assert forall i: nat :: AtIndex(es, i) == [];
    } else {
      var front, e := es[..|es| - 1], es[|es| - 1];
      BlocksAreIndependent(parse, front);
      forall i: nat
        ensures Index(e) != Some(i) ==> AtIndex(es, i) == AtIndex(front, i)
        ensures Index(e) == Some(i) ==> AtIndex(es, i) == AtIndex(front, i) + [e]
      {
      }
      if FoldContent(parse, front).None? {
        var i: nat :| FoldBlock(parse, AtIndex(front, i)).None?;
        FoldBlockSnoc(parse, AtIndex(front, i), e);
        assert FoldBlock(parse, AtIndex(es, i)).None?;
      } else if Index(e).Some? {
        var i := e.contentIndex;
        FoldBlockSnoc(parse, AtIndex(front, i), e);
        assert FoldBlock(parse, AtIndex(es, i)) == StepBlock(parse, At(FoldContent(parse, front).value, i), e);
      }
    }
  }

  // ---- Reconstruction ----

  function Concat(ss: seq<string>): string {
    if ss == [] then "" else Concat(ss[..|ss| - 1]) + ss[|ss| - 1]
  }

  function StartOf(i: nat, c: Content): ProxyEvent {
    match c
    case Text(_, _) => TextStart(i)
    case Thinking(_, _) => ThinkingStart(i)
    case ToolCall(id, name, _, _, _) => ToolCallStart(i, id, name)
  }

  function DeltaOf(i: nat, c: Content, delta: string): ProxyEvent {
    match c
    case Text(_, _) => TextDelta(i, delta)
    case Thinking(_, _) => ThinkingDelta(i, delta)
    case ToolCall(_, _, _, _, _) => ToolCallDelta(i, delta)
  }

  function EndOf(i: nat, c: Content): ProxyEvent {
    match c
    case Text(_, signature) => TextEnd(i, signature)
    case Thinking(_, signature) => ThinkingEnd(i, signature)
    case ToolCall(_, _, _, _, _) => ToolCallEnd(i)
  }

  /** The events that stream a block up to its `n`th piece. */
  function StreamOf(i: nat, c: Content, deltas: seq<string>, n: nat): seq<ProxyEvent>
    requires n <= |deltas|
  {
    if n == 0 then [StartOf(i, c)] else StreamOf(i, c, deltas, n - 1) + [DeltaOf(i, c, deltas[n - 1])]
  }

  /** `deltas` spells out the finished block `c`. */
  predicate Spells(parse: JsonParser, deltas: seq<string>, c: Content) {
    match c
    case Text(text, _) => text == Concat(deltas)
    case Thinking(thinking, _) => thinking == Concat(deltas)
    case ToolCall(_, _, arguments, partialJson, _) =>
      && partialJson == None
      && arguments == (if deltas == [] || parse(Concat(deltas)) == None then "{}" else parse(Concat(deltas)).value)
  }

  /** No event carries the signature of a tool call. */
  predicate Signed(c: Content) {
    c.ToolCall? && c.thoughtSignature.Some?
  }

  function Unsigned(c: Content): Content {
    if c.ToolCall? then c.(thoughtSignature := None) else c
  }

  function UnsignedAll(cs: seq<Content>): (r: seq<Content>)
    ensures |r| == |cs|
  {
    seq(|cs|, i requires 0 <= i < |cs| => Unsigned(cs[i]))
  }

  function Filled(cs: seq<Content>): (r: seq<Option<Content>>)
    ensures |r| == |cs|
  {
    seq(|cs|, i requires 0 <= i < |cs| => Some(cs[i]))
  }

  /** What the client loses: nothing exactly if no tool call is signed. */
  lemma SignaturesAreLost(cs: seq<Content>)
    ensures Filled(UnsignedAll(cs)) == Filled(cs) <==> forall c <- cs :: !Signed(c)
  {
    if Filled(UnsignedAll(cs)) == Filled(cs) {
      forall c | c in cs
        ensures !Signed(c)
      {
        var i :| 0 <= i < |cs| && cs[i] == c;
        assert Filled(UnsignedAll(cs))[i] == Filled(cs)[i];
      }
    }
    if forall c <- cs :: !Signed(c) {
      assert forall i | 0 <= i < |cs| :: cs[i] in cs;
      assert UnsignedAll(cs) == cs;
    }
  }

  /** A block whose first `n` deltas have arrived. */
  function Unfinished(parse: JsonParser, c: Content, deltas: seq<string>, n: nat): Content
    requires n <= |deltas|
  {
    var sofar := Concat(deltas[..n]);
    match c
    case Text(_, _) => Text(sofar, None)
    case Thinking(_, _) => Thinking(sofar, None)
    case ToolCall(id, name, _, _, _) =>
      ToolCall(id, name, if n == 0 then "{}" else Arguments(parse, sofar), Some(sofar), None)
  }

  lemma DeltaBuilds(parse: JsonParser, i: nat, c: Content, deltas: seq<string>, n: nat)
    requires n < |deltas|
    ensures StepBlock(parse, Some(Unfinished(parse, c, deltas, n)), DeltaOf(i, c, deltas[n]))
         == Some(Some(Unfinished(parse, c, deltas, n + 1)))
  {
    assert deltas[..n + 1][..n] == deltas[..n];
  }

  lemma StartBuilds(parse: JsonParser, i: nat, c: Content, deltas: seq<string>)
    ensures FoldBlock(parse, [StartOf(i, c)]) == Some(Some(Unfinished(parse, c, deltas, 0)))
  {
    FoldNothing(parse);
    FoldBlockSnoc(parse, [], StartOf(i, c));
    assert [] + [StartOf(i, c)] == [StartOf(i, c)];
  }

  lemma {:induction false} StreamBuilds(parse: JsonParser, i: nat, c: Content, deltas: seq<string>, n: nat)
    requires n <= |deltas|
    ensures FoldBlock(parse, StreamOf(i, c, deltas, n)) == Some(Some(Unfinished(parse, c, deltas, n)))
  {
    hide FoldBlock, StepBlock, Unfinished, DeltaOf, StartOf;
    if n == 0 {
      StartBuilds(parse, i, c, deltas);
    } else {
      StreamBuilds(parse, i, c, deltas, n - 1);
      FoldBlockSnoc(parse, StreamOf(i, c, deltas, n - 1), DeltaOf(i, c, deltas[n - 1]));
      DeltaBuilds(parse, i, c, deltas, n - 1);
    }
  }

  /** `es` streams the blocks `cs`: the events of each index, taken alone, stream its block. */
  ghost predicate StreamsAll(parse: JsonParser, es: seq<ProxyEvent>, cs: seq<Content>, pieces: seq<seq<string>>) {
    && |pieces| == |cs|
    && (forall i | 0 <= i < |cs| ::
          && Spells(parse, pieces[i], cs[i])
          && AtIndex(es, i) == StreamOf(i, cs[i], pieces[i], |pieces[i]|) + [EndOf(i, cs[i])])
    && (forall e | e in es :: Index(e).Some? ==> Index(e).value < |cs|)
  }

  lemma {:induction false} ContentBound(parse: JsonParser, es: seq<ProxyEvent>, bound: nat)
    requires forall e | e in es :: Index(e).Some? ==> Index(e).value < bound
    ensures FoldContent(parse, es).Some? ==> |FoldContent(parse, es).value| <= bound
  {
    if es != [] {
      assert es[|es| - 1] in es;
      ContentBound(parse, es[..|es| - 1], bound);
    }
  }

  lemma {:induction false} NothingBeyond(es: seq<ProxyEvent>, i: nat)
    requires forall e | e in es :: Index(e) != Some(i)
    ensures AtIndex(es, i) == []
  {
    if es != [] {
      assert es[|es| - 1] in es;
      NothingBeyond(es[..|es| - 1], i);
    }
  }

  lemma EndBuilds(parse: JsonParser, i: nat, c: Content, deltas: seq<string>)
    requires Spells(parse, deltas, c)
    ensures FoldBlock(parse, StreamOf(i, c, deltas, |deltas|) + [EndOf(i, c)]) == Some(Some(Unsigned(c)))
  {
    hide FoldBlock, StreamOf, StepBlock, Unfinished, Spells, EndOf, Unsigned;
    StreamBuilds(parse, i, c, deltas, |deltas|);
    FoldBlockSnoc(parse, StreamOf(i, c, deltas, |deltas|), EndOf(i, c));
    EndFits(parse, i, c, deltas);
  }

  lemma EndFits(parse: JsonParser, i: nat, c: Content, deltas: seq<string>)
    requires Spells(parse, deltas, c)
    ensures StepBlock(parse, Some(Unfinished(parse, c, deltas, |deltas|)), EndOf(i, c)) == Some(Some(Unsigned(c)))
  {
    hide Concat;
    assert deltas[..|deltas|] == deltas;
  }

  /** Whatever way the blocks' events are interleaved, processing them all does not throw and rebuilds
      exactly the blocks that were streamed, tool calls without their signatures; so it rebuilds what
      was streamed exactly if no tool call was signed. */
  lemma ReconstructsContent(parse: JsonParser, es: seq<ProxyEvent>, cs: seq<Content>, pieces: seq<seq<string>>)
    requires StreamsAll(parse, es, cs, pieces)
    ensures FoldContent(parse, es) == Some(Filled(UnsignedAll(cs)))
    ensures FoldContent(parse, es) == Some(Filled(cs)) <==> forall c <- cs :: !Signed(c)
  {
    hide FoldBlock, FoldContent, AtIndex, StreamOf, EndOf, Spells, Unsigned;
    forall i: nat ensures FoldBlock(parse, AtIndex(es, i)) == Some(if i < |cs| then Some(Unsigned(cs[i])) else None) {
      if i < |cs| {
        EndBuilds(parse, i, cs[i], pieces[i]);
      } else {
        NothingBeyond(es, i);
        FoldNothing(parse);
      }
    }
    BlocksAreIndependent(parse, es);
    ContentBound(parse, es, |cs|);
    var content := FoldContent(parse, es).value;
    forall i | 0 <= i < |cs| ensures At(content, i) == Some(Unsigned(cs[i])) {
      assert FoldBlock(parse, AtIndex(es, i)) == Some(Some(Unsigned(cs[i])));
    }
    if cs != [] {
      assert At(content, |cs| - 1).Some?;
    }
    assert content == Filled(UnsignedAll(cs));
    SignaturesAreLost(cs);
  }

  lemma {:induction false} OneBlock(es: seq<ProxyEvent>, i: nat)
    requires forall e | e in es :: Index(e) == Some(i)
    ensures AtIndex(es, i) == es
  {
    if es != [] {
      assert es[|es| - 1] in es;
      OneBlock(es[..|es| - 1], i);
    }
  }

  const ONE_CALL := [ToolCallStart(0, "call_1", "read"), ToolCallDelta(0, "{}"), ToolCallEnd(0)]

  lemma OneCallStreams(parse: JsonParser, c: Content)
    requires c.ToolCall? && c == ToolCall("call_1", "read", Arguments(parse, "{}"), None, c.thoughtSignature)
    ensures StreamsAll(parse, ONE_CALL, [c], [["{}"]])
  {
    OneBlock(ONE_CALL, 0);
    OneDelta(c);
    hide AtIndex, StreamOf;
    assert ["{}"][..0] == [] && "" + "{}" == "{}" && Concat(["{}"]) == "{}";
    assert [c][0] == c && [["{}"]][0] == ["{}"];
  }

  lemma OneDelta(c: Content)
    requires c.ToolCall? && c.id == "call_1" && c.name == "read"
    ensures StreamOf(0, c, ["{}"], 1) + [EndOf(0, c)] == ONE_CALL
  {
    assert StreamOf(0, c, ["{}"], 0) == [ONE_CALL[0]];
  }

  /** A signed tool call, streamed in one piece, reaches the client without its signature. */
  lemma SignedToolCall(parse: JsonParser, signature: string)
    ensures var c := ToolCall("call_1", "read", Arguments(parse, "{}"), None, Some(signature));
            && StreamsAll(parse, ONE_CALL, [c], [["{}"]])
            && FoldContent(parse, ONE_CALL) == Some([Some(c.(thoughtSignature := None))])
            && FoldContent(parse, ONE_CALL) != Some([Some(c)])
  {
    hide Arguments, StreamsAll, FoldContent;
    var c := ToolCall("call_1", "read", Arguments(parse, "{}"), None, Some(signature));
    OneCallStreams(parse, c);
    ReconstructsContent(parse, ONE_CALL, [c], [["{}"]]);
    assert Filled(UnsignedAll([c])) == [Some(c.(thoughtSignature := None))];
  }

  /** A tool call's JSON text is gone once the call has ended: what is added to it then is added to the
      word "undefined". */
  lemma DeltaAfterEnd(parse: JsonParser, id: string, name: string, delta: string)
    ensures var json := "undefined" + delta;
            FoldBlock(parse, [ToolCallStart(0, id, name), ToolCallEnd(0), ToolCallDelta(0, delta)])
            == Some(Some(ToolCall(id, name, if parse(json).Some? then parse(json).value else "{}", Some(json), None)))
  {
    var start, end, more := ToolCallStart(0, id, name), ToolCallEnd(0), ToolCallDelta(0, delta);
    FoldNothing(parse);
    FoldBlockSnoc(parse, [], start);
    FoldBlockSnoc(parse, [start], end);
    FoldBlockSnoc(parse, [start, end], more);
    assert [] + [start] == [start] && [start] + [end] == [start, end] && [start, end] + [more] == [start, end, more];
  }

  lemma FoldNothing(parse: JsonParser)
    ensures FoldBlock(parse, []) == Some(None)
  {
  }

  // ---- The whole message ----

  function Fold(parse: JsonParser, es: seq<ProxyEvent>): Option<Partial> {
    if es == [] then Some(EMPTY)
    else
      match Fold(parse, es[..|es| - 1])
      case None => None
      case Some(m) => Step(parse, m, es[|es| - 1])
  }

  lemma {:induction false} FoldKeepsContent(parse: JsonParser, es: seq<ProxyEvent>)
    ensures Fold(parse, es).Some? <==> FoldContent(parse, es).Some?
    ensures Fold(parse, es).Some? ==> Fold(parse, es).value.content == FoldContent(parse, es).value
  {
    if es != [] {
      FoldKeepsContent(parse, es[..|es| - 1]);
    }
  }

  function Closing(reason: StopReason, errorMessage: Option<string>, usage: Usage): ProxyEvent {
    if reason.Error? || reason.Aborted? then Failure(reason, errorMessage, usage) else Done(reason, usage)
  }

  /** The client ends up with the message the server streamed, up to the signatures of tool calls: its
      blocks, and what the closing event says about it. */
  lemma ReconstructsMessage(parse: JsonParser, es: seq<ProxyEvent>, cs: seq<Content>, pieces: seq<seq<string>>,
                            reason: StopReason, errorMessage: Option<string>, usage: Usage)
    requires StreamsAll(parse, es, cs, pieces)
    requires forall e | e in es :: !e.Done? && !e.Failure?
    requires reason.Error? || reason.Aborted? || errorMessage == None
    ensures Fold(parse, es + [Closing(reason, errorMessage, usage)])
         == Some(Partial(Filled(UnsignedAll(cs)), reason, errorMessage, usage))
    ensures Fold(parse, es + [Closing(reason, errorMessage, usage)])
            == Some(Partial(Filled(cs), reason, errorMessage, usage))
       <==> forall c <- cs :: !Signed(c)
  {
    hide StreamsAll, FoldContent, Filled, UnsignedAll, Signed;
    ReconstructsContent(parse, es, cs, pieces);
    SignaturesAreLost(cs);
    FoldKeepsContent(parse, es);
    NoErrorYet(parse, es);
    FoldClosing(parse, es, reason, errorMessage, usage);
  }

  lemma FoldClosing(parse: JsonParser, es: seq<ProxyEvent>, reason: StopReason, errorMessage: Option<string>,
                    usage: Usage)
    requires Fold(parse, es).Some?
    ensures Fold(parse, es + [Closing(reason, errorMessage, usage)])
         == (var m := Fold(parse, es).value.(stopReason := reason, usage := usage);
             Some(if reason.Error? || reason.Aborted? then m.(errorMessage := errorMessage) else m))
  {
    assert (es + [Closing(reason, errorMessage, usage)])[..|es|] == es;
  }

  lemma {:induction false} NoErrorYet(parse: JsonParser, es: seq<ProxyEvent>)
    requires forall e | e in es :: !e.Done? && !e.Failure?
    ensures Fold(parse, es).Some? ==> Fold(parse, es).value == EMPTY.(content := Fold(parse, es).value.content)
  {
    if es != [] {
      assert es[|es| - 1] in es;
      NoErrorYet(parse, es[..|es| - 1]);
    }
  }

  // ---- What a block's end reports ----

  /** The deltas of one block since its last start. */
  function SinceStart(es: seq<ProxyEvent>): string {
    if es == [] then ""
    else
      var before, e := SinceStart(es[..|es| - 1]), es[|es| - 1];
      match e
      case TextStart(_) => ""
      case ThinkingStart(_) => ""
      case ToolCallStart(_, _, _) => ""
      case TextDelta(_, delta) => before + delta
      case ThinkingDelta(_, delta) => before + delta
      case ToolCallDelta(_, delta) => before + delta
      case _ => before
  }

  function TextOf(b: Content): string
    requires !b.ToolCall?
  {
    if b.Text? then b.text else b.thinking
  }

  lemma TextStep(parse: JsonParser, es: seq<ProxyEvent>, before: Option<Content>, e: ProxyEvent, b: Content)
    requires StepBlock(parse, before, e) == Some(Some(b)) && !b.ToolCall?
    requires before.Some? && !before.value.ToolCall? ==> TextOf(before.value) == SinceStart(es)
    ensures TextOf(b) == SinceStart(es + [e])
  {
    assert (es + [e])[..|es|] == es;
  }

  lemma {:induction false} TextIsSinceStart(parse: JsonParser, es: seq<ProxyEvent>, b: Content)
    requires FoldBlock(parse, es) == Some(Some(b)) && !b.ToolCall?
    ensures TextOf(b) == SinceStart(es)
  {
    hide StepBlock, SinceStart;
    var front, e := es[..|es| - 1], es[|es| - 1];
    var before := FoldBlock(parse, front).value;
    if before.Some? && !before.value.ToolCall? {
      TextIsSinceStart(parse, front, before.value);
    }
    TextStep(parse, front, before, e, b);
    assert front + [e] == es;
  }

  /** For any events at all, an end event that is accepted reports the concatenation of the deltas its
      block received since it started. */
  lemma EndReportsDeltas(parse: JsonParser, es: seq<ProxyEvent>, e: ProxyEvent)
    requires e.TextEnd? || e.ThinkingEnd?
    requires Fold(parse, es + [e]).Some?
    ensures var m := Fold(parse, es + [e]).value;
            Report(m, e) == Emitted(BlockEnded(e.contentIndex, SinceStart(AtIndex(es, e.contentIndex)), m))
  {
    var i := e.contentIndex;
    assert (es + [e])[..|es|] == es;
    FoldKeepsContent(parse, es);
    BlocksAreIndependent(parse, es);
    var b := At(FoldContent(parse, es).value, i);
    assert FoldBlock(parse, AtIndex(es, i)) == Some(b);
    TextIsSinceStart(parse, AtIndex(es, i), b.value);
  }
}
