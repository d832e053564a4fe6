/** What the agent runtime talks about (packages/agent/src/types.ts, packages/ai/src/types.ts):
    messages, agent events, and a record of one run.

    A `Run` says, turn by turn, what was injected, what the provider streamed, what it finally
    answered, how each tool call was served and what the steering poll returned. The functions
    below read off a run everything the loop keeps while it runs: the events it emits (`Trace`),
    the messages it reports as new (`Produced`), the context it sends to the provider (`Context`,
    `Requests`) and the queued messages it has delivered (`Delivered`). */
module Conversation {

  import opened Wrappers

  datatype ToolCall = ToolCall(id: string, name: string, arguments: string)

  datatype Block = Text(text: string) | Thinking(thinking: string) | Calling(call: ToolCall)

  datatype StopReason = Stop | Length | ToolUse | Error | Aborted

  datatype Message =
    | User(text: string)
    | Custom(role: string, payload: string)
    | Assistant(blocks: seq<Block>, stopReason: StopReason, errorMessage: Option<string>)
    | ToolResult(toolCallId: string, toolName: string, content: string, details: string, isError: bool)

  type AssistantMessage = m: Message | m.Assistant? witness Assistant([], Stop, None)

  type ToolResultMessage = m: Message | m.ToolResult? witness ToolResult("", "", "", "", false)

  datatype AgentEvent =
    | AgentStart
    | AgentEnd(messages: seq<Message>)
    | TurnStart
    | TurnEnd(message: Message, toolResults: seq<Message>)
    | MessageStart(message: Message)
    | MessageUpdate(message: Message)
    | MessageEnd(message: Message)
    | ToolExecutionStart(toolCallId: string, toolName: string, args: string)
    | ToolExecutionUpdate(toolCallId: string, toolName: string, args: string, partialResult: string)
    | ToolExecutionEnd(toolCallId: string, toolName: string, result: string, isError: bool)

  /** What a provider streams before its final `done` or `error`: `start`, or one of the nine
      text, thinking and tool call events, each with the partial message so far. */
  datatype ProviderEvent = Start(partial: AssistantMessage) | Update(partial: AssistantMessage)

  datatype Reply = Reply(streamed: seq<ProviderEvent>, final: AssistantMessage)

  /** Where a turn's injected messages came from. */
  datatype Source = NoSource | Prompted | Steering | FollowUp

  datatype ToolBlock = ToolBlock(call: ToolCall, updates: seq<string>, result: ToolResultMessage, skipped: bool)

  /** One turn: the messages injected before the request, the reply, one block per served tool call
      (the first `executed` of them were executed, the others skipped), and what the last steering
      poll of the turn returned. */
  datatype Turn = Turn(
    source: Source, injected: seq<Message>, streamed: seq<ProviderEvent>, reply: AssistantMessage,
    blocks: seq<ToolBlock>, executed: nat, steering: seq<Message>)

  /** One run: the conversation it started from, the prompts it was given, and its turns so far. */
  datatype Run = Run(base: seq<Message>, origin: Source, prompts: seq<Message>, turns: seq<Turn>)

  const SKIPPED_TEXT := "Skipped due to queued user message."

  function ToolCalls(blocks: seq<Block>): seq<ToolCall> {
    if blocks == [] then []
    else if blocks[0].Calling? then [blocks[0].call] + ToolCalls(blocks[1..])
    else ToolCalls(blocks[1..])
  }

  /** Where tool calls stand among the first `n` blocks. */
  function CallsBefore(blocks: seq<Block>, n: nat): set<nat>
    requires n <= |blocks|
  {
    set j: nat | j < n && blocks[j].Calling?
  }

  lemma CallsBeforeStep(blocks: seq<Block>, n: nat)
    requires n < |blocks|
    ensures |CallsBefore(blocks, n + 1)| == |CallsBefore(blocks, n)| + if blocks[n].Calling? then 1 else 0
  {
    assert CallsBefore(blocks, n + 1) == CallsBefore(blocks, n) + if blocks[n].Calling? then {n} else {};
  }

  lemma {:induction false} ToolCallsAppend(a: seq<Block>, b: seq<Block>)
    ensures ToolCalls(a + b) == ToolCalls(a) + ToolCalls(b)
  {
    if a == [] {
      assert a + b == b;
    } else {
      assert (a + b)[1..] == a[1..] + b;
      ToolCallsAppend(a[1..], b);
    }
  }

  lemma {:induction false} ToolCallsCounted(blocks: seq<Block>, n: nat)
    requires n <= |blocks|
    ensures |ToolCalls(blocks[..n])| == |CallsBefore(blocks, n)|
  {
    if n > 0 {
      ToolCallsCounted(blocks, n - 1);
      CallsBeforeStep(blocks, n - 1);
      assert blocks[..n] == blocks[..n - 1] + [blocks[n - 1]];
      ToolCallsAppend(blocks[..n - 1], [blocks[n - 1]]);
    }
  }

  /** `calls` are the calls of these blocks: each once, in order, at the place of its rank. */
  ghost predicate AreCalls(blocks: seq<Block>, calls: seq<ToolCall>) {
    && |calls| == |CallsBefore(blocks, |blocks|)|
    && forall j | 0 <= j < |blocks| && blocks[j].Calling? ::
         |CallsBefore(blocks, j)| < |calls| && calls[|CallsBefore(blocks, j)|] == blocks[j].call
  }

  lemma ToolCallsMeaning(blocks: seq<Block>)
    ensures AreCalls(blocks, ToolCalls(blocks))
  {
    hide ToolCalls, CallsBefore;
    ToolCallsCounted(blocks, |blocks|);
    assert blocks[..|blocks|] == blocks;
    forall j | 0 <= j < |blocks| && blocks[j].Calling?
      ensures |CallsBefore(blocks, j)| < |ToolCalls(blocks)|
      ensures ToolCalls(blocks)[|CallsBefore(blocks, j)|] == blocks[j].call
    {
      ToolCallsCounted(blocks, j);
      assert blocks == blocks[..j] + ([blocks[j]] + blocks[j + 1..]);
      ToolCallsAppend(blocks[..j], [blocks[j]] + blocks[j + 1..]);
      ToolCallsAppend([blocks[j]], blocks[j + 1..]);
      OneCall(blocks[j]);
    }
  }

  lemma OneCall(b: Block)
    requires b.Calling?
    ensures ToolCalls([b]) == [b.call]
  {
  }

  predicate Failed(m: AssistantMessage) {
    m.stopReason.Error? || m.stopReason.Aborted?
  }

  // ---- The events of a run, each function extending the events `log` emitted so far ----

  function EmitMessages(log: seq<AgentEvent>, ms: seq<Message>, n: nat): seq<AgentEvent>
    requires n <= |ms|
  {
    if n == 0 then log else EmitMessages(log, ms, n - 1) + [MessageStart(ms[n - 1])] + [MessageEnd(ms[n - 1])]
  }

  function Starts(es: seq<ProviderEvent>, n: nat): nat
    requires n <= |es|
  {
    if n == 0 then 0 else Starts(es, n - 1) + if es[n - 1].Start? then 1 else 0
  }

  /** Updates that arrive before any `start` are dropped. */
  function EmitStream(log: seq<AgentEvent>, es: seq<ProviderEvent>, n: nat): seq<AgentEvent>
    requires n <= |es|
  {
    if n == 0 then log
    else
      var before := EmitStream(log, es, n - 1);
      match es[n - 1]
      case Start(partial) => before + [MessageStart(partial)]
      case Update(partial) => if Starts(es, n - 1) > 0 then before + [MessageUpdate(partial)] else before
  }

  function EmitReply(log: seq<AgentEvent>, es: seq<ProviderEvent>, reply: AssistantMessage): seq<AgentEvent> {
    var streamed := EmitStream(log, es, |es|);
    if Starts(es, |es|) > 0 then streamed + [MessageEnd(reply)]
    else streamed + [MessageStart(reply)] + [MessageEnd(reply)]
  }

  function EmitUpdates(log: seq<AgentEvent>, call: ToolCall, updates: seq<string>, n: nat): seq<AgentEvent>
    requires n <= |updates|
  {
    if n == 0 then log
    else
      EmitUpdates(log, call, updates, n - 1)
      + [ToolExecutionUpdate(call.id, call.name, call.arguments, updates[n - 1])]
  }

  function EmitBlock(log: seq<AgentEvent>, b: ToolBlock): seq<AgentEvent> {
    EmitUpdates(log + [ToolExecutionStart(b.call.id, b.call.name, b.call.arguments)], b.call, b.updates, |b.updates|)
    + [ToolExecutionEnd(b.call.id, b.call.name, b.result.content, b.result.isError)]
    + [MessageStart(b.result)] + [MessageEnd(b.result)]
  }

  function EmitBlocks(log: seq<AgentEvent>, bs: seq<ToolBlock>): seq<AgentEvent> {
    if bs == [] then log else EmitBlock(EmitBlocks(log, bs[..|bs| - 1]), bs[|bs| - 1])
  }

  function Results(bs: seq<ToolBlock>): (r: seq<Message>)
    ensures |r| == |bs|
  {
    seq(|bs|, i requires 0 <= i < |bs| => bs[i].result)
  }

  /** A turn's events after its `turn_start`. */
  function EmitTurn(log: seq<AgentEvent>, t: Turn): seq<AgentEvent> {
    var injected := EmitMessages(log, t.injected, |t.injected|);
    EmitBlocks(EmitReply(injected, t.streamed, t.reply), t.blocks) + [TurnEnd(t.reply, Results(t.blocks))]
  }

  /** The first turn's `turn_start` is emitted with the prompts, so only later turns add one. */
  function EmitTurns(log: seq<AgentEvent>, ts: seq<Turn>): seq<AgentEvent> {
    if ts == [] then log
    else
      var before := EmitTurns(log, ts[..|ts| - 1]);
      EmitTurn(if |ts| == 1 then before else before + [TurnStart], ts[|ts| - 1])
  }

  function Header(prompts: seq<Message>): seq<AgentEvent> {
    EmitMessages([AgentStart, TurnStart], prompts, |prompts|)
  }

  function Trace(run: Run): seq<AgentEvent> {
    EmitTurns(Header(run.prompts), run.turns)
  }

  /** What a consumer is shown of a reply while it streams: nothing before its first `start`; from then on
      every event with its partial message, as a start or as an update. */
  lemma {:induction false} StreamShown(log: seq<AgentEvent>, es: seq<ProviderEvent>, n: nat) returns (first: nat)
    requires n <= |es|
    ensures first <= n && (forall j | 0 <= j < first :: es[j].Update?) && (first < n ==> es[first].Start?)
    ensures var shown := EmitStream(log, es, n);
            && |shown| == |log| + (n - first) && shown[..|log|] == log
            && forall j | first <= j < n ::
                 shown[|log| + j - first]
                 == if es[j].Start? then MessageStart(es[j].partial) else MessageUpdate(es[j].partial)
  {
    first := n;
    if n > 0 {
      first := StreamShown(log, es, n - 1);
      StartedSince(es, n - 1, first);
      if first == n - 1 && es[n - 1].Update? {
        first := n;
      }
    }
  }

  lemma {:induction false} StartedSince(es: seq<ProviderEvent>, n: nat, first: nat)
    requires first <= n <= |es|
    requires (forall j | 0 <= j < first :: es[j].Update?) && (first < n ==> es[first].Start?)
    ensures Starts(es, n) > 0 <==> first < n
  {
    if n > first {
      StartedSince(es, n - 1, first);
    } else if n > 0 {
      StartedSince(es, n - 1, n - 1);
    }
  }

  lemma {:induction false} UpdatesShown(log: seq<AgentEvent>, call: ToolCall, updates: seq<string>, n: nat)
    requires n <= |updates|
    ensures var shown := EmitUpdates(log, call, updates, n);
            && |shown| == |log| + n && shown[..|log|] == log
            && forall j | 0 <= j < n ::
                 shown[|log| + j] == ToolExecutionUpdate(call.id, call.name, call.arguments, updates[j])
  {
    if n > 0 {
      UpdatesShown(log, call, updates, n - 1);
    }
  }

  /** What a consumer is shown of a tool call: its start with the call's arguments, every update the tool
      reports, in order, its end with the content of the result, and the result as a message. */
  lemma BlockShown(log: seq<AgentEvent>, b: ToolBlock)
    ensures var shown, n := EmitBlock(log, b), |log| + 1 + |b.updates|;
            && |shown| == n + 3 && shown[..|log|] == log
            && shown[|log|] == ToolExecutionStart(b.call.id, b.call.name, b.call.arguments)
            && (forall j | 0 <= j < |b.updates| ::
                  shown[|log| + 1 + j] == ToolExecutionUpdate(b.call.id, b.call.name, b.call.arguments, b.updates[j]))
            && shown[n] == ToolExecutionEnd(b.call.id, b.call.name, b.result.content, b.result.isError)
            && shown[n + 1] == MessageStart(b.result) && shown[n + 2] == MessageEnd(b.result)
  {
    var start := log + [ToolExecutionStart(b.call.id, b.call.name, b.call.arguments)];
    UpdatesShown(start, b.call, b.updates, |b.updates|);
    var updated := EmitUpdates(start, b.call, b.updates, |b.updates|);
    hide EmitUpdates;
    assert updated[..|start|][..|log|] == log && updated[..|start|][|log|] == start[|log|];
  }

  // ---- The messages of a run ----

  /** What streaming does to the context: every `start` pushes its partial message, every later
      update overwrites the last one. */
  function StreamedInto(context: seq<Message>, es: seq<ProviderEvent>, n: nat): (r: seq<Message>)
    requires n <= |es|
    ensures |r| == |context| + Starts(es, n)
  {
    if n == 0 then context
    else
      var before := StreamedInto(context, es, n - 1);
      match es[n - 1]
      case Start(partial) => before + [partial]
      case Update(partial) => if Starts(es, n - 1) > 0 then before[|before| - 1 := partial] else before
  }

  /** While a reply streams, the context ends with its latest partial message. */
  lemma LatestPartial(context: seq<Message>, es: seq<ProviderEvent>, n: nat)
    requires 0 < n <= |es| && Starts(es, n) > 0
    ensures StreamedInto(context, es, n)[|StreamedInto(context, es, n)| - 1] == es[n - 1].partial
  {
  }

  /** The final message replaces the last partial one; earlier ones stay behind. */
  function WithReply(context: seq<Message>, es: seq<ProviderEvent>, reply: AssistantMessage): (r: seq<Message>)
    ensures |r| == |context| + if Starts(es, |es|) == 0 then 1 else Starts(es, |es|)
  {
    var streamed := StreamedInto(context, es, |es|);
    if Starts(es, |es|) > 0 then streamed[|streamed| - 1 := reply] else streamed + [reply]
  }

  function WithTurn(context: seq<Message>, t: Turn): seq<Message> {
    WithReply(context + t.injected, t.streamed, t.reply) + Results(t.blocks)
  }

  function WithTurns(context: seq<Message>, ts: seq<Turn>): seq<Message> {
    if ts == [] then context else WithTurn(WithTurns(context, ts[..|ts| - 1]), ts[|ts| - 1])
  }

  function Context(run: Run): seq<Message> {
    WithTurns(run.base + run.prompts, run.turns)
  }

  function Produced(run: Run): seq<Message> {
    ProducedBy(run.prompts, run.turns)
  }

  function ProducedBy(prompts: seq<Message>, ts: seq<Turn>): seq<Message> {
    if ts == [] then prompts
    else
      var t := ts[|ts| - 1];
      ProducedBy(prompts, ts[..|ts| - 1]) + t.injected + [t.reply] + Results(t.blocks)
  }

  /** The contexts handed to the provider, one a turn. */
  function Requests(run: Run): (r: seq<seq<Message>>)
    ensures |r| == |run.turns|
    decreases |run.turns|
  {
    if run.turns == [] then []
    else
      var before := run.(turns := run.turns[..|run.turns| - 1]);
      Requests(before) + [Context(before) + run.turns[|run.turns| - 1].injected]
  }

  /** The messages of one queue that the turns injected, in order. */
  function Delivered(ts: seq<Turn>, source: Source): seq<Message> {
    if ts == [] then []
    else
      var t := ts[|ts| - 1];
      Delivered(ts[..|ts| - 1], source) + InFlight(source, t.source, t.injected)
  }

  function InFlight(wanted: Source, source: Source, pending: seq<Message>): seq<Message> {
    if source == wanted then pending else []
  }

  /** All messages of one queue that a run delivered: as its prompts, or injected by its turns. */
  function DeliveredBy(run: Run, queue: Source): seq<Message> {
    InFlight(queue, run.origin, run.prompts) + Delivered(run.turns, queue)
  }

  // ---- What a well-formed run is ----

  /** A block reports its own call, and a skipped one reports the fixed error and nothing else. */
  predicate BlockOk(b: ToolBlock, call: ToolCall) {
    && b.call == call
    && b.result.toolCallId == call.id && b.result.toolName == call.name
    && (b.skipped ==> b.updates == [] && b.result.isError && b.result.content == SKIPPED_TEXT)
  }

  /** Every call is served, in order: an executed prefix, then skipped calls. */
  predicate Serves(calls: seq<ToolCall>, blocks: seq<ToolBlock>, executed: nat) {
    && executed <= |blocks| == |calls|
    && (forall i {:trigger blocks[i]} | 0 <= i < |blocks| ::
          BlockOk(blocks[i], calls[i]) && (blocks[i].skipped <==> executed <= i))
  }

  /** Only a non-empty steering poll skips calls, and never the first one. */
  predicate TurnOk(t: Turn) {
    var calls := ToolCalls(t.reply.blocks);
    if Failed(t.reply) then t.blocks == [] && t.executed == 0 && t.steering == []
    else
      && Serves(calls, t.blocks, t.executed)
      && (calls != [] ==> 0 < t.executed)
      && (t.executed < |calls| ==> t.steering != [])
  }

  /** Which messages may be injected after turn `t`: its steering messages if there are any, else
      nothing while it has tool calls, else a non-empty batch of follow-ups. */
  predicate Continues(t: Turn, source: Source, injected: seq<Message>) {
    && !Failed(t.reply)
    && if t.steering != [] then source == Steering && injected == t.steering
       else if ToolCalls(t.reply.blocks) != [] then source == NoSource && injected == []
       else source == FollowUp && injected != []
  }

  predicate MayInject(ts: seq<Turn>, source: Source, injected: seq<Message>) {
    if ts == [] then source == if injected == [] then NoSource else Steering
    else Continues(ts[|ts| - 1], source, injected)
  }

  predicate TurnsOk(ts: seq<Turn>) {
    ts == [] ||
    var before, t := ts[..|ts| - 1], ts[|ts| - 1];
    TurnsOk(before) && TurnOk(t) && MayInject(before, t.source, t.injected)
  }

  /** The agent has nothing left to do after turn `t`. */
  predicate Settled(t: Turn) {
    !Failed(t.reply) && ToolCalls(t.reply.blocks) == [] && t.steering == []
  }

  predicate Finished(ts: seq<Turn>) {
    ts != [] && (Failed(ts[|ts| - 1].reply) || Settled(ts[|ts| - 1]))
  }

  /** No reply streams more than one `start`. */
  predicate StartsOnce(ts: seq<Turn>) {
    ts == [] ||
    var before, t := ts[..|ts| - 1], ts[|ts| - 1];
    StartsOnce(before) && Starts(t.streamed, |t.streamed|) <= 1
  }

  lemma DeliveredSnoc(ts: seq<Turn>, t: Turn, queue: Source)
    ensures Delivered(ts + [t], queue) == Delivered(ts, queue) + InFlight(queue, t.source, t.injected)
  {
    assert (ts + [t])[..|ts|] == ts;
  }

  /** The turns answer with the provider's replies, in order. */
  predicate Answers(ts: seq<Turn>, replies: seq<Reply>) {
    ts == [] ||
    var before, t := ts[..|ts| - 1], ts[|ts| - 1];
    Answers(before, replies) && |ts| <= |replies| && Reply(t.streamed, t.reply) == replies[|ts| - 1]
  }

  /** No turn injects more than one message of a queue. */
  predicate AtMostOne(ts: seq<Turn>, queue: Source) {
    ts == [] ||
    var before, t := ts[..|ts| - 1], ts[|ts| - 1];
    AtMostOne(before, queue) && (t.source == queue ==> |t.injected| <= 1)
  }

  lemma TurnsSnoc(ts: seq<Turn>, t: Turn)
    ensures TurnsOk(ts + [t]) <==> TurnsOk(ts) && TurnOk(t) && MayInject(ts, t.source, t.injected)
    ensures forall q :: AtMostOne(ts + [t], q) <==> AtMostOne(ts, q) && (t.source == q ==> |t.injected| <= 1)
    ensures forall rs ::
              Answers(ts + [t], rs) <==> Answers(ts, rs) && |ts| < |rs| && Reply(t.streamed, t.reply) == rs[|ts|]
  {
    assert (ts + [t])[..|ts|] == ts;
  }
}
