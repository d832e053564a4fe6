/** The order of the loop's events (packages/agent/README.md, "Event Flow"), as an acceptor that knows
    nothing of the loop, and what it means for a consumer that tracks pending tools. */
module TraceGrammar {
  import opened Wrappers
  import opened Conversation
  import opened Replay

  /** Where in the grammar a consumer stands. `streamed` says that a message of this turn had updates or
      ended differently than it started, `reply` is the last message that ended before any tool ran,
      `results` the tool results reported since. */
  datatype Phase =
    | Fresh
    | Opened
    | Talking(last: Option<Message>, streamed: bool)
    | Speaking(message: Message, updated: bool)
    | Running(reply: Message, results: seq<Message>, call: ToolCall)
    | Ran(reply: Message, results: seq<Message>, call: ToolCall, isError: bool)
    | Reporting(reply: Message, results: seq<Message>, result: Message)
    | Working(reply: Message, results: seq<Message>)
    | BetweenTurns
    | Ended
    | Wrong

  /** The messages that have ended. */
  function EndedMessages(log: seq<AgentEvent>): seq<Message> {
    if log == [] then []
    else
      var before, e := EndedMessages(log[..|log| - 1]), log[|log| - 1];
      if e.MessageEnd? then before + [e.message] else before
  }

  /** The call of `reply` that comes after `served` others. */
  function NextCall(reply: Message, served: nat): Option<ToolCall> {
    if reply.Assistant? && !Failed(reply) && served < |ToolCalls(reply.blocks)|
    then Some(ToolCalls(reply.blocks)[served])
    else None
  }

  /** `agent_start turn_start`, then messages (`start update* end`): any number that are unchanged
      between start and end and have no updates, and as the turn's last an assistant message that may be
      streamed; then each tool call of this message unless it failed, in order and none left out
      (`start update* end`, all of that call, then its result message); then a `turn_end` that repeats
      exactly this message and these results; further turns alike; one `agent_end` with exactly the
      messages that have ended. */
  function After(p: Phase, ended: seq<Message>, e: AgentEvent): Phase {
    match (p, e)
    case (Fresh, AgentStart) => Opened
    case (Opened, TurnStart) => Talking(None, false)
    case (Talking(_, streamed), MessageStart(m)) => if streamed then Wrong else Speaking(m, false)
    case (Speaking(m, _), MessageUpdate(u)) => if m.Assistant? && u.Assistant? then Speaking(u, true) else Wrong
    case (Speaking(m, updated), MessageEnd(final)) =>
      if m == final then Talking(Some(final), updated)
      else if m.Assistant? && final.Assistant? then Talking(Some(final), true)
      else Wrong
    case (Talking(Some(r), _), ToolExecutionStart(id, name, args)) =>
      var call := ToolCall(id, name, args);
      if NextCall(r, 0) == Some(call) then Running(r, [], call) else Wrong
    case (Working(r, results), ToolExecutionStart(id, name, args)) =>
      var call := ToolCall(id, name, args);
      if NextCall(r, |results|) == Some(call) then Running(r, results, call) else Wrong
    case (Running(_, _, call), ToolExecutionUpdate(id, name, args, _)) =>
      if call == ToolCall(id, name, args) then p else Wrong
    case (Running(r, results, call), ToolExecutionEnd(id, name, _, isError)) =>
      if call.id == id && call.name == name then Ran(r, results, call, isError) else Wrong
    case (Ran(r, results, call, isError), MessageStart(m)) =>
      if m.ToolResult? && m.toolCallId == call.id && m.toolName == call.name && m.isError == isError
      then Reporting(r, results, m)
      else Wrong
    case (Reporting(r, results, m), MessageEnd(m')) => if m == m' then Working(r, results + [m]) else Wrong
    case (Talking(Some(r), _), TurnEnd(m, results)) =>
      if r == m && m.Assistant? && results == [] && NextCall(r, 0) == None then BetweenTurns else Wrong
    case (Working(r, reported), TurnEnd(m, results)) =>
      if r == m && reported == results && NextCall(r, |reported|) == None then BetweenTurns else Wrong
    case (BetweenTurns, TurnStart) => Talking(None, false)
    case (BetweenTurns, AgentEnd(messages)) => if messages == ended then Ended else Wrong
    case _ => Wrong
  }

  function Parse(log: seq<AgentEvent>): Phase {
    if log == [] then Fresh
    else
      var before := log[..|log| - 1];
      After(Parse(before), EndedMessages(before), log[|log| - 1])
  }

  lemma ParseSnoc(log: seq<AgentEvent>, e: AgentEvent)
    ensures Parse(log + [e]) == After(Parse(log), EndedMessages(log), e)
  {
    assert (log + [e])[..|log|] == log;
  }

  /** The calls whose execution has started since the last `turn_start`. */
  function CallsSince(log: seq<AgentEvent>): seq<ToolCall> {
    if log == [] then []
    else
      var before, e := CallsSince(log[..|log| - 1]), log[|log| - 1];
      if e.TurnStart? then []
      else if e.ToolExecutionStart? then before + [ToolCall(e.toolCallId, e.toolName, e.args)]
      else before
  }

  /** The calls that the acceptor wants served for a reply. */
  function CallsFor(reply: Message): seq<ToolCall> {
    if reply.Assistant? && !Failed(reply) then ToolCalls(reply.blocks) else []
  }

  /** In this phase so many of the reply's calls have started, the first ones. */
  ghost predicate Served(p: Phase, calls: seq<ToolCall>) {
    match p
    case Running(r, results, _) => |results| < |CallsFor(r)| && calls == CallsFor(r)[..|results| + 1]
    case Ran(r, results, _, _) => |results| < |CallsFor(r)| && calls == CallsFor(r)[..|results| + 1]
    case Reporting(r, results, _) => |results| < |CallsFor(r)| && calls == CallsFor(r)[..|results| + 1]
    case Working(r, results) => |results| <= |CallsFor(r)| && calls == CallsFor(r)[..|results|]
    case Talking(_, _) => calls == []
    case Speaking(_, _) => calls == []
    case Opened => calls == []
    case Fresh => calls == []
    case _ => true
  }

  lemma {:induction false} PhaseServes(log: seq<AgentEvent>)
    ensures Served(Parse(log), CallsSince(log))
  {
    if log != [] {
      var before, e := log[..|log| - 1], log[|log| - 1];
      PhaseServes(before);
      ServedStep(Parse(before), EndedMessages(before), CallsSince(before), e);
    }
  }

  lemma ServedStep(p: Phase, ended: seq<Message>, calls: seq<ToolCall>, e: AgentEvent)
    requires Served(p, calls)
    ensures Served(After(p, ended, e),
                   if e.TurnStart? then []
                   else if e.ToolExecutionStart? then calls + [ToolCall(e.toolCallId, e.toolName, e.args)]
                   else calls)
  {
    hide ToolCalls;
  }

  /** What acceptance means for the tools: when a turn ends, exactly the calls of its message have been
      started, each once and in order, and none if the message failed. */
  lemma AcceptedTurn(log: seq<AgentEvent>, m: Message, results: seq<Message>)
    requires Parse(log + [TurnEnd(m, results)]).BetweenTurns?
    ensures m.Assistant? && AreCalls(if Failed(m) then [] else m.blocks, CallsSince(log))
    ensures |results| == |CallsSince(log)|
  {
    ParseSnoc(log, TurnEnd(m, results));
    PhaseServes(log);
    ToolCallsMeaning(m.blocks);
    ToolCallsMeaning([]);
    hide ToolCalls, CallsBefore;
    NoCalls();
  }

  lemma NoCalls()
    ensures ToolCalls([]) == []
  {
  }

  /** Replaying events appends exactly the messages that ended. */
  lemma {:induction false} FoldEnded(s: AgentState, log: seq<AgentEvent>)
    ensures Fold(s, log).messages == s.messages + EndedMessages(log)
  {
    if log != [] {
      FoldEnded(s, log[..|log| - 1]);
    }
  }

  lemma {:induction false} EndedPrefix(log: seq<AgentEvent>, k: nat)
    requires k <= |log|
    ensures EndedMessages(log[..k]) <= EndedMessages(log)
  {
    if k < |log| {
      var front := log[..|log| - 1];
      assert front[..k] == log[..k];
      EndedPrefix(front, k);
    } else {
      assert log[..k] == log;
    }
  }

  // ---- Every part of a turn keeps to the grammar; a reply that starts twice does not ----

  /** Between messages, none of which was streamed. */
  predicate Quiet(p: Phase) {
    p.Talking? && !p.streamed
  }

  lemma {:induction false} ParseMessages(log: seq<AgentEvent>, ms: seq<Message>, n: nat)
    requires n <= |ms| && (Quiet(Parse(log)) || Parse(log).Wrong?)
    ensures var p := Parse(EmitMessages(log, ms, n)); if Parse(log).Wrong? then p.Wrong? else Quiet(p)
  {
    hide Parse, EndedMessages;
    if n > 0 {
      var before, m := EmitMessages(log, ms, n - 1), ms[n - 1];
      ParseMessages(log, ms, n - 1);
      ParseSnoc(before, MessageStart(m));
      ParseSnoc(before + [MessageStart(m)], MessageEnd(m));
    }
  }

  lemma {:induction false} ParseStream(log: seq<AgentEvent>, es: seq<ProviderEvent>, n: nat)
    requires n <= |es| && (Quiet(Parse(log)) || Parse(log).Wrong?)
    ensures var p := Parse(EmitStream(log, es, n));
            if Parse(log).Wrong? || Starts(es, n) > 1 then p.Wrong?
            else if Starts(es, n) == 0 then Quiet(p)
            else p.Speaking? && p.message.Assistant?
  {
    hide Parse, EndedMessages;
    if n > 0 {
      ParseStream(log, es, n - 1);
      var before := EmitStream(log, es, n - 1);
      ParseSnoc(before, MessageStart(es[n - 1].partial));
      ParseSnoc(before, MessageUpdate(es[n - 1].partial));
    }
  }

  lemma ParseReply(log: seq<AgentEvent>, es: seq<ProviderEvent>, reply: AssistantMessage)
    requires Quiet(Parse(log)) || Parse(log).Wrong?
    ensures var p := Parse(EmitReply(log, es, reply));
            if Parse(log).Wrong? || Starts(es, |es|) > 1 then p.Wrong? else p.Talking? && p.last == Some(reply)
  {
    hide Parse, EndedMessages;
    var streamed := EmitStream(log, es, |es|);
    ParseStream(log, es, |es|);
    ParseSnoc(streamed, MessageEnd(reply));
    ParseSnoc(streamed, MessageStart(reply));
    ParseSnoc(streamed + [MessageStart(reply)], MessageEnd(reply));
  }

  lemma {:induction false} ParseUpdates(log: seq<AgentEvent>, call: ToolCall, updates: seq<string>, n: nat)
    requires n <= |updates|
    requires Parse(log).Wrong? || (Parse(log).Running? && Parse(log).call == call)
    ensures Parse(EmitUpdates(log, call, updates, n)) == Parse(log)
  {
    hide Parse, EndedMessages;
    if n > 0 {
      ParseUpdates(log, call, updates, n - 1);
      ParseSnoc(EmitUpdates(log, call, updates, n - 1),
                ToolExecutionUpdate(call.id, call.name, call.arguments, updates[n - 1]));
    }
  }

  /** Ready for a tool call: right after the reply, or after earlier results. */
  predicate Ready(p: Phase, reply: Message, results: seq<Message>) {
    p == Working(reply, results) || (results == [] && p.Talking? && p.last == Some(reply))
  }

  /** A block's events up to the end of its execution. */
  function EmitExecution(log: seq<AgentEvent>, b: ToolBlock): seq<AgentEvent> {
    EmitUpdates(log + [ToolExecutionStart(b.call.id, b.call.name, b.call.arguments)], b.call, b.updates, |b.updates|)
    + [ToolExecutionEnd(b.call.id, b.call.name, b.result.content, b.result.isError)]
  }

  lemma ParseExecution(log: seq<AgentEvent>, b: ToolBlock, reply: Message, results: seq<Message>)
    requires NextCall(reply, |results|) == Some(b.call) && (Parse(log).Wrong? || Ready(Parse(log), reply, results))
    ensures Parse(EmitExecution(log, b))
         == if Parse(log).Wrong? then Wrong else Ran(reply, results, b.call, b.result.isError)
  {
    hide Parse, EndedMessages, EmitUpdates, NextCall;
    var start := ToolExecutionStart(b.call.id, b.call.name, b.call.arguments);
    var end := ToolExecutionEnd(b.call.id, b.call.name, b.result.content, b.result.isError);
    ParseSnoc(log, start);
    ParseUpdates(log + [start], b.call, b.updates, |b.updates|);
    ParseSnoc(EmitUpdates(log + [start], b.call, b.updates, |b.updates|), end);
  }

  lemma ParseResult(log: seq<AgentEvent>, result: ToolResultMessage, call: ToolCall, reply: Message,
                    results: seq<Message>)
    requires result.toolCallId == call.id && result.toolName == call.name
    requires Parse(log).Wrong? || Parse(log) == Ran(reply, results, call, result.isError)
    ensures Parse(log + [MessageStart(result)] + [MessageEnd(result)])
         == if Parse(log).Wrong? then Wrong else Working(reply, results + [result])
  {
    hide Parse, EndedMessages;
    ParseSnoc(log, MessageStart(result));
    ParseSnoc(log + [MessageStart(result)], MessageEnd(result));
  }

  lemma ParseBlock(log: seq<AgentEvent>, b: ToolBlock, reply: Message, results: seq<Message>)
    requires b.result.toolCallId == b.call.id && b.result.toolName == b.call.name
    requires NextCall(reply, |results|) == Some(b.call)
    requires Parse(log).Wrong? || Ready(Parse(log), reply, results)
    ensures Parse(EmitBlock(log, b)) == if Parse(log).Wrong? then Wrong else Working(reply, results + [b.result])
  {
    hide Parse, Ready, EmitUpdates, NextCall;
    ParseExecution(log, b, reply, results);
    ParseResult(EmitExecution(log, b), b.result, b.call, reply, results);
  }

  lemma {:induction false} ParseBlocks(log: seq<AgentEvent>, bs: seq<ToolBlock>, reply: Message)
    requires forall i | 0 <= i < |bs| :: BlockOk(bs[i], bs[i].call) && NextCall(reply, i) == Some(bs[i].call)
    requires Parse(log).Wrong? || Ready(Parse(log), reply, [])
    ensures var p := Parse(EmitBlocks(log, bs));
            if Parse(log).Wrong? then p.Wrong? else Ready(p, reply, Results(bs))
  {
    hide Parse, EndedMessages, NextCall, EmitBlock;
    if bs != [] {
      var front, last := bs[..|bs| - 1], bs[|bs| - 1];
      ParseBlocks(log, front, reply);
      ParseBlock(EmitBlocks(log, front), last, reply, Results(front));
      assert Results(bs) == Results(front) + [last.result];
    }
  }

  lemma ParseTurn(log: seq<AgentEvent>, t: Turn)
    requires TurnOk(t) && (Quiet(Parse(log)) || Parse(log).Wrong?)
    ensures Parse(EmitTurn(log, t))
         == if Parse(log).Wrong? || Starts(t.streamed, |t.streamed|) > 1 then Wrong else BetweenTurns
  {
    hide Parse, EndedMessages;
    var injected := EmitMessages(log, t.injected, |t.injected|);
    var replied := EmitReply(injected, t.streamed, t.reply);
    ParseMessages(log, t.injected, |t.injected|);
    ParseReply(injected, t.streamed, t.reply);
    ParseBlocks(replied, t.blocks, t.reply);
    ParseSnoc(EmitBlocks(replied, t.blocks), TurnEnd(t.reply, Results(t.blocks)));
  }

  lemma {:induction false} ParseTurns(log: seq<AgentEvent>, ts: seq<Turn>)
    requires TurnsOk(ts) && ts != [] && Quiet(Parse(log))
    ensures Parse(EmitTurns(log, ts)) == if StartsOnce(ts) then BetweenTurns else Wrong
  {
    hide Parse, TurnOk, MayInject, EmitTurn;
    var front, t := ts[..|ts| - 1], ts[|ts| - 1];
    var before := EmitTurns(log, front);
    if front != [] {
      ParseTurns(log, front);
      ParseSnoc(before, TurnStart);
    }
    ParseTurn(if |ts| == 1 then before else before + [TurnStart], t);
  }

  lemma ParseHeader(prompts: seq<Message>)
    ensures Quiet(Parse(Header(prompts)))
  {
    ParseSnoc([], AgentStart);
    ParseSnoc([AgentStart], TurnStart);
    assert [] + [AgentStart] == [AgentStart] && [AgentStart] + [TurnStart] == [AgentStart, TurnStart];
    ParseMessages([AgentStart, TurnStart], prompts, |prompts|);
  }

  /** The messages that end in a run's events are those the loop reports as new. */
  lemma TraceEnds(run: Run)
    ensures EndedMessages(Trace(run)) == Produced(run)
  {
    hide Fold, Trace, Produced;
    var s := AgentState([], false, None, {}, None, None);
    ReplayTrace(s, run);
    FoldEnded(s, Trace(run));
    assert [] + EndedMessages(Trace(run)) == EndedMessages(Trace(run)) && [] + Produced(run) == Produced(run);
  }

  /** A completed run's events keep to the grammar exactly when each reply starts once. */
  lemma TraceFollowsGrammar(run: Run)
    requires TurnsOk(run.turns) && run.turns != []
    ensures Parse(Trace(run) + [AgentEnd(Produced(run))]).Ended? <==> StartsOnce(run.turns)
  {
    hide Parse, Header, EmitTurns, TurnsOk, StartsOnce;
    ParseHeader(run.prompts);
    ParseTurns(Header(run.prompts), run.turns);
    TraceEnds(run);
    ParseSnoc(Trace(run), AgentEnd(Produced(run)));
  }

  // ---- Pending tools ----

  /** After every event at most one tool is pending, and when a turn ends none is and nothing is being
      streamed. */
  predicate Tidy(s: AgentState, log: seq<AgentEvent>) {
    |Fold(s, log).pendingToolCalls| <= 1 &&
    (log == [] ||
     var before := log[..|log| - 1];
     Tidy(s, before) && (log[|log| - 1].TurnEnd? ==> Idle(Fold(s, before))))
  }

  lemma TidySnoc(s: AgentState, log: seq<AgentEvent>, e: AgentEvent)
    requires Tidy(s, log) && |Fold(s, log + [e]).pendingToolCalls| <= 1 && (e.TurnEnd? ==> Idle(Fold(s, log)))
    ensures Tidy(s, log + [e])
  {
    assert (log + [e])[..|log|] == log;
  }

  lemma {:induction false} TidyMessages(s: AgentState, log: seq<AgentEvent>, ms: seq<Message>, n: nat)
    requires n <= |ms| && Tidy(s, log) && Idle(Fold(s, log))
    ensures Tidy(s, EmitMessages(log, ms, n))
  {
    hide Fold, Tidy;
    if n > 0 {
      var before, m := EmitMessages(log, ms, n - 1), ms[n - 1];
      TidyMessages(s, log, ms, n - 1);
      FoldMessages(s, log, ms, n - 1);
      FoldSnoc(s, before, MessageStart(m));
      TidySnoc(s, before, MessageStart(m));
      FoldSnoc(s, before + [MessageStart(m)], MessageEnd(m));
      TidySnoc(s, before + [MessageStart(m)], MessageEnd(m));
    }
  }

  lemma {:induction false} TidyStream(s: AgentState, log: seq<AgentEvent>, es: seq<ProviderEvent>, n: nat)
    requires n <= |es| && Tidy(s, log) && Idle(Fold(s, log))
    ensures Tidy(s, EmitStream(log, es, n))
  {
    hide Fold, Tidy;
    if n > 0 {
      var before := EmitStream(log, es, n - 1);
      TidyStream(s, log, es, n - 1);
      FoldStream(s, log, es, n - 1);
      FoldSnoc(s, before, MessageStart(es[n - 1].partial));
      FoldSnoc(s, before, MessageUpdate(es[n - 1].partial));
      TidySnoc(s, before, MessageStart(es[n - 1].partial));
      TidySnoc(s, before, MessageUpdate(es[n - 1].partial));
    }
  }

  lemma TidyReply(s: AgentState, log: seq<AgentEvent>, es: seq<ProviderEvent>, reply: AssistantMessage)
    requires Tidy(s, log) && Idle(Fold(s, log))
    ensures Tidy(s, EmitReply(log, es, reply))
  {
    hide Fold, Tidy;
    var streamed := EmitStream(log, es, |es|);
    TidyStream(s, log, es, |es|);
    FoldStream(s, log, es, |es|);
    FoldSnoc(s, streamed, MessageEnd(reply));
    TidySnoc(s, streamed, MessageEnd(reply));
    FoldSnoc(s, streamed, MessageStart(reply));
    TidySnoc(s, streamed, MessageStart(reply));
    FoldSnoc(s, streamed + [MessageStart(reply)], MessageEnd(reply));
    TidySnoc(s, streamed + [MessageStart(reply)], MessageEnd(reply));
  }

  lemma {:induction false} TidyUpdates(s: AgentState, log: seq<AgentEvent>, call: ToolCall, updates: seq<string>,
                                       n: nat)
    requires n <= |updates| && Tidy(s, log) && |Fold(s, log).pendingToolCalls| <= 1
    ensures Tidy(s, EmitUpdates(log, call, updates, n))
  {
    hide Fold, Tidy;
    if n > 0 {
      var e := ToolExecutionUpdate(call.id, call.name, call.arguments, updates[n - 1]);
      TidyUpdates(s, log, call, updates, n - 1);
      FoldUpdates(s, log, call, updates, n - 1);
      FoldSnoc(s, EmitUpdates(log, call, updates, n - 1), e);
      TidySnoc(s, EmitUpdates(log, call, updates, n - 1), e);
    }
  }

  lemma TidyBlock(s: AgentState, log: seq<AgentEvent>, b: ToolBlock)
    requires Tidy(s, log) && Idle(Fold(s, log))
    ensures Tidy(s, EmitBlock(log, b))
  {
    hide Fold, Tidy;
    var start := ToolExecutionStart(b.call.id, b.call.name, b.call.arguments);
    var end := ToolExecutionEnd(b.call.id, b.call.name, b.result.content, b.result.isError);
    var ran := EmitUpdates(log + [start], b.call, b.updates, |b.updates|);
    FoldSnoc(s, log, start);
    assert {} + {b.call.id} == {b.call.id} && {b.call.id} - {b.call.id} == {};
    TidySnoc(s, log, start);
    TidyUpdates(s, log + [start], b.call, b.updates, |b.updates|);
    FoldUpdates(s, log + [start], b.call, b.updates, |b.updates|);
    FoldSnoc(s, ran, end);
    TidySnoc(s, ran, end);
    FoldSnoc(s, ran + [end], MessageStart(b.result));
    TidySnoc(s, ran + [end], MessageStart(b.result));
    FoldSnoc(s, ran + [end] + [MessageStart(b.result)], MessageEnd(b.result));
    TidySnoc(s, ran + [end] + [MessageStart(b.result)], MessageEnd(b.result));
  }

  lemma {:induction false} TidyBlocks(s: AgentState, log: seq<AgentEvent>, bs: seq<ToolBlock>)
    requires Tidy(s, log) && Idle(Fold(s, log))
    ensures Tidy(s, EmitBlocks(log, bs))
  {
    hide Fold, Tidy;
    if bs != [] {
      var front := bs[..|bs| - 1];
      TidyBlocks(s, log, front);
      FoldBlocks(s, log, front);
      TidyBlock(s, EmitBlocks(log, front), bs[|bs| - 1]);
    }
  }

  lemma TidyTurn(s: AgentState, log: seq<AgentEvent>, t: Turn)
    requires Tidy(s, log) && Idle(Fold(s, log))
    ensures Tidy(s, EmitTurn(log, t))
  {
    hide Fold, Tidy;
    var injected := EmitMessages(log, t.injected, |t.injected|);
    var replied := EmitReply(injected, t.streamed, t.reply);
    var worked := EmitBlocks(replied, t.blocks);
    TidyMessages(s, log, t.injected, |t.injected|);
    FoldMessages(s, log, t.injected, |t.injected|);
    TidyReply(s, injected, t.streamed, t.reply);
    FoldReply(s, injected, t.streamed, t.reply);
    TidyBlocks(s, replied, t.blocks);
    FoldBlocks(s, replied, t.blocks);
    FoldSnoc(s, worked, TurnEnd(t.reply, Results(t.blocks)));
    TidySnoc(s, worked, TurnEnd(t.reply, Results(t.blocks)));
  }

  lemma {:induction false} TidyTurns(s: AgentState, log: seq<AgentEvent>, ts: seq<Turn>)
    requires Tidy(s, log) && Idle(Fold(s, log))
    ensures Tidy(s, EmitTurns(log, ts))
  {
    hide Fold, Tidy;
    if ts != [] {
      var front := ts[..|ts| - 1];
      var before := EmitTurns(log, front);
      TidyTurns(s, log, front);
      FoldTurns(s, log, front);
      FoldSnoc(s, before, TurnStart);
      TidySnoc(s, before, TurnStart);
      TidyTurn(s, if |ts| == 1 then before else before + [TurnStart], ts[|ts| - 1]);
    }
  }

  lemma {:induction false} TidyAt(s: AgentState, log: seq<AgentEvent>, k: nat)
    requires Tidy(s, log) && k <= |log|
    ensures |Fold(s, log[..k]).pendingToolCalls| <= 1
    ensures k < |log| && log[k].TurnEnd? ==> Idle(Fold(s, log[..k]))
  {
    if k < |log| {
      var front := log[..|log| - 1];
      assert front[..k] == log[..k];
      TidyAt(s, front, k);
    } else {
      assert log[..k] == log;
    }
  }

  /** Whatever part of a run's events the agent has taken, at most one tool call is pending, and at
      every `turn_end` none is and no message is being streamed, duplicate call ids included. */
  lemma AtMostOneToolPending(s: AgentState, run: Run, k: nat)
    requires Idle(s) && k <= |Trace(run)|
    ensures |Fold(s, Trace(run)[..k]).pendingToolCalls| <= 1
    ensures k < |Trace(run)| && Trace(run)[k].TurnEnd? ==> Idle(Fold(s, Trace(run)[..k]))
  {
    FoldSnoc(s, [], AgentStart);
    FoldSnoc(s, [AgentStart], TurnStart);
    assert Tidy(s, []);
    TidySnoc(s, [], AgentStart);
    TidySnoc(s, [AgentStart], TurnStart);
    assert [] + [AgentStart] == [AgentStart] && [AgentStart] + [TurnStart] == [AgentStart, TurnStart];
    hide Fold, Tidy;
    TidyMessages(s, [AgentStart, TurnStart], run.prompts, |run.prompts|);
    FoldHeader(s, run.prompts);
    TidyTurns(s, Header(run.prompts), run.turns);
    TidyAt(s, Trace(run), k);
  }
}
