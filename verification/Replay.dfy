/** The agent's view of a run: its state is rebuilt from the loop's events
    (packages/agent/src/agent.ts, `_runLoop`). */
module Replay {
  import opened Wrappers
  import opened Conversation

  /** The part of the agent's state that events change; `partial` is the local variable beside it. */
  datatype AgentState = AgentState(
    messages: seq<Message>, isStreaming: bool, streamMessage: Option<Message>,
    pendingToolCalls: set<string>, error: Option<string>, partial: Option<Message>)

  predicate ReportsError(m: Message) {
    m.Assistant? && m.errorMessage.Some? && m.errorMessage.value != ""
  }

  function Apply(s: AgentState, e: AgentEvent): AgentState {
    match e
    case MessageStart(m) => s.(partial := Some(m), streamMessage := Some(m))
    case MessageUpdate(m) => s.(partial := Some(m), streamMessage := Some(m))
    case MessageEnd(m) => s.(partial := None, streamMessage := None, messages := s.messages + [m])
    case ToolExecutionStart(id, _, _) => s.(pendingToolCalls := s.pendingToolCalls + {id})
    case ToolExecutionEnd(id, _, _, _) => s.(pendingToolCalls := s.pendingToolCalls - {id})
    case TurnEnd(m, _) => if ReportsError(m) then s.(error := m.errorMessage) else s
    case AgentEnd(_) => s.(isStreaming := false, streamMessage := None)
    case _ => s
  }

  function Fold(s: AgentState, es: seq<AgentEvent>): AgentState {
    if es == [] then s else Apply(Fold(s, es[..|es| - 1]), es[|es| - 1])
  }

  lemma FoldSnoc(s: AgentState, es: seq<AgentEvent>, e: AgentEvent)
    ensures Fold(s, es + [e]) == Apply(Fold(s, es), e)
  {
    assert (es + [e])[..|es|] == es;
  }

  // ---- What the state says of the events, whatever they are ----

  predicate StartsCall(e: AgentEvent, id: string) {
    e.ToolExecutionStart? && e.toolCallId == id
  }

  predicate EndsCall(e: AgentEvent, id: string) {
    e.ToolExecutionEnd? && e.toolCallId == id
  }

  /** A call is pending exactly if it has started, or was pending, and has not ended since. */
  lemma {:induction false} PendingMeaning(s: AgentState, log: seq<AgentEvent>, id: string)
    ensures id in Fold(s, log).pendingToolCalls
       <==> || (exists k :: 0 <= k < |log| && StartsCall(log[k], id)
                            && forall j | k < j < |log| :: !EndsCall(log[j], id))
            || (id in s.pendingToolCalls && forall j | 0 <= j < |log| :: !EndsCall(log[j], id))
  {
    if log != [] {
      var n := |log| - 1;
      PendingMeaning(s, log[..n], id);
      assert forall j | 0 <= j < n :: log[..n][j] == log[j];
      assert id in Fold(s, log).pendingToolCalls
        <==> StartsCall(log[n], id) || (id in Fold(s, log[..n]).pendingToolCalls && !EndsCall(log[n], id));
    }
  }

  /** The event shows this message as one that is being streamed. */
  predicate Shows(e: AgentEvent, m: Message) {
    (e.MessageStart? || e.MessageUpdate?) && e.message == m
  }

  /** The event has to do with the message being streamed. */
  predicate Concerns(e: AgentEvent) {
    e.MessageStart? || e.MessageUpdate? || e.MessageEnd? || e.AgentEnd?
  }

  /** The message being streamed is the latest one shown, if nothing has ended since. */
  lemma {:induction false} StreamMessageMeaning(s: AgentState, log: seq<AgentEvent>, m: Message)
    ensures Fold(s, log).streamMessage == Some(m)
       <==> || (exists k :: 0 <= k < |log| && Shows(log[k], m) && forall j | k < j < |log| :: !Concerns(log[j]))
            || (s.streamMessage == Some(m) && forall j | 0 <= j < |log| :: !Concerns(log[j]))
  {
    if log != [] {
      var n := |log| - 1;
      StreamMessageMeaning(s, log[..n], m);
      assert forall j | 0 <= j < n :: log[..n][j] == log[j];
      assert Fold(s, log).streamMessage == Some(m)
        <==> Shows(log[n], m) || (Fold(s, log[..n]).streamMessage == Some(m) && !Concerns(log[n]));
    }
  }

  /** The agent is streaming until `agent_end`. */
  lemma {:induction false} IsStreamingMeaning(s: AgentState, log: seq<AgentEvent>)
    ensures Fold(s, log).isStreaming <==> s.isStreaming && forall e <- log :: !e.AgentEnd?
  {
    if log != [] {
      var n := |log| - 1;
      IsStreamingMeaning(s, log[..n]);
      assert log == log[..n] + [log[n]];
    }
  }

  /** No message is being streamed and no tool is running. */
  predicate Idle(s: AgentState) {
    s.streamMessage == None && s.partial == None && s.pendingToolCalls == {}
  }

  /** The error a run leaves behind: the last one a reply reported. */
  function LastError(error: Option<string>, ts: seq<Turn>): Option<string> {
    if ts == [] then error
    else
      var reply := ts[|ts| - 1].reply;
      if ReportsError(reply) then reply.errorMessage else LastError(error, ts[..|ts| - 1])
  }

  /** That is the error message, if it is not empty, of the last reply that has one. */
  lemma {:induction false} LastErrorMeaning(error: Option<string>, ts: seq<Turn>)
    ensures || (exists k :: 0 <= k < |ts| && HasError(ts[k].reply)
                            && LastError(error, ts) == ts[k].reply.errorMessage
                            && forall j | k < j < |ts| :: !HasError(ts[j].reply))
            || (LastError(error, ts) == error && forall j | 0 <= j < |ts| :: !HasError(ts[j].reply))
  {
    if ts != [] {
      var n := |ts| - 1;
      LastErrorMeaning(error, ts[..n]);
      assert forall j | 0 <= j < n :: ts[..n][j] == ts[j];
      if HasError(ts[n].reply) {
        assert LastError(error, ts) == ts[n].reply.errorMessage;
      } else {
        assert LastError(error, ts) == LastError(error, ts[..n]);
      }
    }
  }

  predicate HasError(reply: AssistantMessage) {
    reply.errorMessage != None && reply.errorMessage != Some("")
  }

  lemma {:induction false} FoldMessages(s: AgentState, log: seq<AgentEvent>, ms: seq<Message>, n: nat)
    requires n <= |ms| && Idle(Fold(s, log))
    ensures var t := Fold(s, log); Fold(s, EmitMessages(log, ms, n)) == t.(messages := t.messages + ms[..n])
  {
    hide Fold;
    if n > 0 {
      var before, m := EmitMessages(log, ms, n - 1), ms[n - 1];
      FoldMessages(s, log, ms, n - 1);
      FoldSnoc(s, before, MessageStart(m));
      FoldSnoc(s, before + [MessageStart(m)], MessageEnd(m));
      assert Fold(s, log).messages + ms[..n - 1] + [m] == Fold(s, log).messages + ms[..n];
    } else {
      assert Fold(s, log).messages + ms[..0] == Fold(s, log).messages;
    }
  }

  lemma {:induction false} FoldStream(s: AgentState, log: seq<AgentEvent>, es: seq<ProviderEvent>, n: nat)
    requires n <= |es|
    ensures var t, u := Fold(s, log), Fold(s, EmitStream(log, es, n));
            u == t.(streamMessage := u.streamMessage, partial := u.partial)
  {
    if n > 0 {
      FoldStream(s, log, es, n - 1);
      var before := EmitStream(log, es, n - 1);
      FoldSnoc(s, before, MessageStart(es[n - 1].partial));
      FoldSnoc(s, before, MessageUpdate(es[n - 1].partial));
    }
  }

  lemma FoldReply(s: AgentState, log: seq<AgentEvent>, es: seq<ProviderEvent>, reply: AssistantMessage)
    requires Idle(Fold(s, log))
    ensures var t := Fold(s, log); Fold(s, EmitReply(log, es, reply)) == t.(messages := t.messages + [reply])
  {
    hide Fold;
    FoldStream(s, log, es, |es|);
    var streamed := EmitStream(log, es, |es|);
    FoldSnoc(s, streamed, MessageEnd(reply));
    FoldSnoc(s, streamed, MessageStart(reply));
    FoldSnoc(s, streamed + [MessageStart(reply)], MessageEnd(reply));
  }

  lemma {:induction false} FoldUpdates(s: AgentState, log: seq<AgentEvent>, call: ToolCall, updates: seq<string>,
                                       n: nat)
    requires n <= |updates|
    ensures Fold(s, EmitUpdates(log, call, updates, n)) == Fold(s, log)
  {
    if n > 0 {
      FoldUpdates(s, log, call, updates, n - 1);
      FoldSnoc(s, EmitUpdates(log, call, updates, n - 1),
               ToolExecutionUpdate(call.id, call.name, call.arguments, updates[n - 1]));
    }
  }

  lemma FoldBlock(s: AgentState, log: seq<AgentEvent>, b: ToolBlock)
    requires Idle(Fold(s, log))
    ensures var t := Fold(s, log); Fold(s, EmitBlock(log, b)) == t.(messages := t.messages + [b.result])
  {
    hide Fold;
    var start := ToolExecutionStart(b.call.id, b.call.name, b.call.arguments);
    var end := ToolExecutionEnd(b.call.id, b.call.name, b.result.content, b.result.isError);
    var ran := EmitUpdates(log + [start], b.call, b.updates, |b.updates|);
    FoldSnoc(s, log, start);
    FoldUpdates(s, log + [start], b.call, b.updates, |b.updates|);
    FoldSnoc(s, ran, end);
    FoldSnoc(s, ran + [end], MessageStart(b.result));
    FoldSnoc(s, ran + [end] + [MessageStart(b.result)], MessageEnd(b.result));
    assert {b.call.id} - {b.call.id} == {};
  }

  lemma {:induction false} FoldBlocks(s: AgentState, log: seq<AgentEvent>, bs: seq<ToolBlock>)
    requires Idle(Fold(s, log))
    ensures var t := Fold(s, log); Fold(s, EmitBlocks(log, bs)) == t.(messages := t.messages + Results(bs))
  {
    if bs == [] {
      assert Fold(s, log).messages + Results(bs) == Fold(s, log).messages;
    } else {
      var front, last := bs[..|bs| - 1], bs[|bs| - 1];
      FoldBlocks(s, log, front);
      FoldBlock(s, EmitBlocks(log, front), last);
      assert Results(bs) == Results(front) + [last.result];
    }
  }

  lemma FoldTurn(s: AgentState, log: seq<AgentEvent>, t: Turn)
    requires Idle(Fold(s, log))
    ensures var u := Fold(s, log);
            Fold(s, EmitTurn(log, t)) == u.(messages := u.messages + t.injected + [t.reply] + Results(t.blocks),
                                            error := if ReportsError(t.reply) then t.reply.errorMessage else u.error)
  {
    var injected := EmitMessages(log, t.injected, |t.injected|);
    var replied := EmitReply(injected, t.streamed, t.reply);
    FoldMessages(s, log, t.injected, |t.injected|);
    assert t.injected[..|t.injected|] == t.injected;
    FoldReply(s, injected, t.streamed, t.reply);
    FoldBlocks(s, replied, t.blocks);
    FoldSnoc(s, EmitBlocks(replied, t.blocks), TurnEnd(t.reply, Results(t.blocks)));
  }

  lemma {:induction false} FoldTurns(s: AgentState, log: seq<AgentEvent>, ts: seq<Turn>)
    requires Idle(Fold(s, log))
    ensures var u := Fold(s, log);
            Fold(s, EmitTurns(log, ts)) == u.(messages := ProducedBy(u.messages, ts), error := LastError(u.error, ts))
  {
    if ts != [] {
      var front, t := ts[..|ts| - 1], ts[|ts| - 1];
      FoldTurns(s, log, front);
      hide Fold;
      var before := EmitTurns(log, front);
      FoldSnoc(s, before, TurnStart);
      FoldTurn(s, if |ts| == 1 then before else before + [TurnStart], t);
    }
  }

  /** Where the messages before the run come from does not matter. */
  lemma {:induction false} ProducedAfter(base: seq<Message>, prompts: seq<Message>, ts: seq<Turn>)
    ensures ProducedBy(base + prompts, ts) == base + ProducedBy(prompts, ts)
  {
    if ts != [] {
      var front, t := ts[..|ts| - 1], ts[|ts| - 1];
      ProducedAfter(base, prompts, front);
      Associates(base, ProducedBy(prompts, front), t.injected, [t.reply], Results(t.blocks));
    }
  }

  lemma Associates(a: seq<Message>, b: seq<Message>, c: seq<Message>, d: seq<Message>, e: seq<Message>)
    ensures a + b + c + d + e == a + (b + c + d + e)
  {
  }

  /** Replaying the whole trace of a run appends exactly the messages the loop reports as new, and
      leaves nothing streaming and no tool pending. */
  lemma ReplayTrace(s: AgentState, run: Run)
    requires Idle(s)
    ensures Fold(s, Trace(run))
         == s.(messages := s.messages + Produced(run), error := LastError(s.error, run.turns))
  {
    FoldHeader(s, run.prompts);
    hide Fold;
    FoldTurns(s, Header(run.prompts), run.turns);
    ProducedAfter(s.messages, run.prompts, run.turns);
  }

  lemma FoldHeader(s: AgentState, prompts: seq<Message>)
    requires Idle(s)
    ensures Fold(s, Header(prompts)) == s.(messages := s.messages + prompts)
  {
    FoldSnoc(s, [], AgentStart);
    FoldSnoc(s, [AgentStart], TurnStart);
    assert [] + [AgentStart] == [AgentStart] && [AgentStart] + [TurnStart] == [AgentStart, TurnStart];
    hide Fold;
    FoldMessages(s, [AgentStart, TurnStart], prompts, |prompts|);
    assert prompts[..|prompts|] == prompts;
  }
}
