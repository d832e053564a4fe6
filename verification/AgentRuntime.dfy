/** The agent and its loop (packages/agent/src/agent.ts, packages/agent/src/agent-loop.ts).

    The world outside is an `Environment`: what users queue during each `await`, how many events the
    consumer takes meanwhile, what the provider answers and what the tools do. A run is observed for
    as many provider replies as the environment holds, so every prefix (up to a turn) of every run,
    finished or not, is a run of this model. */
module AgentRuntime {
  import opened Wrappers
  import opened Conversation
  import opened Replay

  datatype QueueMode = All | OneAtATime

  datatype Arrival = Steered(message: Message) | FollowedUp(message: Message)

  /** What a tool does when executed: the updates it reports, then a result or an exception. */
  datatype ToolRun = ToolRun(updates: seq<string>, outcome: ToolOutcome)
  datatype ToolOutcome = Returned(content: string, details: string) | Threw(errorText: string)

  function Queued(arrivals: seq<Arrival>, steering: bool): seq<Message> {
    if arrivals == [] then []
    else
      var last := arrivals[|arrivals| - 1];
      Queued(arrivals[..|arrivals| - 1], steering) + if last.Steered? == steering then [last.message] else []
  }

  /** Every arrival is queued in its own queue, behind the earlier ones. */
  lemma {:induction false} QueuedMeaning(arrivals: seq<Arrival>, k: nat)
    requires k < |arrivals|
    ensures var mine, other := arrivals[k].Steered?, !arrivals[k].Steered?;
            && |Queued(arrivals, true)| + |Queued(arrivals, false)| == |arrivals|
            && Queued(arrivals[..k], mine) + [arrivals[k].message] <= Queued(arrivals, mine)
            && Queued(arrivals[..k], other) <= Queued(arrivals, other)
  {
    var front := arrivals[..|arrivals| - 1];
    if k < |front| {
      QueuedMeaning(front, k);
      assert front[..k] == arrivals[..k];
    } else {
      QueuedCounted(front);
    }
  }

  lemma {:induction false} QueuedCounted(arrivals: seq<Arrival>)
    ensures |Queued(arrivals, true)| + |Queued(arrivals, false)| == |arrivals|
  {
    if arrivals != [] {
      QueuedCounted(arrivals[..|arrivals| - 1]);
    }
  }

  /** What users queue during the first `clock` suspensions. */
  function QueuedUntil(arrivals: nat -> seq<Arrival>, clock: nat, steering: bool): seq<Message> {
    if clock == 0 then []
    else QueuedUntil(arrivals, clock - 1, steering) + Queued(arrivals(clock - 1), steering)
  }

  /** The block of an executed call: a tool that is missing or throws yields an error result. */
  function ExecutedBlock(tools: set<string>, call: ToolCall, run: ToolRun): ToolBlock {
    if call.name !in tools then
      ToolBlock(call, [], ToolResult(call.id, call.name, "Tool " + call.name + " not found", "{}", true), false)
    else
      var result := match run.outcome
        case Returned(content, details) => ToolResult(call.id, call.name, content, details, false)
        case Threw(text) => ToolResult(call.id, call.name, text, "{}", true);
      ToolBlock(call, run.updates, result, false)
  }

  function SkippedBlock(call: ToolCall): ToolBlock {
    ToolBlock(call, [], ToolResult(call.id, call.name, SKIPPED_TEXT, "{}", true), true)
  }

  class Environment {
    const arrivals: nat -> seq<Arrival>
    const pace: nat -> nat
    const tool: nat -> ToolRun
    const tools: set<string>
    const transformContext: Option<seq<Message> -> seq<Message>>
    const convertToLlm: seq<Message> -> seq<Message>
    var clock: nat
    var toolClock: nat
    var replies: seq<Reply>
    var requests: seq<seq<Message>>  // the loop's context at each request
    var sent: seq<seq<Message>>      // what the provider was sent for it
    ghost var polls: seq<seq<Message>>   // what each poll of the steering queue found

    constructor (arrivals: nat -> seq<Arrival>, pace: nat -> nat, tool: nat -> ToolRun, tools: set<string>,
                 transformContext: Option<seq<Message> -> seq<Message>>, convertToLlm: seq<Message> -> seq<Message>,
                 replies: seq<Reply>)
      ensures this.arrivals == arrivals && this.pace == pace && this.tool == tool && this.tools == tools
      ensures this.transformContext == transformContext && this.convertToLlm == convertToLlm
      ensures clock == 0 && toolClock == 0 && this.replies == replies && requests == [] && sent == [] && polls == []
    {
      this.arrivals, this.pace, this.tool, this.tools := arrivals, pace, tool, tools;
      this.transformContext, this.convertToLlm := transformContext, convertToLlm;
      clock, toolClock, this.replies, requests, sent, polls := 0, 0, replies, [], [], [];
    }

    /** What the provider is sent for a context. */
    function Prepared(context: seq<Message>): seq<Message> {
      convertToLlm(if transformContext.Some? then transformContext.value(context) else context)
    }

    /** Every request was answered with exactly the prepared context. */
    ghost predicate SentPrepared() reads this`requests, this`sent {
      |sent| == |requests| && forall i | 0 <= i < |requests| :: sent[i] == Prepared(requests[i])
    }
  }

  /** packages/ai/src/utils/event-stream.ts, with the waiting consumer folded into `queue`. */
  class EventStream {
    var queue: seq<AgentEvent>
    var done: bool
    var result: Option<seq<Message>>
    ghost var pushed: seq<AgentEvent>
    ghost var taken: seq<AgentEvent>

    ghost predicate Valid() reads this {
      pushed == taken + queue
    }

    ghost function Sent(): (seq<AgentEvent>, bool, Option<seq<Message>>) reads this {
      (pushed, done, result)
    }

    /** The stream is still open and exactly `trace` has been pushed. */
    ghost predicate Open(trace: seq<AgentEvent>) reads this {
      pushed == trace && !done && result == None
    }

    constructor ()
      ensures Valid() && !done && pushed == [] && taken == [] && result == None
    {
      queue, done, result, pushed, taken := [], false, None, [], [];
    }

    method Push(e: AgentEvent)
      requires Valid()
      modifies this
      ensures Valid() && taken == old(taken)
      ensures old(done) ==> done && pushed == old(pushed) && result == old(result)
      ensures !old(done) ==> pushed == old(pushed) + [e] && done == e.AgentEnd?
      ensures !old(done) ==> result == if e.AgentEnd? && old(result).None? then Some(e.messages) else old(result)
    {
      if done { return; }
      if e.AgentEnd? {
        done := true;
        if result.None? { result := Some(e.messages); }
      }
      queue := queue + [e];
      pushed := pushed + [e];
    }

    method End(value: seq<Message>)
      requires Valid()
      modifies this
      ensures Valid() && taken == old(taken) && pushed == old(pushed) && done
      ensures result == if old(result).None? then Some(value) else old(result)
    {
      done := true;
      if result.None? { result := Some(value); }
    }

    method Shift() returns (e: AgentEvent)
      requires Valid() && queue != []
      modifies this
      ensures Valid() && pushed == old(pushed) && done == old(done) && result == old(result)
      ensures old(queue) == [e] + queue && taken == old(taken) + [e]
    {
      e := queue[0];
      queue, taken := queue[1..], taken + [e];
    }
  }

  /** `currentContext.messages` and `newMessages` of one run of the loop. */
  class LoopContext {
    var messages: seq<Message>
    var newMessages: seq<Message>

    constructor (messages: seq<Message>, newMessages: seq<Message>)
      ensures this.messages == messages && this.newMessages == newMessages
    {
      this.messages, this.newMessages := messages, newMessages;
    }
  }

  class Agent {
    const steeringMode: QueueMode
    const followUpMode: QueueMode
    var messages: seq<Message>
    var isStreaming: bool
    var streamMessage: Option<Message>
    var pendingToolCalls: set<string>
    var error: Option<string>
    var partial: Option<Message>         // local to _runLoop
    var skipInitialSteeringPoll: bool    // local to _runLoop
    var steeringQueue: seq<Message>
    var followUpQueue: seq<Message>
    ghost var steeringEnqueued: seq<Message>
    ghost var steeringTaken: seq<Message>
    ghost var followUpEnqueued: seq<Message>
    ghost var followUpTaken: seq<Message>
    ghost var before: AgentState         // the state the run's events are applied to
    ghost var steeringBacklog: seq<Message>   // what had been queued when the run began
    ghost var followUpBacklog: seq<Message>

    /** Every message ever queued has been dequeued, in order, or is still waiting. */
    ghost predicate Valid() reads this {
      && steeringEnqueued == steeringTaken + steeringQueue
      && followUpEnqueued == followUpTaken + followUpQueue
    }

    ghost function Origin(): (AgentState, seq<Message>, seq<Message>) reads this {
      (before, steeringBacklog, followUpBacklog)
    }

    function View(): AgentState reads this {
      AgentState(messages, isStreaming, streamMessage, pendingToolCalls, error, partial)
    }

    constructor (messages: seq<Message>, steeringMode: QueueMode, followUpMode: QueueMode)
      ensures Valid() && this.messages == messages && !isStreaming && pendingToolCalls == {}
      ensures this.steeringMode == steeringMode && this.followUpMode == followUpMode
      ensures steeringEnqueued == [] && followUpEnqueued == []
    {
      this.steeringMode, this.followUpMode := steeringMode, followUpMode;
      this.messages, isStreaming, streamMessage := messages, false, None;
      pendingToolCalls, error, partial, skipInitialSteeringPoll := {}, None, None, false;
      steeringQueue, followUpQueue := [], [];
      steeringEnqueued, steeringTaken, followUpEnqueued, followUpTaken := [], [], [], [];
    }

    method Steer(m: Message)
      requires Valid()
      modifies this`steeringQueue, this`steeringEnqueued
      ensures Valid() && steeringEnqueued == old(steeringEnqueued) + [m] && steeringQueue == old(steeringQueue) + [m]
    {
      steeringQueue := steeringQueue + [m];
      steeringEnqueued := steeringEnqueued + [m];
    }

    method Follow(m: Message)
      requires Valid()
      modifies this`followUpQueue, this`followUpEnqueued
      ensures Valid() && followUpEnqueued == old(followUpEnqueued) + [m] && followUpQueue == old(followUpQueue) + [m]
    {
      followUpQueue := followUpQueue + [m];
      followUpEnqueued := followUpEnqueued + [m];
    }

    method DequeueSteeringMessages() returns (ms: seq<Message>)
      requires Valid()
      modifies this`steeringQueue, this`steeringTaken
      ensures Valid() && steeringTaken == old(steeringTaken) + ms && old(steeringQueue) == ms + steeringQueue
      ensures ms == [] <==> old(steeringQueue) == []
      ensures if steeringMode == OneAtATime then |ms| <= 1 else steeringQueue == []
    {
      if steeringMode == OneAtATime {
        ms := [];
        if steeringQueue != [] {
          ms := [steeringQueue[0]];
          steeringQueue := steeringQueue[1..];
        }
      } else {
        ms := steeringQueue;
        steeringQueue := [];
      }
      steeringTaken := steeringTaken + ms;
    }

    method DequeueFollowUpMessages() returns (ms: seq<Message>)
      requires Valid()
      modifies this`followUpQueue, this`followUpTaken
      ensures Valid() && followUpTaken == old(followUpTaken) + ms && old(followUpQueue) == ms + followUpQueue
      ensures ms == [] <==> old(followUpQueue) == []
      ensures if followUpMode == OneAtATime then |ms| <= 1 else followUpQueue == []
    {
      if followUpMode == OneAtATime {
        ms := [];
        if followUpQueue != [] {
          ms := [followUpQueue[0]];
          followUpQueue := followUpQueue[1..];
        }
      } else {
        ms := followUpQueue;
        followUpQueue := [];
      }
      followUpTaken := followUpTaken + ms;
    }

    /** The event switch of `_runLoop`. */
    method HandleEvent(e: AgentEvent)
      modifies this`messages, this`isStreaming, this`streamMessage, this`pendingToolCalls, this`error, this`partial
      ensures View() == Apply(old(View()), e)
    {
      match e {
        case MessageStart(m) =>
          partial := Some(m);
          streamMessage := Some(m);
        case MessageUpdate(m) =>
          partial := Some(m);
          streamMessage := Some(m);
        case MessageEnd(m) =>
          partial := None;
          streamMessage := None;
          messages := messages + [m];
        case ToolExecutionStart(id, _, _) =>
          pendingToolCalls := pendingToolCalls + {id};
        case ToolExecutionEnd(id, _, _, _) =>
          pendingToolCalls := pendingToolCalls - {id};
        case TurnEnd(m, _) =>
          if m.Assistant? && m.errorMessage.Some? && m.errorMessage.value != "" {
            error := m.errorMessage;
          }
        case AgentEnd(_) =>
          isStreaming := false;
          streamMessage := None;
        case _ =>
      }
    }
  }

  /** During a run the agent's state is its starting state plus the events it has taken, and its
      queues have received exactly what users queued. */
  ghost predicate Coupled(agent: Agent, stream: EventStream, env: Environment)
    reads agent, stream, env
  {
    && agent.Valid() && stream.Valid()
    && agent.View() == Fold(agent.before, stream.taken)
    && agent.steeringEnqueued == agent.steeringBacklog + QueuedUntil(env.arrivals, env.clock, true)
    && agent.followUpEnqueued == agent.followUpBacklog + QueuedUntil(env.arrivals, env.clock, false)
  }

  /** The consumer's loop over the event stream, for at most `most` events. */
  method Consume(agent: Agent, stream: EventStream, most: nat)
    requires agent.Valid() && stream.Valid() && agent.View() == Fold(agent.before, stream.taken)
    modifies agent`messages, agent`isStreaming, agent`streamMessage, agent`pendingToolCalls, agent`error, agent`partial
    modifies stream
    ensures stream.Valid() && agent.View() == Fold(agent.before, stream.taken) && stream.Sent() == old(stream.Sent())
    ensures most >= |old(stream.queue)| ==> stream.queue == []
  {
    var k := 0;
    while k < most && stream.queue != []
      invariant 0 <= k <= most && k + |stream.queue| == |old(stream.queue)|
      invariant stream.Valid() && agent.View() == Fold(agent.before, stream.taken)
      invariant stream.Sent() == old(stream.Sent())
      decreases |stream.queue|
    {
      FoldSnoc(agent.before, stream.taken, stream.queue[0]);
      var e := stream.Shift();
      agent.HandleEvent(e);
      k := k + 1;
    }
  }

  /** What users queue, in order. */
  method Arrive(agent: Agent, arrivals: seq<Arrival>)
    requires agent.Valid()
    modifies agent`steeringQueue, agent`steeringEnqueued, agent`followUpQueue, agent`followUpEnqueued
    ensures agent.Valid()
    ensures agent.steeringEnqueued == old(agent.steeringEnqueued) + Queued(arrivals, true)
    ensures agent.followUpEnqueued == old(agent.followUpEnqueued) + Queued(arrivals, false)
    ensures agent.steeringQueue == old(agent.steeringQueue) + Queued(arrivals, true)
    ensures agent.followUpQueue == old(agent.followUpQueue) + Queued(arrivals, false)
  {
    for i := 0 to |arrivals|
      invariant agent.Valid()
      invariant agent.steeringQueue == old(agent.steeringQueue) + Queued(arrivals[..i], true)
      invariant agent.followUpQueue == old(agent.followUpQueue) + Queued(arrivals[..i], false)
      invariant agent.steeringEnqueued == old(agent.steeringEnqueued) + Queued(arrivals[..i], true)
      invariant agent.followUpEnqueued == old(agent.followUpEnqueued) + Queued(arrivals[..i], false)
    {
      assert arrivals[..i + 1][..i] == arrivals[..i];
      match arrivals[i] {
        case Steered(m) => agent.Steer(m);
        case FollowedUp(m) => agent.Follow(m);
      }
    }
    assert arrivals[..|arrivals|] == arrivals;
  }

  /** One suspension of the loop: users queue messages, the consumer takes some events. */
  method Await(agent: Agent, stream: EventStream, env: Environment)
    requires Coupled(agent, stream, env)
    modifies agent, stream, env`clock
    ensures Coupled(agent, stream, env) && stream.Sent() == old(stream.Sent()) && agent.Origin() == old(agent.Origin())
    ensures env.clock == old(env.clock) + 1
    ensures agent.steeringTaken == old(agent.steeringTaken) && agent.followUpTaken == old(agent.followUpTaken)
    ensures agent.steeringQueue == old(agent.steeringQueue) + Queued(env.arrivals(old(env.clock)), true)
    ensures agent.followUpQueue == old(agent.followUpQueue) + Queued(env.arrivals(old(env.clock)), false)
    ensures agent.skipInitialSteeringPoll == old(agent.skipInitialSteeringPoll)
  {
    hide Fold, QueuedUntil, Queued;
    var arrivals := env.arrivals(env.clock);
    QueuedSnoc(env.arrivals, env.clock);
    Arrive(agent, arrivals);
    Consume(agent, stream, env.pace(env.clock));
    env.clock := env.clock + 1;
    AppendMore(agent.steeringBacklog, QueuedUntil(env.arrivals, old(env.clock), true), Queued(arrivals, true));
    AppendMore(agent.followUpBacklog, QueuedUntil(env.arrivals, old(env.clock), false), Queued(arrivals, false));
  }

  lemma QueuedSnoc(arrivals: nat -> seq<Arrival>, clock: nat)
    ensures forall steering :: QueuedUntil(arrivals, clock + 1, steering)
                            == QueuedUntil(arrivals, clock, steering) + Queued(arrivals(clock), steering)
  {
  }

  lemma AppendMore(a: seq<Message>, b: seq<Message>, c: seq<Message>)
    ensures a + b + c == a + (b + c)
  {
  }

  /** What users queued during the last suspension but `back`. */
  function QueuedDuring(env: Environment, back: nat, steering: bool): seq<Message>
    reads env`clock
  {
    if env.clock <= back then [] else Queued(env.arrivals(env.clock - 1 - back), steering)
  }

  /** The last poll found the steering queue empty: what waits was queued while it was under way. */
  ghost predicate SteeringHeard(agent: Agent, env: Environment)
    reads agent`steeringQueue, env`clock
  {
    0 < env.clock && agent.steeringQueue == QueuedDuring(env, 0, true)
  }

  /** The last two polls, for steering and then for follow-ups, found their queues empty. */
  ghost predicate BothHeard(agent: Agent, env: Environment)
    reads agent`steeringQueue, agent`followUpQueue, env`clock
  {
    && agent.steeringQueue == QueuedDuring(env, 1, true) + QueuedDuring(env, 0, true)
    && agent.followUpQueue == QueuedDuring(env, 0, false)
  }

  /** `config.getSteeringMessages`, as `_runLoop` sets it up. */
  method GetSteeringMessages(agent: Agent, stream: EventStream, env: Environment) returns (ms: seq<Message>)
    requires Coupled(agent, stream, env)
    modifies agent, stream, env`clock, env`polls
    ensures Coupled(agent, stream, env) && stream.Sent() == old(stream.Sent()) && agent.Origin() == old(agent.Origin())
    ensures agent.steeringTaken == old(agent.steeringTaken) + ms && agent.followUpTaken == old(agent.followUpTaken)
    ensures !agent.skipInitialSteeringPoll && env.polls == old(env.polls) + [ms]
    ensures ms == [] <==> old(agent.skipInitialSteeringPoll || agent.steeringQueue == [])
    ensures !old(agent.skipInitialSteeringPoll) && ms == [] ==> SteeringHeard(agent, env)
    ensures agent.steeringMode == OneAtATime ==> |ms| <= 1
  {
    if agent.skipInitialSteeringPoll {
      agent.skipInitialSteeringPoll := false;
      ms := [];
    } else {
      ms := agent.DequeueSteeringMessages();
    }
    env.polls := env.polls + [ms];
    Await(agent, stream, env);
  }

  /** The polls behind `n` executed calls: all but the last found nothing. */
  ghost function Polls(n: nat, last: seq<Message>): seq<seq<Message>> {
    if n == 0 then [] else seq(n - 1, i => []) + [last]
  }

  lemma PollsSnoc(n: nat, last: seq<Message>)
    ensures Polls(n + 1, last) == Polls(n, []) + [last]
  {
  }

  /** The polls of a turn: one behind every executed call, and one behind the turn unless the last of these
      found something. */
  ghost predicate TurnPolls(before: seq<seq<Message>>, after: seq<seq<Message>>, executed: nat, pending: seq<Message>) {
    || (executed > 0 && pending != [] && after == before + Polls(executed, pending))
    || after == before + Polls(executed, []) + [pending]
  }

  /** Emits a complete message. */
  method PushMessage(stream: EventStream, m: Message)
    requires stream.Valid() && stream.Open(stream.pushed)
    modifies stream
    ensures stream.Valid() && stream.taken == old(stream.taken)
    ensures stream.Open(old(stream.pushed) + [MessageStart(m)] + [MessageEnd(m)])
  {
    stream.Push(MessageStart(m));
    stream.Push(MessageEnd(m));
  }

  /** The `for await` loop over the provider's events, up to its `done` or `error`. */
  method StreamPartials(agent: Agent, ctx: LoopContext, env: Environment, stream: EventStream, es: seq<ProviderEvent>)
    returns (addedPartial: bool)
    requires Coupled(agent, stream, env) && stream.Open(stream.pushed) && !agent.skipInitialSteeringPoll
    modifies agent, stream, env`clock, ctx`messages
    ensures Coupled(agent, stream, env) && agent.Origin() == old(agent.Origin()) && !agent.skipInitialSteeringPoll
    ensures agent.steeringTaken == old(agent.steeringTaken) && agent.followUpTaken == old(agent.followUpTaken)
    ensures addedPartial == (Starts(es, |es|) > 0)
    ensures ctx.messages == StreamedInto(old(ctx.messages), es, |es|)
    ensures stream.Open(EmitStream(old(stream.pushed), es, |es|))
  {
    var partialMessage: Option<AssistantMessage> := None;
    addedPartial := false;
    for i := 0 to |es|
      invariant Coupled(agent, stream, env) && agent.Origin() == old(agent.Origin()) && !agent.skipInitialSteeringPoll
      invariant agent.steeringTaken == old(agent.steeringTaken) && agent.followUpTaken == old(agent.followUpTaken)
      invariant addedPartial == partialMessage.Some? == (Starts(es, i) > 0)
      invariant ctx.messages == StreamedInto(old(ctx.messages), es, i)
      invariant stream.Open(EmitStream(old(stream.pushed), es, i))
    {
      Await(agent, stream, env);
      match es[i] {
        case Start(partial) =>
          partialMessage := Some(partial);
          ctx.messages := ctx.messages + [partial];
          addedPartial := true;
          stream.Push(MessageStart(partial));
        case Update(partial) =>
          if partialMessage.Some? {
            partialMessage := Some(partial);
            ctx.messages := ctx.messages[|ctx.messages| - 1 := partial];
            stream.Push(MessageUpdate(partial));
          }
      }
    }
  }

  /** The context is transformed, converted and sent to the provider. */
  method SendRequest(agent: Agent, context: seq<Message>, env: Environment, stream: EventStream)
    requires Coupled(agent, stream, env) && !agent.skipInitialSteeringPoll && env.SentPrepared()
    modifies agent, stream, env`clock, env`requests, env`sent
    ensures Coupled(agent, stream, env) && agent.Origin() == old(agent.Origin()) && !agent.skipInitialSteeringPoll
    ensures agent.steeringTaken == old(agent.steeringTaken) && agent.followUpTaken == old(agent.followUpTaken)
    ensures stream.Sent() == old(stream.Sent())
    ensures env.requests == old(env.requests) + [context] && env.SentPrepared()
    ensures env.transformContext == None ==> env.sent == old(env.sent) + [env.convertToLlm(context)]
    ensures forall transform :: env.transformContext == Some(transform) ==>
              env.sent == old(env.sent) + [env.convertToLlm(transform(context))]
  {
    var messages := context;
    if env.transformContext.Some? {
      Await(agent, stream, env);
      messages := env.transformContext.value(messages);
    }
    Await(agent, stream, env);
    var llmMessages := env.convertToLlm(messages);
    env.requests, env.sent := env.requests + [context], env.sent + [llmMessages];
    Await(agent, stream, env);
  }

  method StreamAssistantResponse(agent: Agent, ctx: LoopContext, env: Environment, stream: EventStream, reply: Reply)
    returns (message: AssistantMessage)
    requires Coupled(agent, stream, env) && stream.Open(stream.pushed) && !agent.skipInitialSteeringPoll
    requires env.SentPrepared()
    modifies agent, stream, env`clock, env`requests, env`sent, ctx`messages
    ensures Coupled(agent, stream, env) && agent.Origin() == old(agent.Origin()) && !agent.skipInitialSteeringPoll
    ensures agent.steeringTaken == old(agent.steeringTaken) && agent.followUpTaken == old(agent.followUpTaken)
    ensures env.requests == old(env.requests) + [old(ctx.messages)] && env.SentPrepared()
    ensures message == reply.final
    ensures ctx.messages == WithReply(old(ctx.messages), reply.streamed, message)
    ensures stream.Open(EmitReply(old(stream.pushed), reply.streamed, message))
  {
    hide Fold, QueuedUntil, EmitStream, StreamedInto, Environment.SentPrepared;
    SendRequest(agent, ctx.messages, env, stream);
    var addedPartial := StreamPartials(agent, ctx, env, stream, reply.streamed);
    Await(agent, stream, env);
    message := reply.final;
    if addedPartial {
      ctx.messages := ctx.messages[|ctx.messages| - 1 := message];
    } else {
      ctx.messages := ctx.messages + [message];
      stream.Push(MessageStart(message));
    }
    stream.Push(MessageEnd(message));
  }

  /** `blocks` serves the first calls of `calls`: call `i` ran as tool run `from + i` if `i` is below
      `executed`, and was skipped otherwise. */
  ghost predicate ServedBy(env: Environment, calls: seq<ToolCall>, from: nat, executed: nat, blocks: seq<ToolBlock>) {
    && |blocks| <= |calls|
    && forall i {:trigger blocks[i]} | 0 <= i < |blocks| ::
         blocks[i] == if i < executed then ExecutedBlock(env.tools, calls[i], env.tool(from + i))
                      else SkippedBlock(calls[i])
  }

  ghost predicate Reported(log: seq<AgentEvent>, stream: EventStream, blocks: seq<ToolBlock>, results: seq<Message>)
    reads stream
  {
    stream.Open(EmitBlocks(log, blocks)) && results == Results(blocks)
  }

  lemma ServedSnoc(env: Environment, calls: seq<ToolCall>, from: nat, served: seq<ToolBlock>)
    requires |served| < |calls| && ServedBy(env, calls, from, |served|, served)
    ensures var b := ExecutedBlock(env.tools, calls[|served|], env.tool(from + |served|));
            ServedBy(env, calls, from, |served| + 1, served + [b])
  {
  }

  lemma BlocksSnoc(log: seq<AgentEvent>, bs: seq<ToolBlock>, b: ToolBlock)
    ensures EmitBlocks(log, bs + [b]) == EmitBlock(EmitBlocks(log, bs), b)
    ensures Results(bs + [b]) == Results(bs) + [b.result]
  {
    assert (bs + [b])[..|bs|] == bs;
  }

  method SkipToolCall(stream: EventStream, call: ToolCall) returns (result: ToolResultMessage)
    requires stream.Valid() && stream.Open(stream.pushed)
    modifies stream
    ensures stream.Valid() && stream.taken == old(stream.taken)
    ensures result == SkippedBlock(call).result
    ensures stream.Open(EmitBlock(old(stream.pushed), SkippedBlock(call)))
  {
    stream.Push(ToolExecutionStart(call.id, call.name, call.arguments));
    stream.Push(ToolExecutionEnd(call.id, call.name, SKIPPED_TEXT, true));
    result := ToolResult(call.id, call.name, SKIPPED_TEXT, "{}", true);
    PushMessage(stream, result);
  }

  /** A tool's execution, reporting its updates through `onUpdate`. */
  method RunTool(agent: Agent, env: Environment, stream: EventStream, call: ToolCall, updates: seq<string>)
    requires Coupled(agent, stream, env) && stream.Open(stream.pushed) && !agent.skipInitialSteeringPoll
    modifies agent, stream, env`clock
    ensures Coupled(agent, stream, env) && agent.Origin() == old(agent.Origin()) && !agent.skipInitialSteeringPoll
    ensures agent.steeringTaken == old(agent.steeringTaken) && agent.followUpTaken == old(agent.followUpTaken)
    ensures stream.Open(EmitUpdates(old(stream.pushed), call, updates, |updates|))
  {
    for i := 0 to |updates|
      invariant Coupled(agent, stream, env) && agent.Origin() == old(agent.Origin()) && !agent.skipInitialSteeringPoll
      invariant agent.steeringTaken == old(agent.steeringTaken) && agent.followUpTaken == old(agent.followUpTaken)
      invariant stream.Open(EmitUpdates(old(stream.pushed), call, updates, i))
    {
      Await(agent, stream, env);
      stream.Push(ToolExecutionUpdate(call.id, call.name, call.arguments, updates[i]));
    }
    Await(agent, stream, env);
  }

  /** After the call's start the events show all these updates, in order, and then its end. */
  ghost predicate ShowsUpdates(before: seq<AgentEvent>, after: seq<AgentEvent>, call: ToolCall, updates: seq<string>) {
    && before <= after && |after| == |before| + |updates| + 4
    && after[|before|].ToolExecutionStart? && after[|before| + 1 + |updates|].ToolExecutionEnd?
    && forall j | 0 <= j < |updates| ::
         after[|before| + 1 + j] == ToolExecutionUpdate(call.id, call.name, call.arguments, updates[j])
  }

  lemma UpdatesAreShown(log: seq<AgentEvent>, tools: set<string>, call: ToolCall, run: ToolRun)
    ensures call.name in tools ==>
              ShowsUpdates(log, EmitBlock(log, ExecutedBlock(tools, call, run)), call, run.updates)
  {
    BlockShown(log, ExecutedBlock(tools, call, run));
    hide EmitBlock;
  }

  /** One round of the tool loop, up to the steering poll. */
  method ExecuteToolCall(agent: Agent, env: Environment, stream: EventStream, call: ToolCall)
    returns (result: ToolResultMessage)
    requires Coupled(agent, stream, env) && stream.Open(stream.pushed) && !agent.skipInitialSteeringPoll
    modifies agent, stream, env`clock, env`toolClock
    ensures Coupled(agent, stream, env) && agent.Origin() == old(agent.Origin()) && !agent.skipInitialSteeringPoll
    ensures agent.steeringTaken == old(agent.steeringTaken) && agent.followUpTaken == old(agent.followUpTaken)
    ensures env.toolClock == old(env.toolClock) + 1
    ensures var b := ExecutedBlock(env.tools, call, env.tool(old(env.toolClock)));
            && result == b.result
            && stream.Open(EmitBlock(old(stream.pushed), b))
    ensures result.toolCallId == call.id && result.toolName == call.name
    ensures call.name !in env.tools ==> result.isError && result.content == "Tool " + call.name + " not found"
    ensures call.name in env.tools ==>
              match env.tool(old(env.toolClock)).outcome
              case Returned(content, details) =>
                !result.isError && result.content == content && result.details == details
              case Threw(errorText) => result.isError && result.content == errorText
    ensures call.name in env.tools ==>
              ShowsUpdates(old(stream.pushed), stream.pushed, call, env.tool(old(env.toolClock)).updates)
  {
    hide ShowsUpdates;
    UpdatesAreShown(stream.pushed, env.tools, call, env.tool(env.toolClock));
    var toolRun := env.tool(env.toolClock);
    env.toolClock := env.toolClock + 1;
    stream.Push(ToolExecutionStart(call.id, call.name, call.arguments));
    if call.name !in env.tools {
      result := ToolResult(call.id, call.name, "Tool " + call.name + " not found", "{}", true);
    } else {
      RunTool(agent, env, stream, call, toolRun.updates);
      match toolRun.outcome {
        case Returned(content, details) => result := ToolResult(call.id, call.name, content, details, false);
        case Threw(text) => result := ToolResult(call.id, call.name, text, "{}", true);
      }
    }
    stream.Push(ToolExecutionEnd(call.id, call.name, result.content, result.isError));
    PushMessage(stream, result);
  }

  /** One round of the tool loop: a tool call and the steering poll that follows it. */
  method ExecuteAndPoll(agent: Agent, env: Environment, stream: EventStream, calls: seq<ToolCall>,
                        results: seq<Message>,
                        ghost from: nat, ghost served: seq<ToolBlock>, ghost log: seq<AgentEvent>)
    returns (all: seq<Message>, steering: seq<Message>, ghost blocks: seq<ToolBlock>)
    requires Coupled(agent, stream, env) && !agent.skipInitialSteeringPoll
    requires |served| < |calls| && env.toolClock == from + |served|
    requires ServedBy(env, calls, from, |served|, served) && Reported(log, stream, served, results)
    modifies agent, stream, env`clock, env`toolClock, env`polls
    ensures Coupled(agent, stream, env) && agent.Origin() == old(agent.Origin()) && !agent.skipInitialSteeringPoll
    ensures agent.steeringTaken == old(agent.steeringTaken) + steering
    ensures agent.followUpTaken == old(agent.followUpTaken)
    ensures agent.steeringMode == OneAtATime ==> |steering| <= 1
    ensures env.polls == old(env.polls) + [steering] && (steering == [] ==> SteeringHeard(agent, env))
    ensures env.toolClock == old(env.toolClock) + 1 && |blocks| == |served| + 1
    ensures ServedBy(env, calls, from, |blocks|, blocks) && Reported(log, stream, blocks, all)
  {
    hide Coupled, ServedBy, ExecutedBlock, EmitBlock;
    var index := |results|;
    var result := ExecuteToolCall(agent, env, stream, calls[index]);
    ghost var b := ExecutedBlock(env.tools, calls[index], env.tool(from + index));
    ServedSnoc(env, calls, from, served);
    BlocksSnoc(log, served, b);
    all, blocks := results + [result], served + [b];
    steering := GetSteeringMessages(agent, stream, env);
  }

  /** Skips the calls that `served` has not served. */
  method SkipToolCalls(agent: Agent, stream: EventStream, env: Environment, calls: seq<ToolCall>, results: seq<Message>,
                       ghost from: nat, ghost executed: nat, ghost served: seq<ToolBlock>, ghost log: seq<AgentEvent>)
    returns (all: seq<Message>, ghost blocks: seq<ToolBlock>)
    requires Coupled(agent, stream, env) && executed <= |served|
    requires ServedBy(env, calls, from, executed, served) && Reported(log, stream, served, results)
    requires |served| <= |calls|
    modifies stream
    ensures Coupled(agent, stream, env)
    ensures ServedBy(env, calls, from, executed, blocks) && |blocks| == |calls|
    ensures Reported(log, stream, blocks, all)
  {
    all, blocks := results, served;
    for j := |results| to |calls|
      invariant stream.Valid() && stream.taken == old(stream.taken)
      invariant |served| <= |blocks| == j && ServedBy(env, calls, from, executed, blocks)
      invariant Reported(log, stream, blocks, all)
    {
      BlocksSnoc(log, blocks, SkippedBlock(calls[j]));
      var skipped := SkipToolCall(stream, calls[j]);
      all, blocks := all + [skipped], blocks + [SkippedBlock(calls[j])];
    }
  }

  method ExecuteToolCalls(agent: Agent, env: Environment, stream: EventStream, message: AssistantMessage)
    returns (results: seq<Message>, steering: seq<Message>, ghost executed: nat, ghost blocks: seq<ToolBlock>)
    requires Coupled(agent, stream, env) && stream.Open(stream.pushed) && !agent.skipInitialSteeringPoll
    modifies agent, stream, env`clock, env`toolClock, env`polls
    ensures Coupled(agent, stream, env) && agent.Origin() == old(agent.Origin()) && !agent.skipInitialSteeringPoll
    ensures agent.steeringTaken == old(agent.steeringTaken) + steering
    ensures agent.followUpTaken == old(agent.followUpTaken)
    ensures agent.steeringMode == OneAtATime ==> |steering| <= 1
    ensures env.toolClock == old(env.toolClock) + executed && env.polls == old(env.polls) + Polls(executed, steering)
    ensures var calls := ToolCalls(message.blocks);
            && executed <= |blocks| == |calls| && (calls != [] ==> 0 < executed)
            && (executed < |calls| ==> steering != [])
            && ServedBy(env, calls, old(env.toolClock), executed, blocks)
    ensures Reported(old(stream.pushed), stream, blocks, results)
    ensures AreCalls(message.blocks, seq(|blocks|, i requires 0 <= i < |blocks| => blocks[i].call))
  {
    var calls := ToolCalls(message.blocks);
    results, steering, executed, blocks := [], [], 0, [];
    ghost var from, log := env.toolClock, stream.pushed;
    assert ServedBy(env, calls, from, executed, blocks) && Reported(log, stream, blocks, results);
    hide Coupled, ServedBy, Reported, Polls;
    ghost var polls := env.polls;
    NoPolls(polls);
    var index := 0;
    while index < |calls|
      invariant 0 <= index == executed == |blocks| <= |calls| && steering == []
      invariant Coupled(agent, stream, env) && agent.Origin() == old(agent.Origin()) && !agent.skipInitialSteeringPoll
      invariant agent.steeringTaken == old(agent.steeringTaken) && agent.followUpTaken == old(agent.followUpTaken)
      invariant env.toolClock == from + executed && env.polls == polls + Polls(executed, [])
      invariant ServedBy(env, calls, from, executed, blocks) && Reported(log, stream, blocks, results)
    {
      results, steering, blocks := ExecuteAndPoll(agent, env, stream, calls, results, from, blocks, log);
      PollsSnoc(executed, steering);
      assert polls + Polls(executed, []) + [steering] == polls + (Polls(executed, []) + [steering]);
      executed, index := executed + 1, index + 1;
      if steering != [] {
        results, blocks := SkipToolCalls(agent, stream, env, calls, results, from, executed, blocks, log);
        break;
      }
    }
    ServedCalls(env, message.blocks, from, executed, blocks);
  }

  lemma NoPolls(before: seq<seq<Message>>)
    ensures before + Polls(0, []) == before
  {
  }

  /** The calls served are those of the reply's blocks. */
  lemma ServedCalls(env: Environment, content: seq<Block>, from: nat, executed: nat, blocks: seq<ToolBlock>)
    requires ServedBy(env, ToolCalls(content), from, executed, blocks) && |blocks| == |ToolCalls(content)|
    ensures AreCalls(content, seq(|blocks|, i requires 0 <= i < |blocks| => blocks[i].call))
  {
    ToolCallsMeaning(content);
    hide ToolCalls, CallsBefore, AreCalls;
    assert forall i | 0 <= i < |blocks| :: blocks[i].call == ToolCalls(content)[i];
    assert seq(|blocks|, i requires 0 <= i < |blocks| => blocks[i].call) == ToolCalls(content);
  }

  /** Everything the loop keeps agrees with the run so far. */
  ghost predicate Tracks(run: Run, stream: EventStream, ctx: LoopContext, env: Environment)
    reads stream, ctx, env
  {
    && TurnsOk(run.turns)
    && stream.Open(Trace(run))
    && ctx.messages == Context(run)
    && ctx.newMessages == Produced(run)
    && env.requests == Requests(run) && env.SentPrepared()
  }

  lemma RunSnoc(run: Run, t: Turn)
    requires TurnsOk(run.turns) && TurnOk(t) && MayInject(run.turns, t.source, t.injected)
    ensures var next := run.(turns := run.turns + [t]);
            && TurnsOk(next.turns)
            && Trace(next) == EmitTurn(if run.turns == [] then Trace(run) else Trace(run) + [TurnStart], t)
            && Context(next) == WithTurn(Context(run), t)
            && Produced(next) == Produced(run) + t.injected + [t.reply] + Results(t.blocks)
            && Requests(next) == Requests(run) + [Context(run) + t.injected]
  {
    var next := run.(turns := run.turns + [t]);
    assert next.turns[..|next.turns| - 1] == run.turns;
    assert next.(turns := next.turns[..|next.turns| - 1]) == run;
    TurnsSnoc(run.turns, t);
  }

  /** Injects messages before the next assistant response. */
  method Inject(ctx: LoopContext, stream: EventStream, ms: seq<Message>)
    requires stream.Valid() && stream.Open(stream.pushed)
    modifies ctx, stream
    ensures stream.Valid() && stream.taken == old(stream.taken)
    ensures stream.Open(EmitMessages(old(stream.pushed), ms, |ms|))
    ensures ctx.messages == old(ctx.messages) + ms && ctx.newMessages == old(ctx.newMessages) + ms
  {
    for i := 0 to |ms|
      invariant stream.Valid() && stream.taken == old(stream.taken)
      invariant stream.Open(EmitMessages(old(stream.pushed), ms, i))
      invariant ctx.messages == old(ctx.messages) + ms[..i] && ctx.newMessages == old(ctx.newMessages) + ms[..i]
    {
      PushMessage(stream, ms[i]);
      ctx.messages := ctx.messages + [ms[i]];
      ctx.newMessages := ctx.newMessages + [ms[i]];
    }
  }

  /** Adds tool results to the context and to the new messages. */
  method AddResults(ctx: LoopContext, results: seq<Message>)
    modifies ctx
    ensures ctx.messages == old(ctx.messages) + results && ctx.newMessages == old(ctx.newMessages) + results
  {
    for i := 0 to |results|
      invariant ctx.messages == old(ctx.messages) + results[..i]
      invariant ctx.newMessages == old(ctx.newMessages) + results[..i]
    {
      ctx.messages := ctx.messages + [results[i]];
      ctx.newMessages := ctx.newMessages + [results[i]];
    }
  }

  /** The tools of a turn, if the reply calls any. */
  method RunTools(agent: Agent, ctx: LoopContext, env: Environment, stream: EventStream, message: AssistantMessage)
    returns (hasMoreToolCalls: bool, toolResults: seq<Message>, steering: seq<Message>,
             ghost executed: nat, ghost blocks: seq<ToolBlock>)
    requires Coupled(agent, stream, env) && stream.Open(stream.pushed) && !agent.skipInitialSteeringPoll
    modifies agent, ctx, env`clock, env`toolClock, env`polls, stream
    ensures Coupled(agent, stream, env) && agent.Origin() == old(agent.Origin()) && !agent.skipInitialSteeringPoll
    ensures agent.steeringTaken == old(agent.steeringTaken) + steering
    ensures agent.followUpTaken == old(agent.followUpTaken)
    ensures agent.steeringMode == OneAtATime ==> |steering| <= 1
    ensures env.polls == old(env.polls) + Polls(executed, steering) && (executed == 0 ==> steering == [])
    ensures var calls := ToolCalls(message.blocks);
            && hasMoreToolCalls == (calls != [])
            && executed <= |blocks| == |calls| && (calls != [] ==> 0 < executed)
            && (executed < |calls| ==> steering != [])
            && ServedBy(env, calls, old(env.toolClock), executed, blocks)
    ensures env.toolClock == old(env.toolClock) + executed
    ensures toolResults == Results(blocks)
    ensures ctx.messages == old(ctx.messages) + Results(blocks)
    ensures ctx.newMessages == old(ctx.newMessages) + Results(blocks)
    ensures stream.Open(EmitBlocks(old(stream.pushed), blocks))
  {
    hide Fold, QueuedUntil, Queued, EmitBlock, ExecutedBlock, Polls;
    NoPolls(env.polls);
    var toolCalls := ToolCalls(message.blocks);
    hasMoreToolCalls := toolCalls != [];
    toolResults, steering, executed, blocks := [], [], 0, [];
    if hasMoreToolCalls {
      toolResults, steering, executed, blocks := ExecuteToolCalls(agent, env, stream, message);
      AddResults(ctx, toolResults);
    }
  }

  /** The second half of a turn whose reply did not fail: tools, `turn_end`, and the steering poll. */
  method FinishTurn(agent: Agent, ctx: LoopContext, env: Environment, stream: EventStream, message: AssistantMessage)
    returns (hasMoreToolCalls: bool, pending: seq<Message>, ghost executed: nat, ghost blocks: seq<ToolBlock>)
    requires Coupled(agent, stream, env) && stream.Open(stream.pushed) && !agent.skipInitialSteeringPoll
    modifies agent, ctx, env`clock, env`toolClock, env`polls, stream
    ensures Coupled(agent, stream, env) && agent.Origin() == old(agent.Origin()) && !agent.skipInitialSteeringPoll
    ensures agent.steeringTaken == old(agent.steeringTaken) + pending && agent.followUpTaken == old(agent.followUpTaken)
    ensures agent.steeringMode == OneAtATime ==> |pending| <= 1
    ensures pending == [] ==> SteeringHeard(agent, env)
    ensures TurnPolls(old(env.polls), env.polls, executed, pending)
    ensures var calls := ToolCalls(message.blocks);
            && hasMoreToolCalls == (calls != [])
            && executed <= |blocks| == |calls| && (calls != [] ==> 0 < executed)
            && (executed < |calls| ==> pending != [])
            && ServedBy(env, calls, old(env.toolClock), executed, blocks)
    ensures env.toolClock == old(env.toolClock) + executed
    ensures ctx.messages == old(ctx.messages) + Results(blocks)
    ensures ctx.newMessages == old(ctx.newMessages) + Results(blocks)
    ensures stream.Open(EmitBlocks(old(stream.pushed), blocks) + [TurnEnd(message, Results(blocks))])
  {
    hide Fold, QueuedUntil, Queued, EmitBlocks, ExecutedBlock, Polls, ServedBy, ToolCalls;
    var toolResults, steeringAfterTools;
    hasMoreToolCalls, toolResults, steeringAfterTools, executed, blocks := RunTools(agent, ctx, env, stream, message);
    stream.Push(TurnEnd(message, toolResults));
    if steeringAfterTools != [] {
      pending := steeringAfterTools;
    } else {
      pending := GetSteeringMessages(agent, stream, env);
    }
  }

  /** The first half of a turn: `turn_start`, the injected messages and the assistant's response. */
  method BeginTurn(agent: Agent, ctx: LoopContext, env: Environment, stream: EventStream, firstTurn: bool,
                   pendingMessages: seq<Message>)
    returns (message: AssistantMessage, ghost streamed: seq<ProviderEvent>)
    requires Coupled(agent, stream, env) && stream.Open(stream.pushed) && !agent.skipInitialSteeringPoll
    requires env.replies != [] && env.SentPrepared()
    modifies agent, ctx, env, stream
    ensures Coupled(agent, stream, env) && agent.Origin() == old(agent.Origin()) && !agent.skipInitialSteeringPoll
    ensures agent.steeringTaken == old(agent.steeringTaken) && agent.followUpTaken == old(agent.followUpTaken)
    ensures env.SentPrepared()
    ensures env.toolClock == old(env.toolClock)
    ensures old(env.replies) == [Reply(streamed, message)] + env.replies
    ensures env.requests == old(env.requests) + [old(ctx.messages) + pendingMessages]
    ensures ctx.messages == WithReply(old(ctx.messages) + pendingMessages, streamed, message)
    ensures ctx.newMessages == old(ctx.newMessages) + pendingMessages + [message]
    ensures var log := if firstTurn then old(stream.pushed) else old(stream.pushed) + [TurnStart];
            stream.Open(EmitReply(EmitMessages(log, pendingMessages, |pendingMessages|), streamed, message))
  {
    hide Fold, QueuedUntil, EmitMessages, EmitReply, WithReply;
    var reply := env.replies[0];
    env.replies := env.replies[1..];
    if !firstTurn {
      stream.Push(TurnStart);
    }
    Inject(ctx, stream, pendingMessages);
    message := StreamAssistantResponse(agent, ctx, env, stream, reply);
    ctx.newMessages := ctx.newMessages + [message];
    streamed := reply.streamed;
  }

  lemma ServedTurnOk(env: Environment, from: nat, t: Turn)
    requires !Failed(t.reply)
    requires var calls := ToolCalls(t.reply.blocks);
             && t.executed <= |t.blocks| == |calls| && (calls != [] ==> 0 < t.executed)
             && (t.executed < |calls| ==> t.steering != [])
             && ServedBy(env, calls, from, t.executed, t.blocks)
    ensures TurnOk(t)
  {
  }

  /** The rest of a turn, its record included; a failed reply ends it at once. */
  method EndTurn(agent: Agent, ctx: LoopContext, env: Environment, stream: EventStream, message: AssistantMessage,
                 ghost source: Source, ghost injected: seq<Message>, ghost streamed: seq<ProviderEvent>)
    returns (failed: bool, hasMoreToolCalls: bool, pending: seq<Message>, ghost t: Turn)
    requires Coupled(agent, stream, env) && stream.Open(stream.pushed) && !agent.skipInitialSteeringPoll
    modifies agent, ctx, env`clock, env`toolClock, env`polls, stream
    ensures Coupled(agent, stream, env) && agent.Origin() == old(agent.Origin()) && !agent.skipInitialSteeringPoll
    ensures agent.steeringTaken == old(agent.steeringTaken) + pending && agent.followUpTaken == old(agent.followUpTaken)
    ensures agent.steeringMode == OneAtATime ==> |pending| <= 1
    ensures !failed && pending == [] ==> SteeringHeard(agent, env)
    ensures !failed ==> TurnPolls(old(env.polls), env.polls, t.executed, pending)
    ensures failed <==> message.stopReason == StopReason.Error || message.stopReason == Aborted
    ensures t == Turn(source, injected, streamed, message, t.blocks, t.executed, pending) && TurnOk(t)
    ensures failed == Failed(message) && (!failed ==> hasMoreToolCalls == (ToolCalls(message.blocks) != []))
    ensures ctx.messages == old(ctx.messages) + Results(t.blocks)
    ensures ctx.newMessages == old(ctx.newMessages) + Results(t.blocks)
    ensures stream.Open(EmitBlocks(old(stream.pushed), t.blocks) + [TurnEnd(message, Results(t.blocks))])
  {
    hide TurnPolls;
    failed := message.stopReason.Error? || message.stopReason.Aborted?;
    if failed {
      stream.Push(TurnEnd(message, []));
      hasMoreToolCalls, pending := false, [];
      t := Turn(source, injected, streamed, message, [], 0, []);
    } else {
      ghost var from, executed, blocks := env.toolClock, 0, [];
      hasMoreToolCalls, pending, executed, blocks := FinishTurn(agent, ctx, env, stream, message);
      t := Turn(source, injected, streamed, message, blocks, executed, pending);
      ServedTurnOk(env, from, t);
    }
  }

  /** One pass of the inner loop: from `turn_start` to the steering poll after the turn. */
  method RunTurn(agent: Agent, ctx: LoopContext, env: Environment, stream: EventStream, firstTurn: bool,
                 pendingMessages: seq<Message>, ghost source: Source, ghost run: Run)
    returns (failed: bool, hasMoreToolCalls: bool, pending: seq<Message>, ghost t: Turn)
    requires Coupled(agent, stream, env) && Tracks(run, stream, ctx, env) && !agent.skipInitialSteeringPoll
    requires MayInject(run.turns, source, pendingMessages) && firstTurn == (run.turns == [])
    requires env.replies != []
    modifies agent, ctx, env, stream
    ensures Coupled(agent, stream, env) && agent.Origin() == old(agent.Origin()) && !agent.skipInitialSteeringPoll
    ensures Tracks(run.(turns := run.turns + [t]), stream, ctx, env)
    ensures TurnOk(t) && t.source == source && t.injected == pendingMessages && t.steering == pending
    ensures failed == Failed(t.reply) && (!failed ==> hasMoreToolCalls == (ToolCalls(t.reply.blocks) != []))
    ensures old(env.replies) == [Reply(t.streamed, t.reply)] + env.replies
    ensures agent.steeringTaken == old(agent.steeringTaken) + pending && agent.followUpTaken == old(agent.followUpTaken)
    ensures agent.steeringMode == OneAtATime ==> |pending| <= 1
    ensures !failed && pending == [] ==> SteeringHeard(agent, env)
  {
    hide Coupled, TurnOk, TurnsOk, MayInject, EmitReply, EmitMessages, EmitBlocks, WithReply;
    hide Requests, Context, Produced, Trace;
    ghost var streamed;
    var message;
    message, streamed := BeginTurn(agent, ctx, env, stream, firstTurn, pendingMessages);
    failed, hasMoreToolCalls, pending, t :=
      EndTurn(agent, ctx, env, stream, message, source, pendingMessages, streamed);
    RunSnoc(run, t);
  }

  /** `config.getFollowUpMessages`. */
  method GetFollowUpMessages(agent: Agent, stream: EventStream, env: Environment) returns (ms: seq<Message>)
    requires Coupled(agent, stream, env)
    modifies agent, stream, env`clock
    ensures Coupled(agent, stream, env) && stream.Sent() == old(stream.Sent()) && agent.Origin() == old(agent.Origin())
    ensures agent.followUpTaken == old(agent.followUpTaken) + ms && agent.steeringTaken == old(agent.steeringTaken)
    ensures agent.skipInitialSteeringPoll == old(agent.skipInitialSteeringPoll)
    ensures ms <= old(agent.followUpQueue) && (ms == [] <==> old(agent.followUpQueue) == [])
    ensures old(SteeringHeard(agent, env)) && ms == [] ==> BothHeard(agent, env)
    ensures agent.followUpMode == OneAtATime ==> |ms| <= 1
  {
    ms := agent.DequeueFollowUpMessages();
    Await(agent, stream, env);
  }

  /** What stays fixed while the loop runs: the run it started with, the modes, whether the initial
      poll is skipped, what had been dequeued before, what waited then, what users queue, and the
      provider's replies. */
  datatype Terms = Terms(
    start: Run, steeringMode: QueueMode, followUpMode: QueueMode, skipped: bool,
    steering: seq<Message>, followUp: seq<Message>, steeringWaiting: seq<Message>, followUpWaiting: seq<Message>,
    arrivals: nat -> seq<Arrival>, replies: seq<Reply>)

  ghost predicate Anchored(agent: Agent, env: Environment, terms: Terms)
    reads agent`steeringBacklog, agent`followUpBacklog
  {
    && terms.arrivals == env.arrivals
    && agent.steeringBacklog == terms.steering + terms.steeringWaiting
    && agent.followUpBacklog == terms.followUp + terms.followUpWaiting
  }

  /** The run so far and the messages the next turn will inject. */
  datatype Progress = Progress(run: Run, source: Source, pending: seq<Message>)

  /** A queue's dequeued messages are those the turns injected, then those about to be injected. */
  predicate Accounted(p: Progress, queue: Source, before: seq<Message>, taken: seq<Message>) {
    taken == before + Delivered(p.run.turns, queue) + InFlight(queue, p.source, p.pending)
  }

  /** In "one-at-a-time" mode a queue gives a turn at most one message. */
  predicate Rationed(p: Progress, queue: Source, mode: QueueMode) {
    mode == OneAtATime ==> AtMostOne(p.run.turns, queue) && (p.source == queue ==> |p.pending| <= 1)
  }

  /** The initial poll gives the first turn something exactly if it is not skipped and steering waits. */
  predicate FirstTurnOk(p: Progress, terms: Terms) {
    var first := if p.run.turns == [] then p.pending else p.run.turns[0].injected;
    first == [] <==> terms.skipped || terms.steeringWaiting == []
  }

  /** At some moment all steering messages queued so far had been delivered, and these follow-ups were
      queued by one suspension later. */
  ghost predicate SteeredFirst(terms: Terms, steering: seq<Message>, followUp: seq<Message>) {
    exists at: nat ::
      && terms.steeringWaiting + QueuedUntil(terms.arrivals, at, true) == steering
      && followUp <= terms.followUpWaiting + QueuedUntil(terms.arrivals, at + 1, false)
  }

  /** No follow-up that a turn injected overtook steering. */
  ghost predicate InOrder(ts: seq<Turn>, terms: Terms) {
    ts == [] ||
    var before, t := ts[..|ts| - 1], ts[|ts| - 1];
    && InOrder(before, terms)
    && (t.source == FollowUp ==> SteeredFirst(terms, Delivered(before, Steering), Delivered(ts, FollowUp)))
  }

  /** Nor do those about to be injected. */
  ghost predicate NextInOrder(p: Progress, terms: Terms) {
    p.source == FollowUp ==>
      SteeredFirst(terms, Delivered(p.run.turns, Steering), Delivered(p.run.turns, FollowUp) + p.pending)
  }

  lemma InOrderStep(p: Progress, terms: Terms, t: Turn)
    requires InOrder(p.run.turns, terms) && NextInOrder(p, terms) && t.source == p.source && t.injected == p.pending
    ensures InOrder(Next(p, t).run.turns, terms) && NextInOrder(Next(p, t), terms)
  {
    hide SteeredFirst, InOrder, Delivered;
    InOrderSnoc(p.run.turns, t, terms);
    DeliveredSnoc(p.run.turns, t, FollowUp);
  }

  lemma InOrderSnoc(ts: seq<Turn>, t: Turn, terms: Terms)
    ensures InOrder(ts + [t], terms)
       <==> && InOrder(ts, terms)
            && (t.source == FollowUp ==> SteeredFirst(terms, Delivered(ts, Steering), Delivered(ts + [t], FollowUp)))
  {
    hide SteeredFirst, Delivered;
    assert (ts + [t])[..|ts|] == ts;
  }

  /** The loop is at `p`, has dequeued these messages and has these provider replies left. */
  ghost predicate OnTerms(p: Progress, terms: Terms, steeringTaken: seq<Message>, followUpTaken: seq<Message>,
                          left: seq<Reply>) {
    && p.run == terms.start.(turns := p.run.turns) && TurnsOk(p.run.turns)
    && Accounted(p, Steering, terms.steering, steeringTaken) && Accounted(p, FollowUp, terms.followUp, followUpTaken)
    && Rationed(p, Steering, terms.steeringMode) && Rationed(p, FollowUp, terms.followUpMode)
    && FirstTurnOk(p, terms)
    && InOrder(p.run.turns, terms) && NextInOrder(p, terms)
    && Answers(p.run.turns, terms.replies) && |p.run.turns| <= |terms.replies| && left == terms.replies[|p.run.turns|..]
  }

  function SteeringOrNone(polled: seq<Message>): Source {
    if polled == [] then NoSource else Steering
  }

  function Next(p: Progress, t: Turn): Progress {
    Progress(p.run.(turns := p.run.turns + [t]), SteeringOrNone(t.steering), t.steering)
  }

  lemma AccountedStep(p: Progress, t: Turn, queue: Source, before: seq<Message>, taken: seq<Message>)
    requires Accounted(p, queue, before, taken) && t.source == p.source && t.injected == p.pending
    ensures Accounted(Next(p, t), queue, before, taken + InFlight(queue, SteeringOrNone(t.steering), t.steering))
  {
    hide Delivered, InFlight;
    DeliveredSnoc(p.run.turns, t, queue);
    AppendMore(before, Delivered(p.run.turns, queue), InFlight(queue, p.source, p.pending));
  }

  lemma RationedStep(p: Progress, t: Turn, queue: Source, mode: QueueMode)
    requires Rationed(p, queue, mode) && t.source == p.source && t.injected == p.pending
    requires queue == Steering && mode == OneAtATime ==> |t.steering| <= 1
    ensures queue != NoSource ==> Rationed(Next(p, t), queue, mode)
  {
    TurnsSnoc(p.run.turns, t);
  }

  lemma OnTermsStep(p: Progress, terms: Terms, t: Turn, steeringTaken: seq<Message>, followUpTaken: seq<Message>,
                    left: seq<Reply>, rest: seq<Reply>)
    requires OnTerms(p, terms, steeringTaken, followUpTaken, left)
    requires MayInject(p.run.turns, p.source, p.pending)
    requires t.source == p.source && t.injected == p.pending && TurnOk(t)
    requires left == [Reply(t.streamed, t.reply)] + rest
    requires terms.steeringMode == OneAtATime ==> |t.steering| <= 1
    ensures OnTerms(Next(p, t), terms, steeringTaken + t.steering, followUpTaken, rest)
  {
    hide Accounted, Rationed, InOrder, NextInOrder, TurnOk, MayInject, InFlight;
    var k := |p.run.turns|;
    assert left[0] == terms.replies[k];
    assert rest == left[1..] == terms.replies[k + 1..];
    PolledInFlight(t.steering);
    assert followUpTaken + [] == followUpTaken;
    InOrderStep(p, terms, t);
    AccountedStep(p, t, Steering, terms.steering, steeringTaken);
    AccountedStep(p, t, FollowUp, terms.followUp, followUpTaken);
    RationedStep(p, t, Steering, terms.steeringMode);
    RationedStep(p, t, FollowUp, terms.followUpMode);
    TurnsSnoc(p.run.turns, t);
  }

  lemma PolledInFlight(polled: seq<Message>)
    ensures InFlight(Steering, SteeringOrNone(polled), polled) == polled
    ensures InFlight(FollowUp, SteeringOrNone(polled), polled) == []
  {
  }

  ghost predicate Closed(run: Run, stream: EventStream) reads stream {
    && stream.pushed == Trace(run) + [AgentEnd(Produced(run))]
    && stream.done && stream.result == Some(Produced(run))
  }

  /** The loop's invariant at the head of the outer and of the inner loop. */
  ghost predicate AtHead(agent: Agent, ctx: LoopContext, env: Environment, stream: EventStream, p: Progress,
                         terms: Terms)
    reads agent, ctx, env, stream
  {
    && Coupled(agent, stream, env) && !agent.skipInitialSteeringPoll
    && Tracks(p.run, stream, ctx, env)
    && OnTerms(p, terms, agent.steeringTaken, agent.followUpTaken, env.replies)
    && agent.steeringMode == terms.steeringMode && agent.followUpMode == terms.followUpMode
    && Anchored(agent, env, terms)
  }

  /** One pass of the inner loop keeps the invariant. */
  method Step(agent: Agent, ctx: LoopContext, env: Environment, stream: EventStream, firstTurn: bool,
              pendingMessages: seq<Message>, ghost p: Progress, ghost terms: Terms)
    returns (failed: bool, hasMoreToolCalls: bool, pending: seq<Message>, ghost next: Progress)
    requires AtHead(agent, ctx, env, stream, p, terms)
    requires p.pending == pendingMessages && MayInject(p.run.turns, p.source, p.pending)
    requires firstTurn == (p.run.turns == []) && env.replies != []
    modifies agent, ctx, env, stream
    ensures agent.Origin() == old(agent.Origin()) && |env.replies| < |old(env.replies)|
    ensures AtHead(agent, ctx, env, stream, next, terms) && next.pending == pending && next.run.turns != []
    ensures failed ==> pending == [] && Finished(next.run.turns)
    ensures !failed && (hasMoreToolCalls || pending != []) ==> MayInject(next.run.turns, next.source, next.pending)
    ensures !failed && pending == [] ==> SteeringHeard(agent, env)
    ensures !failed && !hasMoreToolCalls && pending == [] ==>
              Finished(next.run.turns) && Settled(next.run.turns[|next.run.turns| - 1])
    ensures failed ==> Failed(next.run.turns[|next.run.turns| - 1].reply)
  {
    hide Coupled, Tracks, OnTerms, TurnsOk;
    ghost var t;
    failed, hasMoreToolCalls, pending, t :=
      RunTurn(agent, ctx, env, stream, firstTurn, pendingMessages, p.source, p.run);
    OnTermsStep(p, terms, t, old(agent.steeringTaken), old(agent.followUpTaken), old(env.replies), env.replies);
    next := Next(p, t);
    assert next.run.turns[|next.run.turns| - 1] == t;
  }

  /** A follow-up poll when nothing is pending. */
  lemma OnTermsFollowUp(p: Progress, terms: Terms, steeringTaken: seq<Message>, followUpTaken: seq<Message>,
                        left: seq<Reply>, ms: seq<Message>)
    requires OnTerms(p, terms, steeringTaken, followUpTaken, left) && p.pending == [] && p.run.turns != []
    requires terms.followUpMode == OneAtATime ==> |ms| <= 1
    requires SteeredFirst(terms, Delivered(p.run.turns, Steering), Delivered(p.run.turns, FollowUp) + ms)
    ensures OnTerms(p.(source := FollowUp, pending := ms), terms, steeringTaken, followUpTaken + ms, left)
  {
    hide SteeredFirst, InOrder;
    assert steeringTaken == terms.steering + Delivered(p.run.turns, Steering);
    assert followUpTaken == terms.followUp + Delivered(p.run.turns, FollowUp);
  }

  /** After the initial steering poll. */
  lemma OnTermsStart(terms: Terms, polled: seq<Message>)
    requires terms.start.turns == []
    requires terms.steeringMode == OneAtATime ==> |polled| <= 1
    requires polled == [] <==> terms.skipped || terms.steeringWaiting == []
    ensures OnTerms(Progress(terms.start, SteeringOrNone(polled), polled), terms,
                    terms.steering + polled, terms.followUp, terms.replies)
  {
    assert terms.start.(turns := terms.start.turns) == terms.start;
  }

  method FirstPoll(agent: Agent, ctx: LoopContext, env: Environment, stream: EventStream, ghost terms: Terms)
    returns (ms: seq<Message>, ghost p: Progress)
    requires Coupled(agent, stream, env) && Tracks(terms.start, stream, ctx, env)
    requires terms == Terms(terms.start, agent.steeringMode, agent.followUpMode, agent.skipInitialSteeringPoll,
                            agent.steeringTaken, agent.followUpTaken, terms.steeringWaiting, terms.followUpWaiting,
                            env.arrivals, env.replies)
    requires Anchored(agent, env, terms) && agent.steeringQueue == terms.steeringWaiting
    requires terms.start.turns == []
    modifies agent, stream, env`clock, env`polls
    ensures agent.Origin() == old(agent.Origin())
    ensures AtHead(agent, ctx, env, stream, p, terms) && p == Progress(terms.start, SteeringOrNone(ms), ms)
  {
    ms := GetSteeringMessages(agent, stream, env);
    OnTermsStart(terms, ms);
    p := Progress(terms.start, SteeringOrNone(ms), ms);
  }

  /** Right after a poll that found no steering, what has been queued so far is split like this. */
  lemma Reached(terms: Terms, clock: nat, steering: seq<Message>, followUp: seq<Message>, waiting: seq<Message>)
    requires 0 < clock
    requires terms.steering + terms.steeringWaiting + QueuedUntil(terms.arrivals, clock, true)
          == terms.steering + steering + Queued(terms.arrivals(clock - 1), true)
    requires terms.followUp + terms.followUpWaiting + QueuedUntil(terms.arrivals, clock, false)
          == terms.followUp + followUp + waiting
    ensures terms.steeringWaiting + QueuedUntil(terms.arrivals, clock - 1, true) == steering
    ensures terms.followUpWaiting + QueuedUntil(terms.arrivals, clock, false) == followUp + waiting
  {
    var heard, last := QueuedUntil(terms.arrivals, clock - 1, true), Queued(terms.arrivals(clock - 1), true);
    QueuedSnoc(terms.arrivals, clock - 1);
    hide QueuedUntil, Queued;
    AppendMore(terms.steering + terms.steeringWaiting, heard, last);
    CancelLast(terms.steering + terms.steeringWaiting + heard, terms.steering + steering, last);
    AppendMore(terms.steering, terms.steeringWaiting, heard);
    Cancel(terms.steering, terms.steeringWaiting + heard, steering);
    var queued := QueuedUntil(terms.arrivals, clock, false);
    AppendMore(terms.followUp, terms.followUpWaiting, queued);
    AppendMore(terms.followUp, followUp, waiting);
    Cancel(terms.followUp, terms.followUpWaiting + queued, followUp + waiting);
  }

  /** So the follow-ups taken then are in order. */
  lemma AnyPollInOrder(agent: Agent, ctx: LoopContext, env: Environment, stream: EventStream, p: Progress, terms: Terms)
    requires AtHead(agent, ctx, env, stream, p, terms) && p.pending == [] && SteeringHeard(agent, env)
    ensures forall ms | ms <= agent.followUpQueue ::
              SteeredFirst(terms, Delivered(p.run.turns, Steering), Delivered(p.run.turns, FollowUp) + ms)
  {
    hide AtHead, SteeringHeard, SteeredFirst;
    forall ms | ms <= agent.followUpQueue
      ensures SteeredFirst(terms, Delivered(p.run.turns, Steering), Delivered(p.run.turns, FollowUp) + ms)
    {
      PollInOrder(agent, ctx, env, stream, p, terms, ms);
    }
  }

  lemma PollInOrder(agent: Agent, ctx: LoopContext, env: Environment, stream: EventStream, p: Progress, terms: Terms,
                    ms: seq<Message>)
    requires AtHead(agent, ctx, env, stream, p, terms) && p.pending == [] && SteeringHeard(agent, env)
    requires ms <= agent.followUpQueue
    ensures SteeredFirst(terms, Delivered(p.run.turns, Steering), Delivered(p.run.turns, FollowUp) + ms)
  {
    hide Fold, QueuedUntil, Queued, InOrder, NextInOrder, Rationed, Answers, TurnsOk, Tracks;
    var at: nat := env.clock - 1;
    var steering, followUp := Delivered(p.run.turns, Steering), Delivered(p.run.turns, FollowUp);
    assert agent.steeringTaken == terms.steering + steering && agent.followUpTaken == terms.followUp + followUp;
    Reached(terms, env.clock, steering, followUp, agent.followUpQueue);
    assert followUp + ms <= followUp + agent.followUpQueue;
    assert terms.steeringWaiting + QueuedUntil(terms.arrivals, at, true) == steering;
  }

  lemma CancelLast<T>(a: seq<T>, b: seq<T>, c: seq<T>)
    requires a + c == b + c
    ensures a == b
  {
    assert a == (a + c)[..|a|] && b == (b + c)[..|b|];
  }

  method AskFollowUp(agent: Agent, ctx: LoopContext, env: Environment, stream: EventStream, ghost p: Progress,
                     ghost terms: Terms)
    returns (ms: seq<Message>)
    requires AtHead(agent, ctx, env, stream, p, terms) && p.pending == [] && p.run.turns != []
    requires SteeringHeard(agent, env)
    modifies agent, stream, env`clock
    ensures agent.Origin() == old(agent.Origin())
    ensures AtHead(agent, ctx, env, stream, p.(source := FollowUp, pending := ms), terms)
    ensures ms == [] ==> BothHeard(agent, env)
  {
    hide Fold, QueuedUntil, Accounted, InOrder, NextInOrder, Rationed, Answers, TurnsOk;
    hide SteeredFirst, SteeringHeard, BothHeard, FirstTurnOk, Delivered, Anchored;
    AnyPollInOrder(agent, ctx, env, stream, p, terms);
    ms := GetFollowUpMessages(agent, stream, env);
    OnTermsFollowUp(p, terms, old(agent.steeringTaken), old(agent.followUpTaken), env.replies, ms);
  }

  /** Unless its last reply failed, a run ends only after both queues were found empty. */
  ghost predicate NothingUnheard(agent: Agent, env: Environment, ts: seq<Turn>)
    reads agent`steeringQueue, agent`followUpQueue, env`clock
  {
    ts != [] && !Failed(ts[|ts| - 1].reply) ==> BothHeard(agent, env)
  }

  /** The loop has returned: nothing is in flight and every view holds the run's messages. */
  ghost predicate Ended(agent: Agent, ctx: LoopContext, env: Environment, stream: EventStream, p: Progress,
                        terms: Terms)
    reads agent, ctx, env, stream
  {
    && Coupled(agent, stream, env) && Closed(p.run, stream)
    && p.pending == [] && Finished(p.run.turns) && NothingUnheard(agent, env, p.run.turns)
    && OnTerms(p, terms, agent.steeringTaken, agent.followUpTaken, env.replies)
    && ctx.messages == Context(p.run) && ctx.newMessages == Produced(p.run)
    && env.requests == Requests(p.run) && env.SentPrepared()
  }

  /** Emits `agent_end` and closes the stream. */
  method Close(agent: Agent, ctx: LoopContext, env: Environment, stream: EventStream, ghost p: Progress,
               ghost terms: Terms)
    requires AtHead(agent, ctx, env, stream, p, terms) && p.pending == [] && Finished(p.run.turns)
    requires NothingUnheard(agent, env, p.run.turns)
    modifies stream
    ensures Ended(agent, ctx, env, stream, p, terms)
  {
    stream.Push(AgentEnd(ctx.newMessages));
    stream.End(ctx.newMessages);
  }

  /** How the inner loop is left: the provider has no reply left (the observation of an unfinished
      run stops there), a reply failed, or the agent would stop. */
  datatype Exit = Paused | FailedReply | WouldStop

  /** The inner loop. */
  method RunTurns(agent: Agent, ctx: LoopContext, env: Environment, stream: EventStream, first: bool,
                  pending: seq<Message>, ghost p0: Progress, ghost terms: Terms)
    returns (exit: Exit, ghost p: Progress)
    requires AtHead(agent, ctx, env, stream, p0, terms)
    requires p0.pending == pending && MayInject(p0.run.turns, p0.source, p0.pending) && first == (p0.run.turns == [])
    modifies agent, ctx, env, stream
    ensures AtHead(agent, ctx, env, stream, p, terms) && agent.Origin() == old(agent.Origin())
    ensures exit.Paused? ==> env.replies == []
    ensures !exit.Paused? ==> Finished(p.run.turns) && p.pending == [] && |env.replies| < |old(env.replies)|
    ensures exit.FailedReply? ==> Failed(p.run.turns[|p.run.turns| - 1].reply)
    ensures exit.WouldStop? ==> Settled(p.run.turns[|p.run.turns| - 1]) && SteeringHeard(agent, env)
  {
    hide AtHead, SteeringHeard, MayInject, Settled, Failed;
    var firstTurn, pendingMessages := first, pending;
    var hasMoreToolCalls := true;
    p, exit := p0, WouldStop;
    ghost var n := |env.replies|;
    while exit.WouldStop? && (hasMoreToolCalls || pendingMessages != [])
      invariant AtHead(agent, ctx, env, stream, p, terms) && agent.Origin() == old(agent.Origin())
      invariant exit.Paused? ==> env.replies == []
      invariant !exit.Paused? ==> p.pending == pendingMessages && firstTurn == (p.run.turns == [])
      invariant exit.FailedReply? ==> pendingMessages == [] && Finished(p.run.turns) && |env.replies| < n
      invariant exit.FailedReply? ==> Failed(p.run.turns[|p.run.turns| - 1].reply)
      invariant exit.WouldStop? && (hasMoreToolCalls || pendingMessages != []) ==>
                MayInject(p.run.turns, p.source, p.pending)
      invariant exit.WouldStop? && !hasMoreToolCalls && pendingMessages == [] ==>
                  && Finished(p.run.turns) && Settled(p.run.turns[|p.run.turns| - 1])
                  && SteeringHeard(agent, env) && |env.replies| < n
      invariant |env.replies| <= n
      decreases |env.replies|, exit.WouldStop?
    {
      if env.replies == [] {
        exit := Paused;
      } else {
        var failed;
        failed, hasMoreToolCalls, pendingMessages, p :=
          Step(agent, ctx, env, stream, firstTurn, pendingMessages, p, terms);
        firstTurn := false;
        if failed {
          exit := FailedReply;
        }
      }
    }
  }

  /** The outer loop. */
  method RunLoop(agent: Agent, ctx: LoopContext, env: Environment, stream: EventStream, ghost terms: Terms)
    returns (completed: bool, ghost p: Progress)
    requires Coupled(agent, stream, env) && Tracks(terms.start, stream, ctx, env)
    requires terms == Terms(terms.start, agent.steeringMode, agent.followUpMode, agent.skipInitialSteeringPoll,
                            agent.steeringTaken, agent.followUpTaken, terms.steeringWaiting, terms.followUpWaiting,
                            env.arrivals, env.replies)
    requires Anchored(agent, env, terms) && agent.steeringQueue == terms.steeringWaiting
    requires terms.start.turns == []
    modifies agent, ctx, env, stream
    ensures agent.Origin() == old(agent.Origin())
    ensures if completed then Ended(agent, ctx, env, stream, p, terms)
            else env.replies == [] && AtHead(agent, ctx, env, stream, p, terms)
  {
    hide AtHead, Ended;
    var firstTurn := true;
    var pendingMessages;
    pendingMessages, p := FirstPoll(agent, ctx, env, stream, terms);
    while true
      invariant AtHead(agent, ctx, env, stream, p, terms) && agent.Origin() == old(agent.Origin())
      invariant p.pending == pendingMessages && MayInject(p.run.turns, p.source, p.pending)
      invariant firstTurn == (p.run.turns == [])
      decreases |env.replies|
    {
      var exit;
      exit, p := RunTurns(agent, ctx, env, stream, firstTurn, pendingMessages, p, terms);
      if exit.Paused? {
        completed := false;
        return;
      }
      if exit.FailedReply? {
        break;
      }
      firstTurn := false;
      pendingMessages := AskFollowUp(agent, ctx, env, stream, p, terms);
      p := p.(source := FollowUp, pending := pendingMessages);
      if pendingMessages == [] {
        break;
      }
    }
    Close(agent, ctx, env, stream, p, terms);
    completed := true;
  }

  /** `agentLoop` (with prompts) and `agentLoopContinue` (without). */
  method AgentLoop(agent: Agent, prompts: seq<Message>, context: seq<Message>, env: Environment, stream: EventStream,
                   ghost origin: Source)
    returns (completed: bool, ctx: LoopContext, ghost p: Progress, ghost terms: Terms)
    requires Coupled(agent, stream, env) && stream.Open([])
    requires env.clock == 0 && env.requests == [] && env.sent == []
    modifies agent, env, stream
    ensures agent.Origin() == old(agent.Origin())
    ensures terms == Terms(Run(context, origin, prompts, []), agent.steeringMode, agent.followUpMode,
                           old(agent.skipInitialSteeringPoll), old(agent.steeringTaken), old(agent.followUpTaken),
                           old(agent.steeringQueue), old(agent.followUpQueue), env.arrivals, old(env.replies))
    ensures if completed then Ended(agent, ctx, env, stream, p, terms)
            else env.replies == [] && AtHead(agent, ctx, env, stream, p, terms)
  {
    ctx := new LoopContext(context + prompts, prompts);
    stream.Push(AgentStart);
    stream.Push(TurnStart);
    for i := 0 to |prompts|
      invariant Coupled(agent, stream, env)
      invariant stream.Open(EmitMessages([AgentStart, TurnStart], prompts, i))
      modifies stream
    {
      PushMessage(stream, prompts[i]);
    }
    terms := Terms(Run(context, origin, prompts, []), agent.steeringMode, agent.followUpMode,
                   agent.skipInitialSteeringPoll, agent.steeringTaken, agent.followUpTaken,
                   agent.steeringQueue, agent.followUpQueue, env.arrivals, env.replies);
    completed, p := RunLoop(agent, ctx, env, stream, terms);
  }

  /** What a completed run leaves behind. */
  ghost predicate RunDone(agent: Agent, env: Environment, stream: EventStream, p: Progress, terms: Terms)
    reads agent, env, stream
  {
    && agent.Valid() && stream.Valid() && stream.queue == [] && Closed(p.run, stream)
    && p.pending == [] && Finished(p.run.turns) && NothingUnheard(agent, env, p.run.turns)
    && OnTerms(p, terms, agent.steeringTaken, agent.followUpTaken, env.replies)
    && env.requests == Requests(p.run) && env.SentPrepared()
    && agent.messages == p.run.base + Produced(p.run)
    && agent.error == LastError(None, p.run.turns)
    && !agent.isStreaming && agent.streamMessage == None && agent.pendingToolCalls == {}
  }

  /** What a run that is still waiting for the provider looks like between two turns. */
  ghost predicate RunPaused(agent: Agent, env: Environment, stream: EventStream, p: Progress, terms: Terms)
    reads agent, env, stream
  {
    && Coupled(agent, stream, env) && stream.Open(Trace(p.run))
    && OnTerms(p, terms, agent.steeringTaken, agent.followUpTaken, env.replies)
    && env.requests == Requests(p.run) && env.SentPrepared() && env.replies == []
    && Idle(agent.before) && agent.before.error == None && agent.before.messages == p.run.base
  }

  lemma OnTermsBase(p: Progress, terms: Terms, steeringTaken: seq<Message>, followUpTaken: seq<Message>,
                    left: seq<Reply>)
    requires OnTerms(p, terms, steeringTaken, followUpTaken, left)
    ensures p.run.base == terms.start.base && p.run.origin == terms.start.origin && p.run.prompts == terms.start.prompts
  {
  }

  /** The consumer takes the remaining events, and the `finally` block resets the flags. The fallback
      for a message left half streamed is never needed: `partial` is empty by then. */
  method FinishRun(agent: Agent, ctx: LoopContext, env: Environment, stream: EventStream, ghost p: Progress,
                   ghost terms: Terms)
    requires Ended(agent, ctx, env, stream, p, terms)
    requires Idle(agent.before) && agent.before.error == None && agent.before.messages == p.run.base
    modifies agent`messages, agent`isStreaming, agent`streamMessage, agent`pendingToolCalls, agent`error, agent`partial
    modifies stream
    ensures RunDone(agent, env, stream, p, terms) && agent.partial == None
  {
    hide Fold, OnTerms, Trace, Produced, Requests, Context, Finished, QueuedUntil;
    Consume(agent, stream, |stream.queue|);
    assert stream.taken == stream.pushed;
    FoldSnoc(agent.before, Trace(p.run), AgentEnd(Produced(p.run)));
    ReplayTrace(agent.before, p.run);
    agent.isStreaming, agent.streamMessage, agent.pendingToolCalls := false, None, {};
  }

  /** What `_runLoop` sets before it starts the loop. */
  method StartRun(agent: Agent, env: Environment, stream: EventStream, skipInitialSteeringPoll: bool)
    requires agent.Valid() && agent.pendingToolCalls == {}
    requires stream.Valid() && stream.Open([]) && env.clock == 0
    modifies agent`isStreaming, agent`streamMessage, agent`error, agent`partial, agent`skipInitialSteeringPoll,
             agent`before, agent`steeringBacklog, agent`followUpBacklog
    ensures Coupled(agent, stream, env) && agent.skipInitialSteeringPoll == skipInitialSteeringPoll
    ensures Idle(agent.before) && agent.before.error == None && agent.before.messages == agent.messages
    ensures agent.steeringBacklog == agent.steeringEnqueued && agent.followUpBacklog == agent.followUpEnqueued
  {
    agent.isStreaming, agent.streamMessage, agent.error, agent.partial := true, None, None, None;
    agent.skipInitialSteeringPoll := skipInitialSteeringPoll;
    agent.before := agent.View();
    agent.steeringBacklog, agent.followUpBacklog := agent.steeringEnqueued, agent.followUpEnqueued;
    assert stream.taken == [];
  }

  /** The private `_runLoop`. */
  method RunAgent(agent: Agent, prompts: seq<Message>, skipInitialSteeringPoll: bool, env: Environment,
                  stream: EventStream, ghost origin: Source)
    returns (completed: bool, ghost p: Progress, ghost terms: Terms)
    requires agent.Valid() && agent.pendingToolCalls == {}
    requires stream.Valid() && stream.Open([]) && env.clock == 0 && env.requests == [] && env.sent == []
    modifies agent, env, stream
    ensures terms == Terms(Run(old(agent.messages), origin, prompts, []), agent.steeringMode, agent.followUpMode,
                           skipInitialSteeringPoll, old(agent.steeringTaken), old(agent.followUpTaken),
                           old(agent.steeringQueue), old(agent.followUpQueue), env.arrivals, old(env.replies))
    ensures agent.steeringEnqueued == old(agent.steeringEnqueued) + QueuedUntil(env.arrivals, env.clock, true)
    ensures agent.followUpEnqueued == old(agent.followUpEnqueued) + QueuedUntil(env.arrivals, env.clock, false)
    ensures if completed then RunDone(agent, env, stream, p, terms) else RunPaused(agent, env, stream, p, terms)
  {
    hide OnTerms, Fold, QueuedUntil, Requests, Context, Produced, Trace, Finished, Closed, NothingUnheard, RunDone;
    StartRun(agent, env, stream, skipInitialSteeringPoll);
    var ctx;
    completed, ctx, p, terms := AgentLoop(agent, prompts, agent.messages, env, stream, origin);
    OnTermsBase(p, terms, agent.steeringTaken, agent.followUpTaken, env.replies);
    if completed {
      FinishRun(agent, ctx, env, stream, p, terms);
    }
  }

  lemma Cancel<T>(a: seq<T>, b: seq<T>, c: seq<T>)
    requires a + b == a + c
    ensures b == c
  {
    assert b == (a + b)[|a|..] && c == (a + c)[|a|..];
  }

  /** Of one queue, what had been queued before the run and what was queued during it is what the run
      delivered, then what it is about to deliver, then what is still waiting. */
  lemma WaitingConserved(p: Progress, queue: Source, taken0: seq<Message>, waiting0: seq<Message>, queued: seq<Message>,
                         prompts: seq<Message>, taken: seq<Message>, waiting: seq<Message>)
    requires Accounted(p, queue, taken0, taken)
    requires taken0 + waiting0 + queued == taken + waiting
    requires prompts == InFlight(queue, p.run.origin, p.run.prompts)
    ensures prompts + waiting0 + queued == DeliveredBy(p.run, queue) + InFlight(queue, p.source, p.pending) + waiting
  {
    var delivered, pending := Delivered(p.run.turns, queue), InFlight(queue, p.source, p.pending);
    assert taken0 + (waiting0 + queued) == taken0 + waiting0 + queued;
    assert taken0 + (delivered + pending + waiting) == taken0 + delivered + pending + waiting;
    Cancel(taken0, waiting0 + queued, delivered + pending + waiting);
    assert prompts + waiting0 + queued == prompts + (waiting0 + queued);
    assert prompts + (delivered + pending + waiting) == prompts + delivered + pending + waiting;
  }

  /** What a call of `prompt` or `continue` achieves, for both queues and in both outcomes. */
  ghost predicate Conserves(agent: Agent, env: Environment, p: Progress, steering0: seq<Message>,
                            followUp0: seq<Message>)
    reads agent, env
  {
    && steering0 + QueuedUntil(env.arrivals, env.clock, true)
       == DeliveredBy(p.run, Steering) + InFlight(Steering, p.source, p.pending) + agent.steeringQueue
    && followUp0 + QueuedUntil(env.arrivals, env.clock, false)
       == DeliveredBy(p.run, FollowUp) + InFlight(FollowUp, p.source, p.pending) + agent.followUpQueue
  }

  /** What had waited in the queues is what the run is prompted with and what waits when it starts. */
  ghost predicate StartsFrom(terms: Terms, env: Environment, steering0: seq<Message>, followUp0: seq<Message>) {
    && terms.arrivals == env.arrivals
    && steering0 == InFlight(Steering, terms.start.origin, terms.start.prompts) + terms.steeringWaiting
    && followUp0 == InFlight(FollowUp, terms.start.origin, terms.start.prompts) + terms.followUpWaiting
  }

  const BUSY_PROMPT :=
    "Agent is already processing a prompt. Use steer() or followUp() to queue messages, or wait for completion."
  const BUSY_CONTINUE := "Agent is already processing. Wait for completion before continuing."
  const NOTHING_TO_CONTINUE := "No messages to continue from"
  const ASSISTANT_LAST := "Cannot continue from message role: assistant"

  /** A run started with prompts that were dequeued from a queue, or with none of them. */
  method RunFrom(agent: Agent, prompts: seq<Message>, skip: bool, env: Environment, stream: EventStream,
                 ghost origin: Source,
                 ghost steering0: seq<Message>, ghost followUp0: seq<Message>)
    returns (completed: bool, ghost p: Progress, ghost terms: Terms)
    requires agent.Valid() && agent.pendingToolCalls == {}
    requires stream.Valid() && stream.Open([]) && env.clock == 0 && env.requests == [] && env.sent == []
    requires steering0 == InFlight(Steering, origin, prompts) + agent.steeringQueue
    requires followUp0 == InFlight(FollowUp, origin, prompts) + agent.followUpQueue
    modifies agent, env, stream
    ensures terms.start == Run(old(agent.messages), origin, prompts, []) && terms.skipped == skip
    ensures terms.steeringMode == agent.steeringMode && terms.followUpMode == agent.followUpMode
    ensures terms.replies == old(env.replies)
    ensures if completed then RunDone(agent, env, stream, p, terms) else RunPaused(agent, env, stream, p, terms)
    ensures Conserves(agent, env, p, steering0, followUp0) && StartsFrom(terms, env, steering0, followUp0)
  {
    ghost var sTaken, sWaiting, fTaken, fWaiting :=
      agent.steeringTaken, agent.steeringQueue, agent.followUpTaken, agent.followUpQueue;
    completed, p, terms := RunAgent(agent, prompts, skip, env, stream, origin);
    ghost var sPrompts, fPrompts := InFlight(Steering, origin, prompts), InFlight(FollowUp, origin, prompts);
    WaitingConserved(p, Steering, sTaken, sWaiting, QueuedUntil(env.arrivals, env.clock, true), sPrompts,
      agent.steeringTaken, agent.steeringQueue);
    WaitingConserved(p, FollowUp, fTaken, fWaiting, QueuedUntil(env.arrivals, env.clock, false), fPrompts,
      agent.followUpTaken, agent.followUpQueue);
  }

  /** `Agent.prompt`. */
  method Prompt(agent: Agent, msgs: seq<Message>, env: Environment, stream: EventStream)
    returns (r: Result<bool, string>, ghost p: Progress, ghost terms: Terms)
    requires agent.Valid() && (!agent.isStreaming ==> agent.pendingToolCalls == {})
    requires stream.Valid() && stream.Open([]) && env.clock == 0 && env.requests == [] && env.sent == []
    modifies agent, env, stream
    ensures r.Err? <==> old(agent.isStreaming)
    ensures r.Err? ==> r.error == BUSY_PROMPT && agent.View() == old(agent.View()) && stream.Open([])
    ensures r.Err? ==>
              agent.steeringQueue == old(agent.steeringQueue) && agent.followUpQueue == old(agent.followUpQueue)
    ensures r.Ok? ==> terms.start == Run(old(agent.messages), Prompted, msgs, [])
    ensures r.Ok? ==> terms.steeringMode == agent.steeringMode && terms.followUpMode == agent.followUpMode
    ensures r.Ok? ==> if r.value then RunDone(agent, env, stream, p, terms) else RunPaused(agent, env, stream, p, terms)
    ensures r.Ok? ==> Conserves(agent, env, p, old(agent.steeringQueue), old(agent.followUpQueue))
    ensures r.Ok? ==> StartsFrom(terms, env, old(agent.steeringQueue), old(agent.followUpQueue))
  {
    if agent.isStreaming {
      return Err(BUSY_PROMPT), *, *;
    }
    var completed;
    hide RunDone, RunPaused, Conserves, StartsFrom;
    completed, p, terms := RunFrom(agent, msgs, false, env, stream, Prompted, agent.steeringQueue, agent.followUpQueue);
    r := Ok(completed);
  }

  /** `Agent.continue`. After an assistant message it needs a queued message to go on with: steering
      messages first (the loop's own initial poll is then skipped), follow-ups otherwise. */
  method Continue(agent: Agent, env: Environment, stream: EventStream)
    returns (r: Result<bool, string>, ghost p: Progress, ghost terms: Terms)
    requires agent.Valid() && (!agent.isStreaming ==> agent.pendingToolCalls == {})
    requires stream.Valid() && stream.Open([]) && env.clock == 0 && env.requests == [] && env.sent == []
    modifies agent, env, stream
    ensures r.Err? <==>
      || old(agent.isStreaming) || old(agent.messages) == []
      || (old(agent.messages[|agent.messages| - 1].Assistant?)
          && old(agent.steeringQueue) == [] && old(agent.followUpQueue) == [])
    ensures r.Err? ==> r.error == if old(agent.isStreaming) then BUSY_CONTINUE
                                  else if old(agent.messages) == [] then NOTHING_TO_CONTINUE else ASSISTANT_LAST
    ensures r.Err? ==> agent.View() == old(agent.View()) && stream.Open([])
    ensures r.Err? ==>
              agent.steeringQueue == old(agent.steeringQueue) && agent.followUpQueue == old(agent.followUpQueue)
    ensures r.Ok? ==> Resumes(terms, old(agent.messages), old(agent.steeringQueue) != [])
    ensures r.Ok? ==> terms.steeringMode == agent.steeringMode && terms.followUpMode == agent.followUpMode
    ensures r.Ok? ==> if r.value then RunDone(agent, env, stream, p, terms) else RunPaused(agent, env, stream, p, terms)
    ensures r.Ok? ==> Conserves(agent, env, p, old(agent.steeringQueue), old(agent.followUpQueue))
    ensures r.Ok? ==> StartsFrom(terms, env, old(agent.steeringQueue), old(agent.followUpQueue))
  {
    if agent.isStreaming {
      return Err(BUSY_CONTINUE), *, *;
    }
    if agent.messages == [] {
      return Err(NOTHING_TO_CONTINUE), *, *;
    }
    hide RunDone, RunPaused, Conserves, StartsFrom, QueuedUntil, InFlight, Resumes;
    if agent.messages[|agent.messages| - 1].Assistant? {
      r, p, terms := ContinueFromQueues(agent, env, stream);
    } else {
      NothingDequeued(NoSource, agent.steeringQueue, agent.followUpQueue);
      var completed;
      completed, p, terms := RunFrom(agent, [], false, env, stream, NoSource, agent.steeringQueue, agent.followUpQueue);
      StartResumes(terms, old(agent.messages), old(agent.steeringQueue) != []);
      r := Ok(completed);
    }
  }

  /** The part of `continue` for a conversation that ends with an assistant message. */
  method ContinueFromQueues(agent: Agent, env: Environment, stream: EventStream)
    returns (r: Result<bool, string>, ghost p: Progress, ghost terms: Terms)
    requires agent.Valid() && agent.pendingToolCalls == {}
    requires agent.messages != [] && agent.messages[|agent.messages| - 1].Assistant?
    requires stream.Valid() && stream.Open([]) && env.clock == 0 && env.requests == [] && env.sent == []
    modifies agent, env, stream
    ensures r.Err? <==> old(agent.steeringQueue) == [] && old(agent.followUpQueue) == []
    ensures r.Err? ==> r.error == ASSISTANT_LAST && agent.View() == old(agent.View()) && stream.Open([])
    ensures r.Err? ==>
              agent.steeringQueue == old(agent.steeringQueue) && agent.followUpQueue == old(agent.followUpQueue)
    ensures r.Ok? ==> Resumes(terms, old(agent.messages), old(agent.steeringQueue) != [])
    ensures r.Ok? ==> terms.steeringMode == agent.steeringMode && terms.followUpMode == agent.followUpMode
    ensures r.Ok? ==> if r.value then RunDone(agent, env, stream, p, terms) else RunPaused(agent, env, stream, p, terms)
    ensures r.Ok? ==> Conserves(agent, env, p, old(agent.steeringQueue), old(agent.followUpQueue))
    ensures r.Ok? ==> StartsFrom(terms, env, old(agent.steeringQueue), old(agent.followUpQueue))
  {
    hide RunDone, RunPaused, Conserves, StartsFrom, QueuedUntil, InFlight, Resumes;
    ghost var steering0, followUp0 := agent.steeringQueue, agent.followUpQueue;
    var prompts, skip;
    ghost var origin;
    prompts, skip, origin := DequeueForContinue(agent);
    if prompts == [] {
      NothingDequeued(origin, agent.steeringQueue, agent.followUpQueue);
      return Err(ASSISTANT_LAST), *, *;
    }
    var completed;
    completed, p, terms := RunFrom(agent, prompts, skip, env, stream, origin, steering0, followUp0);
    StartResumes(terms, old(agent.messages), old(agent.steeringQueue) != []);
    r := Ok(completed);
  }

  lemma NothingDequeued(origin: Source, steering: seq<Message>, followUp: seq<Message>)
    ensures InFlight(Steering, origin, []) + steering == steering
    ensures InFlight(FollowUp, origin, []) + followUp == followUp
  {
  }

  lemma StartResumes(terms: Terms, messages: seq<Message>, steeringWaits: bool)
    requires messages != [] && terms.start == Run(messages, terms.start.origin, terms.start.prompts, [])
    requires if !messages[|messages| - 1].Assistant? then
               terms.start.origin == NoSource && terms.start.prompts == [] && !terms.skipped
             else
               && terms.start.prompts != [] && terms.skipped == steeringWaits
               && terms.start.origin == (if steeringWaits then Steering else FollowUp)
               && ((if steeringWaits then terms.steeringMode else terms.followUpMode) == OneAtATime ==>
                     |terms.start.prompts| <= 1)
    ensures Resumes(terms, messages, steeringWaits)
  {
  }

  /** The queued messages that `continue` goes on with: steering messages first, else follow-ups. */
  method DequeueForContinue(agent: Agent) returns (prompts: seq<Message>, skip: bool, ghost origin: Source)
    requires agent.Valid()
    modifies agent`steeringQueue, agent`steeringTaken, agent`followUpQueue, agent`followUpTaken
    ensures agent.Valid()
    ensures old(agent.steeringQueue) == InFlight(Steering, origin, prompts) + agent.steeringQueue
    ensures old(agent.followUpQueue) == InFlight(FollowUp, origin, prompts) + agent.followUpQueue
    ensures prompts == [] <==> old(agent.steeringQueue) == [] && old(agent.followUpQueue) == []
    ensures skip == (old(agent.steeringQueue) != []) && origin == if skip then Steering else FollowUp
    ensures (if skip then agent.steeringMode else agent.followUpMode) == OneAtATime ==> |prompts| <= 1
  {
    skip, origin := false, FollowUp;
    prompts := agent.DequeueSteeringMessages();
    if prompts != [] {
      skip, origin := true, Steering;
    } else {
      prompts := agent.DequeueFollowUpMessages();
    }
  }

  /** How `continue` starts a run from these messages. */
  predicate Resumes(terms: Terms, messages: seq<Message>, steeringWaits: bool) {
    var start := terms.start;
    && messages != [] && start.base == messages && start.turns == []
    && if !messages[|messages| - 1].Assistant? then start.origin == NoSource && start.prompts == [] && !terms.skipped
       else if steeringWaits then
         && start.origin == Steering && start.prompts != [] && terms.skipped
         && (terms.steeringMode == OneAtATime ==> |start.prompts| == 1)
       else
         && start.origin == FollowUp && start.prompts != [] && !terms.skipped
         && (terms.followUpMode == OneAtATime ==> |start.prompts| == 1)
  }
}