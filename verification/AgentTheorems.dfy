/** What holds of every run of the agent loop: the context, the reported messages and the agent's
    state agree; tool calls and results pair up in every request; a follow-up never overtakes
    steering; one message a turn in "one-at-a-time" mode. */
module AgentTheorems {
  import opened Wrappers
  import opened Conversation
  import opened AgentRuntime
  import opened Replay
  import opened TraceGrammar

  // ---- Replica agreement ----

  /** The partial messages that a run's replies leave behind in the context. */
  function Leftovers(ts: seq<Turn>): nat {
    if ts == [] then 0
    else
      var es := ts[|ts| - 1].streamed;
      Leftovers(ts[..|ts| - 1]) + if Starts(es, |es|) <= 1 then 0 else Starts(es, |es|) - 1
  }

  lemma {:induction false} NoLeftovers(ts: seq<Turn>)
    ensures Leftovers(ts) == 0 <==> StartsOnce(ts)
  {
    if ts != [] {
      NoLeftovers(ts[..|ts| - 1]);
    }
  }

  lemma {:induction false} StreamedKeeps(context: seq<Message>, es: seq<ProviderEvent>, n: nat)
    requires n <= |es|
    ensures context <= StreamedInto(context, es, n)
  {
    if n > 0 {
      StreamedKeeps(context, es, n - 1);
    }
  }

  lemma ReplyAppends(context: seq<Message>, es: seq<ProviderEvent>, reply: AssistantMessage)
    ensures context <= WithReply(context, es, reply)
    ensures WithReply(context, es, reply)[|WithReply(context, es, reply)| - 1] == reply
    ensures Starts(es, |es|) <= 1 ==> WithReply(context, es, reply) == context + [reply]
  {
    StreamedKeeps(context, es, |es|);
  }

  lemma {:induction false} ContextLength(context: seq<Message>, prompts: seq<Message>, ts: seq<Turn>)
    ensures |WithTurns(context, ts)| - |context| == |ProducedBy(prompts, ts)| - |prompts| + Leftovers(ts)
  {
    if ts != [] {
      ContextLength(context, prompts, ts[..|ts| - 1]);
    }
  }

  lemma {:induction false} ContextIsProduced(context: seq<Message>, ts: seq<Turn>)
    requires Leftovers(ts) == 0
    ensures WithTurns(context, ts) == ProducedBy(context, ts)
  {
    if ts != [] {
      var t := ts[|ts| - 1];
      var before := WithTurns(context, ts[..|ts| - 1]);
      ContextIsProduced(context, ts[..|ts| - 1]);
      ReplyAppends(before + t.injected, t.streamed, t.reply);
    }
  }

  /** The loop's context is the starting messages and the new ones, exactly when no reply streamed a
      second `start`. */
  lemma ContextAgreement(run: Run)
    ensures Context(run) == run.base + Produced(run) <==> StartsOnce(run.turns)
  {
    NoLeftovers(run.turns);
    ContextLength(run.base + run.prompts, run.prompts, run.turns);
    ProducedAfter(run.base, run.prompts, run.turns);
    if Leftovers(run.turns) == 0 {
      ContextIsProduced(run.base + run.prompts, run.turns);
    }
  }

  lemma TwoStarts(base: seq<Message>, partial: AssistantMessage, reply: AssistantMessage)
    ensures var es := [Start(partial), Start(partial)];
            Starts(es, 2) == 2 && WithReply(base, es, reply) == base + [partial, reply]
  {
    var es := [Start(partial), Start(partial)];
    assert Starts(es, 1) == 1 && StreamedInto(base, es, 1) == base + [partial];
    assert StreamedInto(base, es, 2) == base + [partial] + [partial];
  }

  /** A reply that starts twice leaves a partial message in the loop's context that no one else has. */
  lemma SecondStartStaysBehind(base: seq<Message>, partial: AssistantMessage, reply: AssistantMessage)
    requires reply.blocks == [] && reply.stopReason.Stop?
    ensures var run := Run(base, NoSource, [],
                           [Turn(NoSource, [], [Start(partial), Start(partial)], reply, [], 0, [])]);
            && TurnsOk(run.turns) && Finished(run.turns)
            && Context(run) == base + [partial, reply] && base + Produced(run) == base + [reply]
  {
    var t := Turn(NoSource, [], [Start(partial), Start(partial)], reply, [], 0, []);
    var start := Run(base, NoSource, [], []);
    assert TurnOk(t) && Settled(t) && TurnsOk([]);
    assert Context(start) == base && Produced(start) == [];
    hide TurnOk, Context, Produced, TurnsOk, WithReply;
    RunSnoc(start, t);
    TwoStarts(base, partial, reply);
    assert start.(turns := start.turns + [t]) == Run(base, NoSource, [], [t]);
    assert base + t.injected == base && base + [partial, reply] + Results([]) == base + [partial, reply];
    assert [] + t.injected + [reply] + Results([]) == [reply];
  }

  /** After a completed run the agent's messages and those of `agent_end` are the starting messages
      and the new ones; the loop's context is the same list exactly when each reply started once. */
  lemma ReplicaAgreement(agent: Agent, env: Environment, stream: EventStream, p: Progress, terms: Terms)
    requires RunDone(agent, env, stream, p, terms)
    ensures stream.result == Some(Produced(p.run))
    ensures agent.messages == terms.start.base + Produced(p.run)
    ensures agent.messages == Context(p.run) <==> StartsOnce(p.run.turns)
  {
    ContextAgreement(p.run);
  }

  /** At every turn boundary of an unfinished run, an agent that has taken all events so far holds
      exactly the starting messages and the new ones. */
  lemma AgreementMidRun(agent: Agent, env: Environment, stream: EventStream, p: Progress, terms: Terms)
    requires RunPaused(agent, env, stream, p, terms) && stream.queue == []
    ensures agent.messages == terms.start.base + Produced(p.run)
    ensures agent.error == LastError(None, p.run.turns)
    ensures agent.streamMessage == None && agent.pendingToolCalls == {}
  {
    hide Fold, Trace, Produced, QueuedUntil, Requests;
    OnTermsBase(p, terms, agent.steeringTaken, agent.followUpTaken, env.replies);
    ReplayTrace(agent.before, p.run);
    assert stream.taken == stream.pushed;
  }

  /** Wherever the consumer stands when a run pauses, at most one call is pending in the agent's state, and
      its messages are the starting ones and the first of the new ones: those that ended among the events
      it has taken. */
  lemma LaggingAgent(agent: Agent, env: Environment, stream: EventStream, p: Progress, terms: Terms)
    requires RunPaused(agent, env, stream, p, terms)
    ensures |agent.pendingToolCalls| <= 1
    ensures agent.messages == terms.start.base + EndedMessages(stream.taken)
    ensures EndedMessages(stream.taken) <= Produced(p.run) && stream.taken <= Trace(p.run)
  {
    hide Produced, Fold, Trace, QueuedUntil, Requests, EndedMessages;
    OnTermsBase(p, terms, agent.steeringTaken, agent.followUpTaken, env.replies);
    assert stream.taken == Trace(p.run)[..|stream.taken|];
    AtMostOneToolPending(agent.before, p.run, |stream.taken|);
    FoldEnded(agent.before, stream.taken);
    EndedPrefix(Trace(p.run), |stream.taken|);
    TraceEnds(p.run);
  }

  // ---- Tool pairing ----

  /** `m` reports the result of `call`; a skipped call's result is the fixed error. */
  predicate ResultFor(m: Message, call: ToolCall, skipped: bool) {
    && m.ToolResult? && m.toolCallId == call.id && m.toolName == call.name
    && (skipped ==> m.isError && m.content == "Skipped due to queued user message.")
  }

  /** At `at` stands an assistant message, and its tool results follow at once: for every block that is a
      call one, at the place of its rank among the calls; those from rank `executed` on are the error
      results of skipped calls. */
  ghost predicate PairedAt(ms: seq<Message>, at: nat, executed: nat) {
    && at < |ms| && ms[at].Assistant?
    && var blocks := ms[at].blocks;
    && at + |CallsBefore(blocks, |blocks|)| < |ms|
    && forall j | 0 <= j < |blocks| && blocks[j].Calling? ::
         var rank := |CallsBefore(blocks, j)|;
         at + 1 + rank < |ms| && ResultFor(ms[at + 1 + rank], blocks[j].call, executed <= rank)
  }

  /** The reply at `at` has no other results: what follows its last one is `next`, or nothing. */
  ghost predicate EndsAt(reply: AssistantMessage, at: nat, next: nat) {
    next == at + 1 + |CallsBefore(reply.blocks, |reply.blocks|)|
  }

  function UpTo(run: Run, i: nat): Run
    requires i <= |run.turns|
  {
    run.(turns := run.turns[..i])
  }

  /** Where turn `i`'s reply stands in the context. */
  function ReplyAt(run: Run, i: nat): nat
    requires i < |run.turns|
  {
    var t := run.turns[i];
    |WithReply(Context(UpTo(run, i)) + t.injected, t.streamed, t.reply)| - 1
  }

  lemma {:induction false} TurnsOkPrefix(ts: seq<Turn>, i: nat)
    requires TurnsOk(ts) && i < |ts|
    ensures TurnsOk(ts[..i]) && TurnOk(ts[i]) && MayInject(ts[..i], ts[i].source, ts[i].injected)
  {
    if i < |ts| - 1 {
      var front := ts[..|ts| - 1];
      TurnsOkPrefix(front, i);
      assert front[..i] == ts[..i];
    }
  }

  lemma ContextStep(run: Run, i: nat)
    requires i < |run.turns|
    ensures Context(UpTo(run, i + 1)) == WithTurn(Context(UpTo(run, i)), run.turns[i])
    ensures Context(UpTo(run, i)) <= Context(UpTo(run, i + 1))
  {
    var t, before := run.turns[i], Context(UpTo(run, i));
    assert run.turns[..i + 1][..i] == run.turns[..i];
    ReplyAppends(before + t.injected, t.streamed, t.reply);
    assert before <= before + t.injected <= WithReply(before + t.injected, t.streamed, t.reply);
  }

  lemma {:induction false} ContextGrows(run: Run, i: nat, k: nat)
    requires i <= k <= |run.turns|
    ensures Context(UpTo(run, i)) <= Context(UpTo(run, k))
  {
    hide Context;
    if i < k {
      ContextGrows(run, i, k - 1);
      ContextStep(run, k - 1);
    }
  }

  lemma {:induction false} RequestAt(run: Run, k: nat)
    requires k < |run.turns|
    ensures Requests(run)[k] == Context(UpTo(run, k)) + run.turns[k].injected
    decreases |run.turns|
  {
    hide Context;
    var before := UpTo(run, |run.turns| - 1);
    if k < |run.turns| - 1 {
      RequestAt(before, k);
      assert before.turns[..k] == run.turns[..k];
    }
  }

  lemma TurnPaired(run: Run, i: nat)
    requires TurnsOk(run.turns) && i < |run.turns| && !Failed(run.turns[i].reply)
    ensures PairedAt(Context(UpTo(run, i + 1)), ReplyAt(run, i), run.turns[i].executed)
    ensures Context(UpTo(run, i + 1))[ReplyAt(run, i)] == run.turns[i].reply
    ensures EndsAt(run.turns[i].reply, ReplyAt(run, i), BeforeTurn(run, i + 1))
  {
    hide Context, WithReply, TurnsOk, MayInject, ToolCalls, CallsBefore;
    var t, at := run.turns[i], ReplyAt(run, i);
    TurnsOkPrefix(run.turns, i);
    ContextStep(run, i);
    var replied := WithReply(Context(UpTo(run, i)) + t.injected, t.streamed, t.reply);
    ReplyAppends(Context(UpTo(run, i)) + t.injected, t.streamed, t.reply);
    var after := Context(UpTo(run, i + 1));
    assert after == replied + Results(t.blocks);
    var calls := ToolCalls(t.reply.blocks);
    ToolCallsMeaning(t.reply.blocks);
    forall j | 0 <= j < |t.reply.blocks| && t.reply.blocks[j].Calling?
      ensures var rank := |CallsBefore(t.reply.blocks, j)|;
              at + 1 + rank < |after| && ResultFor(after[at + 1 + rank], t.reply.blocks[j].call, t.executed <= rank)
    {
      var rank := |CallsBefore(t.reply.blocks, j)|;
      assert calls[rank] == t.reply.blocks[j].call;
      assert after[at + 1 + rank] == Results(t.blocks)[rank] == t.blocks[rank].result;
      assert BlockOk(t.blocks[rank], calls[rank]);
    }
  }

  /** A turn that another follows: its reply did not fail, and steering alone cuts its tools short. */
  lemma TurnServed(ts: seq<Turn>, i: nat)
    requires TurnsOk(ts) && i + 1 < |ts|
    ensures !Failed(ts[i].reply)
    ensures ts[i].reply.stopReason != StopReason.Error && ts[i].reply.stopReason != Aborted
    ensures (exists b <- ts[i].reply.blocks :: b.Calling?) ==> 0 < ts[i].executed
    ensures ts[i].executed < |CallsBefore(ts[i].reply.blocks, |ts[i].reply.blocks|)| ==> ts[i + 1].source == Steering
  {
    ToolCallsMeaning(ts[i].reply.blocks);
    CallsExist(ts[i].reply.blocks);
    TurnsOkPrefix(ts, i);
    TurnsOkPrefix(ts, i + 1);
    assert ts[..i + 1][i] == ts[i];
    hide TurnsOk, ToolCalls, CallsBefore;
  }

  lemma CallsExist(blocks: seq<Block>)
    ensures ToolCalls(blocks) != [] <==> exists b <- blocks :: b.Calling?
  {
    ToolCallsMeaning(blocks);
    hide ToolCalls;
    if b :| b in blocks && b.Calling? {
      var j :| 0 <= j < |blocks| && blocks[j] == b;
      assert j in CallsBefore(blocks, |blocks|);
    } else {
      assert forall j | 0 <= j < |blocks| :: blocks[j] in blocks;
      assert CallsBefore(blocks, |blocks|) == {};
    }
  }

  lemma PairedStays(ms: seq<Message>, longer: seq<Message>, at: nat, executed: nat)
    requires PairedAt(ms, at, executed) && ms <= longer
    ensures PairedAt(longer, at, executed) && longer[at] == ms[at]
  {
    hide CallsBefore, ResultFor;
    assert ms[at] == longer[..|ms|][at] == longer[at];
    assert forall j | 0 <= j < |ms| :: ms[j] == longer[j];
  }

  /** In every request the provider gets, each reply of an earlier turn, none of which failed, is followed
      immediately by one result for each of its blocks that is a call, in order, and then by the next
      turn's injected messages: an executed prefix, at least the first call, then skipped calls, which
      only a waiting steering message brings about. */
  lemma ToolPairing(run: Run, i: nat, k: nat)
    requires TurnsOk(run.turns) && i < k < |run.turns|
    ensures run.turns[i].reply.stopReason != StopReason.Error && run.turns[i].reply.stopReason != Aborted
    ensures var t := run.turns[i];
            && PairedAt(Requests(run)[k], ReplyAt(run, i), t.executed)
            && Requests(run)[k][ReplyAt(run, i)] == t.reply
            && EndsAt(t.reply, ReplyAt(run, i), BeforeTurn(run, i + 1))
            && ((exists b <- t.reply.blocks :: b.Calling?) ==> 0 < t.executed)
            && (t.executed < |CallsBefore(t.reply.blocks, |t.reply.blocks|)| ==> run.turns[i + 1].source == Steering)
  {
    hide Context, Requests, PairedAt, TurnsOk, EndsAt, ToolCalls, CallsBefore, ReplyAt, BeforeTurn;
    TurnServed(run.turns, i);
    TurnPaired(run, i);
    ContextGrows(run, i + 1, k);
    RequestAt(run, k);
    var after, request := Context(UpTo(run, i + 1)), Requests(run)[k];
    assert after <= Context(UpTo(run, k)) <= request;
    PairedStays(after, request, ReplyAt(run, i), run.turns[i].executed);
  }

  /** The same of the context a run ends with, its last turn included. */
  lemma ToolPairingAtEnd(run: Run, i: nat)
    requires TurnsOk(run.turns) && i < |run.turns| && !Failed(run.turns[i].reply)
    ensures PairedAt(Context(run), ReplyAt(run, i), run.turns[i].executed)
    ensures Context(run)[ReplyAt(run, i)] == run.turns[i].reply
    ensures EndsAt(run.turns[i].reply, ReplyAt(run, i), BeforeTurn(run, i + 1))
  {
    hide Context, PairedAt, TurnsOk, EndsAt;
    TurnPaired(run, i);
    ContextGrows(run, i + 1, |run.turns|);
    assert UpTo(run, |run.turns|) == run;
    PairedStays(Context(UpTo(run, i + 1)), Context(run), ReplyAt(run, i), run.turns[i].executed);
  }

  /** Position `at` of turn `k`'s request holds a prompt or a message injected up to that turn. */
  ghost predicate InjectedAt(run: Run, k: nat, at: nat)
    requires k < |run.turns|
  {
    || |run.base| <= at < |run.base| + |run.prompts|
    || exists i | 0 <= i <= k :: BeforeTurn(run, i) <= at < BeforeTurn(run, i) + |run.turns[i].injected|
  }

  /** The length of the context before turn `i`. */
  function BeforeTurn(run: Run, i: nat): nat
    requires i <= |run.turns|
  {
    |Context(UpTo(run, i))|
  }

  lemma {:induction false} StartsOnceAt(ts: seq<Turn>, i: nat)
    requires StartsOnce(ts) && i < |ts|
    ensures Starts(ts[i].streamed, |ts[i].streamed|) <= 1
  {
    if i < |ts| - 1 {
      StartsOnceAt(ts[..|ts| - 1], i);
    }
  }

  /** If turn `i`'s reply starts once, its turn adds the injected messages, the reply and the results. */
  lemma TurnAdds(run: Run, i: nat)
    requires StartsOnce(run.turns) && i < |run.turns|
    ensures var t := run.turns[i];
            && Context(UpTo(run, i + 1)) == Context(UpTo(run, i)) + t.injected + [t.reply] + Results(t.blocks)
            && ReplyAt(run, i) == BeforeTurn(run, i) + |t.injected|
  {
    StartsOnceAt(run.turns, i);
    ContextStep(run, i);
    hide Context, WithReply;
    ReplyAppends(Context(UpTo(run, i)) + run.turns[i].injected, run.turns[i].streamed, run.turns[i].reply);
  }

  lemma ResultsFollow(before: seq<Message>, t: Turn, at: nat)
    requires at < |before + [t.reply] + Results(t.blocks)|
    ensures at > |before| ==> !(before + [t.reply] + Results(t.blocks))[at].Assistant?
  {
    if at > |before| {
      assert (before + [t.reply] + Results(t.blocks))[at] == Results(t.blocks)[at - |before| - 1];
    }
  }

  /** In the context before turn `k` every assistant message beyond the starting ones was a prompt, was
      injected, or is the reply of an earlier turn. */
  lemma {:induction false} AssistantsAreReplies(run: Run, k: nat, at: nat) returns (i: nat)
    requires StartsOnce(run.turns) && k <= |run.turns|
    requires |run.base| + |run.prompts| <= at < BeforeTurn(run, k) && Context(UpTo(run, k))[at].Assistant?
    ensures i < k && (at == ReplyAt(run, i) || BeforeTurn(run, i) <= at < BeforeTurn(run, i) + |run.turns[i].injected|)
    decreases k
  {
    NoTurnsYet(run);
    hide Context, ReplyAt, StartsOnce;
    i := k - 1;
    TurnAdds(run, i);
    var t, before := run.turns[i], Context(UpTo(run, i));
    ResultsFollow(before + t.injected, t, at);
    if at < |before| {
      assert Context(UpTo(run, k))[at] == before[at];
      i := AssistantsAreReplies(run, k - 1, at);
    }
  }

  lemma NoTurnsYet(run: Run)
    ensures BeforeTurn(run, 0) == |run.base| + |run.prompts|
  {
  }

  /** By position: if no reply starts twice, every assistant message in a request beyond the starting
      ones that was not a prompt or injected has its tool results right behind it. */
  lemma PairedByPosition(run: Run, k: nat, at: nat)
    requires TurnsOk(run.turns) && StartsOnce(run.turns) && k < |run.turns|
    requires |run.base| <= at < |Requests(run)[k]| && Requests(run)[k][at].Assistant? && !InjectedAt(run, k, at)
    ensures exists executed :: PairedAt(Requests(run)[k], at, executed)
  {
    RequestAt(run, k);
    hide Context, Requests, PairedAt, TurnsOk, StartsOnce, ReplyAt;
    var before := Context(UpTo(run, k));
    assert at < |before| by {
      assert BeforeTurn(run, k) == |before|;
    }
    assert before[at] == Requests(run)[k][at];
    var i := AssistantsAreReplies(run, k, at);
    ToolPairing(run, i, k);
    assert PairedAt(Requests(run)[k], at, run.turns[i].executed);
  }

  // ---- Priority and rationing of the queues ----

  /** A follow-up is injected only after a turn without tool calls whose last steering poll was empty,
      and a polled steering message is injected in the very next turn. */
  lemma FollowUpPriority(run: Run, i: nat)
    requires TurnsOk(run.turns) && 0 < i < |run.turns|
    ensures var before, t := run.turns[i - 1], run.turns[i];
            && (t.source == FollowUp <==> before.steering == [] && forall b <- before.reply.blocks :: !b.Calling?)
            && (before.steering != [] ==> t.injected == before.steering)
            && (t.source == Steering <==> before.steering != [])
    ensures run.turns[0].source != FollowUp
  {
    TurnsOkPrefix(run.turns, i);
    TurnsOkPrefix(run.turns, 0);
    assert run.turns[..i][i - 1] == run.turns[i - 1];
    CallsExist(run.turns[i - 1].reply.blocks);
  }

  /** When a run ends, and that it does not go on after that: a reply reports an error or was aborted, or
      it holds no call and the steering poll behind it was empty. */
  lemma RunEndsWhen(run: Run, i: nat)
    requires TurnsOk(run.turns) && i < |run.turns|
    ensures var t := run.turns[i];
            var failed := t.reply.stopReason == StopReason.Error || t.reply.stopReason == Aborted;
            && (i + 1 < |run.turns| ==> !failed)
            && (i + 1 == |run.turns| && Finished(run.turns) ==>
                  failed || (t.steering == [] && forall b <- t.reply.blocks :: !b.Calling?))
            && (failed ==> t.blocks == [] && t.steering == [])
  {
    TurnsOkPrefix(run.turns, i);
    if i + 1 < |run.turns| {
      TurnsOkPrefix(run.turns, i + 1);
      assert run.turns[..i + 1][i] == run.turns[i];
    }
    CallsExist(run.turns[i].reply.blocks);
  }

  lemma {:induction false} QueuedGrows(arrivals: nat -> seq<Arrival>, early: nat, late: nat, steering: bool)
    requires early <= late
    ensures QueuedUntil(arrivals, early, steering) <= QueuedUntil(arrivals, late, steering)
  {
    if early < late {
      QueuedGrows(arrivals, early, late - 1, steering);
    }
  }

  lemma {:induction false} InOrderAt(ts: seq<Turn>, terms: Terms, i: nat)
    requires InOrder(ts, terms) && i < |ts| && ts[i].source == FollowUp
    ensures SteeredFirst(terms, Delivered(ts[..i], Steering), Delivered(ts[..i + 1], FollowUp))
  {
    hide SteeredFirst;
    if i < |ts| - 1 {
      var front := ts[..|ts| - 1];
      InOrderAt(front, terms, i);
      assert front[..i] == ts[..i] && front[..i + 1] == ts[..i + 1];
    } else {
      assert ts[..i + 1] == ts;
    }
  }

  /** Across the two queues: when turn `i` injects follow-ups, and the turns up to it have injected one
      that was queued in suspension `f` of the run or later, every steering message queued before
      suspension `f` has been injected by an earlier turn. */
  lemma SteeringGoesFirst(p: Progress, terms: Terms, steeringTaken: seq<Message>, followUpTaken: seq<Message>,
                          left: seq<Reply>, i: nat, f: nat)
    requires OnTerms(p, terms, steeringTaken, followUpTaken, left)
    requires i < |p.run.turns| && p.run.turns[i].source == FollowUp
    requires |Delivered(p.run.turns[..i + 1], FollowUp)|
           > |terms.followUpWaiting + QueuedUntil(terms.arrivals, f, false)|
    ensures terms.steeringWaiting + QueuedUntil(terms.arrivals, f, true) <= Delivered(p.run.turns[..i], Steering)
  {
    hide InOrder, NextInOrder, TurnsOk, Accounted, Rationed, Answers, QueuedUntil;
    InOrderAt(p.run.turns, terms, i);
    var steering, followUp := Delivered(p.run.turns[..i], Steering), Delivered(p.run.turns[..i + 1], FollowUp);
    var at: nat :| && terms.steeringWaiting + QueuedUntil(terms.arrivals, at, true) == steering
                   && followUp <= terms.followUpWaiting + QueuedUntil(terms.arrivals, at + 1, false);
    if at < f {
      QueuedGrows(terms.arrivals, at + 1, f, false);
    }
    assert f <= at;
    QueuedGrows(terms.arrivals, f, at, true);
  }

  /** All steering messages that turn `i` brings into the conversation. */
  function SteeringIn(run: Run, i: nat): seq<Message>
    requires i < |run.turns|
  {
    (if i == 0 then InFlight(Steering, run.origin, run.prompts) else [])
    + InFlight(Steering, run.turns[i].source, run.turns[i].injected)
  }

  lemma {:induction false} AtMostOneAt(ts: seq<Turn>, queue: Source, i: nat)
    requires AtMostOne(ts, queue) && i < |ts|
    ensures ts[i].source == queue ==> |ts[i].injected| <= 1
  {
    if i < |ts| - 1 {
      AtMostOneAt(ts[..|ts| - 1], queue, i);
    }
  }

  /** In "one-at-a-time" mode no turn gets more than one steering message, the prompts that `continue`
      dequeued included: that is what skipping the initial poll is for. */
  lemma OneSteeringATurn(p: Progress, terms: Terms, steeringTaken: seq<Message>, followUpTaken: seq<Message>,
                         left: seq<Reply>, i: nat)
    requires OnTerms(p, terms, steeringTaken, followUpTaken, left) && i < |p.run.turns|
    requires terms.steeringMode == OneAtATime
    requires terms.start.origin == Steering ==> terms.skipped && |terms.start.prompts| <= 1
    ensures |SteeringIn(p.run, i)| <= 1
  {
    AtMostOneAt(p.run.turns, Steering, i);
  }

  /** Both ways to start a run meet the condition above. */
  lemma ResumesRationed(terms: Terms, messages: seq<Message>, steeringWaits: bool)
    requires Resumes(terms, messages, steeringWaits) && terms.steeringMode == OneAtATime
    ensures terms.start.origin == Steering ==> terms.skipped && |terms.start.prompts| <= 1
  {
  }
}
