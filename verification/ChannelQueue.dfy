/** One Slack channel: its work queue (packages/mom/src/slack.ts) and the `running` flag of the
    handler (packages/mom/src/main.ts). A finished handler and the start of the next one are one step:
    only promise continuations run in between. */
module ChannelQueue {
  const MAX_WAITING := 5

  /** How a handler ends: normally, by an error that it reports itself, or by one that escapes it
      because reporting failed. */
  datatype Ending = Returned | Caught | Escaped

  /** What happens to a channel: a user's message, a scheduled event, the running handler ending. */
  datatype Action = UserMessage(text: string) | ScheduledEvent(text: string) | HandlerEnds(ending: Ending)

  datatype Warning = RunError | QueueError

  /** The queue and flags of the source, the warnings logged, and the history: work accepted, handlers
      started, handlers that have ended. */
  datatype State = State(
    queue: seq<string>, processing: bool, running: bool, warnings: seq<Warning>,
    accepted: seq<string>, started: seq<string>, finished: seq<string>)

  const IDLE := State([], false, false, [], [], [], [])

  function WarningOf(ending: Ending): seq<Warning> {
    match ending
    case Returned => []
    case Caught => [RunError]
    case Escaped => [QueueError]
  }

  /** `processNext`, up to the first suspension of the handler it calls. */
  function NextStarted(s: State): State {
    if s.processing || s.queue == [] then s
    else s.(processing := true, running := true, queue := s.queue[1..], started := s.started + [s.queue[0]])
  }

  function Enqueued(s: State, work: string): State {
    NextStarted(s.(queue := s.queue + [work], accepted := s.accepted + [work]))
  }

  function Apply(s: State, a: Action): State {
    match a
    case UserMessage(text) => if s.running then s else Enqueued(s, text)
    case ScheduledEvent(text) => if |s.queue| >= MAX_WAITING then s else Enqueued(s, text)
    case HandlerEnds(ending) =>
      if !s.processing || s.started == [] then s
      else NextStarted(s.(processing := false, running := false, warnings := s.warnings + WarningOf(ending),
                          finished := s.finished + [s.started[|s.started| - 1]]))
  }

  function Run(actions: seq<Action>): State {
    if actions == [] then IDLE else Apply(Run(actions[..|actions| - 1]), actions[|actions| - 1])
  }

  /** The handler that runs now, if any. */
  function Current(s: State): seq<string> {
    if |s.finished| < |s.started| then s.started[|s.finished|..] else []
  }

  /** One handler at a time; the flag, the queue and the history agree; work is accepted, started and
      finished in one order; nothing waits for an idle channel; at most five wait. */
  predicate Serial(s: State) {
    && s.accepted == s.started + s.queue
    && s.finished <= s.started && |Current(s)| <= 1
    && s.running == s.processing == (Current(s) != [])
    && (!s.processing ==> s.queue == [])
    && |s.queue| <= MAX_WAITING
  }

  lemma ApplyKeepsSerial(s: State, a: Action)
    requires Serial(s)
    ensures Serial(Apply(s, a))
  {
    if a.HandlerEnds? && s.processing {
      assert s.started == s.finished + Current(s);
      assert s.started == s.finished + [s.started[|s.started| - 1]];
    }
  }

  /** Every interleaving of messages, events and handlers ending, throwing or not. */
  lemma {:induction false} AlwaysSerial(actions: seq<Action>)
    ensures Serial(Run(actions))
  {
    if actions != [] {
      AlwaysSerial(actions[..|actions| - 1]);
      ApplyKeepsSerial(Run(actions[..|actions| - 1]), actions[|actions| - 1]);
    }
  }

  /** What gets in: a user's message exactly when everything accepted before has finished, a scheduled
      event exactly when fewer than five are waiting; what gets in starts at once on an idle channel. */
  lemma Admission(actions: seq<Action>, text: string)
    ensures var s := Run(actions);
            && (Run(actions + [UserMessage(text)]).accepted == s.accepted + [text] <==> s.finished == s.accepted)
            && (Run(actions + [ScheduledEvent(text)]).accepted == s.accepted + [text] <==> |s.queue| < 5)
            && (s.finished == s.accepted ==> Run(actions + [ScheduledEvent(text)]).started == s.started + [text])
  {
    AlwaysSerial(actions);
    var s := Run(actions);
    RunSnoc(actions, UserMessage(text));
    RunSnoc(actions, ScheduledEvent(text));
    hide Run;
    Admitted(s, text);
  }

  lemma Admitted(s: State, text: string)
    requires Serial(s)
    ensures Apply(s, UserMessage(text)).accepted == s.accepted + [text] <==> s.finished == s.accepted
    ensures Apply(s, ScheduledEvent(text)).accepted == s.accepted + [text] <==> |s.queue| < 5
    ensures s.finished == s.accepted ==> Apply(s, ScheduledEvent(text)).started == s.started + [text]
  {
    assert s.started == s.finished + Current(s);
    assert |s.accepted| == |s.started| + |s.queue|;
  }

  function Endings(endings: seq<Ending>): seq<Action> {
    if endings == [] then [] else Endings(endings[..|endings| - 1]) + [HandlerEnds(endings[|endings| - 1])]
  }

  function Warnings(endings: seq<Ending>): seq<Warning> {
    if endings == [] then [] else Warnings(endings[..|endings| - 1]) + WarningOf(endings[|endings| - 1])
  }

  /** Which of the first `n` handlers end with an error. */
  function Errors(endings: seq<Ending>, n: nat): set<nat>
    requires n <= |endings|
  {
    set k: nat | k < n && endings[k] != Returned
  }

  lemma ErrorsStep(endings: seq<Ending>, n: nat)
    requires n < |endings|
    ensures |Errors(endings, n + 1)| == |Errors(endings, n)| + if endings[n] == Returned then 0 else 1
  {
    assert Errors(endings, n + 1) == Errors(endings, n) + if endings[n] == Returned then {} else {n};
  }

  /** Every error, caught or escaped, is logged once. */
  lemma {:induction false} OneWarningEach(endings: seq<Ending>, n: nat)
    requires n <= |endings|
    ensures |Warnings(endings[..n])| == |Errors(endings, n)|
  {
    if n > 0 {
      OneWarningEach(endings, n - 1);
      ErrorsStep(endings, n - 1);
      hide Errors;
      assert endings[..n][..n - 1] == endings[..n - 1];
    }
  }

  /** If nothing new arrives, all accepted work has run exactly once, in the order it was accepted, as
      soon as every pending handler has ended, and the channel is idle again. Errors, caught or escaped,
      show up as one warning each and change nothing else. */
  lemma {:induction false} EverythingRuns(actions: seq<Action>, endings: seq<Ending>)
    requires |endings| <= |Run(actions).accepted| - |Run(actions).finished|
    ensures var s := Run(actions + Endings(endings));
            && s.accepted == Run(actions).accepted
            && s.finished == s.accepted[..|Run(actions).finished| + |endings|]
            && s.warnings == Run(actions).warnings + Warnings(endings)
            && (s.finished == s.accepted ==> !s.running && !s.processing && s.queue == [])
  {
    hide Serial, Apply, Warnings, Endings;
    NoEndings();
    if endings == [] {
      assert actions + [] == actions && Run(actions).warnings + [] == Run(actions).warnings;
    } else {
      var n := |endings|;
      EverythingRuns(actions, endings[..n - 1]);
      var before := actions + Endings(endings[..n - 1]);
      EndingsSnoc(actions, endings);
      RunSnoc(before, HandlerEnds(endings[n - 1]));
      AlwaysSerial(before);
      OneEnding(Run(before), endings[n - 1]);
      Regroup(Run(actions).warnings, Warnings(endings[..n - 1]), WarningOf(endings[n - 1]));
    }
    AlwaysSerial(actions + Endings(endings));
    Prefixes(Run(actions + Endings(endings)));
  }

  lemma NoEndings()
    ensures Endings([]) == [] && Warnings([]) == []
  {
  }

  lemma EndingsSnoc(actions: seq<Action>, endings: seq<Ending>)
    requires endings != []
    ensures var n := |endings| - 1;
            && actions + Endings(endings) == actions + Endings(endings[..n]) + [HandlerEnds(endings[n])]
            && Warnings(endings) == Warnings(endings[..n]) + WarningOf(endings[n])
  {
    var n := |endings| - 1;
    assert Endings(endings) == Endings(endings[..n]) + [HandlerEnds(endings[n])];
    hide Endings, Warnings;
    Regroup(actions, Endings(endings[..n]), [HandlerEnds(endings[n])]);
  }

  lemma Regroup<T>(a: seq<T>, b: seq<T>, c: seq<T>)
    ensures a + b + c == a + (b + c)
  {
  }

  lemma RunSnoc(actions: seq<Action>, a: Action)
    ensures Run(actions + [a]) == Apply(Run(actions), a)
  {
    assert (actions + [a])[..|actions|] == actions;
  }

  lemma Prefixes(s: State)
    requires Serial(s)
    ensures s.finished == s.accepted[..|s.finished|]
    ensures |s.finished| == |s.accepted| ==> !s.running && !s.processing && s.queue == []
  {
    assert s.started == s.finished + Current(s);
  }

  lemma OneEnding(s: State, ending: Ending)
    requires Serial(s) && |s.finished| < |s.accepted|
    ensures var after := Apply(s, HandlerEnds(ending));
            && after.accepted == s.accepted && |after.finished| == |s.finished| + 1
            && after.warnings == s.warnings + WarningOf(ending)
  {
  }

  lemma SomethingStarted(s: State)
    requires Serial(s) && s.processing
    ensures s.started != []
  {
  }

  /** How a handler ends makes no difference to what runs, waits and is accepted. */
  lemma {:induction false} EndingsDoNotMatter(actions: seq<Action>, others: seq<Action>)
    requires |actions| == |others|
    requires forall i | 0 <= i < |actions| ::
               actions[i] == others[i] || (actions[i].HandlerEnds? && others[i].HandlerEnds?)
    ensures Run(actions).(warnings := []) == Run(others).(warnings := [])
  {
    hide Apply;
    if actions != [] {
      var n := |actions| - 1;
      EndingsDoNotMatter(actions[..n], others[..n]);
      SameButWarnings(Run(actions[..n]), Run(others[..n]), actions[n], others[n]);
    }
  }

  lemma SameButWarnings(s: State, t: State, a: Action, b: Action)
    requires s.(warnings := []) == t.(warnings := []) && (a == b || (a.HandlerEnds? && b.HandlerEnds?))
    ensures Apply(s, a).(warnings := []) == Apply(t, b).(warnings := [])
  {
  }

  /** The class of the source, with the channel's `running` flag beside it. */
  class Channel {
    var queue: seq<string>
    var processing: bool
    var running: bool
    var warnings: seq<Warning>
    ghost var accepted: seq<string>
    ghost var started: seq<string>
    ghost var finished: seq<string>

    constructor ()
      ensures Valid() && View() == IDLE
    {
      queue, processing, running, warnings, accepted, started, finished := [], false, false, [], [], [], [];
    }

    ghost function View(): State reads this {
      State(queue, processing, running, warnings, accepted, started, finished)
    }

    /** One handler at a time, in order, and so on. */
    ghost predicate Valid() reads this {
      Serial(View())
    }

    method Enqueue(work: string)
      modifies this
      ensures View() == Enqueued(old(View()), work)
    {
      queue := queue + [work];
      accepted := accepted + [work];
      ProcessNext();
    }

    /** `processNext`, up to the first suspension of the handler it calls. */
    method ProcessNext()
      modifies this
      ensures View() == NextStarted(old(View()))
    {
      if processing || queue == [] { return; }
      processing := true;
      var work := queue[0];
      queue := queue[1..];
      running := true;  // `handleEvent` sets it before it first suspends
      started := started + [work];
    }

    /** `SlackBot.enqueueEvent`. */
    method EnqueueEvent(text: string) returns (ok: bool)
      requires Valid()
      modifies this
      ensures Valid() && ok == (|old(queue)| < 5)
      ensures View() == Apply(old(View()), ScheduledEvent(text))
    {
      ApplyKeepsSerial(View(), ScheduledEvent(text));
      if |queue| >= MAX_WAITING { return false; }
      Enqueue(text);
      return true;
    }

    /** The busy gate of the two event handlers. */
    method OnUserMessage(text: string) returns (ok: bool)
      requires Valid()
      modifies this
      ensures Valid() && ok == !old(running)
      ensures View() == Apply(old(View()), UserMessage(text))
    {
      ApplyKeepsSerial(View(), UserMessage(text));
      if running { return false; }
      Enqueue(text);
      return true;
    }

    /** The end of `handleEvent`: an error is caught and logged, unless logging it throws; `finally`
        clears the flag either way. */
    method HandlerReturns(ending: Ending) returns (escaped: bool)
      modifies this`warnings, this`running
      ensures !running && escaped == ending.Escaped?
      ensures warnings == old(warnings) + (if ending.Caught? then [RunError] else [])
    {
      escaped := false;
      match ending {
        case Returned =>
        case Caught => warnings := warnings + [RunError];
        case Escaped => escaped := true;
      }
      running := false;
    }

    /** The rest of `processNext`, once the handler has ended: what escaped it is caught and logged. */
    method OnHandlerEnds(ending: Ending)
      requires Valid() && processing
      modifies this
      ensures Valid() && View() == Apply(old(View()), HandlerEnds(ending))
      ensures warnings == old(warnings) + match ending
                                          case Returned => []
                                          case Caught => [RunError]
                                          case Escaped => [QueueError]
    {
      ApplyKeepsSerial(View(), HandlerEnds(ending));
      SomethingStarted(View());
      hide Serial, NextStarted;
      ghost var s := View();
      var escaped := HandlerReturns(ending);
      finished := finished + [started[|started| - 1]];
      if escaped {
        warnings := warnings + [QueueError];
      }
      processing := false;
      assert s.warnings + [] == s.warnings;
      assert View() == s.(processing := false, running := false, warnings := s.warnings + WarningOf(ending),
                          finished := s.finished + [s.started[|s.started| - 1]]);
      ProcessNext();
    }
  }

  /** The channel object runs through exactly the states of `Run`, so all of the above holds of it. */
  method RunChannel(actions: seq<Action>) returns (c: Channel)
    ensures fresh(c) && c.Valid() && c.View() == Run(actions)
  {
    hide Serial;
    c := new Channel();
    for k := 0 to |actions|
      invariant fresh(c) && c.Valid() && c.View() == Run(actions[..k])
    {
      RunSnoc(actions[..k], actions[k]);
      hide Run;
      assert actions[..k + 1] == actions[..k] + [actions[k]];
      match actions[k] {
        case UserMessage(text) => var ok := c.OnUserMessage(text);
        case ScheduledEvent(text) => var ok := c.EnqueueEvent(text);
        case HandlerEnds(ending) =>
          if c.processing {
            c.OnHandlerEnds(ending);
          }
      }
    }
    assert actions[..|actions|] == actions;
  }
}
