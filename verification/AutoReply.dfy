/** The auto-reply rules and their limits (src/Pi.AutoReply/AutoReplyService.cs). Times are ticks of a
    clock that does not run backwards; whether a condition matches a message is decided outside. */
module AutoReply {
  import opened Wrappers

  const TICKS_PER_SECOND := 10_000_000

  /** A condition holds, fails, or throws (a broken regular expression). */
  datatype Verdict = Holds | Fails | Throws

  datatype Rule = Rule(id: string, enabled: bool, priority: int, conditions: seq<string>, maxTriggers: int,
                       cooldownSeconds: int)

  /** One reply that was sent: the rule, the session, and the time recorded for it. */
  datatype Firing = Firing(rule: Rule, session: string, at: int)

  /** Different pairs can share a key. */
  function Key(id: string, session: string): string {
    id + ":" + session
  }

  function KeyOf(f: Firing): string {
    Key(f.rule.id, f.session)
  }

  function Count(fired: seq<Firing>, key: string): nat {
    if fired == [] then 0
    else Count(fired[..|fired| - 1], key) + (if KeyOf(fired[|fired| - 1]) == key then 1 else 0)
  }

  function LastAt(fired: seq<Firing>, key: string): Option<int> {
    if fired == [] then None
    else if KeyOf(fired[|fired| - 1]) == key then Some(fired[|fired| - 1].at)
    else LastAt(fired[..|fired| - 1], key)
  }

  /** What the dictionaries allow at a time: the cooldown is over and the count is below the maximum. */
  predicate MayFire(rule: Rule, last: Option<int>, count: nat, now: int) {
    && (last.Some? ==> now - last.value >= rule.cooldownSeconds * TICKS_PER_SECOND)
    && (rule.maxTriggers > 0 ==> count < rule.maxTriggers)
  }

  /** `All` stops at the first condition that does not hold. */
  function AllHold(conditions: seq<string>, verdict: string -> Verdict): Verdict {
    if conditions == [] then Holds
    else if verdict(conditions[0]) == Holds then AllHold(conditions[1..], verdict)
    else verdict(conditions[0])
  }

  /** Every condition of the rule holds. */
  predicate Matches(rule: Rule, verdict: string -> Verdict) {
    forall c <- rule.conditions :: verdict(c) == Holds
  }

  /** Some condition fails, or throws, and all before it hold. */
  predicate StopsWith(conditions: seq<string>, verdict: string -> Verdict, v: Verdict) {
    exists i | 0 <= i < |conditions| ::
      verdict(conditions[i]) == v != Holds && forall j | 0 <= j < i :: verdict(conditions[j]) == Holds
  }

  lemma {:induction false} AllHoldMeaning(conditions: seq<string>, verdict: string -> Verdict, v: Verdict)
    ensures AllHold(conditions, verdict) == Holds <==> forall c <- conditions :: verdict(c) == Holds
    ensures v != Holds ==> (AllHold(conditions, verdict) == v <==> StopsWith(conditions, verdict, v))
  {
    if conditions != [] {
      var rest := conditions[1..];
      AllHoldMeaning(rest, verdict, v);
      assert conditions == [conditions[0]] + rest;
      if verdict(conditions[0]) == Holds {
        StopsLater(conditions, verdict, v);
      } else {
        assert StopsWith(conditions, verdict, v) <==> verdict(conditions[0]) == v;
      }
    }
  }

  lemma StopsLater(conditions: seq<string>, verdict: string -> Verdict, v: Verdict)
    requires conditions != [] && verdict(conditions[0]) == Holds
    ensures StopsWith(conditions, verdict, v) <==> StopsWith(conditions[1..], verdict, v)
  {
    var rest := conditions[1..];
    if i :| 0 <= i < |rest| && verdict(rest[i]) == v != Holds && forall j | 0 <= j < i :: verdict(rest[j]) == Holds {
      assert verdict(conditions[i + 1]) == v;
      assert forall j | 0 < j < i + 1 :: conditions[j] == rest[j - 1];
    }
    if i :| 0 <= i < |conditions| && verdict(conditions[i]) == v != Holds
            && forall j | 0 <= j < i :: verdict(conditions[j]) == Holds {
      assert verdict(rest[i - 1]) == v;
      assert forall j | 0 <= j < i - 1 :: rest[j] == conditions[j + 1];
    }
  }

  /** Two firings that count against each other: rule id and session run together look the same. */
  predicate SameKey(f: Firing, rule: Rule, session: string) {
    f.rule.id + ":" + f.session == rule.id + ":" + session
  }

  function Counted(fired: seq<Firing>, rule: Rule, session: string): set<nat> {
    set i: nat | i < |fired| && SameKey(fired[i], rule, session)
  }

  /** The limits hold the rule back: such a firing is not a cooldown ago, or there have been as many as the
      rule allows. */
  ghost predicate HeldBack(fired: seq<Firing>, rule: Rule, session: string, now: int) {
    || (exists f <- fired :: SameKey(f, rule, session) && now - f.at < rule.cooldownSeconds * 10_000_000)
    || (rule.maxTriggers > 0 && |Counted(fired, rule, session)| >= rule.maxTriggers)
  }

  lemma {:induction false} CountMeaning(fired: seq<Firing>, rule: Rule, session: string)
    ensures Count(fired, Key(rule.id, session)) == |Counted(fired, rule, session)|
  {
    if fired != [] {
      var n := |fired| - 1;
      CountMeaning(fired[..n], rule, session);
      assert Counted(fired, rule, session)
          == Counted(fired[..n], rule, session) + if SameKey(fired[n], rule, session) then {n} else {};
    }
  }

  lemma {:induction false} LastMeaning(fired: seq<Firing>, rule: Rule, session: string)
    requires KeepsLimits(fired)
    ensures var last := LastAt(fired, Key(rule.id, session));
            && (forall f <- fired :: SameKey(f, rule, session) ==> last.Some? && f.at <= last.value)
            && (last.Some? ==> exists f <- fired :: SameKey(f, rule, session) && f.at == last.value)
    ensures forall f <- fired :: f.at <= fired[|fired| - 1].at
  {
    if fired != [] {
      var n := |fired| - 1;
      LastMeaning(fired[..n], rule, session);
      assert fired == fired[..n] + [fired[n]];
    }
  }

  /** What the dictionaries allow is what the firings so far allow. */
  lemma MayFireMeaning(fired: seq<Firing>, rule: Rule, session: string, now: int)
    requires KeepsLimits(fired)
    ensures MayFire(rule, LastAt(fired, Key(rule.id, session)), Count(fired, Key(rule.id, session)), now)
       <==> !HeldBack(fired, rule, session, now)
  {
    CountMeaning(fired, rule, session);
    LastMeaning(fired, rule, session);
    hide Count, LastAt, Counted, KeepsLimits, SameKey;
  }

  ghost predicate ByPriority(rules: seq<Rule>) {
    forall i, j | 0 <= i < j < |rules| :: rules[i].priority >= rules[j].priority
  }

  function Without(rules: seq<Rule>, id: string): seq<Rule> {
    if rules == [] then []
    else (if rules[0].id == id then [] else [rules[0]]) + Without(rules[1..], id)
  }

  /** Every firing kept the limits of its rule at the time it was recorded, and times do not decrease. */
  ghost predicate KeepsLimits(fired: seq<Firing>) {
    fired == []
    || (var before, f := fired[..|fired| - 1], fired[|fired| - 1];
        && KeepsLimits(before)
        && MayFire(f.rule, LastAt(before, KeyOf(f)), Count(before, KeyOf(f)), f.at)
        && (before != [] ==> before[|before| - 1].at <= f.at))
  }

  /** The dictionaries hold the last time and the number of firings for each key. */
  ghost predicate Summarised(lastTriggers: map<string, int>, triggerCounts: map<string, nat>, fired: seq<Firing>) {
    && (forall key :: (if key in lastTriggers then Some(lastTriggers[key]) else None) == LastAt(fired, key))
    && (forall key :: (if key in triggerCounts then triggerCounts[key] else 0) == Count(fired, key))
  }

  ghost predicate Sorts(sort: seq<Rule> -> seq<Rule>) {
    forall rules: seq<Rule> :: multiset(sort(rules)) == multiset(rules) && ByPriority(sort(rules))
  }

  /** Whether a rule would fire at a time, after the firings so far. */
  ghost predicate Eligible(fired: seq<Firing>, rule: Rule, session: string, verdict: string -> Verdict, now: int) {
    Matches(rule, verdict) && !HeldBack(fired, rule, session, now)
  }

  class Clock {
    var ticks: int

    constructor (ticks: int)
      ensures this.ticks == ticks
    {
      this.ticks := ticks;
    }

    /** Some time has passed since it was last read, perhaps none. */
    method UtcNow() returns (now: int)
      modifies this
      ensures now == ticks && ticks >= old(ticks)
    {
      var passed: int := *;
      if passed > 0 {
        ticks := ticks + passed;
      }
      return ticks;
    }
  }

  class AutoReplyService {
    const clock: Clock
    var rules: seq<Rule>
    var lastTriggers: map<string, int>
    var triggerCounts: map<string, nat>
    ghost var fired: seq<Firing>

    constructor (clock: Clock)
      ensures Valid() && rules == [] && fired == [] && this.clock == clock
    {
      this.clock := clock;
      rules, lastTriggers, triggerCounts, fired := [], map[], map[], [];
    }

    /** The rules are in order, the dictionaries sum up the history, and the history keeps the limits. */
    ghost predicate Valid() reads this, clock {
      && ByPriority(rules) && KeepsLimits(fired)
      && (fired != [] ==> fired[|fired| - 1].at <= clock.ticks)
      && Summarised(lastTriggers, triggerCounts, fired)
    }

    /** `sort` is the library's sort, of which only this is known: it need not be stable. */
    method AddRule(rule: Rule, sort: seq<Rule> -> seq<Rule>)
      requires Valid() && Sorts(sort)
      modifies this`rules
      ensures Valid() && multiset(rules) == multiset(old(rules)) + multiset{rule}
    {
      rules := sort(rules + [rule]);
    }

    method RemoveRule(id: string) returns (removed: bool)
      requires Valid()
      modifies this`rules
      ensures Valid() && rules == Without(old(rules), id)
      ensures removed <==> exists r <- old(rules) :: r.id == id
    {
      WithoutMeaning(rules, id);
      WithoutKeepsOrder(rules, id);
      removed := |Without(rules, id)| < |rules|;
      rules := Without(rules, id);
    }

    method ShouldTrigger(rule: Rule, session: string, verdict: string -> Verdict) returns (r: Verdict)
      requires Valid()
      modifies clock
      ensures Valid() && clock.ticks >= old(clock.ticks)
      ensures r == Holds ==> Eligible(fired, rule, session, verdict, clock.ticks)
      ensures r != Holds ==> !Eligible(fired, rule, session, verdict, old(clock.ticks))
      ensures r == Fails ==>
                HeldBack(fired, rule, session, old(clock.ticks)) || StopsWith(rule.conditions, verdict, Fails)
      ensures r == Throws ==>
                !HeldBack(fired, rule, session, clock.ticks) && StopsWith(rule.conditions, verdict, Throws)
    {
      AllHoldMeaning(rule.conditions, verdict, Fails);
      AllHoldMeaning(rule.conditions, verdict, Throws);
      StopsDoesNotMatch(rule, verdict);
      MayFireMeaning(fired, rule, session, clock.ticks);
      hide StopsWith, HeldBack, KeepsLimits, Count, LastAt, AllHold, ByPriority, Matches;
      var key := Key(rule.id, session);
      if key in lastTriggers {
        var now := clock.UtcNow();
        if now - lastTriggers[key] < rule.cooldownSeconds * TICKS_PER_SECOND {
          return Fails;
        }
      }
      if rule.maxTriggers > 0 && (if key in triggerCounts then triggerCounts[key] else 0) >= rule.maxTriggers {
        return Fails;
      }
      MayFireMeaning(fired, rule, session, clock.ticks);
      return AllHold(rule.conditions, verdict);
    }

    method RecordTrigger(rule: Rule, session: string)
      requires Valid()
      requires !HeldBack(fired, rule, session, clock.ticks)
      modifies this`lastTriggers, this`triggerCounts, this`fired, clock
      ensures Valid() && clock.ticks >= old(clock.ticks)
      ensures fired == old(fired) + [Firing(rule, session, clock.ticks)]
    {
      hide KeepsLimits, Count, LastAt, ByPriority, Key, Summarised, MayFire, HeldBack;
      MayFireMeaning(fired, rule, session, clock.ticks);
      ghost var before := clock.ticks;
      var key := Key(rule.id, session);
      var now := clock.UtcNow();
      lastTriggers := lastTriggers[key := now];
      triggerCounts := triggerCounts[key := (if key in triggerCounts then triggerCounts[key] else 0) + 1];
      ghost var f := Firing(rule, session, now);
      MayFireLater(rule, LastAt(fired, key), Count(fired, key), before, now);
      FiredSnoc(fired, f);
      SummarySnoc(old(lastTriggers), old(triggerCounts), fired, f);
      fired := fired + [f];
    }

    /** The first enabled rule in order of priority that is eligible fires. A rule that throws ends the
        search, and nothing is recorded. */
    method ProcessMessage(session: string, verdict: string -> Verdict) returns (result: Result<Option<Rule>, ()>)
      requires Valid()
      modifies this`lastTriggers, this`triggerCounts, this`fired, clock
      ensures Valid() && clock.ticks >= old(clock.ticks)
      ensures result.Ok? && result.value.Some? ==> Chosen(result.value.value, session, verdict)
      ensures !(result.Ok? && result.value.Some?) ==> fired == old(fired)
      ensures result == Ok(None) ==> forall r <- rules :: r.enabled ==>
                HeldBack(fired, r, session, old(clock.ticks)) || StopsWith(r.conditions, verdict, Fails)
      ensures result.Err? ==> exists r <- rules ::
                r.enabled && !HeldBack(fired, r, session, clock.ticks) && StopsWith(r.conditions, verdict, Throws)
    {
      hide KeepsLimits, Summarised, Count, LastAt, Key, HeldBack, StopsWith, Matches, Eligible, PassedOver, ByPriority;
      ghost var start := clock.ticks;
      NonePassed(fired, rules, session, verdict, start);
      for k := 0 to |rules|
        invariant Valid() && clock.ticks >= old(clock.ticks) && fired == old(fired)
        invariant PassedOver(fired, rules, k, session, verdict, start)
      {
        var rule := rules[k];
        if rule.enabled {
          ghost var asked := clock.ticks;
          var verdictOnRule := ShouldTrigger(rule, session, verdict);
          if verdictOnRule == Holds {
            FirstIsHighest(fired, rules, k, session, verdict, start);
            ghost var eligible := clock.ticks;
            NotHeldBack(fired, rule, session, verdict, eligible);
            RecordTrigger(rule, session);
            StillEligible(old(fired), rule, session, verdict, eligible, clock.ticks);
            return Ok(Some(rule));
          } else if verdictOnRule == Throws {
            return Err(());
          }
          PassedNext(fired, rules, k, session, verdict, start, asked);
        } else {
          PassedNext(fired, rules, k, session, verdict, start, clock.ticks);
        }
      }
      AllPassed(fired, rules, session, verdict, start);
      return Ok(None);
    }

    /** The rule was enabled, was eligible when it fired, and no enabled rule that was eligible when the
        message came has a higher priority; the firing is on record. */
    twostate predicate Chosen(rule: Rule, session: string, verdict: string -> Verdict) reads this, clock {
      && rule in rules && rule.enabled
      && fired == old(fired) + [Firing(rule, session, clock.ticks)]
      && Eligible(old(fired), rule, session, verdict, clock.ticks)
      && (forall r <- rules ::
            r.enabled && Eligible(old(fired), r, session, verdict, old(clock.ticks)) ==> r.priority <= rule.priority)
    }
  }

  lemma MayFireLater(rule: Rule, last: Option<int>, count: nat, now: int, later: int)
    requires MayFire(rule, last, count, now) && now <= later
    ensures MayFire(rule, last, count, later)
  {
  }

  lemma FiredSnoc(fired: seq<Firing>, f: Firing)
    requires KeepsLimits(fired) && (fired != [] ==> fired[|fired| - 1].at <= f.at)
    requires MayFire(f.rule, LastAt(fired, KeyOf(f)), Count(fired, KeyOf(f)), f.at)
    ensures KeepsLimits(fired + [f])
  {
    assert (fired + [f])[..|fired|] == fired;
  }

  lemma SummarySnoc(lastTriggers: map<string, int>, triggerCounts: map<string, nat>, fired: seq<Firing>, f: Firing)
    requires Summarised(lastTriggers, triggerCounts, fired)
    ensures var key := KeyOf(f);
            Summarised(lastTriggers[key := f.at],
                       triggerCounts[key := (if key in triggerCounts then triggerCounts[key] else 0) + 1], fired + [f])
  {
    assert (fired + [f])[..|fired|] == fired;
  }

  /** Waiting never brings the limits back. */
  lemma HeldBackBefore(fired: seq<Firing>, rule: Rule, session: string, earlier: int, later: int)
    requires earlier <= later && HeldBack(fired, rule, session, later)
    ensures HeldBack(fired, rule, session, earlier)
  {
  }

  /** The first k rules that are enabled have been held back by their limits, or have a condition that
      fails. */
  ghost predicate PassedOver(fired: seq<Firing>, rules: seq<Rule>, k: nat, session: string, verdict: string -> Verdict,
                             now: int)
    requires k <= |rules|
  {
    forall i | 0 <= i < k ::
      rules[i].enabled ==> HeldBack(fired, rules[i], session, now) || StopsWith(rules[i].conditions, verdict, Fails)
  }

  lemma NonePassed(fired: seq<Firing>, rules: seq<Rule>, session: string, verdict: string -> Verdict, now: int)
    ensures PassedOver(fired, rules, 0, session, verdict, now)
  {
  }

  lemma PassedNext(fired: seq<Firing>, rules: seq<Rule>, k: nat, session: string, verdict: string -> Verdict, now: int,
                   asked: int)
    requires k < |rules| && PassedOver(fired, rules, k, session, verdict, now) && now <= asked
    requires rules[k].enabled ==>
               HeldBack(fired, rules[k], session, asked) || StopsWith(rules[k].conditions, verdict, Fails)
    ensures PassedOver(fired, rules, k + 1, session, verdict, now)
  {
    if HeldBack(fired, rules[k], session, asked) {
      HeldBackBefore(fired, rules[k], session, now, asked);
    }
    hide HeldBack, StopsWith;
  }

  lemma AllPassed(fired: seq<Firing>, rules: seq<Rule>, session: string, verdict: string -> Verdict, now: int)
    requires PassedOver(fired, rules, |rules|, session, verdict, now)
    ensures forall r <- rules :: r.enabled ==>
              HeldBack(fired, r, session, now) || StopsWith(r.conditions, verdict, Fails)
  {
    hide HeldBack, StopsWith;
  }

  /** No rule that would have fired has a higher priority than the first that was not passed over. */
  lemma FirstIsHighest(fired: seq<Firing>, rules: seq<Rule>, k: nat, session: string, verdict: string -> Verdict,
                       now: int)
    requires ByPriority(rules) && k < |rules| && PassedOver(fired, rules, k, session, verdict, now)
    ensures forall r <- rules :: r.enabled && Eligible(fired, r, session, verdict, now) ==>
              r.priority <= rules[k].priority
  {
    forall i | 0 <= i < |rules| && rules[i].enabled && Eligible(fired, rules[i], session, verdict, now)
      ensures rules[i].priority <= rules[k].priority
    {
      StopsDoesNotMatch(rules[i], verdict);
      hide HeldBack, StopsWith, Matches;
    }
  }

  lemma NotHeldBack(fired: seq<Firing>, rule: Rule, session: string, verdict: string -> Verdict, now: int)
    requires Eligible(fired, rule, session, verdict, now)
    ensures !HeldBack(fired, rule, session, now)
  {
  }

  lemma StillEligible(fired: seq<Firing>, rule: Rule, session: string, verdict: string -> Verdict, now: int, later: int)
    requires Eligible(fired, rule, session, verdict, now) && now <= later
    ensures Eligible(fired, rule, session, verdict, later)
  {
  }

  lemma StopsDoesNotMatch(rule: Rule, verdict: string -> Verdict)
    ensures StopsWith(rule.conditions, verdict, Fails) ==> !Matches(rule, verdict)
    ensures StopsWith(rule.conditions, verdict, Throws) ==> !Matches(rule, verdict)
  {
  }

  /** Removal looks at every rule on its own and keeps the others in their order. */
  lemma {:induction false} WithoutAppend(a: seq<Rule>, b: seq<Rule>, id: string)
    ensures Without(a + b, id) == Without(a, id) + Without(b, id)
  {
    if a == [] {
      assert a + b == b;
      assert Without(a, id) == [];
    } else {
      hide Without;
      assert (a + b)[0] == a[0] && (a + b)[1..] == a[1..] + b;
      WithoutAppend(a[1..], b, id);
      WithoutFirst(a, id);
      WithoutFirst(a + b, id);
      Regrouped(if a[0].id == id then [] else [a[0]], Without(a[1..], id), Without(b, id));
    }
  }

  lemma Regrouped(x: seq<Rule>, y: seq<Rule>, z: seq<Rule>)
    ensures x + (y + z) == (x + y) + z
  {
  }

  lemma WithoutFirst(rules: seq<Rule>, id: string)
    requires rules != []
    ensures Without(rules, id) == (if rules[0].id == id then [] else [rules[0]]) + Without(rules[1..], id)
    ensures Without(rules[..1], id) == if rules[0].id == id then [] else [rules[0]]
  {
    assert rules[..1] == [rules[0]];
  }

  lemma {:induction false} WithoutMeaning(rules: seq<Rule>, id: string)
    ensures forall r :: r in Without(rules, id) <==> r in rules && r.id != id
    ensures |Without(rules, id)| < |rules| <==> exists r <- rules :: r.id == id
    ensures |Without(rules, id)| <= |rules|
  {
    if rules != [] {
      WithoutMeaning(rules[1..], id);
      assert rules == [rules[0]] + rules[1..];
    }
  }

  lemma {:induction false} WithoutKeepsOrder(rules: seq<Rule>, id: string)
    requires ByPriority(rules)
    ensures ByPriority(Without(rules, id))
  {
    if rules != [] {
      WithoutKeepsOrder(rules[1..], id);
      WithoutMeaning(rules[1..], id);
      forall r | r in Without(rules[1..], id)
        ensures r.priority <= rules[0].priority
      {
        var i :| 0 <= i < |rules[1..]| && rules[1..][i] == r;
      }
    }
  }

  // ---------------------------------------------------------------- what the limits mean

  /** How often one rule fired in one session. */
  function Times(fired: seq<Firing>, rule: Rule, session: string): nat {
    if fired == [] then 0
    else
      var f := fired[|fired| - 1];
      Times(fired[..|fired| - 1], rule, session) + (if f.rule == rule && f.session == session then 1 else 0)
  }

  lemma {:induction false} TimesBelowCount(fired: seq<Firing>, rule: Rule, session: string)
    ensures Times(fired, rule, session) <= Count(fired, Key(rule.id, session))
  {
    if fired != [] {
      TimesBelowCount(fired[..|fired| - 1], rule, session);
    }
  }

  /** A rule with a maximum never fires more often than that in a session, even when other rules use up
      its key. */
  lemma {:induction false} AtMostMaxTriggers(fired: seq<Firing>, rule: Rule, session: string)
    requires KeepsLimits(fired) && rule.maxTriggers > 0
    ensures Times(fired, rule, session) <= rule.maxTriggers
  {
    if fired != [] {
      var before := fired[..|fired| - 1];
      AtMostMaxTriggers(before, rule, session);
      TimesBelowCount(before, rule, session);
    }
  }

  lemma {:induction false} LastIsLatest(fired: seq<Firing>, i: nat)
    requires KeepsLimits(fired) && i < |fired|
    ensures fired[i].at <= fired[|fired| - 1].at
    ensures LastAt(fired, KeyOf(fired[i])).Some? && fired[i].at <= LastAt(fired, KeyOf(fired[i])).value
  {
    var before := fired[..|fired| - 1];
    if i < |fired| - 1 {
      LastIsLatest(before, i);
    }
  }

  /** A firing is at least its rule's cooldown later than every earlier firing with its key. */
  lemma {:induction false} CooldownApart(fired: seq<Firing>, i: nat, j: nat)
    requires KeepsLimits(fired) && i < j < |fired| && KeyOf(fired[i]) == KeyOf(fired[j])
    ensures fired[j].at - fired[i].at >= fired[j].rule.cooldownSeconds * TICKS_PER_SECOND
    decreases |fired|
  {
    var before := fired[..|fired| - 1];
    if j < |fired| - 1 {
      CooldownApart(before, i, j);
    } else {
      LastIsLatest(before, i);
    }
  }

  datatype Action = Add(rule: Rule) | Remove(id: string) | Process(session: string, verdict: string -> Verdict)

  /** Over every run in which rules are added, removed and tried on messages. */
  method Run(service: AutoReplyService, actions: seq<Action>, sort: seq<Rule> -> seq<Rule>)
    requires service.Valid() && Sorts(sort)
    modifies service, service.clock
    ensures service.Valid()
    ensures forall rule: Rule, session ::
              rule.maxTriggers > 0 ==> Times(service.fired, rule, session) <= rule.maxTriggers
    ensures forall i, j | 0 <= i < j < |service.fired| :: KeyOf(service.fired[i]) == KeyOf(service.fired[j]) ==>
      service.fired[j].at - service.fired[i].at >= service.fired[j].rule.cooldownSeconds * TICKS_PER_SECOND
  {
    for k := 0 to |actions|
      invariant service.Valid()
    {
      match actions[k]
      case Add(rule) => service.AddRule(rule, sort);
      case Remove(id) => var removed := service.RemoveRule(id);
      case Process(session, verdict) => var result := service.ProcessMessage(session, verdict);
    }
    forall rule: Rule, session | rule.maxTriggers > 0
      ensures Times(service.fired, rule, session) <= rule.maxTriggers
    {
      AtMostMaxTriggers(service.fired, rule, session);
    }
    forall i, j | 0 <= i < j < |service.fired| && KeyOf(service.fired[i]) == KeyOf(service.fired[j])
      ensures service.fired[j].at - service.fired[i].at >= service.fired[j].rule.cooldownSeconds * TICKS_PER_SECOND
    {
      CooldownApart(service.fired, i, j);
    }
  }
}
