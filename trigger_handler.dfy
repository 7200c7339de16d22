/**
 * `TriggerHandler.process`: pick the triggers a chat message sets off, charge
 * the author one unit of the trigger rate limit, and run the picked triggers
 * one after the other until one of them throws.
 *
 * The rate limiter comes from a library whose policy is not modelled: it is
 * an oracle that records every `take` and answers "limited" as an arbitrary,
 * fixed function of the takes before it. A trigger's `triggered` test is a
 * function of the message that may throw; whether its `execute` completes or
 * throws is an input of `Process`.
 */
module TriggerHandling {
  import opened Wrappers

  /** The parts of a chat message the handler looks at. */
  datatype Message = Message(authorId: string, guild: Option<string>, content: string)

  /**
   * A registered trigger: whether it needs a guild, and its match test. The
   * test answers with a verdict, or throws (`Err`).
   */
  datatype Trigger = Trigger(requireGuild: bool, triggered: Message -> Result<bool, string>)

  /**
   * Whether the filter runs the trigger's test at all: a guild-only trigger
   * is dropped for a message sent outside a guild before its test runs.
   */
  predicate Consults(t: Trigger, msg: Message) {
    !(t.requireGuild && msg.guild.None?)
  }

  /** The filter keeps the trigger: its test runs and accepts the message. */
  predicate Admits(t: Trigger, msg: Message) {
    Consults(t, msg) && t.triggered(msg) == Ok(true)
  }

  /** The filter runs the trigger's test and the test throws. */
  predicate TestThrows(t: Trigger, msg: Message) {
    Consults(t, msg) && t.triggered(msg).Err?
  }

  /** Whether `s` is strictly increasing, i.e. lists positions in registration order without repeats. */
  predicate Ascending(s: seq<nat>) {
    forall a, b :: 0 <= a < b < |s| ==> s[a] < s[b]
  }

  /**
   * The `filter` over the triggers from position `k` on: the positions of
   * the kept triggers in registration order, or the position of the first
   * test that throws, which ends the filter with that exception.
   */
  function FilterFrom(ts: seq<Trigger>, msg: Message, k: nat): (r: Result<seq<nat>, nat>)
    requires k <= |ts|
    ensures r.Ok? <==> forall i :: k <= i < |ts| ==> !TestThrows(ts[i], msg)
    ensures r.Ok? ==> forall i :: i in r.value ==> k <= i < |ts| && Admits(ts[i], msg)
    ensures r.Ok? ==> forall i :: k <= i < |ts| && Admits(ts[i], msg) ==> i in r.value
    ensures r.Ok? ==> Ascending(r.value) && forall j :: 0 <= j < |r.value| ==> k <= r.value[j]
    ensures r.Err? ==> k <= r.error < |ts| && TestThrows(ts[r.error], msg)
    ensures r.Err? ==> forall i :: k <= i < r.error ==> !TestThrows(ts[i], msg)
    decreases |ts| - k
  {
    if k == |ts| then Ok([])
    else if !Consults(ts[k], msg) then FilterFrom(ts, msg, k + 1)
    else match ts[k].triggered(msg)
      case Err(_) => Err(k)
      case Ok(keep) =>
        var rest := FilterFrom(ts, msg, k + 1);
        if rest.Err? || !keep then rest else Ok([k] + rest.value)
  }

  /**
   * The filter of `process`: when no test throws, the positions of exactly
   * the admitted triggers, in registration order; otherwise the first test
   * that throws.
   */
  function Filter(ts: seq<Trigger>, msg: Message): (r: Result<seq<nat>, nat>)
    ensures r.Ok? <==> forall i :: 0 <= i < |ts| ==> !TestThrows(ts[i], msg)
    ensures r.Ok? ==> forall i: nat :: i in r.value <==> i < |ts| && Admits(ts[i], msg)
    ensures r.Ok? ==> Ascending(r.value)
    ensures r.Err? ==> r.error < |ts| && TestThrows(ts[r.error], msg)
    ensures r.Err? ==> forall i :: 0 <= i < r.error ==> !TestThrows(ts[i], msg)
  {
    FilterFrom(ts, msg, 0)
  }

  /**
   * The guild check comes first: for a message without a guild, what the
   * tests of guild-only triggers would answer, or whether they would throw,
   * makes no difference to the filter.
   */
  lemma {:induction false} GuildOnlyTestsIgnoredWithoutGuild(ts: seq<Trigger>, us: seq<Trigger>, msg: Message, k: nat)
    requires msg.guild.None? && |ts| == |us| && k <= |ts|
    requires forall i :: 0 <= i < |ts| ==> ts[i].requireGuild == us[i].requireGuild
    requires forall i :: 0 <= i < |ts| && !ts[i].requireGuild ==> ts[i].triggered(msg) == us[i].triggered(msg)
    ensures FilterFrom(ts, msg, k) == FilterFrom(us, msg, k)
    decreases |ts| - k
  {
    if k < |ts| {
      GuildOnlyTestsIgnoredWithoutGuild(ts, us, msg, k + 1);
    }
  }

  /**
   * The triggers `execute` is called on, given the kept positions and which
   * executions complete: the kept ones in order, up to and including the
   * first that throws.
   */
  function Chain(m: seq<nat>, completes: nat -> bool): (c: seq<nat>)
    ensures |c| <= |m| && c == m[..|c|]
    ensures forall j :: 0 <= j < |c| - 1 ==> completes(c[j])
    ensures |c| < |m| ==> |c| > 0 && !completes(c[|c| - 1])
  {
    if m == [] then []
    else if completes(m[0]) then [m[0]] + Chain(m[1..], completes)
    else [m[0]]
  }

  /**
   * How `process` ends: normally, with the exception of the `triggered` test
   * at a position, or with the exception of the `execute` at a position.
   */
  datatype Outcome = Completed | TestThrew(test: nat) | Threw(position: nat)

  /** The outcome of running the chain: the last executed trigger threw, or all completed. */
  function ChainOutcome(m: seq<nat>, completes: nat -> bool): Outcome {
    var c := Chain(m, completes);
    if |c| > 0 && !completes(c[|c| - 1]) then Threw(c[|c| - 1]) else Completed
  }

  /**
   * `process` throws exactly when some kept trigger throws, and then with the
   * exception of a trigger that was executed.
   */
  lemma ChainOutcomeThrows(m: seq<nat>, completes: nat -> bool)
    ensures var o := ChainOutcome(m, completes);
      && (o.Threw? <==> exists j :: j in m && !completes(j))
      && (o.Threw? ==> o.position in Chain(m, completes) && !completes(o.position))
  {
    var c := Chain(m, completes);
    if |c| == |m| {
      assert c == m;
    }
  }

  /** If every kept trigger completes, every one of them runs and `process` completes. */
  lemma {:induction false} ChainRunsAllWhenNoneThrows(m: seq<nat>, completes: nat -> bool)
    requires forall j :: j in m ==> completes(j)
    ensures Chain(m, completes) == m
    ensures ChainOutcome(m, completes) == Completed
  {
    if m != [] {
      ChainRunsAllWhenNoneThrows(m[1..], completes);
    }
  }

  /** Nothing after the first throwing trigger runs. */
  lemma {:induction false} ChainStopsAtFirstThrow(m: seq<nat>, completes: nat -> bool, k: nat)
    requires k < |m| && !completes(m[k])
    requires forall j :: 0 <= j < k ==> completes(m[j])
    ensures Chain(m, completes) == m[..k + 1]
    ensures ChainOutcome(m, completes) == Threw(m[k])
  {
    if k > 0 {
      assert m[1..][..k] == m[1..k + 1];
      ChainStopsAtFirstThrow(m[1..], completes, k - 1);
      assert m[..k + 1] == [m[0]] + m[1..k + 1];
    }
  }

  /** One call to `execute`: the trigger's position, the message, and the `EventData` it got. */
  datatype Execution = Execution(position: nat, message: Message, data: nat)

  /** The executions of the triggers at `c`, in order, all for `msg` and with the same data. */
  function Runs(c: seq<nat>, msg: Message, data: nat): (r: seq<Execution>)
    ensures |r| == |c|
  {
    if c == [] then [] else [Execution(c[0], msg, data)] + Runs(c[1..], msg, data)
  }

  /** The `j`-th execution is that of the `j`-th trigger of `c`, for `msg` and with `data`. */
  lemma {:induction false} RunsAreExecutions(c: seq<nat>, msg: Message, data: nat)
    ensures forall j :: 0 <= j < |c| ==> Runs(c, msg, data)[j] == Execution(c[j], msg, data)
  {
    if c != [] {
      RunsAreExecutions(c[1..], msg, data);
    }
  }

  /** Executing one more trigger appends one execution. */
  lemma {:induction false} RunsSnoc(c: seq<nat>, x: nat, msg: Message, data: nat)
    ensures Runs(c + [x], msg, data) == Runs(c, msg, data) + [Execution(x, msg, data)]
  {
    RunsAreExecutions(c + [x], msg, data);
    RunsAreExecutions(c, msg, data);
    forall j | 0 <= j < |c| + 1
      ensures Runs(c + [x], msg, data)[j] == (Runs(c, msg, data) + [Execution(x, msg, data)])[j]
    {
      assert (c + [x])[j] == if j < |c| then c[j] else x;
    }
  }

  /**
   * The rate limiter, seen from outside: it records who asked, and answers
   * "limited" as `policy` dictates from the earlier takes. The clock the
   * library consults is not modelled.
   */
  class RateLimiter {
    /** Units per interval. */
    const amount: int
    /** Interval length in milliseconds. */
    const interval: int
    const policy: (seq<string>, string) -> bool
    /** Every `take` so far, by actor, in order. */
    var takes: seq<string>

    constructor (amount: int, interval: int, policy: (seq<string>, string) -> bool)
      ensures this.amount == amount && this.interval == interval && this.policy == policy
      ensures takes == []
    {
      this.amount := amount;
      this.interval := interval;
      this.policy := policy;
      takes := [];
    }

    /** Charges `actor` one unit; `limited` is the library's verdict on that take. */
    method Take(actor: string) returns (limited: bool)
      modifies this`takes
      ensures takes == old(takes) + [actor]
      ensures limited == policy(old(takes), actor)
    {
      limited := policy(takes, actor);
      takes := takes + [actor];
    }
  }

  class TriggerHandler {
    const triggers: seq<Trigger>
    const rateLimiter: RateLimiter
    /** Every `execute` call so far, in order. */
    var executions: seq<Execution>
    /** How many `EventData` objects `process` has created; the next one is numbered by this. */
    var eventData: nat

    /** The limiter is configured in seconds and built with milliseconds. */
    constructor (triggers: seq<Trigger>, amount: int, intervalSeconds: int,
                 policy: (seq<string>, string) -> bool)
      ensures this.triggers == triggers
      ensures fresh(rateLimiter) && rateLimiter.takes == []
      ensures rateLimiter.amount == amount && rateLimiter.interval == intervalSeconds * 1000
      ensures rateLimiter.policy == policy
      ensures executions == [] && eventData == 0
    {
      this.triggers := triggers;
      rateLimiter := new RateLimiter(amount, intervalSeconds * 1000, policy);
      executions := [];
      eventData := 0;
    }

    /**
     * Handles one message. `completes(i)` says whether the `execute` of the
     * trigger at position `i` completes or throws on this call.
     */
    method Process(msg: Message, completes: nat -> bool) returns (outcome: Outcome)
      modifies this`executions, this`eventData, rateLimiter`takes
      ensures match Filter(triggers, msg)
        case Err(p) =>
          && rateLimiter.takes == old(rateLimiter.takes)
          && executions == old(executions) && eventData == old(eventData)
          && outcome == TestThrew(p)
        case Ok(m) =>
          if m == [] then
            && rateLimiter.takes == old(rateLimiter.takes)
            && executions == old(executions) && eventData == old(eventData)
            && outcome == Completed
          else
            && rateLimiter.takes == old(rateLimiter.takes) + [msg.authorId]
            && if rateLimiter.policy(old(rateLimiter.takes), msg.authorId) then
                 executions == old(executions) && eventData == old(eventData) && outcome == Completed
               else
                 && eventData == old(eventData) + 1
                 && executions == old(executions) + Runs(Chain(m, completes), msg, old(eventData))
                 && outcome == ChainOutcome(m, completes)
    {
      var filtered := Filter(triggers, msg);
      if filtered.Err? {
        return TestThrew(filtered.error);
      }
      var m := filtered.value;
      if |m| == 0 {
        return Completed;
      }
      var limited := rateLimiter.Take(msg.authorId);
      if limited {
        return Completed;
      }
      var data := eventData;
      eventData := eventData + 1;
      outcome := ExecuteAll(m, msg, data, completes);
    }

    /**
     * The `for` loop of `process`: execute the kept triggers in order with
     * the same data, and stop at the first one that throws, rethrowing it.
     */
    method ExecuteAll(m: seq<nat>, msg: Message, data: nat, completes: nat -> bool)
      returns (outcome: Outcome)
      modifies this`executions
      ensures executions == old(executions) + Runs(Chain(m, completes), msg, data)
      ensures outcome == ChainOutcome(m, completes)
    {
      var k := 0;
      while k < |m|
        invariant 0 <= k <= |m|
        invariant forall j :: 0 <= j < k ==> completes(m[j])
        invariant executions == old(executions) + Runs(m[..k], msg, data)
      {
        var done := m[..k];
        assert m[..k + 1] == done + [m[k]];
        RunsSnoc(done, m[k], msg, data);
        executions := executions + [Execution(m[k], msg, data)];
        assert executions == old(executions) + Runs(m[..k + 1], msg, data);
        if !completes(m[k]) {
          ChainStopsAtFirstThrow(m, completes, k);
          return Threw(m[k]);
        }
        k := k + 1;
      }
      assert m[..k] == m;
      ChainRunsAllWhenNoneThrows(m, completes);
      outcome := Completed;
    }
  }
}
