/**
 * `EnhancedRateLimiter` of lib/rateLimiter.ts as a class whose fields the methods update in
 * place. Each method performs one transition of `RateLimiterSpec`: the synchronous part of
 * `addToQueue`, a resumption of the drain loop after its pacing wait, the settling of the
 * running task's operation, or the firing of a retry timer. The ghost fields carry the logs
 * the specification's promises are about.
 */
module RateLimiter {
  import opened Wrappers
  import opened RateLimiterSpec

  class EnhancedRateLimiter<V, E> {
    var queue: seq<Item>
    var processing: bool
    var lastRequestTime: int
    var loop: Loop
    var timers: seq<Timer>
    ghost var clock: int  // the latest time a transition observed
    var nextId: nat
    const minInterval: real
    const maxRetries: nat
    const retryDelay: nat
    ghost var submitted: map<nat, nat>
    ghost var attempts: map<nat, nat>
    ghost var settled: map<nat, Settlement<V, E>>
    ghost var starts: seq<int>
    ghost var firstStarts: seq<nat>

    function Settings(): Config {
      Config(minInterval, maxRetries, retryDelay)
    }

    /** The limiter as a value of the specification. */
    ghost function Model(): State<V, E>
      reads this
    {
      State(queue, processing, lastRequestTime, loop, timers, clock, nextId,
            submitted, attempts, settled, starts, firstStarts)
    }

    ghost predicate Valid()
      reads this
    {
      Inv(Settings(), Model())
    }

    /** Lines 22-33: an empty, idle limiter with the given or the default settings. */
    constructor (requestsPerSecond: real, maxRetries: Option<nat>, retryDelay: Option<nat>)
      requires requestsPerSecond > 0.0
      ensures Settings() == MakeConfig(requestsPerSecond, maxRetries, retryDelay)
      ensures Model() == Init() && Valid()
    {
      queue := [];
      processing := false;
      lastRequestTime := 0;
      loop := Idle;
      timers := [];
      clock := 0;
      nextId := 0;
      minInterval := 1000.0 / requestsPerSecond;
      this.maxRetries := maxRetries.GetOr(DefaultMaxRetries);
      this.retryDelay := retryDelay.GetOr(DefaultRetryDelay);
      submitted := map[];
      attempts := map[];
      settled := map[];
      starts := [];
      firstStarts := [];
      new;
      InitInv<V, E>(Settings());
    }

    /** `addToQueue` up to its first suspension: push a fresh item and enter `processQueue`.
        `id` names the item (the program draws a random string instead). */
    method AddToQueue(maxRetries: Option<nat>, now: int) returns (id: nat)
      requires Valid() && now >= clock
      modifies this
      ensures Model() == RateLimiterSpec.AddToQueue(Settings(), old(Model()), maxRetries, now)
      ensures Valid() && Extends(old(Model()), Model())
      ensures id == old(nextId) && id !in old(submitted) && id in submitted
    {
      ghost var s := Model();
      id := nextId;
      Push(maxRetries, now);
      assert id in submitted;
      ProcessQueue(now);
      AddToQueueInv(Settings(), s, maxRetries, now);
    }

    /** Lines 37-46: a fresh item goes to the back of the queue. */
    method Push(maxRetries: Option<nat>, now: int)
      modifies this
      ensures Model() == RateLimiterSpec.Push(Settings(), old(Model()), maxRetries, now)
    {
      var item := Item(nextId, 0, maxRetries.GetOr(this.maxRetries));
      queue := queue + [item];
      clock := now;
      nextId := nextId + 1;
      submitted := submitted[item.id := item.maxRetries];
      attempts := attempts[item.id := 0];
    }

    /** Lines 55-57: a second entry while a loop is active returns at once. */
    method ProcessQueue(now: int)
      modifies this
      ensures Model() == RateLimiterSpec.ProcessQueue(Settings(), old(Model()), now)
      ensures submitted == old(submitted)
    {
      if processing {
        return;
      }
      processing := true;
      LoopTop(now);
    }

    /** The top of the drain loop: leave it, wait out the pacing interval, or start a task. */
    method LoopTop(now: int)
      modifies this
      ensures Model() == RateLimiterSpec.LoopTop(Settings(), old(Model()), now)
      ensures submitted == old(submitted)
    {
      if queue == [] {
        processing := false;
        loop := Idle;
      } else if ((now - lastRequestTime) as real) < minInterval {
        loop := Sleeping(lastRequestTime as real + minInterval);
      } else {
        Begin(now);
      }
    }

    /** Lines 69-72: shift the front task, stamp the start and run its operation. */
    method Begin(now: int)
      requires queue != []
      modifies this
      ensures Model() == RateLimiterSpec.Begin(old(Model()), now)
      ensures submitted == old(submitted)
    {
      ghost var t := RateLimiterSpec.Begin(Model(), now);
      var task := queue[0];
      queue := queue[1..];
      lastRequestTime := now;
      loop := Running(task);
      // The ghost logs record the start as the specification does.
      attempts, starts, firstStarts := t.attempts, t.starts, t.firstStarts;
    }

    /** The pacing wait of lines 64-66 is over. */
    method Wake(now: int)
      requires Valid() && loop.Sleeping? && now >= clock && now as real >= loop.wake
      modifies this
      ensures Model() == RateLimiterSpec.Wake(Settings(), old(Model()), now)
      ensures Valid() && Extends(old(Model()), Model())
    {
      ghost var s := Model();
      clock := now;
      Begin(now);
      WakeInv(Settings(), s, now);
    }

    /** `executeTask` after the running operation settled with `outcome` (lines 79-100), then
        the drain loop goes on. */
    method Complete(outcome: Result<V, E>, now: int)
      requires Valid() && loop.Running? && now >= clock
      modifies this
      ensures Model() == Finish(Settings(), old(Model()), outcome, now)
      ensures Valid() && Extends(old(Model()), Model())
    {
      ghost var s := Model();
      Settle(outcome, now);
      LoopTop(now);
      FinishInv(Settings(), s, outcome, now);
    }

    /** Lines 81-97: resolve, schedule the retry, or reject. */
    method Settle(outcome: Result<V, E>, now: int)
      requires loop.Running?
      modifies this
      ensures Model() == RateLimiterSpec.Settle(Settings(), old(Model()), outcome, now)
    {
      var task := loop.task;
      clock := now;
      loop := Idle;
      match outcome {
        case Ok(v) =>
          settled := settled[task.id := Resolved(v)];
        case Err(e) =>
          if task.retryCount < task.maxRetries {
            timers := timers + [Timer(now + retryDelay, task.(retryCount := task.retryCount + 1))];
          } else {
            settled := settled[task.id := Rejected(e)];
          }
      }
    }

    /** The earliest retry timer fires (lines 90-93): unshift its task and enter `processQueue`. */
    method FireRetryTimer(now: int)
      requires Valid() && timers != [] && timers[0].due <= now && now >= clock
      modifies this
      ensures Model() == FireRetry(Settings(), old(Model()), now)
      ensures Valid() && Extends(old(Model()), Model())
    {
      ghost var s := Model();
      queue := [timers[0].task] + queue;
      timers := timers[1..];
      clock := now;
      assert Model() == Unshift(s, now);
      ProcessQueue(now);
      FireRetryInv(Settings(), s, now);
    }

    /** Lines 102-104. A non-empty queue always has a drain loop working on it. */
    method GetQueueLength() returns (n: nat)
      requires Valid()
      ensures n == |queue|
      ensures n > 0 ==> processing && (loop.Sleeping? || loop.Running?)
    {
      n := |queue|;
    }

    /** Lines 106-108. The flag is set exactly while a drain loop is active, and clear only when
        the queue is empty. */
    method IsProcessing() returns (b: bool)
      requires Valid()
      ensures b <==> loop.Sleeping? || loop.Running?
      ensures !b ==> queue == []
    {
      b := processing;
    }
  }
}
