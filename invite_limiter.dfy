/**
 * The simple `RateLimiter` of server/api/admin/invite-users.ts:5-52 as a class whose fields
 * the methods update in place, each method one transition of `InviteLimiterSpec`.
 */
module InviteLimiter {
  import opened Wrappers
  import RateLimiterSpec
  import opened InviteLimiterSpec

  class RateLimiter<V, E> {
    var queue: seq<nat>
    var processing: bool
    var lastRequestTime: int
    var loop: Loop
    ghost var clock: int  // the latest time a transition observed
    var nextId: nat
    const minInterval: real
    ghost var settled: map<nat, RateLimiterSpec.Settlement<V, E>>
    ghost var starts: seq<int>
    ghost var started: seq<nat>

    ghost function Model(): State<V, E>
      reads this
    {
      State(queue, processing, lastRequestTime, loop, clock, nextId, settled, starts, started)
    }

    ghost predicate Valid()
      reads this
    {
      Inv(minInterval, Model())
    }

    /** Lines 6-13. The handler's instance (line 55) allows two requests per second, so its
        starts are at least 500 ms apart. */
    constructor (requestsPerSecond: real)
      requires requestsPerSecond > 0.0
      ensures minInterval == MinInterval(requestsPerSecond)
      ensures Model() == Init() && Valid()
    {
      queue := [];
      processing := false;
      lastRequestTime := 0;
      loop := Idle;
      clock := 0;
      nextId := 0;
      minInterval := 1000.0 / requestsPerSecond;
      settled := map[];
      starts := [];
      started := [];
    }

    /** `addToQueue` up to its first suspension (lines 15-27). */
    method AddToQueue(now: int) returns (id: nat)
      requires Valid() && now >= clock
      modifies this
      ensures Model() == InviteLimiterSpec.AddToQueue(minInterval, old(Model()), now)
      ensures Valid() && Extends(old(Model()), Model())
      ensures id == old(nextId)
    {
      ghost var s := Model();
      id := nextId;
      queue := queue + [id];
      clock := now;
      nextId := nextId + 1;
      ProcessQueue(now);
      AddToQueueInv(minInterval, s, now);
    }

    method ProcessQueue(now: int)
      modifies this
      ensures Model() == InviteLimiterSpec.ProcessQueue(minInterval, old(Model()), now)
    {
      if processing {
        return;
      }
      processing := true;
      LoopTop(now);
    }

    method LoopTop(now: int)
      modifies this
      ensures Model() == InviteLimiterSpec.LoopTop(minInterval, old(Model()), now)
    {
      if queue == [] {
        processing := false;
        loop := Idle;
      } else if ((now - lastRequestTime) as real) < minInterval {
        loop := Sleeping(lastRequestTime as real + minInterval);
      } else {
        Begin(now);
      }
    }

    method Begin(now: int)
      requires queue != []
      modifies this
      ensures Model() == InviteLimiterSpec.Begin(old(Model()), now)
    {
      var id := queue[0];
      queue := queue[1..];
      lastRequestTime := now;
      loop := Running(id);
      starts := starts + [now];
      started := started + [id];
    }

    /** The pacing wait of lines 38-40 is over; the queue cannot have emptied meanwhile. */
    method Wake(now: int)
      requires Valid() && loop.Sleeping? && now >= clock && now as real >= loop.wake
      modifies this
      ensures Model() == InviteLimiterSpec.Wake(minInterval, old(Model()), now)
      ensures Valid() && Extends(old(Model()), Model())
    {
      ghost var s := Model();
      clock := now;
      Begin(now);
      WakeInv(minInterval, s, now);
    }

    /** The running wrapped task finished (lines 18-23), then the loop goes on. */
    method Complete(outcome: Result<V, E>, now: int)
      requires Valid() && loop.Running? && now >= clock
      modifies this
      ensures Model() == Finish(minInterval, old(Model()), outcome, now)
      ensures Valid() && Extends(old(Model()), Model())
    {
      ghost var s := Model();
      clock := now;
      match outcome {
        case Ok(v) => settled := settled[loop.id := RateLimiterSpec.Resolved(v)];
        case Err(e) => settled := settled[loop.id := RateLimiterSpec.Rejected(e)];
      }
      loop := Idle;
      LoopTop(now);
      FinishInv(minInterval, s, outcome, now);
    }
  }
}
