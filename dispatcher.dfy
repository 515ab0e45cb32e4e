/**
 * `RateLimitedTaskDispatcher`: a token bucket in front of a FIFO queue of tasks. The dispatcher
 * thread takes the oldest task, waits for a token, runs the task and resolves its future; a
 * refiller thread adds one token per interval up to the capacity; an idle dispatcher shuts down.
 * The threads are not modelled: each of their loop iterations is a method of `Dispatcher`.
 */
module RateLimitedDispatcher {

  // ---- the token counter ----

  /**
   * The values the counter takes. It starts at the capacity; with a capacity of zero or more it
   * stays between zero and the capacity, and a negative capacity is never left.
   */
  predicate InRange(capacity: int, tokens: int) {
    (if capacity < 0 then capacity else 0) <= tokens <= capacity
  }

  /** The answer of `_consume_token` and the count it leaves. */
  datatype Take = Take(ok: bool, left: int)

  /** `_consume_token`: take one token if there is one. */
  function TakeToken(tokens: int): Take {
    if tokens > 0 then Take(true, tokens - 1) else Take(false, tokens)
  }

  /** One iteration of `_refill`: add a token unless the bucket is full. */
  function RefillOnce(capacity: int, tokens: int): int {
    if tokens < capacity then tokens + 1 else tokens
  }

  /**
   * A consume succeeds, removing exactly one token, exactly when a token is left; a refill adds
   * exactly one token exactly when the bucket is below capacity. Both keep the counter in range.
   */
  lemma TokenSteps(capacity: int, tokens: int)
    requires InRange(capacity, tokens)
    ensures TakeToken(tokens).ok <==> tokens > 0
    ensures TakeToken(tokens).left == if tokens > 0 then tokens - 1 else tokens
    ensures RefillOnce(capacity, tokens) == if tokens < capacity then tokens + 1 else tokens
    ensures InRange(capacity, TakeToken(tokens).left)
    ensures InRange(capacity, RefillOnce(capacity, tokens))
  {
  }

  /** One action of either thread on the counter. */
  datatype TokenOp = Consume | Refill

  function ApplyOps(capacity: int, tokens: int, ops: seq<TokenOp>): int
    decreases |ops|
  {
    if ops == [] then tokens
    else
      var next := match ops[0]
        case Consume => TakeToken(tokens).left
        case Refill => RefillOnce(capacity, tokens);
      ApplyOps(capacity, next, ops[1..])
  }

  /** Starting from a full bucket, every interleaving of consumes and refills stays in range. */
  lemma {:induction false} OpsStayInRange(capacity: int, tokens: int, ops: seq<TokenOp>)
    requires InRange(capacity, tokens)
    ensures InRange(capacity, ApplyOps(capacity, tokens, ops))
    decreases |ops|
  {
    if ops != [] {
      TokenSteps(capacity, tokens);
      var next := match ops[0]
        case Consume => TakeToken(tokens).left
        case Refill => RefillOnce(capacity, tokens);
      OpsStayInRange(capacity, next, ops[1..]);
    }
  }

  lemma FullBucketInRange(capacity: int, ops: seq<TokenOp>)
    ensures InRange(capacity, ApplyOps(capacity, capacity, ops))
  {
    OpsStayInRange(capacity, capacity, ops);
  }

  /** How many of `k` consumes in a row, with no refill in between, succeed. */
  function Successes(tokens: int, k: nat): nat
    decreases k
  {
    if k == 0 then 0
    else
      var t := TakeToken(tokens);
      (if t.ok then 1 else 0) + Successes(t.left, k - 1)
  }

  /** From `t` tokens and no refills, `k` consumes succeed `min(k, t)` times. */
  lemma {:induction false} ConsecutiveConsumes(tokens: int, k: nat)
    requires tokens >= 0
    ensures Successes(tokens, k) == if k < tokens then k else tokens
    decreases k
  {
    if k > 0 {
      ConsecutiveConsumes(TakeToken(tokens).left, k - 1);
    }
  }

  // ---- futures and the dispatcher ----

  /** What a task ends with: its result, or the exception it raised. */
  datatype Outcome<V> = Value(result: V) | Raised(message: string)

  datatype FutureState<V> = Pending | Done(outcome: Outcome<V>)

  /** `concurrent.futures.Future`, reduced to its state. */
  class Future<V> {
    var state: FutureState<V>

    constructor ()
      ensures state == Pending
    {
      state := Pending;
    }
  }

  /** A queue item `(fn, args, kwargs, future)`; `fn` applied to its arguments is `run`. */
  datatype Task<V> = Task(run: () -> Outcome<V>, future: Future<V>)

  /** How one iteration of `_run` ended. */
  datatype StepResult<V> = Stopped | IdleShutdown | Executed(future: Future<V>)

  class Dispatcher<V> {
    const capacity: int
    var tokens: int
    var queue: seq<Task<V>>
    /** `_shutdown_event.is_set()` */
    var shutdown: bool

    ghost function Futures(): set<Future<V>>
      reads this
    {
      set i | 0 <= i < |queue| :: queue[i].future
    }

    /** The counter is in range and every queued task has its own unresolved future. */
    ghost predicate Valid()
      reads this, Futures()
    {
      && InRange(capacity, tokens)
      && (forall i :: 0 <= i < |queue| ==> queue[i].future.state == Pending)
      && (forall i, j :: 0 <= i < j < |queue| ==> queue[i].future != queue[j].future)
    }

    /** `__init__`: a full bucket, an empty queue, not shut down. */
    constructor (capacity: int)
      ensures Valid()
      ensures this.capacity == capacity && tokens == capacity && queue == [] && !shutdown
    {
      this.capacity := capacity;
      tokens := capacity;
      queue := [];
      shutdown := false;
    }

    /** `_consume_token` */
    method ConsumeToken() returns (ok: bool)
      requires Valid()
      modifies this
      ensures Valid()
      ensures Take(ok, tokens) == TakeToken(old(tokens))
      ensures queue == old(queue) && shutdown == old(shutdown)
    {
      TokenSteps(capacity, tokens);
      if tokens > 0 {
        tokens := tokens - 1;
        return true;
      }
      return false;
    }

    /** One iteration of `_refill`, which runs only until shutdown (the sleep is not modelled). */
    method RefillStep()
      requires Valid() && !shutdown
      modifies this
      ensures Valid()
      ensures tokens == RefillOnce(capacity, old(tokens))
      ensures queue == old(queue) && shutdown == old(shutdown)
    {
      TokenSteps(capacity, tokens);
      if tokens < capacity {
        tokens := tokens + 1;
      }
    }

    /** `submit(fn, *args, **kwargs)`: queue the task at the tail and return its new future. */
    method Submit(run: () -> Outcome<V>) returns (f: Future<V>)
      requires Valid()
      modifies this
      ensures Valid()
      ensures fresh(f) && f.state == Pending
      ensures queue == old(queue) + [Task(run, f)]
      ensures tokens == old(tokens) && shutdown == old(shutdown)
    {
      f := new Future();
      queue := queue + [Task(run, f)];
    }

    /**
     * One iteration of `_run`. Once shut down it does nothing; with an empty queue the wait
     * times out and it shuts down; otherwise it takes the oldest task, waits for a token (the
     * refiller adding one while it waits) and resolves that task's future with the outcome.
     */
    method RunStep() returns (step: StepResult<V>)
      requires Valid()
      requires capacity > 0 || queue == [] || shutdown
      modifies this, Futures()
      ensures Valid()
      ensures old(shutdown) ==>
        step == Stopped && shutdown && queue == old(queue) && tokens == old(tokens)
      ensures !old(shutdown) && old(queue) == [] ==>
        step == IdleShutdown && shutdown && queue == [] && tokens == old(tokens)
      ensures !old(shutdown) && old(queue) != [] ==>
        && step == Executed(old(queue)[0].future)
        && old(queue)[0].future.state == Done(old(queue)[0].run())
        && queue == old(queue)[1..]
        && !shutdown
        && tokens == (if old(tokens) > 0 then old(tokens) - 1 else 0)
    {
      if shutdown {
        return Stopped;
      }
      if queue == [] {
        shutdown := true;
        return IdleShutdown;
      }
      var task := queue[0];
      queue := queue[1..];
      var ok := ConsumeToken();
      while !ok
        invariant Valid() && queue == old(queue)[1..] && !shutdown
        invariant !ok ==> tokens == 0
        invariant ok ==> tokens == (if old(tokens) > 0 then old(tokens) - 1 else 0)
        decreases if ok then 0 else 1
      {
        RefillStep();
        ok := ConsumeToken();
      }
      var outcome := task.run();
      task.future.state := Done(outcome);
      step := Executed(task.future);
    }

    /**
     * `_run` to the end: the queued tasks are executed in submission order, each future
     * resolved exactly once with its task's outcome, then the idle wait shuts the dispatcher
     * down. A dispatcher already shut down runs nothing, so anything queued stays unresolved.
     */
    method Run() returns (executed: seq<Future<V>>)
      requires Valid()
      requires capacity > 0 || queue == [] || shutdown
      modifies this, Futures()
      ensures Valid() && shutdown
      ensures old(shutdown) ==> executed == [] && queue == old(queue)
      ensures !old(shutdown) ==> queue == [] && |executed| == |old(queue)|
      ensures !old(shutdown) ==> forall i :: 0 <= i < |old(queue)| ==>
        executed[i] == old(queue)[i].future && executed[i].state == Done(old(queue)[i].run())
    {
      executed := [];
      ghost var q0 := queue;
      while !shutdown
        invariant Valid()
        invariant capacity > 0 || queue == [] || shutdown
        invariant |executed| <= |q0| && queue == q0[|executed|..]
        invariant forall i :: 0 <= i < |executed| ==>
          executed[i] == q0[i].future && executed[i].state == Done(q0[i].run())
        invariant shutdown ==> queue == [] || (old(shutdown) && executed == [])
        invariant old(shutdown) ==> shutdown && executed == []
        decreases |queue| + (if shutdown then 0 else 1)
      {
        assert Futures() <= old(Futures());
        ghost var before := executed;
        var step := RunStep();
        if step.Executed? {
          executed := executed + [step.future];
          forall i | 0 <= i < |before|
            ensures executed[i] == q0[i].future && executed[i].state == Done(q0[i].run())
          {
            assert executed[i] == before[i];
          }
        }
      }
    }
  }
}
