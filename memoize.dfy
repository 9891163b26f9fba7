/** `memoize(fn, hasher, invalidator)`: a keyed memo table that merges the
    calls made for one key while a fetch is in flight into a single call of
    `fn`, keeps the result until its deadline, and replays it meanwhile.

    The table is the three dictionaries the closure owns: `exp` (key to
    deadline, in whole seconds), `memo` (key to stored result) and `queues`
    (key to the callbacks waiting for the fetch in flight). Callbacks are
    values of type C, results values of type R; the clock is the `now`
    parameter. The pure functions Reaped, Called and Completed state what
    one step does; the class Memo performs the steps in place. */
module Memoize {

  /** What `invalidator(...)` gives the completion handler: a number of
      seconds, NaN, or a TypeError raised while computing it. */
  datatype Ttl = Seconds(n: int) | NotANumber | Raises

  /** `if (timeout)`: zero and NaN set no deadline. */
  predicate SetsDeadline(t: Ttl) {
    t.Seconds? && t.n != 0
  }

  /** Which of the three branches a call takes. */
  datatype Lookup<R> = Replay(result: R) | Queued | StartFetch

  datatype State<C, R> = State(exp: map<string, int>, memo: map<string, R>, queues: map<string, seq<C>>)

  predicate Expired<C, R>(s: State<C, R>, key: string, now: int) {
    key in s.exp && s.exp[key] <= now
  }

  /** The shape every reachable table has: deadlines only for stored results,
      no key both stored and in flight, and no empty queue. */
  ghost predicate Consistent<C, R>(s: State<C, R>) {
    && s.exp.Keys <= s.memo.Keys
    && s.memo.Keys !! s.queues.Keys
    && forall k :: k in s.queues ==> s.queues[k] != []
  }

  /** `reap()`: every stored result whose deadline is not later than `now`
      is deleted together with its deadline. */
  function Reaped<C, R>(s: State<C, R>, now: int): State<C, R> {
    State(
      map k | k in s.exp && !(k in s.memo && s.exp[k] <= now) :: s.exp[k],
      map k | k in s.memo && !Expired(s, k, now) :: s.memo[k],
      s.queues)
  }

  /** `memoized(args..., callback)` for a key: reap, then replay, queue, or
      start the single fetch with a new queue holding this callback. */
  function Called<C, R>(s: State<C, R>, key: string, cb: C, now: int): (State<C, R>, Lookup<R>) {
    var r := Reaped(s, now);
    if key in r.memo then (r, Replay(r.memo[key]))
    else if key in r.queues then (r.(queues := r.queues[key := r.queues[key] + [cb]]), Queued)
    else (r.(queues := r.queues[key := [cb]]), StartFetch)
  }

  /** The completion callback of the fetch for `key`: the new table, the
      callbacks it fires in order, and whether it raises a TypeError. A raising
      invalidator stops it before any change. With no queue for the key,
      `q.length` raises after the result is stored, and nothing fires. */
  function Completed<C, R>(s: State<C, R>, key: string, result: R, ttl: Ttl, now: int): (State<C, R>, seq<C>, bool) {
    if ttl.Raises? then (s, [], true)
    else
      var exp := if SetsDeadline(ttl) then s.exp[key := now + ttl.n] else s.exp;
      var memo := s.memo[key := result];
      if key in s.queues then (State(exp, memo, s.queues - {key}), s.queues[key], false)
      else (State(exp, memo, s.queues), [], true)
  }

  /** A run of calls for one key at the given times, with no completion in between. */
  function Run<C, R>(s: State<C, R>, key: string, cbs: seq<C>, times: seq<int>): (State<C, R>, seq<Lookup<R>>)
    requires |cbs| == |times|
    decreases |cbs|
  {
    if cbs == [] then (s, [])
    else
      var step := Called(s, key, cbs[0], times[0]);
      var rest := Run(step.0, key, cbs[1..], times[1..]);
      (rest.0, [step.1] + rest.1)
  }

  /** Reaping deletes exactly the expired stored results, keeps every other
      result and every queue, and drops the deadlines of the results it deletes. */
  lemma ReapedExactly<C, R>(s: State<C, R>, now: int)
    ensures var r := Reaped(s, now);
            && (forall k :: k in r.memo <==> k in s.memo && !Expired(s, k, now))
            && (forall k :: k in r.memo ==> r.memo[k] == s.memo[k])
            && (forall k :: k in r.exp <==> k in s.exp && !(k in s.memo && Expired(s, k, now)))
            && (forall k :: k in r.exp ==> r.exp[k] == s.exp[k])
            && r.queues == s.queues
  {
  }

  /** Reaping keeps the table consistent. */
  lemma ReapedConsistent<C, R>(s: State<C, R>, now: int)
    requires Consistent(s)
    ensures Consistent(Reaped(s, now))
  {
  }

  /** A call replays exactly when a result is stored for the key and its
      deadline has not passed, and then replays that stored result. */
  lemma ReplayOnlyBeforeDeadline<C, R>(s: State<C, R>, key: string, cb: C, now: int)
    ensures Called(s, key, cb, now).1.Replay? <==> key in s.memo && !Expired(s, key, now)
    ensures Called(s, key, cb, now).1.Replay? ==> Called(s, key, cb, now).1.result == s.memo[key]
    ensures Called(s, key, cb, now).1.Replay? ==> Called(s, key, cb, now).0 == Reaped(s, now)
  {
  }

  /** While a fetch for the key is in flight, a call only appends its
      callback to the queue: it starts no second fetch and changes no result. */
  lemma InFlightCallQueues<C, R>(s: State<C, R>, key: string, cb: C, now: int)
    requires Consistent(s)
    requires key in s.queues
    ensures Called(s, key, cb, now).1 == Queued
    ensures Called(s, key, cb, now).0.queues == s.queues[key := s.queues[key] + [cb]]
    ensures Called(s, key, cb, now).0.memo == Reaped(s, now).memo
  {
  }

  /** Calls and completions keep the table consistent. */
  lemma CalledConsistent<C, R>(s: State<C, R>, key: string, cb: C, now: int)
    requires Consistent(s)
    ensures Consistent(Called(s, key, cb, now).0)
  {
    ReapedConsistent(s, now);
  }

  lemma CompletedConsistent<C, R>(s: State<C, R>, key: string, result: R, ttl: Ttl, now: int)
    requires Consistent(s)
    ensures Consistent(Completed(s, key, result, ttl, now).0)
  {
  }

  /** Calls for a key already in flight all queue, in order, behind the
      callbacks already waiting, and store no result for the key. */
  lemma {:induction false} RunQueues<C, R>(s: State<C, R>, key: string, cbs: seq<C>, times: seq<int>)
    requires |cbs| == |times|
    requires key in s.queues && key !in s.memo
    decreases |cbs|
    ensures var run := Run(s, key, cbs, times);
            && |run.1| == |cbs|
            && (forall i :: 0 <= i < |run.1| ==> run.1[i] == Queued)
            && key in run.0.queues && run.0.queues[key] == s.queues[key] + cbs
            && key !in run.0.memo
  {
    if cbs != [] {
      var step := Called(s, key, cbs[0], times[0]);
      assert step.1 == Queued;
      assert step.0.queues[key] == s.queues[key] + [cbs[0]];
      RunQueues(step.0, key, cbs[1..], times[1..]);
      assert s.queues[key] + [cbs[0]] + cbs[1..] == s.queues[key] + cbs;
    }
  }

  /** Coalescing: calls for a key that is neither stored nor in flight start
      exactly one fetch (the first call); the others queue; the completion of
      that fetch fires every callback once, in the order of the calls, and
      leaves no queue for the key. */
  lemma Coalescing<C, R>(s: State<C, R>, key: string, cbs: seq<C>, times: seq<int>, result: R, ttl: Ttl, done: int)
    requires |cbs| == |times| && cbs != []
    requires key !in Reaped(s, times[0]).memo && key !in s.queues
    requires !ttl.Raises?
    ensures var run := Run(s, key, cbs, times);
            var fin := Completed(run.0, key, result, ttl, done);
            && |run.1| == |cbs|
            && run.1[0] == StartFetch
            && (forall i :: 1 <= i < |run.1| ==> run.1[i] == Queued)
            && fin.1 == cbs
            && key !in fin.0.queues
            && key in fin.0.memo && fin.0.memo[key] == result
  {
    var step := Called(s, key, cbs[0], times[0]);
    assert step.1 == StartFetch;
    assert step.0.queues[key] == [cbs[0]];
    RunQueues(step.0, key, cbs[1..], times[1..]);
    assert [cbs[0]] + cbs[1..] == cbs;
  }

  /** A completion for a key in flight fires its queue in order and stores the
      result; its deadline is `done + ttl` when the ttl is truthy, none otherwise. */
  lemma CompletionFiresQueue<C, R>(s: State<C, R>, key: string, result: R, ttl: Ttl, done: int)
    requires key in s.queues
    requires !ttl.Raises?
    ensures var fin := Completed(s, key, result, ttl, done);
            && fin.1 == s.queues[key]
            && !fin.2
            && fin.0.queues == s.queues - {key}
            && fin.0.memo == s.memo[key := result]
            && (SetsDeadline(ttl) ==> fin.0.exp == s.exp[key := done + ttl.n])
            && (!SetsDeadline(ttl) ==> fin.0.exp == s.exp)
  {
  }

  /** With a truthy number of seconds, the stored result is replayed by every
      call before `done + n` and a fresh fetch is started by the first call
      from then on. A negative count sets a deadline already passed. */
  lemma DeadlineBoundsReplay<C, R>(s: State<C, R>, key: string, result: R, n: int, done: int, cb: C, now: int)
    requires Consistent(s)
    requires key in s.queues
    requires n != 0
    ensures var fin := Completed(s, key, result, Seconds(n), done);
            Called(fin.0, key, cb, now).1 == if now < done + n then Replay(result) else StartFetch
  {
  }

  /** With a falsy ttl (zero or NaN) no deadline is set, so the result is
      never reaped and is replayed by every later call, however late. */
  lemma NoDeadlineReplaysForever<C, R>(s: State<C, R>, key: string, result: R, ttl: Ttl, done: int, cb: C, now: int)
    requires Consistent(s)
    requires key in s.queues
    requires !ttl.Raises? && !SetsDeadline(ttl)
    ensures var fin := Completed(s, key, result, ttl, done);
            Called(fin.0, key, cb, now) == (Reaped(fin.0, now), Replay(result))
  {
  }

  /** A stored result without a deadline survives any number of reaps. */
  lemma {:induction false} NoDeadlineSurvivesReaps<C, R>(s: State<C, R>, key: string, times: seq<int>)
    requires key in s.memo && key !in s.exp
    decreases |times|
    ensures var r := ReapAll(s, times);
            key in r.memo && r.memo[key] == s.memo[key] && key !in r.exp
  {
    if times != [] {
      NoDeadlineSurvivesReaps(Reaped(s, times[0]), key, times[1..]);
    }
  }

  function ReapAll<C, R>(s: State<C, R>, times: seq<int>): State<C, R>
    decreases |times|
  {
    if times == [] then s else ReapAll(Reaped(s, times[0]), times[1..])
  }

  /** A completion whose invalidator raises changes nothing: the queue stays,
      so every later call for the key only queues and no fetch is ever restarted. */
  lemma RaisingCompletionStrandsQueue<C, R>(s: State<C, R>, key: string, result: R, done: int, cb: C, now: int)
    requires Consistent(s)
    requires key in s.queues
    ensures var fin := Completed(s, key, result, Raises, done);
            && fin == (s, [], true)
            && Called(fin.0, key, cb, now).1 == Queued
  {
  }

  /** A completion for a key with no queue (a second completion of one
      fetch) stores the result, fires nothing and raises. */
  lemma UnqueuedCompletionRaises<C, R>(s: State<C, R>, key: string, result: R, ttl: Ttl, done: int)
    requires key !in s.queues
    ensures var fin := Completed(s, key, result, ttl, done);
            && fin.1 == [] && fin.2
            && (!ttl.Raises? ==> key in fin.0.memo && fin.0.memo[key] == result && fin.0.queues == s.queues)
  {
  }

  /** The memo table as the closure holds it. */
  class Memo<C, R> {
    var exp: map<string, int>
    var memo: map<string, R>
    var queues: map<string, seq<C>>
    const invalidator: R -> Ttl

    function Snapshot(): State<C, R>
      reads this
    {
      State(exp, memo, queues)
    }

    ghost predicate Valid()
      reads this
    {
      Consistent(Snapshot())
    }

    constructor (invalidator: R -> Ttl)
      ensures Valid()
      ensures Snapshot() == State(map[], map[], map[])
      ensures this.invalidator == invalidator
    {
      exp, memo, queues := map[], map[], map[];
      this.invalidator := invalidator;
    }

    /** `reap()`: walks the keys of `memo` and deletes each expired entry. */
    method Reap(now: int)
      modifies this
      ensures Snapshot() == Reaped(old(Snapshot()), now)
    {
      ghost var s0 := Snapshot();
      var keys := memo.Keys;
      while keys != {}
        invariant keys <= s0.memo.Keys
        invariant queues == s0.queues
        invariant memo == map k | k in s0.memo && !(k !in keys && Expired(s0, k, now)) :: s0.memo[k]
        invariant exp == map k | k in s0.exp && !(k in s0.memo && k !in keys && s0.exp[k] <= now) :: s0.exp[k]
        decreases keys
      {
        var key :| key in keys;
        if key in exp && exp[key] <= now {
          exp := exp - {key};
          memo := memo - {key};
        }
        keys := keys - {key};
      }
    }

    /** `memoized(args..., callback)` for the key the hasher gave. */
    method Call(key: string, cb: C, now: int) returns (out: Lookup<R>)
      requires Valid()
      modifies this
      ensures Valid()
      ensures (Snapshot(), out) == Called(old(Snapshot()), key, cb, now)
    {
      ghost var s0 := Snapshot();
      Reap(now);
      if key in memo {
        out := Replay(memo[key]);
      } else if key in queues {
        queues := queues[key := queues[key] + [cb]];
        out := Queued;
      } else {
        queues := queues[key := [cb]];
        out := StartFetch;
      }
      CalledConsistent(s0, key, cb, now);
    }

    /** The completion callback handed to `fn`: returns the callbacks it
        fires, in order, and whether it raises. */
    method Complete(key: string, result: R, now: int) returns (fired: seq<C>, raised: bool)
      requires Valid()
      modifies this
      ensures Valid()
      ensures (Snapshot(), fired, raised) == Completed(old(Snapshot()), key, result, invalidator(result), now)
    {
      ghost var s0 := Snapshot();
      var timeout := invalidator(result);
      if timeout.Raises? {
        fired, raised := [], true;
        return;
      }
      if SetsDeadline(timeout) {
        exp := exp[key := now + timeout.n];
      }
      memo := memo[key := result];
      if key in queues {
        fired, raised := queues[key], false;
        queues := queues - {key};
      } else {
        fired, raised := [], true;
      }
      CompletedConsistent(s0, key, result, timeout, now);
    }
  }
}
