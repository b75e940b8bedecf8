/** One resolver instance (`createDynamicComponent`): the cache of settled uris,
    the queues of waiters per in-flight uri, the coalescer (`buildOpenUri`), the
    end of an attempt (`buildRequestOpenUri`), completion (`buildCompletionHandler`),
    the router's entry point and `preload`. */
module Resolution {
  import opened JsValues
  import Sandbox
  import Attempt
  import Router

  /** The `{resolve, reject}` pair a caller hands in, known by its identity. */
  type WaiterId = nat

  /** A cache entry: a component, or `null`, the marker of a failed attempt. */
  datatype Entry = Loaded(component: nat) | Failed

  /** A tasks entry: the waiters of the attempt in flight, or `null` once completed. */
  datatype Queue = Pending(waiters: seq<WaiterId>) | Cleared

  datatype Outcome = Resolved(component: nat) | Rejected(reason: Value)

  /** One call of a waiter's `resolve` or `reject`. */
  datatype Settlement = Settlement(waiter: WaiterId, outcome: Outcome)

  /** Where a waiter stands: queued behind the attempt for `uri`, or settled by
      the log entry at `index`. */
  datatype Status = Waiting(uri: string) | Done(index: nat)

  /** What the coalescer does with a new waiter. */
  datatype Decision =
    | ResolveNow(component: nat)
    | RejectNow
    | JoinQueue
    | StartAttempt
    | ResolveInherited(member: string)  // only the inherited-lookup reading produces this

  /** What `open` hands back: text for the sandbox compiler, a rejection, or a
      waiter the coalescer will settle. */
  datatype Opened = Compiling(code: string) | Refused(error: Value) | Awaiting(waiter: WaiterId)

  function CouldNotInstantiateMessage(uri: string): string
  {
    "[DynamicComponent]: Component at uri \"" + uri + "\" could not be instantiated."
  }

  function FailedToAllocateMessage(uri: string): string
  {
    "[DynamicComponent]: Failed to allocate for uri \"" + uri + "\"."
  }

  const MissingVerifyMessage :=
    "[DynamicComponent]: To create a DynamicComponent, you **must** pass a verify() function."

  /** The coalescer's choice, reading only the instance's own entries. */
  function Decide(cache: map<string, Entry>, tasks: map<string, Queue>, uri: string): (d: Decision)
    ensures d.JoinQueue? <==> uri !in cache && IsPending(tasks, uri)
    ensures !d.ResolveInherited?
  {
    if uri in cache then
      match cache[uri]
      case Failed => RejectNow
      case Loaded(c) => ResolveNow(c)
    else if uri in tasks && tasks[uri].Pending? then JoinQueue
    else StartAttempt
  }

  /** The function-valued members every plain object inherits from `Object.prototype`. */
  const ObjectPrototypeFunctions: set<string> :=
    {"constructor", "hasOwnProperty", "isPrototypeOf", "propertyIsEnumerable",
     "toLocaleString", "toString", "valueOf",
     "__defineGetter__", "__defineSetter__", "__lookupGetter__", "__lookupSetter__"}

  /** The coalescer's choice as written: the cache is a plain object, so a uri
      naming an inherited function finds that function and resolves with it. */
  function DecideAsWritten(cache: map<string, Entry>, tasks: map<string, Queue>, uri: string): (d: Decision)
    ensures d.ResolveInherited? <==> uri !in cache && uri in ObjectPrototypeFunctions
    ensures d.ResolveInherited? ==> d.member == uri
  {
    if uri !in cache && uri in ObjectPrototypeFunctions then ResolveInherited(uri)
    else Decide(cache, tasks, uri)
  }

  /** The coalescer answers at once only from an entry the instance itself wrote,
      and starts an attempt only when there is neither an entry nor a queue. */
  lemma DecideFromOwnEntries(cache: map<string, Entry>, tasks: map<string, Queue>, uri: string)
    ensures Decide(cache, tasks, uri).ResolveNow? <==> uri in cache && cache[uri].Loaded?
    ensures Decide(cache, tasks, uri).ResolveNow? ==> cache[uri] == Loaded(Decide(cache, tasks, uri).component)
    ensures Decide(cache, tasks, uri).RejectNow? <==> uri in cache && cache[uri] == Failed
    ensures Decide(cache, tasks, uri).StartAttempt? <==>
              uri !in cache && !(uri in tasks && tasks[uri].Pending?)
    ensures !Decide(cache, tasks, uri).ResolveInherited?
  {
  }

  lemma DecideAsWrittenAgrees(cache: map<string, Entry>, tasks: map<string, Queue>, uri: string)
    requires uri !in ObjectPrototypeFunctions
    ensures DecideAsWritten(cache, tasks, uri) == Decide(cache, tasks, uri)
  {
  }

  /** The discrepancy: on a fresh instance, the uri "toString" resolves at once
      with a built-in function, with no fetch and no verification. */
  lemma InheritedMemberSkipsVerification(tasks: map<string, Queue>)
    ensures DecideAsWritten(map[], tasks, "toString") == ResolveInherited("toString")
    ensures "toString" !in tasks ==> Decide(map[], tasks, "toString") == StartAttempt
  {
  }

  /** Completion's verdict for every queued waiter: resolve with a cached
      component, else reject with the supplied error when it is truthy, else with
      the default error. */
  function CompletionOutcome(uri: string, entry: Entry, error: Value): (o: Outcome)
    ensures o.Resolved? <==> entry.Loaded?
    ensures o.Resolved? ==> o.component == entry.component
    ensures o.Rejected? ==> Truthy(o.reason)
    ensures o.Rejected? && Truthy(error) ==> o.reason == error
    ensures o.Rejected? && !Truthy(error) ==> o.reason == MakeError(FailedToAllocateMessage(uri))
  {
    match entry
    case Loaded(c) => Resolved(c)
    case Failed => Rejected(if Truthy(error) then error else MakeError(FailedToAllocateMessage(uri)))
  }

  /** The settlements of `forEach` over a queue: one per waiter, in queue order. */
  function FanOut(ws: seq<WaiterId>, o: Outcome): seq<Settlement>
  {
    seq(|ws|, i requires 0 <= i < |ws| => Settlement(ws[i], o))
  }

  /** The `forEach` settles exactly the queued waiters, in queue order, all alike. */
  lemma FanOutSettlesQueue(ws: seq<WaiterId>, o: Outcome)
    ensures SettledWaiters(FanOut(ws, o)) == ws
    ensures forall i :: 0 <= i < |FanOut(ws, o)| ==> FanOut(ws, o)[i].outcome == o
  {
  }

  /** What an attempt writes to the cache. */
  function AttemptEntry(run: Attempt.Run): (e: Entry)
    ensures e.Loaded? <==> run.result.Returned?
    ensures e.Loaded? ==> e.component == run.result.value
  {
    if run.result.Returned? then Loaded(run.result.value) else Failed
  }

  /** What every waiter of an attempt receives. */
  function AttemptOutcome(uri: string, keys: seq<string>, x: Attempt.Externals): Outcome
  {
    var run := Attempt.RunAttempt(uri, keys, x);
    CompletionOutcome(uri, AttemptEntry(run), Attempt.CompletionError(run))
  }

  /** Waiters are resolved only with a verified, compiled function; every other
      attempt rejects them with a real error, thrown text becoming an Error and a
      thrown null or undefined becoming the default error. */
  lemma AttemptOutcomeGated(uri: string, keys: seq<string>, x: Attempt.Externals)
    ensures AttemptOutcome(uri, keys, x).Resolved? <==>
              Attempt.Verified(x) && x.evaluation.Returned? && x.evaluation.value.Function?
    ensures AttemptOutcome(uri, keys, x).Resolved? ==>
              x.evaluation.value == Function(AttemptOutcome(uri, keys, x).component)
    ensures AttemptOutcome(uri, keys, x).Rejected? ==> Truthy(AttemptOutcome(uri, keys, x).reason)
    ensures forall s :: x.response == Threw(Str(s)) ==>
              AttemptOutcome(uri, keys, x) == Rejected(MakeError(s))
    ensures x.response == Threw(Null) || x.response == Threw(Undefined) ==>
              AttemptOutcome(uri, keys, x) == Rejected(MakeError(FailedToAllocateMessage(uri)))
    ensures forall s :: Attempt.RunAttempt(uri, keys, x).result == Threw(Str(s)) ==>
              AttemptOutcome(uri, keys, x) == Rejected(MakeError(s))
    ensures Attempt.RunAttempt(uri, keys, x).result.Threw? && Attempt.RunAttempt(uri, keys, x).result.thrown in {Null, Undefined} ==>
              AttemptOutcome(uri, keys, x) == Rejected(MakeError(FailedToAllocateMessage(uri)))
    ensures x.response.Returned? && x.response.value.Str? && x.verdict.Returned? && x.verdict.value != Bool(true) ==>
              AttemptOutcome(uri, keys, x) == Rejected(MakeError(Attempt.FailedToVerifyMessage(uri)))
    ensures forall m :: x.response == Threw(MakeError(m)) ==> AttemptOutcome(uri, keys, x) == Rejected(MakeError(m))
    ensures Attempt.Verified(x) && x.evaluation.Returned? && !x.evaluation.value.Function? ==>
              AttemptOutcome(uri, keys, x) ==
              Rejected(MakeError(Sandbox.ExpectedFunctionMessage(TypeOf(x.evaluation.value))))
  {
    var run := Attempt.RunAttempt(uri, keys, x);
    if run.result.Threw? {
      Attempt.NormaliseIdempotent(run.result.thrown);
    }
  }

  /** How often `x` occurs in `s`. */
  function Occurrences<T(==)>(s: seq<T>, x: T): nat
  {
    if s == [] then 0 else (if s[0] == x then 1 else 0) + Occurrences(s[1..], x)
  }

  ghost predicate Distinct<T>(s: seq<T>)
  {
    forall i, j :: 0 <= i < j < |s| ==> s[i] != s[j]
  }

  lemma {:induction false} OccursNever<T>(s: seq<T>, x: T)
    requires forall j :: 0 <= j < |s| ==> s[j] != x
    ensures Occurrences(s, x) == 0
  {
    if s != [] {
      OccursNever(s[1..], x);
    }
  }

  lemma {:induction false} OccursOnce<T>(s: seq<T>, x: T, i: nat)
    requires i < |s| && s[i] == x
    requires forall j :: 0 <= j < |s| && s[j] == x ==> j == i
    ensures Occurrences(s, x) == 1
  {
    if i == 0 {
      OccursNever(s[1..], x);
    } else {
      OccursOnce(s[1..], x, i - 1);
    }
  }

  lemma DistinctAtMostOnce<T>(s: seq<T>, x: T)
    requires Distinct(s)
    ensures Occurrences(s, x) <= 1
    ensures Occurrences(s, x) == 1 <==> x in s
  {
    if x in s {
      var i :| 0 <= i < |s| && s[i] == x;
      OccursOnce(s, x, i);
    } else {
      OccursNever(s, x);
    }
  }

  /** The waiters in the order they were settled. */
  function SettledWaiters(log: seq<Settlement>): seq<WaiterId>
  {
    seq(|log|, i requires 0 <= i < |log| => log[i].waiter)
  }

  predicate IsPending(tasks: map<string, Queue>, uri: string)
  {
    uri in tasks && tasks[uri].Pending?
  }

  /** A cleared queue belongs to a settled uri, and a uri has been requested
      exactly when it is settled or in flight, never twice. */
  ghost predicate TablesCoherent(cache: map<string, Entry>, tasks: map<string, Queue>, requested: seq<string>)
  {
    && (forall u :: u in tasks && tasks[u].Cleared? ==> u in cache)
    && (forall u :: u in requested <==> (u in cache || IsPending(tasks, u)))
    && Distinct(requested)
  }

  /** No attempt is in flight for a settled uri. */
  ghost predicate Separated(cache: map<string, Entry>, tasks: map<string, Queue>)
  {
    forall u :: IsPending(tasks, u) ==> u !in cache
  }

  /** Every waiter handed in so far sits in exactly one place: once in the
      pending queue of one uri, or at one index of the settlement log. */
  ghost predicate WaitersCoherent(tasks: map<string, Queue>, log: seq<Settlement>, next: WaiterId,
                                  status: map<WaiterId, Status>)
  {
    && (forall u :: IsPending(tasks, u) ==> tasks[u].waiters != [] && Distinct(tasks[u].waiters))
    && (forall w: WaiterId :: w in status <==> w < next)
    && (forall w :: w in status && status[w].Waiting? ==>
          IsPending(tasks, status[w].uri) && w in tasks[status[w].uri].waiters)
    && (forall w :: w in status && status[w].Done? ==>
          status[w].index < |log| && log[status[w].index].waiter == w)
    && (forall u, k :: IsPending(tasks, u) && 0 <= k < |tasks[u].waiters| ==>
          tasks[u].waiters[k] in status && status[tasks[u].waiters[k]] == Waiting(u))
    && (forall i :: 0 <= i < |log| ==> log[i].waiter in status && status[log[i].waiter] == Done(i))
  }

  lemma SettleNewWaiter(tasks: map<string, Queue>, log: seq<Settlement>, next: WaiterId,
                        status: map<WaiterId, Status>, o: Outcome)
    requires WaitersCoherent(tasks, log, next, status)
    ensures WaitersCoherent(tasks, log + [Settlement(next, o)], next + 1, status[next := Done(|log|)])
  {
  }

  lemma QueueNewWaiter(tasks: map<string, Queue>, log: seq<Settlement>, next: WaiterId,
                       status: map<WaiterId, Status>, uri: string)
    requires WaitersCoherent(tasks, log, next, status)
    ensures var ws := if IsPending(tasks, uri) then tasks[uri].waiters else [];
            WaitersCoherent(tasks[uri := Pending(ws + [next])], log, next + 1, status[next := Waiting(uri)])
  {
  }

  /** The statuses after the waiters `ws` are settled at log indices `base`, `base + 1`, ... */
  ghost function MarkSettled(status: map<WaiterId, Status>, ws: seq<WaiterId>, base: nat): map<WaiterId, Status>
    decreases |ws|
  {
    if ws == [] then status else MarkSettled(status[ws[0] := Done(base)], ws[1..], base + 1)
  }

  lemma {:induction false} MarkSettledSpec(status: map<WaiterId, Status>, ws: seq<WaiterId>, base: nat)
    requires Distinct(ws)
    requires forall k :: 0 <= k < |ws| ==> ws[k] in status
    ensures MarkSettled(status, ws, base).Keys == status.Keys
    ensures forall k :: 0 <= k < |ws| ==> MarkSettled(status, ws, base)[ws[k]] == Done(base + k)
    ensures forall w :: w in status && w !in ws ==> MarkSettled(status, ws, base)[w] == status[w]
  {
    if ws != [] {
      var status' := status[ws[0] := Done(base)];
      MarkSettledSpec(status', ws[1..], base + 1);
      var r := MarkSettled(status, ws, base);
      assert r == MarkSettled(status', ws[1..], base + 1);
      forall k | 0 <= k < |ws|
        ensures r[ws[k]] == Done(base + k)
      {
        if k > 0 {
          assert ws[k] == ws[1..][k - 1];
        } else {
          assert ws[0] !in ws[1..];
        }
      }
      forall w | w in status && w !in ws
        ensures r[w] == status[w]
      {
        assert w !in ws[1..] && w != ws[0];
      }
    }
  }

  lemma CompleteKeeps(tasks: map<string, Queue>, log: seq<Settlement>, next: WaiterId,
                      status: map<WaiterId, Status>, uri: string, o: Outcome)
    requires WaitersCoherent(tasks, log, next, status) && IsPending(tasks, uri)
    ensures WaitersCoherent(tasks[uri := Cleared], log + FanOut(tasks[uri].waiters, o), next,
                            MarkSettled(status, tasks[uri].waiters, |log|))
  {
    var ws := tasks[uri].waiters;
    MarkSettledSpec(status, ws, |log|);
    CompleteKeepsWaiters(tasks, log, next, status, uri, o, MarkSettled(status, ws, |log|));
  }

  lemma CompleteKeepsWaiters(tasks: map<string, Queue>, log: seq<Settlement>, next: WaiterId,
                             status: map<WaiterId, Status>, uri: string, o: Outcome,
                             status': map<WaiterId, Status>)
    requires WaitersCoherent(tasks, log, next, status) && IsPending(tasks, uri)
    requires status'.Keys == status.Keys
    requires forall k :: 0 <= k < |tasks[uri].waiters| ==>
               status'[tasks[uri].waiters[k]] == Done(|log| + k)
    requires forall w :: w in status' && w !in tasks[uri].waiters ==> status'[w] == status[w]
    ensures WaitersCoherent(tasks[uri := Cleared], log + FanOut(tasks[uri].waiters, o), next, status')
  {
    var ws := tasks[uri].waiters;
    var tasks', log' := tasks[uri := Cleared], log + FanOut(ws, o);
    forall w | w in status' && status'[w].Waiting?
      ensures IsPending(tasks', status'[w].uri) && w in tasks'[status'[w].uri].waiters
    {
      assert w !in ws;
    }
    forall w | w in status' && status'[w].Done?
      ensures status'[w].index < |log'| && log'[status'[w].index].waiter == w
    {
      if w !in ws {
        assert status'[w] == status[w];
      }
    }
    forall u, k | IsPending(tasks', u) && 0 <= k < |tasks'[u].waiters|
      ensures tasks'[u].waiters[k] in status' && status'[tasks'[u].waiters[k]] == Waiting(u)
    {
      assert tasks'[u] == tasks[u] && status[tasks[u].waiters[k]] == Waiting(u);
    }
    forall i | 0 <= i < |log'|
      ensures log'[i].waiter in status' && status'[log'[i].waiter] == Done(i)
    {
      if i >= |log| {
        assert log'[i].waiter == ws[i - |log|];
      }
    }
  }

  lemma StartKeepsTables(cache: map<string, Entry>, tasks: map<string, Queue>, requested: seq<string>,
                         uri: string, w: WaiterId)
    requires TablesCoherent(cache, tasks, requested) && Separated(cache, tasks)
    requires uri !in cache && !IsPending(tasks, uri)
    ensures TablesCoherent(cache, tasks[uri := Pending([w])], requested + [uri])
    ensures Separated(cache, tasks[uri := Pending([w])])
  {
    assert uri !in requested;
  }

  lemma JoinKeepsTables(cache: map<string, Entry>, tasks: map<string, Queue>, requested: seq<string>,
                        uri: string, ws: seq<WaiterId>)
    requires TablesCoherent(cache, tasks, requested) && Separated(cache, tasks)
    requires IsPending(tasks, uri)
    ensures TablesCoherent(cache, tasks[uri := Pending(ws)], requested)
    ensures Separated(cache, tasks[uri := Pending(ws)])
  {
  }

  lemma ClearKeepsTables(cache: map<string, Entry>, tasks: map<string, Queue>, requested: seq<string>,
                         uri: string)
    requires TablesCoherent(cache, tasks, requested) && uri in cache
    requires forall u :: IsPending(tasks, u) && u != uri ==> u !in cache
    ensures TablesCoherent(cache, tasks[uri := Cleared], requested)
    ensures Separated(cache, tasks[uri := Cleared])
  {
  }

  datatype Created = Built(instance: Instance) | Thrown(error: Value)

  class Instance {
    /** The keys of the global namespace, bound before every compiled source. */
    const globalKeys: seq<string>
    var cache: map<string, Entry>
    var tasks: map<string, Queue>
    /** Every uri handed to the fetcher, in order. */
    var requested: seq<string>
    /** Every `resolve`/`reject` call, in order. */
    var log: seq<Settlement>
    /** The identity the next caller's waiter gets. */
    var nextWaiter: WaiterId
    ghost var status: map<WaiterId, Status>


    /** The tables and the waiters agree, except that an attempt may already have
        written the cache for a uri whose queue completion has not yet cleared. */
    ghost predicate Coherent()
      reads this
    {
      TablesCoherent(cache, tasks, requested) && WaitersCoherent(tasks, log, nextWaiter, status)
    }

    /** A queue is pending only while the cache has no entry for its uri. */
    ghost predicate Valid()
      reads this
    {
      Coherent() && Separated(cache, tasks)
    }

    constructor (keys: seq<string>)
      ensures Valid() && globalKeys == keys
      ensures cache == map[] && tasks == map[] && requested == [] && log == [] && nextWaiter == 0
    {
      globalKeys := keys;
      cache, tasks := map[], map[];
      requested, log := [], [];
      nextWaiter := 0;
      status := map[];
    }

    /** Construction refuses a `verify` that is not a function; otherwise the
        instance starts with tables of its own, both empty. */
    static method Create(keys: seq<string>, verify: Value) returns (r: Created)
      ensures r.Thrown? <==> !verify.Function?
      ensures r.Thrown? ==> r.error == MakeError(MissingVerifyMessage)
      ensures r.Built? ==> fresh(r.instance) && r.instance.Valid() && r.instance.globalKeys == keys
      ensures r.Built? ==> r.instance.cache == map[] && r.instance.tasks == map[]
      ensures r.Built? ==> r.instance.requested == [] && r.instance.log == [] && r.instance.nextWaiter == 0
    {
      if !verify.Function? {
        return Thrown(MakeError(MissingVerifyMessage));
      }
      var instance := new Instance(keys);
      r := Built(instance);
    }

    /** The state after the coalescer handled waiter `w` for `uri`, given the
        state before. */
    ghost predicate OpenedUri(uri: string, w: WaiterId, cache0: map<string, Entry>,
                              tasks0: map<string, Queue>, requested0: seq<string>, log0: seq<Settlement>)
      reads this
    {
      && nextWaiter == w + 1
      && cache == cache0
      && match Decide(cache0, tasks0, uri)
         case ResolveNow(c) =>
           log == log0 + [Settlement(w, Resolved(c))] && tasks == tasks0 && requested == requested0
         case RejectNow =>
           log == log0 + [Settlement(w, Rejected(MakeError(CouldNotInstantiateMessage(uri))))]
           && tasks == tasks0 && requested == requested0
         case JoinQueue =>
           log == log0 && tasks == tasks0[uri := Pending(tasks0[uri].waiters + [w])]
           && requested == requested0
         case StartAttempt =>
           log == log0 && tasks == tasks0[uri := Pending([w])] && requested == requested0 + [uri]
         case ResolveInherited(_) => false
    }

    /** The coalescer: answer from the cache, join the attempt in flight, or queue
        the waiter alone and issue the one request for `uri`. */
    method OpenUri(uri: string) returns (w: WaiterId)
      requires Valid()
      modifies this
      ensures Valid()
      ensures w == old(nextWaiter)
      ensures OpenedUri(uri, w, old(cache), old(tasks), old(requested), old(log))
    {
      w := nextWaiter;
      if uri in cache {
        var o := match cache[uri]
                 case Failed => Rejected(MakeError(CouldNotInstantiateMessage(uri)))
                 case Loaded(c) => Resolved(c);
        SettleNewWaiter(tasks, log, w, status, o);
        status, log, nextWaiter := status[w := Done(|log|)], log + [Settlement(w, o)], w + 1;
      } else if IsPending(tasks, uri) {
        var ws := tasks[uri].waiters + [w];
        QueueNewWaiter(tasks, log, w, status, uri);
        JoinKeepsTables(cache, tasks, requested, uri, ws);
        tasks, status, nextWaiter := tasks[uri := Pending(ws)], status[w := Waiting(uri)], w + 1;
      } else {
        QueueNewWaiter(tasks, log, w, status, uri);
        StartKeepsTables(cache, tasks, requested, uri, w);
        assert [] + [w] == [w];
        tasks, status, requested, nextWaiter := tasks[uri := Pending([w])], status[w := Waiting(uri)], requested + [uri], w + 1;
      }
    }

    /** Completion: clear the queue first, then settle every queued waiter once,
        in arrival order, with the verdict the cache entry dictates. */
    method Complete(uri: string, error: Value)
      requires Coherent() && IsPending(tasks, uri) && uri in cache
      requires forall u :: IsPending(tasks, u) && u != uri ==> u !in cache
      modifies this
      ensures Valid()
      ensures tasks == old(tasks)[uri := Cleared]
      ensures log == old(log) + FanOut(old(tasks)[uri].waiters, CompletionOutcome(uri, old(cache)[uri], error))
      ensures cache == old(cache) && requested == old(requested) && nextWaiter == old(nextWaiter)
    {
      ghost var tasks0, log0, status0 := tasks, log, status;
      var callbacks := tasks[uri].waiters;
      var outcome := CompletionOutcome(uri, cache[uri], error);
      ClearKeepsTables(cache, tasks, requested, uri);
      tasks := tasks[uri := Cleared];
      var i := 0;
      while i < |callbacks|
        invariant 0 <= i <= |callbacks|
        invariant tasks == tasks0[uri := Cleared] && cache == old(cache) && status == status0
        invariant requested == old(requested) && nextWaiter == old(nextWaiter)
        invariant log == log0 + FanOut(callbacks[..i], outcome)
      {
        log := log + [Settlement(callbacks[i], outcome)];
        i := i + 1;
        assert callbacks[..i] == callbacks[..i - 1] + [callbacks[i - 1]];
      }
      assert callbacks[..i] == callbacks;
      CompleteKeeps(tasks0, log0, nextWaiter, status0, uri, outcome);
      status := MarkSettled(status0, callbacks, |log0|);
    }

    /** The end of the attempt started for `uri`: write the cache (the component,
        or the failure marker), then complete with the normalised error. */
    method FinishAttempt(uri: string, x: Attempt.Externals)
      requires Valid() && IsPending(tasks, uri)
      modifies this
      ensures Valid()
      ensures cache == old(cache)[uri := AttemptEntry(Attempt.RunAttempt(uri, globalKeys, x))]
      ensures tasks == old(tasks)[uri := Cleared]
      ensures log == old(log) + FanOut(old(tasks)[uri].waiters, AttemptOutcome(uri, globalKeys, x))
      ensures requested == old(requested) && nextWaiter == old(nextWaiter)
    {
      var run := Attempt.RunAttempt(uri, globalKeys, x);
      match run.result
      case Returned(c) =>
        cache := cache[uri := Loaded(c)];
        Complete(uri, Undefined);
      case Threw(e) =>
        cache := cache[uri := Failed];
        Complete(uri, Attempt.Normalise(e));
    }

    /** The router's entry point: inline code goes to the sandbox compiler and
        touches neither table; `{ uri }` goes to the coalescer; the rest is refused. */
    method Open(source: Value, allowInline: Value) returns (r: Opened)
      requires Valid()
      modifies this
      ensures Valid()
      ensures match Router.RouteSource(source, allowInline)
              case CompileInline(code) =>
                r == Compiling(Sandbox.Prelude(globalKeys, code)) && unchanged(this)
              case Refuse(e) =>
                r == Refused(e) && unchanged(this)
              case OpenRemote(uri) =>
                r == Awaiting(old(nextWaiter))
                && OpenedUri(uri, r.waiter, old(cache), old(tasks), old(requested), old(log))
    {
      match Router.RouteSource(source, allowInline)
      case CompileInline(code) =>
        r := Compiling(Sandbox.Prelude(globalKeys, code));
      case Refuse(e) =>
        r := Refused(e);
      case OpenRemote(uri) =>
        var w := OpenUri(uri);
        r := Awaiting(w);
    }

    /** `preload(uri)`: open `{ uri }` with inline execution off. */
    method Preload(uri: string) returns (w: WaiterId)
      requires Valid()
      modifies this
      ensures Valid()
      ensures w == old(nextWaiter)
      ensures OpenedUri(uri, w, old(cache), old(tasks), old(requested), old(log))
    {
      Router.PreloadRoutesToUri(uri, Bool(false));
      var r := Open(Router.UriSource(uri), Bool(false));
      w := r.waiter;
    }

    /** No waiter is ever settled twice. */
    lemma SettledAtMostOnce(w: WaiterId)
      requires Valid()
      ensures Occurrences(SettledWaiters(log), w) <= 1
    {
      var s := SettledWaiters(log);
      if w in status && status[w].Done? {
        OccursOnce(s, w, status[w].index);
      } else {
        OccursNever(s, w);
      }
    }

    /** Once no attempt is in flight, every waiter ever handed in has been
        settled exactly once. */
    lemma SettledOnceWhenIdle()
      requires Valid()
      requires forall u :: !IsPending(tasks, u)
      ensures forall w: WaiterId :: w < nextWaiter ==> Occurrences(SettledWaiters(log), w) == 1
    {
      forall w: WaiterId | w < nextWaiter
        ensures Occurrences(SettledWaiters(log), w) == 1
      {
        assert w in status;
        var st := status[w];
        assert st.Waiting? ==> IsPending(tasks, st.uri);
        OccursOnce(SettledWaiters(log), w, status[w].index);
      }
    }

    /** At most one request per uri over the instance's lifetime, and there has
        been one exactly when the uri is cached or in flight: a failed uri is never
        fetched again. */
    lemma RequestedAtMostOnce(uri: string)
      requires Valid()
      ensures Occurrences(requested, uri) <= 1
      ensures Occurrences(requested, uri) == 1 <==> uri in cache || IsPending(tasks, uri)
    {
      DistinctAtMostOnce(requested, uri);
    }
  }

  /** Two callers open "a" on a fresh instance before anything settles. */
  method OpenTwice(keys: seq<string>) returns (instance: Instance)
    ensures fresh(instance) && instance.Valid() && instance.globalKeys == keys
    ensures instance.cache == map[] && instance.tasks == map["a" := Pending([0, 1])]
    ensures instance.requested == ["a"] && instance.log == [] && instance.nextWaiter == 2
  {
    instance := new Instance(keys);
    var w1 := instance.OpenUri("a");
    assert instance.tasks == map["a" := Pending([0])] && instance.log == [] && w1 == 0;
    assert Decide(instance.cache, instance.tasks, "a") == JoinQueue;
    var w2 := instance.OpenUri("a");
    assert w2 == 1 && [0] + [1] == [0, 1];
  }

  /** The attempt for the two callers of `OpenTwice` ends: both are settled alike. */
  method OpenTwiceAndFinish(keys: seq<string>, x: Attempt.Externals) returns (instance: Instance)
    ensures fresh(instance) && instance.Valid() && instance.requested == ["a"]
    ensures instance.cache == map["a" := AttemptEntry(Attempt.RunAttempt("a", keys, x))]
    ensures instance.log == [Settlement(0, AttemptOutcome("a", keys, x)), Settlement(1, AttemptOutcome("a", keys, x))]
  {
    instance := OpenTwice(keys);
    var o := AttemptOutcome("a", keys, x);
    assert FanOut([0, 1], o) == [Settlement(0, o), Settlement(1, o)];
    instance.FinishAttempt("a", x);
  }

  /** Two callers open "a" before anything settles, the attempt ends, then `preload`
      asks again: one request in all; both callers get the attempt's outcome; the
      preload is answered from the cache, a failure included. */
  method CoalescedScenario(keys: seq<string>, x: Attempt.Externals)
    returns (requests: seq<string>, first: Outcome, second: Outcome, third: Outcome)
    ensures requests == ["a"]
    ensures first == second == AttemptOutcome("a", keys, x)
    ensures first.Resolved? ==> third == first
    ensures first.Rejected? ==> third == Rejected(MakeError(CouldNotInstantiateMessage("a")))
  {
    var instance := OpenTwiceAndFinish(keys, x);
    var o := AttemptOutcome("a", keys, x);
    var entry := AttemptEntry(Attempt.RunAttempt("a", keys, x));
    assert o.Resolved? <==> entry.Loaded?;
    assert o.Resolved? ==> Decide(instance.cache, instance.tasks, "a") == ResolveNow(o.component);
    assert o.Rejected? ==> Decide(instance.cache, instance.tasks, "a") == RejectNow;
    var w3 := instance.Preload("a");
    requests := instance.requested;
    first, second, third := instance.log[0].outcome, instance.log[1].outcome, instance.log[2].outcome;
  }
}
