# Dynamic component resolution, modelled in Dafny

This project models how one `createDynamicComponent` instance turns a source
into a component. A source is either inline code or `{ uri }`.

- Each instance owns two tables. `cache` maps a uri to a component, or to
  `null` once an attempt has failed. `tasks` maps a uri to the queue of
  `{resolve, reject}` waiters of the attempt in flight, or to `null` once
  that attempt has completed.
- The coalescer (`buildOpenUri`) does one of three things with a new waiter:
  it answers from the cache, it joins the queue in flight, or it queues the
  waiter alone and issues the one request for the uri.
- An attempt (`buildRequestOpenUri`) fetches the uri, requires string data,
  requires the injected `verify` to answer exactly `true`, and then compiles.
  It writes the cache and then hands a normalised error to completion. The
  model normalises with the corrected catch block of the first "## Findings"
  row, and looks up the cache by the instance's own entries only, as in the
  second row.
- Completion (`buildCompletionHandler`) clears the queue first. It then
  settles every queued waiter once, in arrival order.
- The router (`buildOpenWormhole`) compiles inline code only when
  `dangerouslySetInnerJSX === true`. It sends `{ uri }` to the coalescer and
  refuses everything else. `preload(uri)` routes `{ uri }` with the flag off.
- The compiler (`buildCreateComponent`) prefixes the source with one
  `var k = __DYNAMICCOMPONENT__.k;` line per key of the global namespace. It
  accepts only a function as the default export.

Modules:

- `JsValues` (jsvalues.dfy) models the JavaScript values involved, with
  `typeof`, truthiness and property reads.
- `Sandbox` (sandbox.dfy) holds the prelude text and the type check of the
  default export.
- `Attempt` (attempt.dfy) holds one attempt as a pure function of what the
  collaborators returned, and the catch block's normalisation.
- `Router` (router.dfy) holds the source routing.
- `Resolution` (resolution.dfy) holds the class `Instance`. Its fields are
  `cache: map<string, Entry>` and `tasks: map<string, Queue>`. It also keeps
  a log of every uri handed to the fetcher (`requested`) and a log of every
  `resolve`/`reject` call (`log`). The methods `OpenUri`, `Complete`,
  `FinishAttempt`, `Open` and `Preload` update these fields in place.

An attempt's asynchronous life is split into two atomic steps. The first is
the synchronous start inside `OpenUri`, which issues the fetch. The second is
`FinishAttempt(uri, x)`. `x` stands for what the fetcher, the verifier and the
evaluation of the compiled text produced.

The object invariant `Valid()` says three things:

- A uri has a pending queue only while it has no cache entry.
- A uri has been requested exactly when it is cached or in flight, and never
  twice.
- Every waiter handed in sits in exactly one place: the queue of one uri, or
  one entry of the settlement log.

A failed uri is not retried. `OpenUri` rejects it at once from the `null`
entry, and no new attempt starts (`Resolution.Instance.RequestedAtMostOnce`,
`Resolution.CoalescedScenario`).

## Model

| member | source | states |
|---|---|---|
| `Sandbox.CreateComponent` | src/constants/createDynamicComponent.tsx:50-61 | Resolves exactly when the evaluation returned a function, and then with that function. A throw passes through. Any other default export is rejected with "Expected function, encountered <typeof>". |
| `Sandbox.SplitJoin` | src/constants/createDynamicComponent.tsx:53 | Splitting the `join` of a non-empty list gives the list back when no part contains the separator. |
| `Sandbox.Declaration` | src/constants/createDynamicComponent.tsx:53 | The binding of one key declares the key itself (`var key`) and ends with `__DYNAMICCOMPONENT__.key;`, reading that key from the namespace object. It holds no line break when the key holds none. |
| `Sandbox.Declarations` | src/constants/createDynamicComponent.tsx:53 | The `map` over the keys gives one binding per key, in key order. None holds a line break when no key does. |
| `Sandbox.Join` | src/constants/createDynamicComponent.tsx:53 | Joining no parts gives the empty text. A join starts with its first part. |
| `Sandbox.JoinSeparators` | src/constants/createDynamicComponent.tsx:53 | A join of parts free of the separator holds exactly one separator fewer than it has parts. |
| `Sandbox.Bindings` | src/constants/createDynamicComponent.tsx:53 | The bindings are empty exactly when the global namespace has no keys. |
| `Sandbox.Prelude` | src/constants/createDynamicComponent.tsx:53 | The compiled text starts with the bindings, and its length is the sum of its parts. |
| `Sandbox.PreludeParts` | src/constants/createDynamicComponent.tsx:53 | The compiled text reads back, in order, as the bindings, `; const exports = {}; `, the source verbatim, and `; return exports.default;`. |
| `Sandbox.BindingsOnePerKey` | src/constants/createDynamicComponent.tsx:53 | The bindings have one line per key of the global namespace, in key order. Line i is `var k = __DYNAMICCOMPONENT__.k;` for the i-th key k. They hold one line break fewer than there are keys. |
| `Attempt.RunAttempt` | src/constants/createDynamicComponent.tsx:75-90 | The fetch comes first. Verify is called only after string data. The prelude of the fetched data is evaluated only when the verdict is exactly `true`. The attempt succeeds exactly when that evaluation returns a function. A throw from the fetcher or from `verify` is the run's result unchanged. A verified run's result is `CreateComponent`'s verdict on the evaluation. |
| `Attempt.UnverifiedRunsFail` | src/constants/createDynamicComponent.tsx:82-87 | An unverified run never evaluates and always fails. Non-string data fails with "Expected string data, encountered <typeof>". A verdict other than `true` fails with "Failed to verify". |
| `Attempt.CompletionError` | src/constants/createDynamicComponent.tsx:89-98 | A successful attempt hands completion no error (a falsy value). A failed one hands it exactly what the catch block as written passes on, whenever that catch block completes. |
| `Attempt.CatchAsWritten` | src/constants/createDynamicComponent.tsx:91-98 | As written, the catch block completes for every thrown value except `null` and `undefined`. For those two, reading `e.message` throws. |
| `Attempt.Normalise` | src/constants/createDynamicComponent.tsx:93-98 | A thrown string becomes an Error with that message. A value with a string `message` becomes a fresh Error with that message. Anything else is passed on unchanged. |
| `Attempt.StringAndErrorAgree` | src/constants/createDynamicComponent.tsx:93-96 | A thrown `"boom"` and a thrown `Error("boom")` both reach the waiters as `Error("boom")`. |
| `Attempt.NormaliseIdempotent` | src/constants/createDynamicComponent.tsx:93-98 | Normalising twice is the same as normalising once, and the carried message is kept. |
| `Attempt.CatchAsWrittenAgrees` | src/constants/createDynamicComponent.tsx:91-98 | The catch block as written and `Normalise` agree on every value except `null` and `undefined`. |
| `Attempt.CatchAsWrittenDropsNullish` | src/constants/createDynamicComponent.tsx:95 | A thrown `null` or `undefined` makes the catch block throw, so completion is never called. |
| `Router.RouteSource` | src/constants/createDynamicComponent.tsx:149-167 | A string compiles inline exactly when the flag is `true`; otherwise it is refused with the inline-disallowed error. An object with a string `uri` goes to the coalescer with that uri. Anything else is refused with "Expected valid source, encountered <typeof>". |
| `Router.PreloadRoutesToUri` | src/constants/createDynamicComponent.tsx:210-212 | `{ uri }` reaches the coalescer with that uri, whatever the flag. |
| `Router.InlineNeedsLiteralTrue` | src/constants/createDynamicComponent.tsx:152 | Every flag other than the boolean `true`, truthy ones such as `1` and `"true"` included, refuses inline code with the inline-disallowed error. |
| `Resolution.Decide` | src/constants/createDynamicComponent.tsx:111-129 | The corrected coalescer's choice, reading own entries only (second "## Findings" row). It joins the queue exactly when the uri has no entry and a pending queue. It never resolves with an inherited member. |
| `Resolution.DecideAsWritten` | src/constants/createDynamicComponent.tsx:111-119 | The choice as written: it resolves with an inherited member exactly when the uri has no own entry and names a function of `Object.prototype`, and then with that member. |
| `Resolution.DecideFromOwnEntries` | src/constants/createDynamicComponent.tsx:111-129 | The coalescer resolves at once exactly for a cached component, and with it. It rejects at once exactly for a `null` entry. It starts an attempt exactly when there is neither an entry nor a pending queue. |
| `Resolution.DecideAsWrittenAgrees` | src/constants/createDynamicComponent.tsx:111-119 | The inherited-lookup reading agrees with own-entry lookup for every uri that is not an `Object.prototype` function. |
| `Resolution.InheritedMemberSkipsVerification` | src/constants/createDynamicComponent.tsx:111-119 | As written, the uri "toString" on a fresh instance resolves at once with an inherited built-in. Own-entry lookup starts an attempt instead. |
| `Resolution.CompletionOutcome` | src/constants/createDynamicComponent.tsx:35-45 | Resolves exactly when the entry holds a component, and with it. Otherwise it rejects with the supplied error when that is truthy, else with "Failed to allocate for uri". A rejection reason is always truthy. |
| `Resolution.FanOutSettlesQueue` | src/constants/createDynamicComponent.tsx:37-45 | The `forEach` settles exactly the queued waiters, in queue order, each with the same outcome. |
| `Resolution.AttemptEntry` | src/constants/createDynamicComponent.tsx:89-92 | The attempt writes a component entry exactly when it succeeded, with that component, and a `null` entry otherwise. |
| `Resolution.AttemptOutcomeGated` | src/constants/createDynamicComponent.tsx:76-98 | Waiters resolve exactly when the data is a string, the verdict is `true` and the evaluation returns a function, and then with that function. A string thrown by the fetcher, by `verify` or by the compiled code reaches them as an Error with that message. A verdict other than `true` rejects them with "Failed to verify". A fetcher that rejects with `Error(m)` rejects them with `Error(m)`. A verified default export that is not a function rejects them with "Expected function, encountered <typeof>". A thrown `null` or `undefined`, from any step, reaches them as the default error: this is the corrected catch block of the first "## Findings" row. |
| `Resolution.Instance.constructor` | src/constants/createDynamicComponent.tsx:180-181 | A new instance has empty tables of its own and satisfies the invariant. |
| `Resolution.Instance.Create` | src/constants/createDynamicComponent.tsx:169-181 | Construction fails with the missing-verify error exactly when `verify` is not a function. Otherwise it yields a fresh, valid instance with empty tables. |
| `Resolution.Instance.OpenUri` | src/constants/createDynamicComponent.tsx:110-130 | Follows the own-entry lookup of the second "## Findings" row. Keeps the invariant. A cached component resolves the waiter at once and a `null` entry rejects it at once with "could not be instantiated"; both leave the tables alone and issue no request. A pending queue gets the waiter appended. Otherwise the queue becomes `[waiter]` and exactly one request is issued. |
| `Resolution.Instance.Complete` | src/constants/createDynamicComponent.tsx:34-46 | Sets the queue to cleared. Appends one settlement per queued waiter, in queue order, all carrying the verdict from the cache entry. Leaves the cache and the request log alone. |
| `Resolution.Instance.FinishAttempt` | src/constants/createDynamicComponent.tsx:75-100 | Follows the corrected catch block of the first "## Findings" row. Writes the cache entry, the component or `null`, before any waiter is settled. Then it settles every queued waiter once with the attempt's outcome, clears the queue and keeps the invariant. |
| `Resolution.Instance.Open` | src/constants/createDynamicComponent.tsx:132-167 | Inline code yields its prelude for the compiler and leaves the instance unchanged. A refusal leaves it unchanged too. `{ uri }` behaves as `OpenUri` with a fresh waiter. |
| `Resolution.Instance.Preload` | src/constants/createDynamicComponent.tsx:210-212 | Behaves as `OpenUri(uri)` with a fresh waiter. |
| `Resolution.Instance.SettledAtMostOnce` | src/constants/createDynamicComponent.tsx:38-45 | No waiter is ever settled twice. |
| `Resolution.Instance.SettledOnceWhenIdle` | src/constants/createDynamicComponent.tsx:121-129 | Once no attempt is in flight, every waiter ever handed in has been settled exactly once. |
| `Resolution.Instance.RequestedAtMostOnce` | src/constants/createDynamicComponent.tsx:121-129 | A uri is requested at most once per instance. It has been requested exactly when it is cached or in flight, so a failed uri is never fetched again. |
| `Resolution.CoalescedScenario` | src/constants/createDynamicComponent.tsx:110-130 | Two opens of "a" before settlement issue one request, and both receive the attempt's outcome. A later preload issues no request: it gets the component, or "could not be instantiated" after a failure. |

## Left out

- Evaluating the compiled text with `new Function(...)(global)` is left out. The model produces the text (`Sandbox.Prelude`), and what running it returned or threw is an input.
- The values of the global namespace are not modelled, only its keys in `Object.keys` order. The default namespace's `require` shim is a call into the host module loader and is not part of this model.
- The fetcher (`axios` by default) and the injected `verify` are foreign I/O and an opaque check. Their results are inputs to `FinishAttempt`. The response is reduced to its `data` field.
- Promise scheduling and the event loop are left out. `OpenUri` and `FinishAttempt` are each one atomic step. When a waiter's continuation runs after `resolve`/`reject` is not modelled.
- Numbers are integers. `NaN` and fractions, with their truthiness, are not modelled.
- An `await` on a thenable default export is not modelled: a returned value is taken as it is.
- Property reads see only an object's own properties. Functions and primitives carry none of the properties read here.
- `options` is taken to be an object. Destructuring `null` options, which throws, is not modelled.
- The uri `"__proto__"` is not modelled. Writing it through `Object.assign` replaces the prototype of the tables.
- The React wrapper around the router, the UI component, and `Object.freeze` of the returned API are left out. They are rendering glue.
- `Resolution.Instance.FinishAttempt`: requires that an attempt for the uri is in flight. The source runs it only as the continuation of an attempt that `OpenUri` started.
- `Resolution.Instance.Complete`: requires the cache entry to be written already. Its only caller writes the entry first.

## Findings

| source | as written | input that shows it | evidently intended | confidence | as-written member | corrected member |
|---|---|---|---|---|---|---|
| src/constants/createDynamicComponent.tsx:95 | The catch block reads `e.message` on every thrown value that is not a string. For `null` or `undefined` that read throws, so the handler itself throws, completion is never called, and every queued waiter stays pending forever. | A fetcher that rejects with `undefined`, or a fetched source whose code runs `throw null` | Pass such a value on to completion, which then rejects every waiter with the default "Failed to allocate" error | medium, not executed | `Attempt.CatchAsWritten` (shown by `Attempt.CatchAsWrittenDropsNullish`) | `Attempt.Normalise` (proved in `Resolution.AttemptOutcomeGated` and `Resolution.Instance.SettledOnceWhenIdle`) |
| src/constants/createDynamicComponent.tsx:111-119 | `cache` is a plain object literal, so the lookup also finds inherited `Object.prototype` members. `typeof` finds a function there and resolves the waiter with it. | `preload("toString")` on a fresh instance resolves with `Object.prototype.toString`. No fetch and no verify happen. | Only entries the instance wrote count | high, not executed | `Resolution.DecideAsWritten` (shown by `Resolution.InheritedMemberSkipsVerification`) | `Resolution.Decide` (proved in `Resolution.DecideFromOwnEntries`, used by `Resolution.Instance.OpenUri`) |
