# ex: source adapters and the greedy observable, in Dafny

This project models two parts of `ex`, a small push-based stream library for
JavaScript:

- the **source-adaptation layer** (`src/index.js`): `stream(thing)` makes a
  cold `LazyStream` from a JavaScript value. `makeSourceFn` tests the value in
  a fixed order: array, emitter (`on`), promise-like (`then`), stream
  (`subscribe`), plain function, value holder (`onChange`). It builds the
  matching producer, which is a function of the `(next, error, complete)`
  sinks. A value that passes none of the tests fails an assertion.
  `stream(undefined)` builds an inert stream with no producer.
- **`GreedyObservable`** (`src/observable.js`): it subscribes to its source once,
  for good, and overwrites `currentValue` with every item. Each `subscribe`
  builds `changes(startWith(currentValue, source))` and passes `null` as that
  subscription's error callback.

Files:

- `traces.dfy` (module `Traces`): the calls a producer makes on its sinks, as
  `Event = Next(v) | Error(e) | Complete`. Also `NextAll` (one `next` per
  element) and `Items` (the values a collecting subscriber ends up with),
  with their algebra.
- `sources.dfy` (module `Sources`): `src/index.js`. Asynchrony is made explicit.
  Whatever the outside world does during one activation is a `World` value:
  how a promise settles, which events an emitter fires, the value a holder
  holds and its later changes, and what a wrapped stream's `subscribe` or a
  plain producer function emits. Each producer is a trace function of the
  world (`ArrayTrace`, `PromiseTrace`, `EmitterTrace`, `ValueHolderTrace`,
  `Trace`). Each is also a method that calls a recording `Sink` step by step,
  as the source's callbacks do (`RunFromArray`, …, `Activate`, `Each`). Each
  method's `ensures` ties what it records to the trace function.
- `observable.dfy` (module `Observable`): `src/observable.js` as a class. It has
  the fields `currentValue` and `source`, plus ghost fields that record the
  seed and every item seen. `Valid()` says that `currentValue` is the last item
  seen, or the seed if there was none.

Two behaviours of the code a reader may not expect:

- A rejected promise reaches `error` and then `complete` as well. This is because
  `complete` is chained after the handler pair in `p.then(next, error).then(complete)`.
- An emitter's event name is taken by `makeSourceFn` from `_.rest(arguments)[0]`.
  Inside an arrow function, `arguments` is not the caller's argument list. The
  model passes the event name explicitly (see "Left out").

## Model

| member | source | states |
|---|---|---|
| `Sources.Classify` | src/index.js:27-48 | The kind chosen passes its own test, and every kind earlier in the `if` chain fails its test. So an array is always the array kind, whatever members it has. An emitter comes before a promise, a promise before a stream, a stream before a plain function, and a plain function before a value holder. The fall-through is reached only when every test fails. |
| `Sources.MakeSourceFn` | src/index.js:27-54 | Gives a producer exactly when the value is of a supported kind, and the producer is of that kind. An array producer carries the array's elements, and an emitter producer listens on the given event name. Otherwise the result is the unsupported-kind failure, which carries the offending value. |
| `Sources.Stream` | src/index.js:56-61 | `undefined` gives an inert stream with no producer and is never dispatched. Any other value gives a stream whose producer has that value's kind, or the unsupported-kind failure for that value. |
| `Sources.IsStreamDecides` | src/index.js:24-25 | `isStream` holds exactly of a truthy value whose `subscribe` is a function. For a value that reaches the stream test, it decides whether the value is wrapped as a stream. A value passing it is never taken as a plain function, a value holder or an unsupported value, even when it is itself a function. |
| `Sources.Trace` | src/index.js:5-47 | What each producer kind emits in one activation. An array gives its elements, then exactly one `complete`, and never `error`. A promise gives nothing while pending, otherwise two calls ending in `complete`: the value, or the reason through `error`. An emitter gives one `next` per occurrence of its event and never ends. A value holder gives the value held at activation first, then the changes, and never ends. A wrapped stream and a plain producer give exactly what that code emits. |
| `Sources.SubscribeTrace` | src/index.js:56-59 | An inert stream yields nothing. A stream over an array yields its elements and ends with `complete`, with no `error`. A stream over an emitter or a value holder never ends. |
| `Sources.ArrayTraceShape` | src/index.js:5-10 | The array producer emits `next(arr[i])` for every index, in order. Then it emits exactly one `complete` and never `error`. A collecting subscriber ends up with the array itself. |
| `Sources.RunFromArray` | src/index.js:5-10 | The `_.each` loop calls `next` once per element and then `complete`. What reaches the sink is exactly the array producer's trace. |
| `Sources.PromiseOutcome` | src/index.js:12-15 | A pending promise has emitted nothing. A fulfilled value `v` gives `next(v)` then `complete`, with no error. A rejection `e` gives `error(e)` then `complete`. Whenever something is emitted, it is two calls and the second is `complete`. |
| `Sources.RunFromPromise` | src/index.js:12-15 | The handler calls made once the promise settles are exactly the promise producer's trace. |
| `Sources.EmitterTraceCounts` | src/index.js:19-22 | The emitter producer emits one `next` per occurrence of the listened-to event (the number of times that name occurs among the firings). It never emits `error` or `complete`. |
| `Sources.EmitterTraceAppend` | src/index.js:19-22 | Order is kept: the events forwarded from firings `f` and then `g` are those forwarded from `f`, followed by those forwarded from `g`. |
| `Sources.EmitterTraceSingle` | src/index.js:21 | The one listener registered with `emitter.on(eventName, next)` forwards a firing, with its value, exactly when the firing has that name. |
| `Sources.RunFromEmitter` | src/index.js:19-22 | Running the registered listener on each firing in turn records exactly the emitter producer's trace. |
| `Sources.ValueHolderTraceShape` | src/index.js:43-47 | The first emission is the value `thing.value()` holds at activation. After it comes one `next` per change notification, in order, and never `error` or `complete`. |
| `Sources.RunFromValueHolder` | src/index.js:43-47 | `next(thing.value())` followed by the `onChange` listener running on each change records exactly the value-holder producer's trace. |
| `Sources.ArrayWins` | src/index.js:28-30 | Whatever other members an array has, it gets the array producer and that producer's trace. |
| `Sources.StreamDelegates` | src/index.js:37-39 | A value that reaches the stream test and passes it gets the producer `_.bind(s.subscribe, s)` (line 17). Subscribing through this producer yields exactly what `s.subscribe` yields. |
| `Sources.PlainFunctionPassesThrough` | src/index.js:40-42 | A plain function that passes none of the earlier tests is its own producer. The stream emits exactly what calling the function with the sinks emits. |
| `Sources.UndefinedIsInert` | src/index.js:56-59 | `stream(undefined)` succeeds, and subscribing to it yields nothing in any world. |
| `Sources.ArrayStreamDeliversElements` | test/test.js:7-12 | Subscribing to `stream(arr)` yields the array producer's trace in every world, so the items collected are exactly `arr`, in order. |
| `Sources.Deliver` | src/index.js:17 | Code this layer cannot see, a bound `subscribe` or a plain producer, calls the sinks with a trace. What reaches the sink is exactly that trace. |
| `Sources.Activate` | src/index.js:27-54 | Calling any producer built by `makeSourceFn` with a sink records exactly that producer's trace. |
| `Sources.Each` | src/index.js:64 | `each(str, n, e, c)` subscribes the sinks to `str`. What they record is the stream's subscription trace, which is empty for an inert stream. |
| `Observable.GreedyObservable.constructor` | src/observable.js:5-15 | Requires the argument to be a stream, because the assertion runs before any field is set. Afterwards the source is the given stream and the seed is `initialValue`. `currentValue` is the last item the source delivered during the subscription made in the constructor, or `initialValue` when there was none. So with no early delivery it equals `initialValue`. |
| `Observable.GreedyObservable.OnItem` | src/observable.js:13 | Each item overwrites `currentValue` and is appended to the items seen. The source and the seed do not change. |
| `Observable.GreedyObservable.Receive` | src/observable.js:11-14 | After the source emits the trace `t`, `currentValue` is the last item in `t`, or the previous value if `t` has no item. Errors and completion are ignored, and the source never changes. |
| `Observable.GreedyObservable.Subscribe` | src/observable.js:17-25 | The new subscription is seeded with the last item seen, or the seed when none was seen. It is built over the observable's own source and keeps the caller's `next` and `complete`. Its error slot is `null` whatever error handler was passed. Nothing of the observable is modified. |
| `Observable.SubscribeThenReceive` | src/observable.js:20-21 | The seed is a snapshot taken when `subscribe` is called. Items delivered later move `currentValue` on but leave that seed as it was. |
| `Observable.LastSeenAppend` | src/observable.js:13 | Overwriting a field with `xs` and then with `ys` leaves the same value as overwriting it with `xs + ys`. |

## Left out

- `LazyStream`, `changes`, `startWith`, `assertStream` and the combinators live in `src/stream.js`, which is not part of this model. A `LazyStream` is a holder of an optional producer. Subscribing to it is taken to call the producer with three sinks that are always functions: a sink the subscriber omits becomes a no-op, as the `Sink` class, which always has all three methods, assumes. Without that, `fromArray`'s unconditional `complete()` would fail for a subscriber that passes only `next`, as test/test.js:10 does, and a rejection would never reach `complete` when `error` is omitted. The stream library's rule that nothing passes after a terminal call is not modelled, so traces are the producers' raw calls.
- `Observable.GreedyObservable.constructor`: the stream check is stated as the precondition `IsStream`, the `isStream` test of src/index.js:24-25. The test `assertStream` really applies is in `src/stream.js`.
- `Observable.GreedyObservable.Subscribe`: what the derived `changes(startWith(…))` stream emits is not modelled. Neither is the unsubscribe handle `each` returns. The derived stream is only a record of its seed and source.
- Real asynchrony, such as promise scheduling, microtask order and listener registration. Settlement, firings, value changes and the events of a wrapped stream or plain producer are the explicit `World` of one activation.
- Event-name plumbing. `makeSourceFn` reads the emitter's event name from `_.rest(arguments)[0]`, which inside an arrow function is not its caller's argument. The model passes the event name to `MakeSourceFn` explicitly.
- `null` and other falsy non-`undefined` inputs. For `null` the source throws a `TypeError` at `thing.on`. The model classifies every value that passes no test as unsupported, so both cases fail at construction, through different errors.
- `Sources.MakeSourceFn`: the source holds the array by reference and reads it at each activation, so elements pushed after `stream(arr)` are emitted by later subscriptions. The model fixes the array's elements when the stream is built.
- `Sources.Trace`: the value-holder branch tests only `onChange`. A holder without a `value` function passes it and then throws a `TypeError` when activated. The model always emits `next(w.heldValue)` first.
- The diagnostic text built with `JSON.stringify`. The failure carries the offending value instead.
- Unsubscribe handles returned by producers, such as whatever `s.subscribe` or a plain producer returns. They are not modelled.
- Promise-likes whose `then` does not follow the usual promise semantics, and sinks that throw. If `next` or `error` threw, `complete` would not be chained.
- A firing and a change carry one value in the model. The source passes `next` every argument the emitter or holder supplies, since `next` itself is the registered listener.
- JavaScript values are one type parameter `V`. An array's elements are a sequence with no holes.
