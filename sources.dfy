/** The source-adaptation layer: how `stream(thing)` decides which kind of
    producer a JavaScript value is, and what each of the resulting cold
    producers does with the `(next, error, complete)` sinks it is handed.

    Asynchrony is made explicit: whatever the outside world does while one
    subscription is active (how a promise settles, which events an emitter
    fires, which values a value holder changes to, what a wrapped stream or a
    plain producer function emits) is a `World` value handed in beside the
    thing. */
module Sources {
  import opened Traces

  datatype Option<T> = None | Some(value: T)

  datatype Result<T, E> = Ok(value: T) | Err(error: E)

  /** A JavaScript value, as far as the tests in `makeSourceFn` can see it.
      The flags are independent: an array may also carry an `on` member, a
      function may also carry a `subscribe` member. */
  datatype Thing<V> = Thing(
    truthy: bool,       // `!!thing`
    isArray: bool,      // `_.isArray(thing)`
    elements: seq<V>,   // the array's elements, read only when `isArray`
    hasOn: bool,        // `_.isFunction(thing.on)`
    hasThen: bool,      // `_.isFunction(thing.then)`
    hasSubscribe: bool, // `_.isFunction(thing.subscribe)`
    isFunction: bool,   // `_.isFunction(thing)`
    hasOnChange: bool   // `_.isFunction(thing.onChange)`
  )

  /** The argument of `stream`: nothing at all, or some value. */
  datatype Argument<V> = Undefined | Given(thing: Thing<V>)

  /** How a promise-like thing settles during one activation. */
  datatype Settlement<V> = Pending | Fulfilled(value: V) | Rejected(reason: V)

  /** One occurrence of an event on an emitter: its name and the value it carries. */
  datatype Firing<V> = Firing(name: string, payload: V)

  /** What the outside world does during one activation of a producer. */
  datatype World<V> = World(
    settlement: Settlement<V>,      // how `thing.then` settles
    firings: seq<Firing<V>>,        // the events `thing` emits once a listener is on
    heldValue: V,                   // what `thing.value()` returns at activation
    changes: seq<V>,                // the values `thing.onChange` listeners receive
    subscribed: seq<Event<V>>,      // what `thing.subscribe(next, error, complete)` emits
    called: seq<Event<V>>           // what `thing(next, error, complete)` itself emits
  )

  /** The branches of `makeSourceFn`, and the failing fall-through. */
  datatype SourceKind =
    | ArrayKind | EmitterKind | PromiseKind | StreamKind | FunctionKind | ValueHolderKind
    | Unsupported

  /** The construction-time failure, carrying the offending value for the diagnostic. */
  datatype SourceError<V> = UnsupportedSourceKind(thing: Thing<V>)

  /** The producer `makeSourceFn` returns, one constructor per branch. */
  datatype Producer<V> =
    | FromArray(elements: seq<V>)
    | FromEmitter(eventName: string)
    | FromPromise
    | FromStream
    | Passthrough
    | FromValueHolder

  /** A `LazyStream`, as this layer builds it: a holder of an optional producer. */
  datatype LazyStream<V> = LazyStream(producer: Option<Producer<V>>)

  // ---------------------------------------------------------------------------
  // Classification

  /** `isStream`: a truthy value whose `subscribe` member is a function. */
  predicate IsStream<V>(t: Thing<V>) {
    t.truthy && t.hasSubscribe
  }

  /** The position of a kind's test in the `if` chain of `makeSourceFn`. */
  function Rank(k: SourceKind): nat {
    match k
    case ArrayKind => 0
    case EmitterKind => 1
    case PromiseKind => 2
    case StreamKind => 3
    case FunctionKind => 4
    case ValueHolderKind => 5
    case Unsupported => 6
  }

  /** Whether the test guarding kind `k`'s branch holds of `t`; the final
      fall-through is reached by anything. */
  predicate Matches<V>(t: Thing<V>, k: SourceKind) {
    match k
    case ArrayKind => t.isArray
    case EmitterKind => t.hasOn
    case PromiseKind => t.hasThen
    case StreamKind => IsStream(t)
    case FunctionKind => t.isFunction
    case ValueHolderKind => t.hasOnChange
    case Unsupported => true
  }

  /** The kind `makeSourceFn` picks for `t`: the first kind, in the order of
      the `if` chain, whose test `t` passes. */
  function Classify<V>(t: Thing<V>): (k: SourceKind)
    ensures Matches(t, k)
    ensures forall j :: Rank(j) < Rank(k) ==> !Matches(t, j)
  {
    if t.isArray then ArrayKind
    else if t.hasOn then EmitterKind
    else if t.hasThen then PromiseKind
    else if IsStream(t) then StreamKind
    else if t.isFunction then FunctionKind
    else if t.hasOnChange then ValueHolderKind
    else Unsupported
  }

  /** The kind of a producer `makeSourceFn` builds. */
  function KindOf<V>(p: Producer<V>): SourceKind {
    match p
    case FromArray(_) => ArrayKind
    case FromEmitter(_) => EmitterKind
    case FromPromise => PromiseKind
    case FromStream => StreamKind
    case Passthrough => FunctionKind
    case FromValueHolder => ValueHolderKind
  }

  /** `makeSourceFn(thing)`: the producer for `t`'s kind, or the unsupported-kind
      failure. `eventName` is the event an emitter is listened on. */
  function MakeSourceFn<V>(t: Thing<V>, eventName: string): (r: Result<Producer<V>, SourceError<V>>)
    ensures r.Ok? <==> Classify(t) != Unsupported
    ensures r.Ok? ==> KindOf(r.value) == Classify(t)
    ensures r.Err? ==> r.error == UnsupportedSourceKind(t)
    ensures r.Ok? && r.value.FromArray? ==> r.value.elements == t.elements
    ensures r.Ok? && r.value.FromEmitter? ==> r.value.eventName == eventName
  {
    match Classify(t)
    case ArrayKind => Ok(FromArray(t.elements))
    case EmitterKind => Ok(FromEmitter(eventName))
    case PromiseKind => Ok(FromPromise)
    case StreamKind => Ok(FromStream)
    case FunctionKind => Ok(Passthrough)
    case ValueHolderKind => Ok(FromValueHolder)
    case Unsupported => Err(UnsupportedSourceKind(t))
  }

  /** `stream(thing)`: an inert stream for `undefined`, otherwise a stream over
      the producer `makeSourceFn` builds (or its failure). */
  function Stream<V>(a: Argument<V>, eventName: string): (r: Result<LazyStream<V>, SourceError<V>>)
    ensures a.Undefined? ==> r == Ok(LazyStream(None))
    ensures a.Given? ==> (r.Ok? <==> Classify(a.thing) != Unsupported)
    ensures a.Given? && r.Ok? ==> r.value.producer.Some? && KindOf(r.value.producer.value) == Classify(a.thing)
    ensures r.Err? ==> a.Given? && r.error == UnsupportedSourceKind(a.thing)
  {
    match a
    case Undefined => Ok(LazyStream(None))
    case Given(t) =>
      match MakeSourceFn(t, eventName)
      case Ok(p) => Ok(LazyStream(Some(p)))
      case Err(e) => Err(e)
  }

  // ---------------------------------------------------------------------------
  // The traces of the producers

  /** `fromArray`: every element through `next`, in order, then `complete`. */
  function ArrayTrace<V>(xs: seq<V>): seq<Event<V>> {
    NextAll(xs) + [Complete]
  }

  /** `fromPromise`: `p.then(next, error).then(complete)`. */
  function PromiseTrace<V>(s: Settlement<V>): seq<Event<V>> {
    match s
    case Pending => []
    case Fulfilled(v) => [Next(v), Complete]
    case Rejected(e) => [Error(e), Complete]
  }

  /** `fromEmitter`: the listener on `eventName` forwards each occurrence of
      that event, with its value, to `next`. */
  function EmitterTrace<V>(firings: seq<Firing<V>>, eventName: string): seq<Event<V>> {
    if firings == [] then []
    else (if firings[0].name == eventName then [Next(firings[0].payload)] else [])
         + EmitterTrace(firings[1..], eventName)
  }

  /** The value-holder producer: `next(thing.value())`, then `next` per change. */
  function ValueHolderTrace<V>(held: V, changes: seq<V>): seq<Event<V>> {
    [Next(held)] + NextAll(changes)
  }

  /** What a producer emits to its sinks during one activation in world `w`. */
  function Trace<V>(p: Producer<V>, w: World<V>): (r: seq<Event<V>>)
    // an array's elements, in order, then exactly one `complete`, never `error`
    ensures p.FromArray? ==>
      |r| == |p.elements| + 1 && r[|r| - 1] == Complete && NoError(r) && Items(r) == p.elements
    // a promise: nothing while pending, otherwise its outcome and then `complete`
    ensures p.FromPromise? ==>
      (r == [] <==> w.settlement.Pending?) && (r != [] ==> |r| == 2 && r[1] == Complete)
    ensures p.FromPromise? && w.settlement.Fulfilled? ==> Items(r) == [w.settlement.value] && NoError(r)
    ensures p.FromPromise? && w.settlement.Rejected? ==> r[0] == Error(w.settlement.reason)
    // an emitter: one `next` per occurrence of its event, and no end
    ensures p.FromEmitter? ==> |r| == multiset(Names(w.firings))[p.eventName] && NoTerminal(r)
    // a value holder: the value held at activation first, then the changes, and no end
    ensures p.FromValueHolder? ==> Items(r) == [w.heldValue] + w.changes && r[0] == Next(w.heldValue) && NoTerminal(r)
    // a wrapped stream or a plain producer: exactly what that code emits
    ensures p.FromStream? ==> r == w.subscribed
    ensures p.Passthrough? ==> r == w.called
  {
    match p
    case FromArray(xs) => ArrayTraceShape(xs); ArrayTrace(xs)
    case FromEmitter(name) => EmitterTraceCounts(w.firings, name); EmitterTrace(w.firings, name)
    case FromPromise => PromiseOutcome(w.settlement); PromiseTrace(w.settlement)
    case FromStream => w.subscribed
    case Passthrough => w.called
    case FromValueHolder =>
      ValueHolderTraceShape(w.heldValue, w.changes); ValueHolderTrace(w.heldValue, w.changes)
  }

  /** What subscribing to a stream yields: nothing for an inert stream. */
  function SubscribeTrace<V>(s: LazyStream<V>, w: World<V>): (r: seq<Event<V>>)
    ensures s.producer.None? ==> r == []
    ensures s.producer.Some? && s.producer.value.FromArray? ==>
      Items(r) == s.producer.value.elements && NoError(r) && |r| > 0 && r[|r| - 1] == Complete
    ensures s.producer.Some? && (s.producer.value.FromEmitter? || s.producer.value.FromValueHolder?) ==>
      NoTerminal(r)
  {
    match s.producer
    case None => []
    case Some(p) => Trace(p, w)
  }

  // ---------------------------------------------------------------------------
  // Properties of the traces

  /** The array producer emits exactly the elements, in index order, then one
      `complete`, and never `error`. */
  lemma ArrayTraceShape<V>(xs: seq<V>)
    ensures |ArrayTrace(xs)| == |xs| + 1
    ensures forall i :: 0 <= i < |xs| ==> ArrayTrace(xs)[i] == Next(xs[i])
    ensures ArrayTrace(xs)[|xs|] == Complete
    ensures NoError(ArrayTrace(xs))
    ensures Items(ArrayTrace(xs)) == xs
  {
    forall i | 0 <= i < |xs| ensures ArrayTrace(xs)[i] == Next(xs[i]) {
      NextAllAt(xs, i);
    }
    ItemsOfNextAll(xs);
    ItemsAppend(NextAll(xs), [Complete]);
  }

  /** A fulfilled promise yields its value then `complete`; a rejected one its
      reason through `error`, then `complete` as well, because `complete` is
      chained after the pair of handlers; a pending one yields nothing yet. */
  lemma PromiseOutcome<V>(s: Settlement<V>)
    ensures PromiseTrace(s) == [] <==> s.Pending?
    ensures PromiseTrace(s) != [] ==> |PromiseTrace(s)| == 2 && PromiseTrace(s)[1] == Complete
    ensures s.Fulfilled? ==> Items(PromiseTrace(s)) == [s.value] && NoError(PromiseTrace(s))
    ensures s.Rejected? ==> Items(PromiseTrace(s)) == [] && PromiseTrace(s)[0] == Error(s.reason)
  {
  }

  /** Firings that arrive later are forwarded after earlier ones. */
  lemma {:induction false} EmitterTraceAppend<V>(f: seq<Firing<V>>, g: seq<Firing<V>>, name: string)
    ensures EmitterTrace(f + g, name) == EmitterTrace(f, name) + EmitterTrace(g, name)
  {
    if f != [] {
      assert (f + g)[0] == f[0];
      assert (f + g)[1..] == f[1..] + g;
      EmitterTraceAppend(f[1..], g, name);
    } else {
      assert f + g == g;
    }
  }

  /** The names of the firings, in order. */
  function Names<V>(f: seq<Firing<V>>): (r: seq<string>)
    ensures |r| == |f|
    ensures forall i :: 0 <= i < |f| ==> r[i] == f[i].name
  {
    if f == [] then [] else [f[0].name] + Names(f[1..])
  }

  /** The emitter producer emits one `next` per occurrence of its event and
      never ends the subscription. */
  lemma {:induction false} EmitterTraceCounts<V>(f: seq<Firing<V>>, name: string)
    ensures |EmitterTrace(f, name)| == multiset(Names(f))[name]
    ensures NoTerminal(EmitterTrace(f, name))
  {
    if f != [] {
      EmitterTraceCounts(f[1..], name);
      assert Names(f) == [f[0].name] + Names(f[1..]);
      assert multiset(Names(f)) == multiset([f[0].name]) + multiset(Names(f[1..]));
      var head: seq<Event<V>> := if f[0].name == name then [Next(f[0].payload)] else [];
      var t := EmitterTrace(f, name);
      assert t == head + EmitterTrace(f[1..], name);
      forall i | 0 <= i < |t| ensures !t[i].IsTerminal() {
        if i >= |head| {
          assert t[i] == EmitterTrace(f[1..], name)[i - |head|];
        }
      }
    }
  }

  /** A single firing is forwarded exactly when it carries the listened-to name. */
  lemma EmitterTraceSingle<V>(x: Firing<V>, name: string)
    ensures EmitterTrace([x], name) == if x.name == name then [Next(x.payload)] else []
  {
  }

  /** The value-holder producer first emits the value held at activation, then
      each change in order, and never ends the subscription. */
  lemma ValueHolderTraceShape<V>(held: V, changes: seq<V>)
    ensures |ValueHolderTrace(held, changes)| == |changes| + 1
    ensures ValueHolderTrace(held, changes)[0] == Next(held)
    ensures forall i :: 0 <= i < |changes| ==> ValueHolderTrace(held, changes)[i + 1] == Next(changes[i])
    ensures NoTerminal(ValueHolderTrace(held, changes))
    ensures Items(ValueHolderTrace(held, changes)) == [held] + changes
  {
    var t := ValueHolderTrace(held, changes);
    forall i | 0 <= i < |changes| ensures t[i + 1] == Next(changes[i]) {
      NextAllAt(changes, i);
    }
    NextAllNoTerminal(changes);
    forall i | 0 <= i < |t| ensures !t[i].IsTerminal() {
      if i > 0 {
        assert t[i] == NextAll(changes)[i - 1];
      }
    }
    ItemsOfNextAll(changes);
    ItemsAppend([Next(held)], NextAll(changes));
  }

  // ---------------------------------------------------------------------------
  // Properties of the dispatch

  /** `isStream` holds of a truthy thing whose `subscribe` is a function. It
      decides the stream branch for anything that reaches it, and a thing
      passing it is never taken as a plain function, a value holder or an
      unsupported value, even when it is itself a function. */
  lemma IsStreamDecides<V>(t: Thing<V>)
    ensures IsStream(t) <==> t.truthy && t.hasSubscribe
    ensures !t.isArray && !t.hasOn && !t.hasThen ==> (Classify(t) == StreamKind <==> IsStream(t))
    ensures IsStream(t) ==> Rank(Classify(t)) <= Rank(StreamKind)
  {
  }

  /** An array is always sourced element by element, whatever members it has. */
  lemma ArrayWins<V>(t: Thing<V>, eventName: string, w: World<V>)
    requires t.isArray
    ensures MakeSourceFn(t, eventName) == Ok(FromArray(t.elements))
    ensures Trace(MakeSourceFn(t, eventName).value, w) == ArrayTrace(t.elements)
  {
  }

  /** The stream adapter delegates: subscribing through it is subscribing to
      the wrapped stream itself. */
  lemma StreamDelegates<V>(t: Thing<V>, eventName: string, w: World<V>)
    requires !t.isArray && !t.hasOn && !t.hasThen && IsStream(t)
    ensures MakeSourceFn(t, eventName) == Ok(FromStream)
    ensures Trace(MakeSourceFn(t, eventName).value, w) == w.subscribed
  {
  }

  /** A plain function is its own producer: what it emits when called with
      the sinks is exactly what the stream emits. */
  lemma PlainFunctionPassesThrough<V>(t: Thing<V>, eventName: string, w: World<V>)
    requires !t.isArray && !t.hasOn && !t.hasThen && !IsStream(t) && t.isFunction
    ensures MakeSourceFn(t, eventName) == Ok(Passthrough)
    ensures Trace(MakeSourceFn(t, eventName).value, w) == w.called
  {
  }

  /** `stream(undefined)` dispatches nothing: its stream emits nothing at all. */
  lemma UndefinedIsInert<V>(eventName: string, w: World<V>)
    ensures Stream<V>(Undefined, eventName).Ok?
    ensures SubscribeTrace(Stream<V>(Undefined, eventName).value, w) == []
  {
  }

  /** Subscribing to a stream built from an array delivers exactly its
      elements, in order, then completes, in every world. */
  lemma ArrayStreamDeliversElements<V>(t: Thing<V>, eventName: string, w: World<V>)
    requires t.isArray
    ensures Stream(Given(t), eventName).Ok?
    ensures SubscribeTrace(Stream(Given(t), eventName).value, w) == ArrayTrace(t.elements)
    ensures Items(SubscribeTrace(Stream(Given(t), eventName).value, w)) == t.elements
  {
  }

  // ---------------------------------------------------------------------------
  // The producers, step by step

  /** The sink triple a subscriber hands to a producer, recording every call
      that reaches it. */
  class Sink<V> {
    var trace: seq<Event<V>>

    constructor ()
      ensures trace == []
    {
      trace := [];
    }

    method OnNext(v: V)
      modifies this
      ensures trace == old(trace) + [Next(v)]
    {
      trace := trace + [Next(v)];
    }

    method OnError(e: V)
      modifies this
      ensures trace == old(trace) + [Error(e)]
    {
      trace := trace + [Error(e)];
    }

    method OnComplete()
      modifies this
      ensures trace == old(trace) + [Complete]
    {
      trace := trace + [Complete];
    }
  }

  /** `fromArray(arr)` activated on `sink`: `_.each` pushes every element, then
      `complete` is called; the error sink is never used. */
  method RunFromArray<V>(arr: seq<V>, sink: Sink<V>)
    modifies sink
    ensures sink.trace == old(sink.trace) + ArrayTrace(arr)
  {
    var i := 0;
    while i < |arr|
      invariant 0 <= i <= |arr|
      invariant sink.trace == old(sink.trace) + NextAll(arr[..i])
    {
      NextAllAppend(arr[..i], [arr[i]]);
      assert arr[..i + 1] == arr[..i] + [arr[i]];
      sink.OnNext(arr[i]);
      i := i + 1;
    }
    assert arr[..i] == arr;
    sink.OnComplete();
  }

  /** `fromPromise(p)` activated on `sink`, once `p` has settled as `s`. */
  method RunFromPromise<V>(s: Settlement<V>, sink: Sink<V>)
    modifies sink
    ensures sink.trace == old(sink.trace) + PromiseTrace(s)
  {
    match s
    case Pending =>
    case Fulfilled(v) =>
      sink.OnNext(v);
      sink.OnComplete();
    case Rejected(e) =>
      sink.OnError(e);
      sink.OnComplete();
  }

  /** `fromEmitter(emitter, eventName)` activated on `sink`: the registered
      listener runs once per firing of the emitter, and forwards the firings
      of `eventName`. */
  method RunFromEmitter<V>(firings: seq<Firing<V>>, eventName: string, sink: Sink<V>)
    modifies sink
    ensures sink.trace == old(sink.trace) + EmitterTrace(firings, eventName)
  {
    var i := 0;
    while i < |firings|
      invariant 0 <= i <= |firings|
      invariant sink.trace == old(sink.trace) + EmitterTrace(firings[..i], eventName)
    {
      EmitterTraceAppend(firings[..i], [firings[i]], eventName);
      EmitterTraceSingle(firings[i], eventName);
      assert firings[..i + 1] == firings[..i] + [firings[i]];
      if firings[i].name == eventName {
        sink.OnNext(firings[i].payload);
      }
      i := i + 1;
    }
    assert firings[..i] == firings;
  }

  /** The value-holder producer activated on `sink`: `next(thing.value())`,
      then the listener registered with `thing.onChange` runs once per change. */
  method RunFromValueHolder<V>(held: V, changes: seq<V>, sink: Sink<V>)
    modifies sink
    ensures sink.trace == old(sink.trace) + ValueHolderTrace(held, changes)
  {
    sink.OnNext(held);
    var i := 0;
    while i < |changes|
      invariant 0 <= i <= |changes|
      invariant sink.trace == old(sink.trace) + [Next(held)] + NextAll(changes[..i])
    {
      NextAllAppend(changes[..i], [changes[i]]);
      assert changes[..i + 1] == changes[..i] + [changes[i]];
      sink.OnNext(changes[i]);
      i := i + 1;
    }
    assert changes[..i] == changes;
  }

  /** Code this layer does not see (a wrapped stream's `subscribe`, a plain
      producer function) calling the sinks with the events of `t`, in order. */
  method Deliver<V>(t: seq<Event<V>>, sink: Sink<V>)
    modifies sink
    ensures sink.trace == old(sink.trace) + t
  {
    var i := 0;
    while i < |t|
      invariant 0 <= i <= |t|
      invariant sink.trace == old(sink.trace) + t[..i]
    {
      assert t[..i + 1] == t[..i] + [t[i]];
      match t[i] {
        case Next(v) => sink.OnNext(v);
        case Error(e) => sink.OnError(e);
        case Complete => sink.OnComplete();
      }
      i := i + 1;
    }
    assert t[..i] == t;
  }

  /** Calling producer `p` with `sink`'s triple during an activation in world `w`. */
  method Activate<V>(p: Producer<V>, w: World<V>, sink: Sink<V>)
    modifies sink
    ensures sink.trace == old(sink.trace) + Trace(p, w)
  {
    match p
    case FromArray(xs) => RunFromArray(xs, sink);
    case FromEmitter(name) => RunFromEmitter(w.firings, name, sink);
    case FromPromise => RunFromPromise(w.settlement, sink);
    case FromStream => Deliver(w.subscribed, sink);
    case Passthrough => Deliver(w.called, sink);
    case FromValueHolder => RunFromValueHolder(w.heldValue, w.changes, sink);
  }

  /** `each(str, next, error, complete)`: subscribes `sink`'s triple to `str`. */
  method Each<V>(str: LazyStream<V>, w: World<V>, sink: Sink<V>)
    modifies sink
    ensures sink.trace == old(sink.trace) + SubscribeTrace(str, w)
  {
    match str.producer
    case None =>
    case Some(p) => Activate(p, w, sink);
  }
}
