/** `GreedyObservable`: a stream wrapper that consumes its source for its whole
    lifetime, keeping the latest item in a field, and serves every subscriber
    from a fresh `changes(startWith(latest, source))` stream. */
module Observable {
  import opened Traces
  import Sources

  /** The stream `changes(startWith(seed, source))` built for one subscriber.
      How it behaves belongs to the stream library; what is visible here is
      what it is built from. */
  datatype Changes<V> = ChangesOfStartWith(seed: V, source: Sources.Thing<V>)

  /** What `subscribe` hands to `each`: the derived stream and the three sink
      slots, the error slot being `null` (`None`). */
  datatype Subscription<V, H> = Subscription(
    stream: Changes<V>,
    next: H,
    error: Sources.Option<H>,
    complete: H
  )

  /** The value a field holds that starts as `init` and is overwritten by each
      of `xs` in turn: the last item, or `init` when there was none. */
  function LastSeen<V>(init: V, xs: seq<V>): V {
    if xs == [] then init else xs[|xs| - 1]
  }

  /** Overwriting with `xs` and then with `ys` leaves what overwriting with
      `xs + ys` leaves. */
  lemma LastSeenAppend<V>(init: V, xs: seq<V>, ys: seq<V>)
    ensures LastSeen(init, xs + ys) == LastSeen(LastSeen(init, xs), ys)
  {
    if ys != [] {
      assert (xs + ys)[|xs + ys| - 1] == ys[|ys| - 1];
    } else {
      assert xs + ys == xs;
    }
  }

  class GreedyObservable<V> {
    /** `_currentValue`: the seed, then the latest item the source delivered. */
    var currentValue: V
    /** `_source`: the wrapped stream. */
    var source: Sources.Thing<V>
    /** The seed the observable was constructed with. */
    ghost var initialValue: V
    /** Every item the source has delivered to the permanent subscription. */
    ghost var seen: seq<V>

    ghost predicate Valid()
      reads this
    {
      currentValue == LastSeen(initialValue, seen)
    }

    /** `new GreedyObservable(initialValue, stream)`. The stream check comes
        first; then the fields are set and the source is subscribed with a
        callback that overwrites `currentValue`. `early` is what the source
        delivers while that subscription is still being made (all of it, for a
        source that emits synchronously such as one built from an array). */
    constructor (initialValue: V, stream: Sources.Thing<V>, early: seq<Event<V>>)
      requires Sources.IsStream(stream)
      ensures Valid()
      ensures this.initialValue == initialValue && source == stream
      ensures seen == Items(early)
      ensures currentValue == LastSeen(initialValue, Items(early))
    {
      currentValue := initialValue;
      source := stream;
      this.initialValue := initialValue;
      seen := [];
      new;
      Receive(early);
    }

    /** The permanent subscription's callback, run for each item the source emits. */
    method OnItem(item: V)
      requires Valid()
      modifies this
      ensures Valid()
      ensures currentValue == item
      ensures seen == old(seen) + [item]
      ensures source == old(source) && initialValue == old(initialValue)
    {
      currentValue := item;
      seen := seen + [item];
    }

    /** The source emitting `t` to the permanent subscription. That subscription
        was made with a `next` callback only, so an error or a completion of
        the source changes nothing. */
    method Receive(t: seq<Event<V>>)
      requires Valid()
      modifies this
      ensures Valid()
      ensures seen == old(seen) + Items(t)
      ensures currentValue == LastSeen(old(currentValue), Items(t))
      ensures source == old(source) && initialValue == old(initialValue)
    {
      var i := 0;
      while i < |t|
        invariant 0 <= i <= |t|
        invariant Valid()
        invariant seen == old(seen) + Items(t[..i])
        invariant currentValue == LastSeen(old(currentValue), Items(t[..i]))
        invariant source == old(source) && initialValue == old(initialValue)
      {
        assert t[..i + 1] == t[..i] + [t[i]];
        ItemsAppend(t[..i], [t[i]]);
        assert Items([t[i]]) == if t[i].Next? then [t[i].value] else [];
        LastSeenAppend(old(currentValue), Items(t[..i]), Items([t[i]]));
        LastSeenAppend(initialValue, old(seen) + Items(t[..i]), Items([t[i]]));
        assert old(seen) + Items(t[..i + 1]) == old(seen) + Items(t[..i]) + Items([t[i]]);
        if t[i].Next? {
          OnItem(t[i].value);
        }
        i := i + 1;
      }
      assert t[..i] == t;
    }

    /** `subscribe(next, _, complete)`: the new subscriber is served by
        `changes(startWith(currentValue, source))`, seeded with the value held
        at the moment of the call, with whatever error handler it passed
        replaced by `null`. Nothing of the observable changes. */
    method Subscribe<H>(next: H, ignored: H, complete: H) returns (sub: Subscription<V, H>)
      requires Valid()
      ensures sub.stream.seed == LastSeen(initialValue, seen)
      ensures sub.stream.source == source
      ensures sub.next == next && sub.complete == complete
      ensures sub.error == Sources.None
    {
      sub := Subscription(ChangesOfStartWith(currentValue, source), next, Sources.None, complete);
    }
  }

  /** A subscription's seed is a snapshot: items the source delivers after
      `subscribe` move `currentValue` on but leave the seed already used. */
  method SubscribeThenReceive<V, H>(o: GreedyObservable<V>, next: H, error: H, complete: H, later: seq<Event<V>>)
    returns (sub: Subscription<V, H>)
    requires o.Valid()
    modifies o
    ensures o.Valid()
    ensures sub.stream.seed == old(o.currentValue)
    ensures o.currentValue == LastSeen(old(o.currentValue), Items(later))
    ensures sub.stream.source == o.source == old(o.source)
  {
    sub := o.Subscribe(next, error, complete);
    o.Receive(later);
  }
}
