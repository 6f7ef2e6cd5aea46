/** The vocabulary shared by the source adapters and the observable: the calls a
    producer makes on the `(next, error, complete)` sink triple it is handed,
    recorded in the order they happen. */
module Traces {

  /** One call on a sink triple: `next(value)`, `error(reason)` or `complete()`. */
  datatype Event<V> = Next(value: V) | Error(reason: V) | Complete {

    /** True for the two calls that end a subscription. */
    predicate IsTerminal() {
      Error? || Complete?
    }
  }

  /** The trace `next(xs[0]), ..., next(xs[|xs|-1])`, in index order. */
  function NextAll<V>(xs: seq<V>): (r: seq<Event<V>>)
    ensures |r| == |xs|
  {
    if xs == [] then [] else [Next(xs[0])] + NextAll(xs[1..])
  }

  /** The values a trace delivers through `next`, in order: what a subscriber
      that only collects items (as `items.push` does) ends up holding. */
  function Items<V>(t: seq<Event<V>>): (r: seq<V>)
    ensures |r| <= |t|
  {
    if t == [] then []
    else (if t[0].Next? then [t[0].value] else []) + Items(t[1..])
  }

  /** No call to `error` anywhere in the trace. */
  predicate NoError<V>(t: seq<Event<V>>) {
    forall i :: 0 <= i < |t| ==> !t[i].Error?
  }

  /** Only `next` calls: the subscription never ends on its own. */
  predicate NoTerminal<V>(t: seq<Event<V>>) {
    forall i :: 0 <= i < |t| ==> !t[i].IsTerminal()
  }

  lemma {:induction false} NextAllAppend<V>(xs: seq<V>, ys: seq<V>)
    ensures NextAll(xs + ys) == NextAll(xs) + NextAll(ys)
  {
    if xs != [] {
      assert (xs + ys)[1..] == xs[1..] + ys;
      NextAllAppend(xs[1..], ys);
    } else {
      assert xs + ys == ys;
    }
  }

  lemma {:induction false} NextAllAt<V>(xs: seq<V>, i: nat)
    requires i < |xs|
    ensures NextAll(xs)[i] == Next(xs[i])
  {
    if i > 0 {
      NextAllAt(xs[1..], i - 1);
    }
  }

  /** Every event of `NextAll(xs)` is a `next`. */
  lemma {:induction false} NextAllNoTerminal<V>(xs: seq<V>)
    ensures NoTerminal(NextAll(xs))
  {
    forall i | 0 <= i < |xs| ensures !NextAll(xs)[i].IsTerminal() {
      NextAllAt(xs, i);
    }
  }

  /** Collecting the items of `NextAll(xs)` gives back `xs`. */
  lemma {:induction false} ItemsOfNextAll<V>(xs: seq<V>)
    ensures Items(NextAll(xs)) == xs
  {
    if xs != [] {
      ItemsOfNextAll(xs[1..]);
      assert ([Next(xs[0])] + NextAll(xs[1..]))[1..] == NextAll(xs[1..]);
      assert [xs[0]] + xs[1..] == xs;
    }
  }

  lemma {:induction false} ItemsAppend<V>(s: seq<Event<V>>, t: seq<Event<V>>)
    ensures Items(s + t) == Items(s) + Items(t)
  {
    if s != [] {
      assert (s + t)[0] == s[0];
      assert (s + t)[1..] == s[1..] + t;
      ItemsAppend(s[1..], t);
    } else {
      assert s + t == t;
    }
  }
}
