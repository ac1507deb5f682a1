/**
 * The bounded first-in-first-out window that `getFixedArray(capacity)` hands out: a push
 * appends and then drops items from the front until at most `capacity` are left.
 */
module FixedArray {
  /**
   * What is left of `xs` after dropping items from the front while more than `n` remain:
   * the last `n` items in arrival order, or all of them when there are fewer.
   */
  function Last<T>(xs: seq<T>, n: nat): (r: seq<T>)
    ensures |r| == if |xs| <= n then |xs| else n
    decreases |xs|
  {
    if |xs| <= n then xs else Last(xs[1..], n)
  }

  /** `array.push(x)` on a fixed array. */
  function Push<T>(window: seq<T>, capacity: nat, x: T): seq<T>
  {
    Last(window + [x], capacity)
  }

  /** `array.push(x1, ..., xn)` on a fixed array: all appended, then the oldest dropped. */
  function PushMany<T>(window: seq<T>, capacity: nat, xs: seq<T>): seq<T>
  {
    Last(window + xs, capacity)
  }

  /** Pushing the items one call at a time. */
  function PushEach<T>(window: seq<T>, capacity: nat, xs: seq<T>): seq<T>
    decreases |xs|
  {
    if xs == [] then window else PushEach(Push(window, capacity, xs[0]), capacity, xs[1..])
  }

  /** Dropping from the front keeps exactly the suffix of length `n`. */
  lemma {:induction false} LastIsSuffix<T>(xs: seq<T>, n: nat)
    ensures |xs| <= n ==> Last(xs, n) == xs
    ensures |xs| > n ==> Last(xs, n) == xs[|xs| - n..]
    decreases |xs|
  {
    if |xs| > n {
      LastIsSuffix(xs[1..], n);
      assert xs[1..][|xs| - 1 - n..] == xs[|xs| - n..];
    }
  }

  /** Item `i` of the window is the item `|window| - i` places from the end of the history. */
  lemma LastAt<T>(xs: seq<T>, n: nat, i: nat)
    requires i < |Last(xs, n)|
    ensures Last(xs, n)[i] == xs[|xs| - |Last(xs, n)| + i]
  {
    LastIsSuffix(xs, n);
  }

  /** One push onto the newest `capacity` items of a history is the newest `capacity` of the longer history. */
  lemma PushLast<T>(history: seq<T>, capacity: nat, x: T)
    ensures Push(Last(history, capacity), capacity, x) == Last(history + [x], capacity)
  {
    var h := history + [x];
    LastIsSuffix(history, capacity);
    LastIsSuffix(h, capacity);
    LastIsSuffix(Last(history, capacity) + [x], capacity);
    if |history| > capacity {
      assert Last(history, capacity) + [x] == h[|h| - capacity - 1..];
      assert h[|h| - capacity - 1..][1..] == h[|h| - capacity..];
    } else {
      assert Last(history, capacity) + [x] == h;
    }
  }

  /**
   * A window filled only by pushes holds the most recent `capacity` values in arrival order,
   * never more than `capacity` of them, whether they were pushed one by one or all at once.
   */
  lemma {:induction false} PushedWindowIsLast<T>(history: seq<T>, capacity: nat, xs: seq<T>)
    ensures PushEach(Last(history, capacity), capacity, xs) == Last(history + xs, capacity)
    ensures PushMany(Last(history, capacity), capacity, xs) == Last(history + xs, capacity)
    ensures |PushEach(Last(history, capacity), capacity, xs)| <= capacity
    decreases |xs|
  {
    if xs == [] {
      assert history + xs == history;
    } else {
      PushLast(history, capacity, xs[0]);
      PushedWindowIsLast(history + [xs[0]], capacity, xs[1..]);
      assert history + [xs[0]] + xs[1..] == history + xs;
    }
    var h := history + xs;
    LastIsSuffix(history, capacity);
    LastIsSuffix(h, capacity);
    LastIsSuffix(Last(history, capacity) + xs, capacity);
    if |history| > capacity {
      assert Last(history, capacity) + xs == h[|history| - capacity..];
      if |h| - capacity > |history| - capacity {
        assert h[|history| - capacity..][|h| - capacity - (|history| - capacity)..] == h[|h| - capacity..];
      }
    } else {
      assert Last(history, capacity) + xs == h;
    }
  }

  /** The getFixedArray example: capacity 3, after 1..5 the window is [3, 4, 5]. */
  lemma FixedArrayExample()
    ensures PushEach([], 3, [1, 2, 3, 4, 5]) == [3, 4, 5]
    ensures PushMany([], 3, [1, 2, 3, 4, 5]) == [3, 4, 5]
  {
    PushedWindowIsLast([], 3, [1, 2, 3, 4, 5]);
    assert [] + [1, 2, 3, 4, 5] == [1, 2, 3, 4, 5];
    LastIsSuffix([1, 2, 3, 4, 5], 3);
  }
}
