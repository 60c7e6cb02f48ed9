/**
 * The recency window every adapter applies before deduplication: keep a listing when
 * its timestamp can be read and `now - timestamp <= window`, in the order given.
 * Each adapter supplies its own way of reading a timestamp (`stamp`), `None` meaning
 * that the date is missing or does not parse, in which case the listing is skipped.
 */
module Recency {
  import opened Wrappers

  predicate IsRecent<T>(x: T, stamp: T -> Option<int>, now: int, window: int) {
    stamp(x).Some? && now - stamp(x).value <= window
  }

  /** The listings of `xs` inside the window. */
  function Recent<T>(xs: seq<T>, stamp: T -> Option<int>, now: int, window: int): seq<T>
    decreases |xs|
  {
    if xs == [] then []
    else
      var init := Recent(xs[..|xs| - 1], stamp, now, window);
      if IsRecent(xs[|xs| - 1], stamp, now, window) then init + [xs[|xs| - 1]] else init
  }

  /** The filtering loop the adapters run: append each listing inside the window to the result. */
  method KeepRecent<T>(xs: seq<T>, stamp: T -> Option<int>, now: int, window: int) returns (kept: seq<T>)
    ensures kept == Recent(xs, stamp, now, window)
  {
    kept := [];
    var i := 0;
    while i < |xs|
      invariant 0 <= i <= |xs|
      invariant kept == Recent(xs[..i], stamp, now, window)
    {
      assert xs[..i + 1][..i] == xs[..i];
      if IsRecent(xs[i], stamp, now, window) {
        kept := kept + [xs[i]];
      }
      i := i + 1;
    }
    assert xs[..|xs|] == xs;
  }

  /** A listing is kept exactly when it is in the input and inside the window. */
  lemma {:induction false} RecentMembers<T>(xs: seq<T>, stamp: T -> Option<int>, now: int, window: int, x: T)
    ensures x in Recent(xs, stamp, now, window) <==> x in xs && IsRecent(x, stamp, now, window)
    decreases |xs|
  {
    if xs != [] {
      var init := xs[..|xs| - 1];
      RecentMembers(init, stamp, now, window, x);
      assert xs == init + [xs[|xs| - 1]];
    }
  }

  /** Filtering distributes over concatenation, so the kept listings stay in their input order. */
  lemma {:induction false} RecentAppend<T>(xs: seq<T>, ys: seq<T>, stamp: T -> Option<int>, now: int, window: int)
    ensures Recent(xs + ys, stamp, now, window) == Recent(xs, stamp, now, window) + Recent(ys, stamp, now, window)
    decreases |ys|
  {
    if ys == [] {
      assert xs + ys == xs;
    } else {
      var init := ys[..|ys| - 1];
      RecentAppend(xs, init, stamp, now, window);
      assert (xs + ys)[..|xs + ys| - 1] == xs + init;
    }
  }
}
