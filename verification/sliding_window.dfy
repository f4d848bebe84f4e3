/** The bounded history: JavaScript's negative `slice`, the append-then-slice
    updater the reading handler applies, and what the window is meant to be,
    namely the most recent `n` readings in delivery order. */
module SlidingWindow {

  function Min(a: nat, b: nat): (m: nat)
  {
    if a <= b then a else b
  }

  /** `xs.slice(-k)` for a non-negative `k`. The start index is
      `max(|xs| - k, 0)`, except that `-0` is `0`, so `k == 0` keeps
      everything. */
  function SliceLast<T>(xs: seq<T>, k: nat): (r: seq<T>)
    ensures |r| <= |xs|
    ensures k == 0 ==> r == xs
    ensures k >= 1 ==> |r| == Min(|xs|, k)
  {
    if k == 0 || k >= |xs| then xs else xs[|xs| - k..]
  }

  /** The intended window over the readings `xs` delivered so far: the last
      `min(|xs|, n)` of them, oldest first. */
  function Window<T>(xs: seq<T>, n: nat): (w: seq<T>)
  {
    xs[|xs| - Min(|xs|, n)..]
  }

  /** The history updater `(prev) => [...prev, data].slice(-n)`. */
  function Ingest<T>(prev: seq<T>, d: T, n: nat): (r: seq<T>)
    // the newest reading is always the last entry
    ensures |r| > 0 && r[|r| - 1] == d
    // capacity bound
    ensures n >= 1 ==> |r| <= n
    // below capacity (or with capacity 0, where `slice(-0)` keeps all) it is a plain append
    ensures (n == 0 || |prev| < n) ==> r == prev + [d]
    // at capacity the oldest entries go first and the survivors keep their order
    ensures 1 <= n <= |prev| ==> r == prev[|prev| - n + 1..] + [d]
  {
    SliceLast(prev + [d], n)
  }

  /** For a capacity of at least 1, `slice(-k)` keeps exactly the window:
      the last `min(|xs|, k)` elements, in order. */
  lemma SliceLastIsWindow<T>(xs: seq<T>, k: nat)
    requires k >= 1
    ensures SliceLast(xs, k) == Window(xs, k)
  {
  }

  /** The history after the readings `ds` are delivered one at a time to
      an empty history. */
  function Replay<T>(ds: seq<T>, n: nat): (h: seq<T>)
    // the last reading delivered is the last entry
    ensures ds != [] ==> |h| > 0 && h[|h| - 1] == ds[|ds| - 1]
    ensures ds == [] ==> h == []
    // capacity bound after any run of deliveries
    ensures n >= 1 ==> |h| <= n
  {
    if ds == [] then [] else Ingest(Replay(ds[..|ds| - 1], n), ds[|ds| - 1], n)
  }

  /** One update moves the intended window forward by one reading. */
  lemma IngestSlides<T>(xs: seq<T>, d: T, n: nat)
    requires n >= 1
    ensures Ingest(Window(xs, n), d, n) == Window(xs + [d], n)
  {
  }

  /** After any deliveries the history holds the last `min(|ds|, n)`
      readings in delivery order. */
  lemma {:induction false} ReplayIsWindow<T>(ds: seq<T>, n: nat)
    requires n >= 1
    ensures Replay(ds, n) == Window(ds, n)
    ensures |Replay(ds, n)| == Min(|ds|, n) <= n
  {
    if ds != [] {
      var init := ds[..|ds| - 1];
      ReplayIsWindow(init, n);
      IngestSlides(init, ds[|ds| - 1], n);
      assert init + [ds[|ds| - 1]] == ds;
    }
  }

  /** Capacity 3, five readings delivered in order: the history keeps the
      last three, oldest first. */
  lemma CapacityThreeExample<T>(r1: T, r2: T, r3: T, r4: T, r5: T)
    ensures Replay([r1, r2, r3, r4, r5], 3) == [r3, r4, r5]
  {
    ReplayIsWindow([r1, r2, r3, r4, r5], 3);
  }
}
