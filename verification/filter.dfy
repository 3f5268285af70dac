/** The per-scale stability filter as pure functions over the reading window:
    the bounded FIFO of calibrated readings, the stability rule (full window and
    a spread strictly below the noise threshold) and the rule that moves the
    "last stable weight". Weights are `real`: the source only compares them. */
module Filter {

  /** Number of readings the window holds once full. */
  const BUFFER_LENGTH: nat := 20

  /** Largest spread a stable window may have (exclusive), and the smallest
      change (exclusive) that replaces the last stable weight. */
  const MAX_NOISE: real := 3.0

  datatype Option<T> = None | Some(value: T)

  function Abs(x: real): real {
    if x < 0.0 then -x else x
  }

  /** Largest reading, folded from the oldest to the newest. */
  function Max(s: seq<real>): (m: real)
    requires |s| > 0
    ensures exists k :: 0 <= k < |s| && s[k] == m
    ensures forall i :: 0 <= i < |s| ==> s[i] <= m
  {
    if |s| == 1 then s[0]
    else
      var m' := Max(s[..|s| - 1]);
      if m' < s[|s| - 1] then s[|s| - 1] else m'
  }

  /** Smallest reading, folded from the oldest to the newest. */
  function Min(s: seq<real>): (m: real)
    requires |s| > 0
    ensures exists k :: 0 <= k < |s| && s[k] == m
    ensures forall i :: 0 <= i < |s| ==> m <= s[i]
  {
    if |s| == 1 then s[0]
    else
      var m' := Min(s[..|s| - 1]);
      if s[|s| - 1] < m' then s[|s| - 1] else m'
  }

  /** The stability rule: the window is full and its spread is strictly below
      MAX_NOISE, i.e. every two readings in it differ by less than MAX_NOISE.
      The first clause is the headline case of the second: a window that is
      not full is never stable. */
  function IsStable(buf: seq<real>): (stable: bool)
    ensures |buf| != BUFFER_LENGTH ==> !stable
    ensures stable <==>
      |buf| == BUFFER_LENGTH &&
      forall i, j :: 0 <= i < |buf| && 0 <= j < |buf| ==> buf[i] - buf[j] < MAX_NOISE
  {
    if |buf| != BUFFER_LENGTH then false
    else Max(buf) - Min(buf) < MAX_NOISE
  }

  /** The newest `n` elements of `s`, in their original order. */
  function Newest(s: seq<real>, n: nat): (r: seq<real>)
    ensures |r| == if |s| <= n then |s| else n
  {
    if |s| <= n then s else s[|s| - n..]
  }

  /** The window after one reading is pushed: appended, and the oldest reading
      dropped first when the window is already full. */
  function Pushed(buf: seq<real>, w: real): (r: seq<real>)
    ensures |r| > 0 && r[|r| - 1] == w
    ensures |buf| <= BUFFER_LENGTH ==>
      |r| == (if |buf| < BUFFER_LENGTH then |buf| + 1 else BUFFER_LENGTH)
    ensures |buf| <= BUFFER_LENGTH ==> r == Newest(buf + [w], BUFFER_LENGTH)
  {
    if |buf| < BUFFER_LENGTH then buf + [w] else buf[1..] + [w]
  }

  /** The window after pushing every reading of `history`, oldest first. */
  function PushAll(buf: seq<real>, history: seq<real>): (r: seq<real>)
    ensures |buf| <= BUFFER_LENGTH ==>
      |r| == (if |buf| + |history| <= BUFFER_LENGTH then |buf| + |history| else BUFFER_LENGTH)
    decreases |history|
  {
    if history == [] then buf else PushAll(Pushed(buf, history[0]), history[1..])
  }

  /** The last stable weight after one check against the window `buf`: set
      on the first stable window, then replaced only by a stable reading that
      differs from it by strictly more than MAX_NOISE. */
  function NextLastStable(lastStable: Option<real>, buf: seq<real>): (r: Option<real>)
    ensures lastStable.Some? ==> r.Some?
    ensures !IsStable(buf) ==> r == lastStable
    ensures IsStable(buf) ==> r.Some? && Abs(r.value - buf[|buf| - 1]) <= MAX_NOISE
    ensures r != lastStable ==>
      IsStable(buf) && r == Some(buf[|buf| - 1]) &&
      (lastStable.None? || Abs(lastStable.value - buf[|buf| - 1]) > MAX_NOISE)
  {
    if IsStable(buf) then
      var last := buf[|buf| - 1];
      match lastStable
      case Some(v) => if Abs(v - last) > MAX_NOISE then Some(last) else lastStable
      case None => Some(last)
    else
      lastStable
  }

  /** The filter's state between ticks: the window and the last stable weight. */
  datatype FilterState = FilterState(window: seq<real>, lastStable: Option<real>)

  /** One tick per reading: push the reading, then check the last stable weight. */
  function Run(st: FilterState, readings: seq<real>): (r: FilterState)
    ensures |st.window| <= BUFFER_LENGTH ==> |r.window| <= BUFFER_LENGTH
    ensures readings != [] ==>
      |r.window| > 0 && r.window[|r.window| - 1] == readings[|readings| - 1]
    decreases |readings|
  {
    if readings == [] then st
    else
      var window := Pushed(st.window, readings[0]);
      Run(FilterState(window, NextLastStable(st.lastStable, window)), readings[1..])
  }

  /** A tick whose reading leaves the window stable leaves a last stable
      weight within MAX_NOISE of that reading. */
  lemma StableReadingIsTracked(st: FilterState, w: real)
    requires IsStable(Pushed(st.window, w))
    ensures var r := NextLastStable(st.lastStable, Pushed(st.window, w));
      r.Some? && Abs(r.value - w) <= MAX_NOISE
  {
  }

  /** Over any run of ticks, the window holds the newest readings and a last
      stable weight once set is never unset again. */
  lemma {:induction false} RunKeepsNewestAndNeverUnsets(st: FilterState, readings: seq<real>)
    requires |st.window| <= BUFFER_LENGTH
    ensures Run(st, readings).window == Newest(st.window + readings, BUFFER_LENGTH)
    ensures st.lastStable.Some? ==> Run(st, readings).lastStable.Some?
    decreases |readings|
  {
    if readings == [] {
      assert st.window + readings == st.window;
    } else {
      var first, rest := readings[0], readings[1..];
      var window := Pushed(st.window, first);
      var next := FilterState(window, NextLastStable(st.lastStable, window));
      assert window == Newest(st.window + [first], BUFFER_LENGTH);
      RunKeepsNewestAndNeverUnsets(next, rest);
      NewestAppend(st.window + [first], rest, BUFFER_LENGTH);
      assert st.window + [first] + rest == st.window + readings;
      assert Run(st, readings) == Run(next, rest);
    }
  }

  /** Taking the newest `n` twice, around an append, is taking them once. */
  lemma NewestAppend(s: seq<real>, t: seq<real>, n: nat)
    ensures Newest(Newest(s, n) + t, n) == Newest(s + t, n)
  {
    var a, b := Newest(Newest(s, n) + t, n), Newest(s + t, n);
    assert |a| == |b|;
    forall i | 0 <= i < |a| ensures a[i] == b[i] {
      var u := Newest(s, n) + t;
      var k := |u| - |a| + i;
      if k >= |Newest(s, n)| {
        assert u[k] == t[k - |Newest(s, n)|];
      }
    }
  }

  /** Pushing readings one at a time keeps exactly the newest BUFFER_LENGTH
      readings seen so far, oldest first: the window is a FIFO. */
  lemma {:induction false} WindowOfHistory(buf: seq<real>, history: seq<real>)
    requires |buf| <= BUFFER_LENGTH
    ensures PushAll(buf, history) == Newest(buf + history, BUFFER_LENGTH)
    decreases |history|
  {
    if history == [] {
      assert buf + history == buf;
    } else {
      var first, rest := history[0], history[1..];
      var next := Pushed(buf, first);
      assert next == Newest(buf + [first], BUFFER_LENGTH);
      WindowOfHistory(next, rest);
      NewestAppend(buf + [first], rest, BUFFER_LENGTH);
      assert buf + [first] + rest == buf + history;
      assert PushAll(buf, history) == PushAll(next, rest);
    }
  }

  /** Starting from an empty window, fewer than BUFFER_LENGTH readings never
      give a stable window, whatever their values. */
  lemma {:induction false} NotStableUntilFull(history: seq<real>)
    requires |history| < BUFFER_LENGTH
    ensures |PushAll([], history)| == |history|
    ensures !IsStable(PushAll([], history))
  {
    WindowOfHistory([], history);
    assert [] + history == history;
  }

  /** Once BUFFER_LENGTH readings have been pushed, stability is decided by the
      newest BUFFER_LENGTH of them alone. */
  lemma {:induction false} StableIffNewestSettled(history: seq<real>)
    requires |history| >= BUFFER_LENGTH
    ensures var w := history[|history| - BUFFER_LENGTH..];
      IsStable(PushAll([], history)) <==>
      forall i, j :: 0 <= i < |w| && 0 <= j < |w| ==> w[i] - w[j] < MAX_NOISE
  {
    WindowOfHistory([], history);
    assert [] + history == history;
    assert PushAll([], history) == history[|history| - BUFFER_LENGTH..];
  }

  /** A second check against the same window changes nothing. */
  lemma CheckTwiceIsCheckOnce(lastStable: Option<real>, buf: seq<real>)
    ensures NextLastStable(NextLastStable(lastStable, buf), buf) == NextLastStable(lastStable, buf)
  {
  }

  /** A full window whose spread is exactly MAX_NOISE is not stable: the
      threshold is strict. */
  lemma SpreadAtThresholdIsUnstable()
    ensures !IsStable(seq(BUFFER_LENGTH, i => if i == 0 then 103.0 else 100.0))
  {
    var w := seq(BUFFER_LENGTH, i => if i == 0 then 103.0 else 100.0);
    assert w[0] - w[1] == MAX_NOISE;
  }

  /** A full window whose spread is just below MAX_NOISE is stable. */
  lemma SpreadBelowThresholdIsStable()
    ensures IsStable(seq(BUFFER_LENGTH, i => if i == 0 then 102.9 else 100.0))
  {
  }

  /** Twenty readings of 100.0 followed by a twenty-first: the window is still
      stable and the first check sets the last stable weight to 100.0. */
  lemma SettledWindowSetsLastStable()
    ensures var buf := PushAll(seq(BUFFER_LENGTH, _ => 100.0), [100.0]);
      IsStable(buf) && NextLastStable(None, buf) == Some(100.0)
  {
    var full := seq(BUFFER_LENGTH, _ => 100.0);
    WindowOfHistory(full, [100.0]);
  }

  /** The window of the settling scenario after `k` readings of 70.0 have
      followed twenty readings of 100.0. */
  function Settling(k: nat): (w: seq<real>)
    requires k <= BUFFER_LENGTH
  {
    seq(BUFFER_LENGTH, i => if i < BUFFER_LENGTH - k then 100.0 else 70.0)
  }

  /** From the settling window after `k` readings of 70.0, the remaining
      readings keep the last stable weight at 100.0 while the window mixes
      both weights, and move it to 70.0 once the window holds only 70.0. */
  lemma {:induction false} SettlingFrom(k: nat)
    requires k < BUFFER_LENGTH
    ensures Run(FilterState(Settling(k), Some(100.0)), seq(BUFFER_LENGTH - k, _ => 70.0))
         == FilterState(seq(BUFFER_LENGTH, _ => 70.0), Some(70.0))
    decreases BUFFER_LENGTH - k
  {
    var readings := seq(BUFFER_LENGTH - k, _ => 70.0);
    var window := Pushed(Settling(k), 70.0);
    assert window == Settling(k + 1);
    if k + 1 == BUFFER_LENGTH {
      assert window == seq(BUFFER_LENGTH, _ => 70.0);
      assert readings[1..] == [];
    } else {
      assert window[0] - window[BUFFER_LENGTH - 1] == 30.0;
      assert !IsStable(window);
      assert readings[1..] == seq(BUFFER_LENGTH - (k + 1), _ => 70.0);
      SettlingFrom(k + 1);
    }
  }

  /** Stable at 100.0, then twenty ticks reading 70.0: the last stable weight
      stays 100.0 while the window is mixed, and moves to 70.0 once the window
      has settled there, the change exceeding MAX_NOISE. */
  lemma SettlingAtNewWeightMovesLastStable()
    ensures Run(FilterState(seq(BUFFER_LENGTH, _ => 100.0), Some(100.0)), seq(BUFFER_LENGTH, _ => 70.0))
         == FilterState(seq(BUFFER_LENGTH, _ => 70.0), Some(70.0))
  {
    assert Settling(0) == seq(BUFFER_LENGTH, _ => 100.0);
    SettlingFrom(0);
  }

  /** A stable window exactly MAX_NOISE away from the last stable weight does
      not replace it: the replacement threshold is strict too. */
  lemma ChangeAtThresholdKeepsLastStable()
    ensures NextLastStable(Some(103.0), seq(BUFFER_LENGTH, _ => 100.0)) == Some(103.0)
  {
  }
}
