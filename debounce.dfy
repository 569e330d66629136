/** The debounce state machine of `matrix_scan` as pure functions over the scanner's state: the
    settled matrix (`matrix`), the candidate matrix (`matrix_debouncing`) and the countdown
    (`debouncing`). `Step` is one scan given the five row bitmaps it reads; `Run` is a sequence of
    scans. The `Scanner` class in module Matrix is proved to perform `Step`. */
module Debounce {
  import opened Pins

  /** Five row bitmaps, one per matrix row. */
  type RowBitmaps = s: seq<bv16> | |s| == ROWS witness [0, 0, 0, 0, 0]

  /** All keys released. */
  function Zeros(): RowBitmaps
  {
    [0, 0, 0, 0, 0]
  }

  /** The scanner's state: settled rows, candidate rows and the countdown. */
  datatype State = State(settled: RowBitmaps, candidate: RowBitmaps, counter: nat)

  /** The state invariant for threshold `d` (DEBOUNCE, a uint8_t constant of at least 1): the
      countdown never exceeds `d`, and when no commit is pending the settled matrix is the
      candidate matrix. */
  predicate Valid(d: nat, s: State)
  {
    1 <= d <= 255 && s.counter <= d && (s.counter == 0 ==> s.settled == s.candidate)
  }

  /** The state at power-on: the static arrays are zero and `debouncing` is DEBOUNCE. */
  function PowerOn(d: nat): State
  {
    State(Zeros(), Zeros(), d)
  }

  /** `matrix_init`'s effect on the state: both matrices are zeroed, the countdown is kept. */
  function Init(s: State): (t: State)
  {
    State(Zeros(), Zeros(), s.counter)
  }

  /** The result of one scan: the new state, and whether the 1 ms pacing delay runs. */
  datatype Outcome = Outcome(next: State, paused: bool)

  /** The countdown after the row loop of a scan: restarted at `d` when any row read differs from
      its candidate, otherwise unchanged. */
  function Restarted(d: nat, s: State, input: RowBitmaps): nat
  {
    if input != s.candidate then d else s.counter
  }

  /** The end of a scan, after the row loop: a nonzero countdown is decremented; if it reaches
      zero the whole candidate matrix is committed, otherwise the 1 ms delay runs. */
  function Settle(s: State): Outcome
  {
    if s.counter == 0 then Outcome(s, false)
    else if s.counter - 1 != 0 then Outcome(State(s.settled, s.candidate, s.counter - 1), true)
    else Outcome(State(s.candidate, s.candidate, 0), false)
  }

  /** One call of `matrix_scan` reading `input`: every candidate row becomes the row read; any
      difference restarts the shared countdown; then `Settle`. The invariant is kept, the delay
      runs exactly while the countdown is still nonzero, and the settled matrix either stays or
      becomes the whole new candidate matrix. */
  function Step(d: nat, s: State, input: RowBitmaps): (o: Outcome)
    requires Valid(d, s)
    ensures Valid(d, o.next)
    ensures o.next.candidate == input
    ensures o.paused <==> o.next.counter > 0
    ensures o.next.settled == s.settled || (o.next.settled == input && o.next.counter == 0)
  {
    Settle(State(s.settled, input, Restarted(d, s, input)))
  }

  /** Steady state: with no pending commit and every row reading as before, a scan changes
      nothing and does not pause. */
  lemma FastPath(d: nat, s: State)
    requires Valid(d, s) && s.counter == 0
    ensures Step(d, s, s.candidate) == Outcome(s, false)
  {
  }

  /** Any difference restarts the one shared window: the scan ends with the countdown at d - 1
      however many rows differed; the settled matrix changes only when d is 1. */
  lemma ChangeRestartsWindow(d: nat, s: State, input: RowBitmaps)
    requires Valid(d, s) && input != s.candidate
    ensures Step(d, s, input).next.counter == d - 1
    ensures d > 1 ==> Step(d, s, input).next.settled == s.settled && Step(d, s, input).paused
    ensures d == 1 ==> Step(d, s, input).next.settled == input
  {
  }

  /** The settled matrix changes only in the scan whose countdown goes from 1 to 0, and then it
      becomes the whole candidate matrix. */
  lemma CommitOnlyFromOne(d: nat, s: State, input: RowBitmaps)
    requires Valid(d, s)
    requires Step(d, s, input).next.settled != s.settled
    ensures Restarted(d, s, input) == 1
    ensures Step(d, s, input).next.settled == Step(d, s, input).next.candidate == input
  {
  }

  /** A sequence of scans, the i-th reading h[i]. */
  function Run(d: nat, s: State, h: seq<RowBitmaps>): (t: State)
    requires Valid(d, s)
    ensures Valid(d, t)
    decreases |h|
  {
    if h == [] then s else Run(d, Step(d, s, h[0]).next, h[1..])
  }

  /** Scanning h1 and then h2 is scanning h1 + h2. */
  lemma {:induction false} RunAppend(d: nat, s: State, h1: seq<RowBitmaps>, h2: seq<RowBitmaps>)
    requires Valid(d, s)
    ensures Run(d, s, h1 + h2) == Run(d, Run(d, s, h1), h2)
    decreases |h1|
  {
    if h1 != [] {
      assert (h1 + h2)[0] == h1[0];
      assert (h1 + h2)[1..] == h1[1..] + h2;
      RunAppend(d, Step(d, s, h1[0]).next, h1[1..], h2);
    } else {
      assert h1 + h2 == h2;
    }
  }

  /** The last scan of a run is one `Step`. */
  lemma RunLast(d: nat, s: State, h: seq<RowBitmaps>, r: RowBitmaps)
    requires Valid(d, s)
    ensures Run(d, s, h + [r]) == Step(d, Run(d, s, h), r).next
  {
    RunAppend(d, s, h, [r]);
    assert [r][1..] == [];
  }

  /** k scans that all read r. */
  function Repeat(r: RowBitmaps, k: nat): (h: seq<RowBitmaps>)
    ensures |h| == k && forall i :: 0 <= i < k ==> h[i] == r
  {
    seq(k, _ => r)
  }

  /** Commit timing. Let n be the countdown after the first of k scans all reading r has run its
      row loop (DEBOUNCE when r differs from the candidate). For k <= n the countdown ends at
      n - k, and the settled matrix stays as it was until the n-th scan, which commits r. With a
      new reading, r is therefore committed on the DEBOUNCE-th consecutive scan reading it,
      counting the scan that first saw it. */
  lemma {:induction false} StableReads(d: nat, s: State, r: RowBitmaps, k: nat)
    requires Valid(d, s)
    requires 1 <= k <= Restarted(d, s, r)
    ensures Run(d, s, Repeat(r, k)).candidate == r
    ensures Run(d, s, Repeat(r, k)).counter == Restarted(d, s, r) - k
    ensures Run(d, s, Repeat(r, k)).settled == if k == Restarted(d, s, r) then r else s.settled
  {
    var n := Restarted(d, s, r);
    if k == 1 {
      assert Repeat(r, 1) == [] + [r];
      RunLast(d, s, [], r);
    } else {
      StableReads(d, s, r, k - 1);
      assert Repeat(r, k) == Repeat(r, k - 1) + [r];
      RunLast(d, s, Repeat(r, k - 1), r);
    }
  }

  /** Once settled, a matrix that keeps reading the same rows stays settled forever. */
  lemma {:induction false} SteadyState(d: nat, s: State, k: nat)
    requires Valid(d, s) && s.counter == 0
    ensures Run(d, s, Repeat(s.candidate, k)) == s
  {
    if k > 0 {
      SteadyState(d, s, k - 1);
      assert Repeat(s.candidate, k) == Repeat(s.candidate, k - 1) + [s.candidate];
      RunLast(d, s, Repeat(s.candidate, k - 1), s.candidate);
    }
  }

  /** A one-scan flicker away from a settled reading and back restarts the full window: after it
      the settled matrix is unchanged and the countdown is back at d - 1. */
  lemma FlickerRestarts(d: nat, s: State, b: RowBitmaps)
    requires Valid(d, s) && 2 <= d && s.counter == 0 && b != s.candidate
    ensures Run(d, s, [b, s.candidate]).settled == s.settled
    ensures Run(d, s, [b, s.candidate]).candidate == s.candidate
    ensures Run(d, s, [b, s.candidate]).counter == d - 1
  {
    RunLast(d, s, [b], s.candidate);
    RunLast(d, s, [], b);
    assert [b] + [s.candidate] == [b, s.candidate];
  }

  /** The last d - counter readings of history h all equal the candidate matrix. */
  ghost predicate Window(d: nat, s: State, h: seq<RowBitmaps>)
    requires s.counter <= d
  {
    d - s.counter <= |h| && forall j :: |h| - (d - s.counter) <= j < |h| ==> h[j] == s.candidate
  }

  /** One scan keeps the window: the countdown always measures how long the candidate has been
      read without interruption. */
  lemma StepWindow(d: nat, s: State, h: seq<RowBitmaps>, r: RowBitmaps)
    requires Valid(d, s) && Window(d, s, h)
    ensures Window(d, Step(d, s, r).next, h + [r])
  {
    var t := Step(d, s, r).next;
    var n := d - t.counter;
    var g := h + [r];
    forall j | |g| - n <= j < |g|
      ensures g[j] == t.candidate
    {
      if j < |h| {
        assert h[j] == g[j];
      }
    }
  }

  /** Every scan keeps the window. */
  lemma {:induction false} RunWindow(d: nat, s: State, h0: seq<RowBitmaps>, h: seq<RowBitmaps>)
    requires Valid(d, s) && Window(d, s, h0)
    ensures Window(d, Run(d, s, h), h0 + h)
    decreases |h|
  {
    if h != [] {
      StepWindow(d, s, h0, h[0]);
      assert h0 + h == (h0 + [h[0]]) + h[1..];
      RunWindow(d, Step(d, s, h[0]).next, h0 + [h[0]], h[1..]);
    }
  }

  /** No value is ever committed that was read fewer than DEBOUNCE times in a row: starting from
      a full countdown (the power-on state), whenever the countdown is 0 the last d scans all read
      exactly the settled matrix. */
  lemma SettledWasStable(d: nat, s: State, h: seq<RowBitmaps>)
    requires Valid(d, s) && s.counter == d
    ensures Run(d, s, h).counter == 0 ==>
              |h| >= d && forall j :: |h| - d <= j < |h| ==> h[j] == Run(d, s, h).settled
  {
    RunWindow(d, s, [], h);
    assert [] + h == h;
  }

  /** With threshold 3, row 0 reading 0, 0, 1, 1, 1 after power-on settles to 1 on the fifth
      scan, the third consecutive scan reading 1, and not on the fourth. */
  lemma ThresholdThreeExample()
    ensures var r0, r1 := Zeros(), [1 as bv16, 0, 0, 0, 0];
            Run(3, PowerOn(3), [r0, r0, r1, r1]).settled == r0 &&
            Run(3, PowerOn(3), [r0, r0, r1, r1, r1]).settled == r1
  {
    var r0: RowBitmaps, r1: RowBitmaps := Zeros(), [1, 0, 0, 0, 0];
    var s2 := Run(3, PowerOn(3), [r0, r0]);
    assert s2 == State(r0, r0, 1) by {
      RunLast(3, PowerOn(3), [r0], r0);
      RunLast(3, PowerOn(3), [], r0);
      assert [r0] + [r0] == [r0, r0];
    }
    RunAppend(3, PowerOn(3), [r0, r0], [r1, r1]);
    RunAppend(3, PowerOn(3), [r0, r0], [r1, r1, r1]);
    StableReads(3, s2, r1, 2);
    StableReads(3, s2, r1, 3);
    assert Repeat(r1, 2) == [r1, r1];
    assert Repeat(r1, 3) == [r1, r1, r1];
    assert [r0, r0] + [r1, r1] == [r0, r0, r1, r1];
    assert [r0, r0] + [r1, r1, r1] == [r0, r0, r1, r1, r1];
  }
}
