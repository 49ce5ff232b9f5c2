/**
 One key of std_key.c: the press/release machine of status_judge and press_time_handle, and the
 run-length reading of the sample stream that it implements.

 A sample is `true` when the pin reads high, which is the released level.
 */
module KeyDebounce {
  import opened Common

  const CHECK_PEROID_MS := 30

  datatype Status = Press | Release

  /** The fields of key_info_t that the task uses; times are uint32_t. */
  datatype Key = Key(shake: nat, ty: int, status: Status, press: nat)

  /** What std_key_add installs: `shake` is converted to uint32_t. */
  function Fresh(shake: int, ty: int): Key {
    Key(shake % TWO_32, ty, Release, 0)
  }

  /** The hold time press_time_handle reports when a sample ends a press, if it reports one. */
  function Report(k: Key, high: bool): Option<nat> {
    if k.status == Press && high && k.press > k.shake then Some(k.press) else None
  }

  /** The fields after status_judge has seen a sample. */
  function Judge(k: Key, high: bool): Key {
    match k.status
    case Press => if !high then k.(press := (k.press + CHECK_PEROID_MS) % TWO_32) else k.(status := Release)
    case Release => if !high then k.(status := Press, press := 0) else k
  }

  function Run(k: Key, samples: seq<bool>): Key {
    if samples == [] then k else Judge(Run(k, samples[..|samples| - 1]), samples[|samples| - 1])
  }

  function ToSeq(o: Option<nat>): seq<nat> {
    if o.None? then [] else [o.value]
  }

  /** The hold times reported over a whole sample stream, in order. */
  function Holds(k: Key, samples: seq<bool>): seq<nat> {
    if samples == [] then []
    else
      var before := samples[..|samples| - 1];
      Holds(k, before) + ToSeq(Report(Run(k, before), samples[|samples| - 1]))
  }

  // ---------------------------------------------------------------- the run-length reading

  /** The length of the run of low samples that ends just before position `j`. */
  function LowRun(samples: seq<bool>, j: nat): nat
    requires j <= |samples|
  {
    if j == 0 || samples[j - 1] then 0 else 1 + LowRun(samples, j - 1)
  }

  /** `[i, j)` is a maximal run of low samples, ended by a high one. */
  ghost predicate EndedRun(samples: seq<bool>, i: nat, j: nat) {
    && i < j < |samples|
    && (forall k :: i <= k < j ==> !samples[k])
    && samples[j]
    && (i > 0 ==> samples[i - 1])
  }

  /** The hold time a low run of `n` samples stands for: its first sample starts the clock. */
  function HoldTime(n: nat): nat
    requires n > 0
  {
    CHECK_PEROID_MS * (n - 1) % TWO_32
  }

  /** What a sample adds, given the low run of `n` samples just before it. */
  function EndOfRun(shake: nat, high: bool, n: nat): seq<nat> {
    if high && n > 0 && HoldTime(n) > shake then [HoldTime(n)] else []
  }

  /** One hold time for each ended low run that outlasts the shake time, in order. */
  function LongRuns(shake: nat, samples: seq<bool>): seq<nat> {
    if samples == [] then []
    else
      var last := |samples| - 1;
      LongRuns(shake, samples[..last]) + EndOfRun(shake, samples[last], LowRun(samples, last))
  }

  lemma {:induction false} LowRunIsMaximal(samples: seq<bool>, j: nat)
    requires j <= |samples|
    ensures LowRun(samples, j) <= j
    ensures forall k :: j - LowRun(samples, j) <= k < j ==> !samples[k]
    ensures LowRun(samples, j) < j ==> samples[j - LowRun(samples, j) - 1]
  {
    if j > 0 && !samples[j - 1] {
      LowRunIsMaximal(samples, j - 1);
    }
  }

  /** The positions where a report may come are exactly the ends of the maximal low runs. */
  lemma EndedRunIsLowRun(samples: seq<bool>, i: nat, j: nat)
    requires j < |samples|
    ensures EndedRun(samples, i, j) <==> samples[j] && LowRun(samples, j) > 0 && i == j - LowRun(samples, j)
  {
    LowRunIsMaximal(samples, j);
    var first := j - LowRun(samples, j);
    assert first > 0 ==> samples[first - 1];
    assert EndedRun(samples, i, j) && i > 0 ==> samples[i - 1];
  }

  lemma {:induction false} LowRunOfPrefix(samples: seq<bool>, more: seq<bool>, j: nat)
    requires j <= |samples|
    ensures LowRun(samples + more, j) == LowRun(samples, j)
  {
    if j > 0 && !samples[j - 1] {
      LowRunOfPrefix(samples, more, j - 1);
    }
  }

  lemma WrapAdd(a: nat, b: nat)
    ensures (a % TWO_32 + b) % TWO_32 == (a + b) % TWO_32
  {
    var q, r := a / TWO_32, a % TWO_32;
    var q', r' := (r + b) / TWO_32, (r + b) % TWO_32;
    assert a + b == (q + q') * TWO_32 + r';
  }

  /** One more low sample of a run adds one period to its hold time. */
  lemma HoldTimeGrows(n: nat)
    requires n > 0
    ensures HoldTime(n + 1) == (HoldTime(n) + CHECK_PEROID_MS) % TWO_32
  {
    WrapAdd(CHECK_PEROID_MS * (n - 1), CHECK_PEROID_MS);
  }

  lemma LowRunStep(samples: seq<bool>)
    requires samples != []
    ensures var last := |samples| - 1;
            && LowRun(samples, last) == LowRun(samples[..last], last)
            && LowRun(samples, |samples|) == (if samples[last] then 0 else LowRun(samples[..last], last) + 1)
  {
    var last := |samples| - 1;
    assert samples[..last] + samples[last..] == samples;
    LowRunOfPrefix(samples[..last], samples[last..], last);
  }

  /** The fields are a summary of the low run in progress. */
  lemma {:induction false} FieldsMeasureLowRun(shake: int, ty: int, samples: seq<bool>)
    ensures var k := Run(Fresh(shake, ty), samples);
            var n := LowRun(samples, |samples|);
            && k.shake == shake % TWO_32 && k.ty == ty
            && (k.status == Press <==> n > 0)
            && (n > 0 ==> k.press == HoldTime(n))
  {
    if samples != [] {
      var last := |samples| - 1;
      FieldsMeasureLowRun(shake, ty, samples[..last]);
      LowRunStep(samples);
      var n := LowRun(samples[..last], last);
      if n > 0 { HoldTimeGrows(n); }
    }
  }

  /** The debouncer reports exactly the ended low runs that outlast the shake time, each with its
      hold time, in order: for every sample stream, every shake time and every width of run. */
  lemma {:induction false} DebouncerReportsLongRuns(shake: int, ty: int, samples: seq<bool>)
    ensures Holds(Fresh(shake, ty), samples) == LongRuns(shake % TWO_32, samples)
  {
    if samples != [] {
      var before := samples[..|samples| - 1];
      DebouncerReportsLongRuns(shake, ty, before);
      FieldsMeasureLowRun(shake, ty, before);
      LowRunStep(samples);
    }
  }

  lemma {:induction false} LowRunAfterHigh(xs: seq<bool>, ys: seq<bool>, j: nat)
    requires j <= |ys| && (xs == [] || xs[|xs| - 1])
    ensures LowRun(xs + ys, |xs| + j) == LowRun(ys, j)
    decreases j
  {
    if j > 0 {
      assert (xs + ys)[|xs| + j - 1] == ys[j - 1];
      if !ys[j - 1] { LowRunAfterHigh(xs, ys, j - 1); }
    }
  }

  lemma LongRunsStep(shake: nat, samples: seq<bool>, high: bool)
    ensures LongRuns(shake, samples + [high]) ==
            LongRuns(shake, samples) + EndOfRun(shake, high, LowRun(samples + [high], |samples|))
  {
    assert (samples + [high])[..|samples|] == samples;
  }

  lemma EndAgrees(shake: nat, xs: seq<bool>, init: seq<bool>, last: bool)
    requires xs == [] || xs[|xs| - 1]
    ensures EndOfRun(shake, last, LowRun((xs + init) + [last], |xs + init|)) ==
            EndOfRun(shake, last, LowRun(init + [last], |init|))
  {
    Associative(xs, init, [last]);
    LowRunAfterHigh(xs, init + [last], |init|);
  }

  /** Once a high sample has ended whatever went before, the rest of the stream stands alone. */
  lemma {:induction false} LongRunsConcat(shake: nat, xs: seq<bool>, ys: seq<bool>)
    requires xs == [] || xs[|xs| - 1]
    ensures LongRuns(shake, xs + ys) == LongRuns(shake, xs) + LongRuns(shake, ys)
    decreases ys
  {
    if ys == [] {
      assert xs + ys == xs;
    } else {
      var init, last := ys[..|ys| - 1], ys[|ys| - 1];
      assert ys == init + [last];
      LongRunsConcat(shake, xs, init);
      EndAgrees(shake, xs, init, last);
      Associative(xs, init, [last]);
      LongRunsStep(shake, xs + init, last);
      LongRunsStep(shake, init, last);
      Associative(LongRuns(shake, xs), LongRuns(shake, init), EndOfRun(shake, last, LowRun(ys, |init|)));
    }
  }

  /** `n` low samples in a row. */
  function Lows(n: nat): (s: seq<bool>)
    ensures |s| == n
  {
    if n == 0 then [] else Lows(n - 1) + [false]
  }

  lemma {:induction false} LowsAreOneRun(shake: nat, n: nat)
    ensures LowRun(Lows(n), n) == n && LongRuns(shake, Lows(n)) == []
  {
    if n > 0 {
      var fewer := Lows(n - 1);
      LowsAreOneRun(shake, n - 1);
      assert Lows(n) == fewer + [false];
      LowRunOfPrefix(fewer, [false], n - 1);
      LongRunsStep(shake, fewer, false);
      assert EndOfRun(shake, false, LowRun(fewer + [false], n - 1)) == [];
    }
  }

  /** One press of `n` samples between high samples gives one event when it outlasts the shake
      time and none when it does not; what came before and what comes after report as if alone. */
  lemma OnePressOneEvent(shake: nat, before: seq<bool>, n: nat, after: seq<bool>)
    requires n > 0 && (before == [] || before[|before| - 1])
    ensures var hold := 30 * (n - 1) % 0x1_0000_0000;
            LongRuns(shake, before + (Lows(n) + [true] + after)) ==
            LongRuns(shake, before) + ((if hold > shake then [hold] else []) + LongRuns(shake, after))
  {
    var press := Lows(n) + [true];
    assert LongRuns(shake, press) == EndOfRun(shake, true, n) by {
      LowsAreOneRun(shake, n);
      LongRunsStep(shake, Lows(n), true);
      LowRunOfPrefix(Lows(n), [true], n);
    }
    LongRunsConcat(shake, press, after);
    LongRunsConcat(shake, before, press + after);
  }
}
