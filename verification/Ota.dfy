/**
 std_ota.c: two application slots and a boot selector. A download erases and rewrites the slot
 that is not running; the selector is flipped to it and back to see whether the bootloader would
 accept it, and flipped for good before a restart. Power may go between any two flash operations.

 A call is described by the flash states it passes through, one for each flash operation, so
 that a power cut is the end of such a sequence at any place.
 */
module Ota {
  import opened Common

  datatype Slot = A | B

  function Other(slot: Slot): Slot {
    if slot == A then B else A
  }

  /** What flash holds, and the slot this boot runs from. */
  datatype State = State(aValid: bool, bValid: bool, selector: Slot, running: Slot)

  predicate Holds(s: State, slot: Slot) {
    if slot == A then s.aValid else s.bValid
  }

  function Put(s: State, slot: Slot, valid: bool): State {
    if slot == A then s.(aValid := valid) else s.(bValid := valid)
  }

  /** The static update_partition of std_ota_init. */
  function Update(s: State): Slot {
    Other(s.running)
  }

  /** The selector names a slot that holds a valid image. */
  predicate Bootable(s: State) {
    Holds(s, s.selector)
  }

  type NonZero = n: int | n != 0 witness 1

  /** One read of the download loop before the one that returns 0: how many bytes came (negative
      on error), and whether the slot verifies once they are written. */
  datatype Read = Read(bytes: NonZero, whole: bool)

  /** What the network did during std_ota_http_image. */
  datatype Network = Network(version: bool, client: bool, open: bool, chunks: seq<Read>)

  datatype Call =
    | CheckUpdate
    | HttpImage(net: Network)
    | Reboot(timeMs: int)
    | UpdateNow(newer: bool, net: Network)

  /** `Restart`: the call restarts the chip itself. `Abort`: a checked flash operation failed. */
  datatype Outcome = Ok | Fail | Restart | Abort

  // ---------------------------------------------------------------- flash operations

  /** esp_ota_set_boot_partition verifies the image before it writes the selector. */
  function Select(s: State, slot: Slot): seq<State> {
    if Holds(s, slot) then [s.(selector := slot)] else []
  }

  function Last(s: State, passed: seq<State>): State {
    if passed == [] then s else passed[|passed| - 1]
  }

  // ---------------------------------------------------------------- the calls

  /** The flip and flip-back of std_ota_check_update and std_ota_end. */
  function FlipStates(s: State): seq<State> {
    var there := Select(s, Update(s));
    if there == [] then [] else there + Select(there[0], s.running)
  }

  function FlipOutcome(s: State): Outcome {
    if !Holds(s, Update(s)) then Fail else if !Holds(s, s.running) then Abort else Ok
  }

  /** The states of the writes of the download loop. */
  function WriteStates(s: State, chunks: seq<Read>): seq<State> {
    if chunks == [] then []
    else
      var before := WriteStates(s, chunks[..|chunks| - 1]);
      var r := chunks[|chunks| - 1];
      before + (if r.bytes > 0 then [Put(Last(s, before), Update(s), r.whole)] else [])
  }

  /** binary_file_length: an error sets it to -1 and counting goes on from there. */
  function Length(chunks: seq<Read>): int {
    if chunks == [] then 0
    else
      var n, r := Length(chunks[..|chunks| - 1]), chunks[|chunks| - 1];
      if r.bytes < 0 then -1 else n + r.bytes
  }

  predicate Erases(net: Network) {
    net.version && net.client && net.open
  }

  /** The image is complete for esp_ota_end and its length is accepted. */
  predicate Complete(s: State, chunks: seq<Read>) {
    var writes := WriteStates(s, chunks);
    writes != [] && Holds(Last(s, writes), Update(s)) && Length(chunks) > 0
  }

  function HttpStates(s: State, net: Network): seq<State> {
    if !Erases(net) then []
    else
      var erased := Put(s, Update(s), false);
      var writes := WriteStates(erased, net.chunks);
      [erased] + writes + (if Complete(erased, net.chunks) then FlipStates(Last(erased, writes)) else [])
  }

  function HttpOutcome(s: State, net: Network): Outcome {
    var erased := Put(s, Update(s), false);
    if !Erases(net) || !Complete(erased, net.chunks) then Fail
    else FlipOutcome(Last(erased, WriteStates(erased, net.chunks)))
  }

  function RebootOutcome(s: State, timeMs: int): Outcome {
    if !Holds(s, Update(s)) then Fail else if timeMs >= 0 then Restart else Ok
  }

  function States(s: State, call: Call): seq<State> {
    match call
    case CheckUpdate => FlipStates(s)
    case HttpImage(net) => HttpStates(s, net)
    case Reboot(_) => Select(s, Update(s))
    case UpdateNow(newer, net) =>
      if !newer then []
      else
        var http := HttpStates(s, net);
        if HttpOutcome(s, net) == Abort then http
        else http + Select(Last(s, http), Update(s))
  }

  function Result(s: State, call: Call): Outcome {
    match call
    case CheckUpdate => FlipOutcome(s)
    case HttpImage(net) => HttpOutcome(s, net)
    case Reboot(timeMs) => RebootOutcome(s, timeMs)
    case UpdateNow(newer, net) =>
      if !newer then Fail
      else if HttpOutcome(s, net) == Abort then Abort
      else RebootOutcome(Last(s, HttpStates(s, net)), 0)
  }

  /** The call gets as far as erasing the update slot. */
  predicate Downloads(call: Call) {
    (call.HttpImage? && Erases(call.net)) || (call.UpdateNow? && call.newer && Erases(call.net))
  }

  // ---------------------------------------------------------------- one call

  /** The running image and the selected image are both valid. */
  predicate Sound(s: State) {
    Holds(s, s.running) && Bootable(s)
  }

  /** Every state of a sequence is sound, and the running slot stays. */
  predicate AllSound(passed: seq<State>, running: Slot) {
    passed == [] ||
    (var last := passed[|passed| - 1];
     Sound(last) && last.running == running && AllSound(passed[..|passed| - 1], running))
  }

  /** Power may go at every state of a sequence. */
  predicate AllBootable(passed: seq<State>) {
    passed == [] || (Bootable(passed[|passed| - 1]) && AllBootable(passed[..|passed| - 1]))
  }

  lemma {:induction false} AllBootableMeans(passed: seq<State>)
    ensures AllBootable(passed) <==> forall k :: 0 <= k < |passed| ==> Bootable(passed[k])
  {
    if passed != [] {
      AllBootableMeans(passed[..|passed| - 1]);
    }
  }

  lemma {:induction false} SoundConcat(xs: seq<State>, ys: seq<State>, running: Slot)
    ensures AllSound(xs + ys, running) <==> AllSound(xs, running) && AllSound(ys, running)
  {
    if ys == [] {
      assert xs + ys == xs;
    } else {
      SoundConcat(xs, ys[..|ys| - 1], running);
      assert (xs + ys)[..|xs + ys| - 1] == xs + ys[..|ys| - 1];
    }
  }

  lemma {:induction false} BootableConcat(xs: seq<State>, ys: seq<State>)
    ensures AllBootable(xs + ys) <==> AllBootable(xs) && AllBootable(ys)
  {
    if ys == [] {
      assert xs + ys == xs;
    } else {
      BootableConcat(xs, ys[..|ys| - 1]);
      assert (xs + ys)[..|xs + ys| - 1] == xs + ys[..|ys| - 1];
    }
  }

  lemma {:induction false} SoundIsBootable(xs: seq<State>, running: Slot)
    requires AllSound(xs, running)
    ensures AllBootable(xs)
  {
    if xs != [] {
      SoundIsBootable(xs[..|xs| - 1], running);
    }
  }

  lemma SoundOne(s: State)
    requires Sound(s)
    ensures AllSound([s], s.running)
  {
    assert [s][..0] == [];
  }

  lemma SelectIsSound(s: State, slot: Slot)
    requires Sound(s)
    ensures AllSound(Select(s, slot), s.running)
    ensures var last := Last(s, Select(s, slot));
            Sound(last) && last.running == s.running
            && last == if Holds(s, slot) then s.(selector := slot) else s
  {
    if Holds(s, slot) { SoundOne(s.(selector := slot)); }
  }

  lemma FlipIsSound(s: State)
    requires Sound(s)
    ensures AllSound(FlipStates(s), s.running)
    ensures FlipOutcome(s) != Abort
    ensures FlipOutcome(s) == Ok ==> Last(s, FlipStates(s)) == s.(selector := s.running)
    ensures FlipOutcome(s) == Fail ==> FlipStates(s) == []
  {
    if Holds(s, Update(s)) {
      var there := s.(selector := Update(s));
      SelectIsSound(s, Update(s));
      SelectIsSound(there, s.running);
      SoundConcat([there], Select(there, s.running), s.running);
    }
  }

  /** Writing touches only the update slot. */
  lemma {:induction false} WritesAreSound(s: State, chunks: seq<Read>)
    requires Holds(s, s.running) && s.selector == s.running
    ensures AllSound(WriteStates(s, chunks), s.running)
    ensures var last := Last(s, WriteStates(s, chunks));
            Sound(last) && last.selector == last.running == s.running
  {
    if chunks != [] {
      var before := WriteStates(s, chunks[..|chunks| - 1]);
      var r := chunks[|chunks| - 1];
      WritesAreSound(s, chunks[..|chunks| - 1]);
      if r.bytes > 0 {
        var now := Put(Last(s, before), Update(s), r.whole);
        SoundOne(now);
        SoundConcat(before, [now], s.running);
        assert WriteStates(s, chunks) == before + [now];
      } else {
        assert WriteStates(s, chunks) == before;
      }
    }
  }

  lemma LastOfThree(s: State, x: State, ys: seq<State>, zs: seq<State>)
    ensures Last(s, [x] + ys + zs) == Last(Last(x, ys), zs)
  {
  }

  /** What a download that begins passes, in its three parts. */
  lemma DownloadParts(s: State, net: Network)
    requires Sound(s) && Erases(net) && s.selector == s.running
    ensures var erased := Put(s, Update(s), false);
            var writes := WriteStates(erased, net.chunks);
            var last := Last(erased, writes);
            && Sound(last) && last.running == last.selector == s.running
            && HttpStates(s, net) == [erased] + writes + (if HttpOutcome(s, net) == Ok then FlipStates(last) else [])
            && (HttpOutcome(s, net) == Ok || HttpOutcome(s, net) == Fail)
            && (HttpOutcome(s, net) == Ok ==>
                  && Holds(last, Update(s))
                  && FlipStates(last) == [last.(selector := Update(s)), last.(selector := s.running)])
  {
    WritesAreSound(Put(s, Update(s), false), net.chunks);
  }

  lemma HttpIsSound(s: State, net: Network)
    requires Sound(s) && (Erases(net) ==> s.selector == s.running)
    ensures AllSound(HttpStates(s, net), s.running)
    ensures HttpOutcome(s, net) != Abort
    ensures var last := Last(s, HttpStates(s, net));
            Sound(last) && last.selector == s.selector && last.running == s.running
    ensures HttpOutcome(s, net) == Ok ==> Holds(Last(s, HttpStates(s, net)), Update(s))
  {
    if Erases(net) {
      var erased := Put(s, Update(s), false);
      var writes := WriteStates(erased, net.chunks);
      var flips := if HttpOutcome(s, net) == Ok then FlipStates(Last(erased, writes)) else [];
      DownloadParts(s, net);
      LastOfThree(s, erased, writes, flips);
      HttpStatesAreSound(s, net);
    }
  }

  lemma HttpStatesAreSound(s: State, net: Network)
    requires Sound(s) && Erases(net) && s.selector == s.running
    ensures AllSound(HttpStates(s, net), s.running)
  {
    var erased := Put(s, Update(s), false);
    var writes := WriteStates(erased, net.chunks);
    var flips := if Complete(erased, net.chunks) then FlipStates(Last(erased, writes)) else [];
    WritesAreSound(erased, net.chunks);
    FlipIsSound(Last(erased, writes));
    SoundOne(erased);
    ThreeSoundParts([erased], writes, flips, s.running);
  }

  lemma ThreeSoundParts(xs: seq<State>, ys: seq<State>, zs: seq<State>, running: Slot)
    requires AllSound(xs, running) && AllSound(ys, running) && AllSound(zs, running)
    ensures AllSound(xs + ys + zs, running)
  {
    SoundConcat(xs, ys, running);
    SoundConcat(xs + ys, zs, running);
  }

  /** Every call that does not erase the selected slot keeps the device bootable throughout. */
  lemma CallIsSound(s: State, call: Call)
    requires Sound(s) && (Downloads(call) ==> s.selector == s.running)
    ensures AllSound(States(s, call), s.running)
    ensures Result(s, call) != Abort
    ensures Sound(Last(s, States(s, call))) && Last(s, States(s, call)).running == s.running
  {
    match call
    case CheckUpdate => FlipIsSound(s);
    case HttpImage(net) => HttpIsSound(s, net);
    case Reboot(_) => SelectIsSound(s, Update(s));
    case UpdateNow(newer, net) =>
      if newer {
        var http := HttpStates(s, net);
        HttpIsSound(s, net);
        SelectIsSound(Last(s, http), Update(s));
        SoundConcat(http, Select(Last(s, http), Update(s)), s.running);
      }
  }

  /** A download first erases the update slot. */
  lemma DownloadStartsErased(s: State, call: Call)
    requires Downloads(call)
    ensures States(s, call) != [] && States(s, call)[0] == Put(s, Update(s), false)
  {
  }

  /** A call keeps the selector on a valid image at every moment, so that power may go at any of
      them, if and only if it is no download started while the selector names the update slot. */
  lemma CallIsSafeExactlyWhen(s: State, call: Call)
    requires Sound(s)
    ensures AllBootable(States(s, call)) <==> (Downloads(call) ==> s.selector == s.running)
  {
    if Downloads(call) && s.selector != s.running {
      DownloadStartsErased(s, call);
      AllBootableMeans(States(s, call));
    } else {
      CallIsSound(s, call);
      SoundIsBootable(States(s, call), s.running);
    }
  }

  /** Every return path of the download, of std_ota_end inside it and of std_ota_check_update
      leaves a selector that named the running slot as it was. */
  lemma SelectorIsRestored(s: State, call: Call)
    requires Sound(s) && s.selector == s.running && (call.CheckUpdate? || call.HttpImage?)
    ensures Last(s, States(s, call)).selector == s.running
    ensures forall k :: 0 <= k < |States(s, call)| && !Holds(States(s, call)[k], Update(s)) ==>
              States(s, call)[k].selector == s.running
  {
    CallIsSound(s, call);
    SoundIsBootable(States(s, call), s.running);
    AllBootableMeans(States(s, call));
    if call.HttpImage? {
      HttpIsSound(s, call.net);
    } else {
      FlipIsSound(s);
    }
  }

  // ---------------------------------------------------------------- what each call does

  /** std_ota_check_update: -1 on a slot that does not verify; otherwise the selector goes there
      and back, which aborts when the running image no longer verifies. */
  lemma CheckUpdateTellsValidity(s: State)
    ensures var update := if s.running == A then B else A;
            if !Holds(s, update) then Result(s, CheckUpdate) == Fail && States(s, CheckUpdate) == []
            else if Holds(s, s.running)
            then
              && Result(s, CheckUpdate) == Ok
              && States(s, CheckUpdate) == [s.(selector := update), s.(selector := s.running)]
            else Result(s, CheckUpdate) == Abort && States(s, CheckUpdate) == [s.(selector := update)]
  {
  }

  /** std_ota_reboot: -1 on a slot that does not verify; otherwise the selector goes there, and the
      chip restarts unless the delay is negative. */
  lemma RebootObeysItsDelay(s: State, timeMs: int)
    ensures var update := if s.running == A then B else A;
            if !Holds(s, update) then Result(s, Reboot(timeMs)) == Fail && States(s, Reboot(timeMs)) == []
            else
              && Result(s, Reboot(timeMs)) == (if timeMs < 0 then Ok else Restart)
              && States(s, Reboot(timeMs)) == [s.(selector := update)]
  {
  }

  /** std_ota_update with a version that is not newer returns -1 and touches no flash, and so does
      a download that does not get its version, its client or its connection. */
  lemma NothingToDownloadTouchesNothing(s: State, net: Network)
    ensures Result(s, UpdateNow(false, net)) == Fail && States(s, UpdateNow(false, net)) == []
    ensures !net.version || !net.client || !net.open ==>
              Result(s, HttpImage(net)) == Fail && States(s, HttpImage(net)) == []
  {
  }

  /** How many reads brought bytes. */
  function Writes(chunks: seq<Read>): nat {
    if chunks == [] then 0
    else Writes(chunks[..|chunks| - 1]) + (if chunks[|chunks| - 1].bytes > 0 then 1 else 0)
  }

  lemma {:induction false} OneStateAWrite(s: State, chunks: seq<Read>)
    ensures |WriteStates(s, chunks)| == Writes(chunks)
  {
    if chunks != [] {
      OneStateAWrite(s, chunks[..|chunks| - 1]);
    }
  }

  /** A download that begins erases the update slot, writes once for each read that brought bytes,
      and when it succeeds ends with the selector there and back. */
  lemma DownloadPasses(s: State, net: Network)
    requires Sound(s) && s.selector == s.running && net.version && net.client && net.open
    ensures var passed, update := States(s, HttpImage(net)), (if s.running == A then B else A);
            && |passed| == 1 + Writes(net.chunks) + (if Result(s, HttpImage(net)) == Ok then 2 else 0)
            && passed[0] == (if s.running == A then s.(bValid := false) else s.(aValid := false))
            && (Result(s, HttpImage(net)) == Ok ==>
                  passed[|passed| - 2].selector == update && passed[|passed| - 1].selector == s.running)
  {
    OneStateAWrite(Put(s, Update(s), false), net.chunks);
    DownloadParts(s, net);
  }

  // ---------------------------------------------------------------- a failed download that restarts

  /** Some read of the download failed. */
  predicate HasError(chunks: seq<Read>) {
    chunks != [] && (chunks[|chunks| - 1].bytes < 0 || HasError(chunks[..|chunks| - 1]))
  }

  /** The bytes that came after the last failed read, or in all when none failed. */
  function BytesAfterError(chunks: seq<Read>): nat {
    if chunks == [] || chunks[|chunks| - 1].bytes < 0 then 0
    else BytesAfterError(chunks[..|chunks| - 1]) + chunks[|chunks| - 1].bytes
  }

  /** Something was written, and the slot verified after the last write. */
  predicate LastWhole(chunks: seq<Read>) {
    chunks != [] &&
    (if chunks[|chunks| - 1].bytes > 0 then chunks[|chunks| - 1].whole else LastWhole(chunks[..|chunks| - 1]))
  }

  /** The length the loop ends with: a failed read forgets what came before and costs one byte. */
  lemma {:induction false} LengthCountsAfterError(chunks: seq<Read>)
    ensures Length(chunks) == BytesAfterError(chunks) - (if HasError(chunks) then 1 else 0)
    ensures LastWhole(chunks) && !HasError(chunks) ==> BytesAfterError(chunks) > 0
  {
    if chunks != [] {
      LengthCountsAfterError(chunks[..|chunks| - 1]);
    }
  }

  lemma {:induction false} WritesEndWhole(s: State, chunks: seq<Read>)
    requires !Holds(s, Update(s))
    ensures var last := Last(s, WriteStates(s, chunks));
            last.running == s.running && (Holds(last, Update(s)) <==> LastWhole(chunks))
    ensures LastWhole(chunks) ==> WriteStates(s, chunks) != []
  {
    if chunks != [] {
      WritesEndWhole(s, chunks[..|chunks| - 1]);
    }
  }

  /** The download fails, and what it leaves in the update slot still verifies: nothing was erased
      and an image was there, or a whole image came and then a read failed, with at most one byte
      after it. */
  predicate FailsOverValidImage(s: State, net: Network) {
    if Erases(net) then LastWhole(net.chunks) && HasError(net.chunks) && BytesAfterError(net.chunks) <= 1
    else Holds(s, Update(s))
  }

  /** When a download succeeds, in terms of its reads. */
  lemma DownloadSucceedsExactlyWhen(s: State, net: Network)
    requires Sound(s) && s.selector == s.running
    ensures HttpOutcome(s, net) == Ok <==>
            Erases(net) && LastWhole(net.chunks) && !(HasError(net.chunks) && BytesAfterError(net.chunks) <= 1)
    ensures Holds(Last(s, HttpStates(s, net)), Update(s)) <==>
            if Erases(net) then LastWhole(net.chunks) else Holds(s, Update(s))
  {
    HttpIsSound(s, net);
    LengthCountsAfterError(net.chunks);
    if Erases(net) {
      var erased := Put(s, Update(s), false);
      var written := Last(erased, WriteStates(erased, net.chunks));
      WritesAreSound(erased, net.chunks);
      WritesEndWhole(erased, net.chunks);
      FlipIsSound(written);
    }
  }

  /** std_ota_update does not look at the download's result. It restarts after a download that
      failed if and only if that failure left a valid image in the update slot; after a download
      that succeeded it always restarts, and otherwise the selector stays on the running slot. */
  lemma FailedDownloadRestartsExactlyWhen(s: State, net: Network)
    requires Sound(s) && s.selector == s.running
    ensures var call := UpdateNow(true, net);
            && (HttpOutcome(s, net) != Ok && Result(s, call) == Restart <==> FailsOverValidImage(s, net))
            && (HttpOutcome(s, net) == Ok ==> Result(s, call) == Restart)
            && Last(s, States(s, call)).selector == (if Result(s, call) == Restart then Update(s) else s.running)
  {
    HttpIsSound(s, net);
    DownloadSucceedsExactlyWhen(s, net);
  }

  /** The server is lost between the version check, which passed, and the download's own version
      request: the chip restarts into the image of the update before. */
  lemma ServerLostBeforeDownloadRestarts()
    ensures var s, net := State(true, true, A, A), Network(false, false, false, []);
            && HttpOutcome(s, net) == Fail && Result(s, UpdateNow(true, net)) == Restart
            && Last(s, States(s, UpdateNow(true, net))) == s.(selector := B)
  {
  }

  /** The last read fails once the image is whole: the download reports failure, and the chip
      restarts into the new image. */
  lemma LateReadErrorRestarts()
    ensures var s, net := State(true, false, A, A), Network(true, true, true, [Read(1024, true), Read(-1, false)]);
            && HttpOutcome(s, net) == Fail && Result(s, UpdateNow(true, net)) == Restart
            && Last(s, States(s, UpdateNow(true, net))) == State(true, true, B, A)
  {
    var s, net := State(true, false, A, A), Network(true, true, true, [Read(1024, true), Read(-1, false)]);
    assert net.chunks[..1] == [Read(1024, true)];
    assert [Read(1024, true)][..0] == [];
    assert WriteStates(s, net.chunks[..1]) == [State(true, true, A, A)];
    assert WriteStates(s, net.chunks) == [State(true, true, A, A)];
    FailedDownloadRestartsExactlyWhen(s, net);
  }

  // ---------------------------------------------------------------- whole lives

  /** The bootloader runs the selected slot, or the other one when the selected image is bad;
      std_ota_init then takes whichever is not running as the update slot. */
  function Start(s: State): State {
    if Bootable(s) || !Holds(s, Other(s.selector)) then s.(running := s.selector)
    else s.(running := Other(s.selector))
  }

  /** One boot: the calls the application makes, and after how many flash operations the power
      goes at the latest. */
  datatype Session = Session(calls: seq<Call>, cut: nat)

  predicate Ends(o: Outcome) {
    o == Restart || o == Abort
  }

  function SessionStates(s: State, calls: seq<Call>): seq<State>
    decreases calls
  {
    if calls == [] then []
    else
      var passed := States(s, calls[0]);
      if Ends(Result(s, calls[0])) then passed
      else passed + SessionStates(Last(s, passed), calls[1..])
  }

  function Take<T>(xs: seq<T>, n: nat): seq<T> {
    if n < |xs| then xs[..n] else xs
  }

  /** Every flash state of a life, boot by boot. */
  function LifeStates(s: State, sessions: seq<Session>): seq<State>
    decreases sessions
  {
    if sessions == [] then []
    else
      var up := Start(s);
      var passed := [up] + Take(SessionStates(up, sessions[0].calls), sessions[0].cut);
      passed + LifeStates(Last(up, passed), sessions[1..])
  }

  /** Each download that gets to its first flash operation finds the selector on the running slot. */
  predicate SessionSafe(s: State, calls: seq<Call>, cut: nat)
    decreases calls
  {
    calls == [] || cut == 0 ||
    (&& (Downloads(calls[0]) ==> s.selector == s.running)
     && var passed := States(s, calls[0]);
        Ends(Result(s, calls[0])) || cut <= |passed| || SessionSafe(Last(s, passed), calls[1..], cut - |passed|))
  }

  predicate LifeSafe(s: State, sessions: seq<Session>)
    decreases sessions
  {
    sessions == [] ||
    (var up := Start(s);
     var passed := [up] + Take(SessionStates(up, sessions[0].calls), sessions[0].cut);
     SessionSafe(up, sessions[0].calls, sessions[0].cut) && LifeSafe(Last(up, passed), sessions[1..]))
  }

  lemma TakeConcat<T>(xs: seq<T>, ys: seq<T>, n: nat)
    ensures Take(xs + ys, n) == if n <= |xs| then Take(xs, n) else xs + Take(ys, n - |xs|)
  {
  }

  lemma SoundTake(xs: seq<State>, n: nat, running: Slot)
    requires AllSound(xs, running)
    ensures AllSound(Take(xs, n), running) && AllBootable(Take(xs, n))
  {
    if n < |xs| {
      assert xs[..n] + xs[n..] == xs;
      SoundConcat(xs[..n], xs[n..], running);
    }
    SoundIsBootable(Take(xs, n), running);
  }

  /** What a cut sees of a sound first part and whatever follows it. */
  lemma CutAfterSoundPart(xs: seq<State>, ys: seq<State>, cut: nat, running: Slot)
    requires AllSound(xs, running)
    ensures var all := Take(xs + ys, cut);
            if cut <= |xs| then AllSound(all, running) && AllBootable(all)
            else
              && (AllSound(all, running) <==> AllSound(Take(ys, cut - |xs|), running))
              && (AllBootable(all) <==> AllBootable(Take(ys, cut - |xs|)))
  {
    TakeConcat(xs, ys, cut);
    SoundTake(xs, cut, running);
    if cut > |xs| {
      SoundIsBootable(xs, running);
      SoundConcat(xs, Take(ys, cut - |xs|), running);
      BootableConcat(xs, Take(ys, cut - |xs|));
    }
  }

  lemma BadStart(all: seq<State>, cut: nat)
    requires all != [] && !Bootable(all[0]) && cut > 0
    ensures !AllBootable(Take(all, cut))
  {
    AllBootableMeans(Take(all, cut));
  }

  lemma SessionUnfolds(s: State, calls: seq<Call>)
    requires calls != []
    ensures var passed := States(s, calls[0]);
            SessionStates(s, calls) ==
            if Ends(Result(s, calls[0])) then passed else passed + SessionStates(Last(s, passed), calls[1..])
  {
  }

  /** A sequence of states up to a cut is bootable exactly when `safe`, and sound then. */
  ghost predicate SafeAsSeen(all: seq<State>, cut: nat, running: Slot, safe: bool) {
    && (AllBootable(Take(all, cut)) <==> safe)
    && (safe ==> AllSound(Take(all, cut), running))
  }

  /** After a sound first part it is what follows, as far as the cut lets it, that decides. */
  lemma SoundPartThenRest(xs: seq<State>, ys: seq<State>, cut: nat, running: Slot, safe: bool)
    requires AllSound(xs, running)
    requires cut > |xs| ==> SafeAsSeen(ys, cut - |xs|, running, safe)
    ensures SafeAsSeen(xs + ys, cut, running, cut <= |xs| || safe)
  {
    CutAfterSoundPart(xs, ys, cut, running);
  }

  /** A call as far as its flash states go: whether it ends the boot, and whether it is no download
      started while the selector names the update slot. */
  datatype Part = Part(passed: seq<State>, ends: bool, safe: bool)

  function Parts(s: State, calls: seq<Call>): seq<Part>
    decreases calls
  {
    if calls == [] then []
    else
      var passed := States(s, calls[0]);
      [Part(passed, Ends(Result(s, calls[0])), Downloads(calls[0]) ==> s.selector == s.running)] +
      Parts(Last(s, passed), calls[1..])
  }

  function Seen(parts: seq<Part>): seq<State> {
    if parts == [] then [] else if parts[0].ends then parts[0].passed else parts[0].passed + Seen(parts[1..])
  }

  predicate SafeUpTo(parts: seq<Part>, cut: nat) {
    parts == [] || cut == 0 ||
    (parts[0].safe &&
     (parts[0].ends || cut <= |parts[0].passed| || SafeUpTo(parts[1..], cut - |parts[0].passed|)))
  }

  /** Safe parts are sound, up to the first unsafe one, which begins with an unbootable state. */
  ghost predicate SoundParts(parts: seq<Part>, running: Slot) {
    parts == [] ||
    if parts[0].safe then AllSound(parts[0].passed, running) && (parts[0].ends || SoundParts(parts[1..], running))
    else parts[0].passed != [] && !Bootable(parts[0].passed[0])
  }

  lemma {:induction false} PartsDecide(parts: seq<Part>, cut: nat, running: Slot)
    requires SoundParts(parts, running)
    ensures SafeAsSeen(Seen(parts), cut, running, SafeUpTo(parts, cut))
  {
    if parts != [] && cut > 0 {
      var passed := parts[0].passed;
      if !parts[0].safe {
        BadStart(Seen(parts), cut);
      } else if parts[0].ends {
        SoundTake(passed, cut, running);
      } else {
        var safe := cut > |passed| && SafeUpTo(parts[1..], cut - |passed|);
        if cut > |passed| {
          PartsDecide(parts[1..], cut - |passed|, running);
        }
        SoundPartThenRest(passed, Seen(parts[1..]), cut, running, safe);
      }
    }
  }

  lemma {:induction false} PartsOfSession(s: State, calls: seq<Call>, cut: nat)
    ensures Seen(Parts(s, calls)) == SessionStates(s, calls)
    ensures SafeUpTo(Parts(s, calls), cut) <==> SessionSafe(s, calls, cut)
    decreases calls
  {
    if calls != [] {
      var passed := States(s, calls[0]);
      assert Parts(s, calls)[1..] == Parts(Last(s, passed), calls[1..]);
      PartsOfSession(Last(s, passed), calls[1..], if cut > |passed| then cut - |passed| else 0);
    }
  }

  lemma {:induction false} PartsAreSound(s: State, calls: seq<Call>)
    requires Sound(s)
    ensures SoundParts(Parts(s, calls), s.running)
    decreases calls
  {
    if calls != [] {
      var passed := States(s, calls[0]);
      assert Parts(s, calls)[1..] == Parts(Last(s, passed), calls[1..]);
      if Downloads(calls[0]) && s.selector != s.running {
        DownloadStartsErased(s, calls[0]);
      } else {
        CallIsSound(s, calls[0]);
        PartsAreSound(Last(s, passed), calls[1..]);
      }
    }
  }

  lemma SessionIsSafeExactlyWhen(s: State, calls: seq<Call>, cut: nat)
    requires Sound(s)
    ensures AllBootable(Take(SessionStates(s, calls), cut)) <==> SessionSafe(s, calls, cut)
    ensures SessionSafe(s, calls, cut) ==> AllSound(Take(SessionStates(s, calls), cut), s.running)
  {
    PartsAreSound(s, calls);
    PartsOfSession(s, calls, cut);
    PartsDecide(Parts(s, calls), cut, s.running);
  }

  /** Over any number of boots, with the slots changing roles and the power going anywhere: the
      selector names a valid image at every moment if and only if every download that erases
      finds the selector on the running slot. */
  lemma {:induction false} LifeIsBootableExactlyWhen(s: State, sessions: seq<Session>)
    requires Bootable(s)
    ensures AllBootable(LifeStates(s, sessions)) <==> LifeSafe(s, sessions)
    decreases sessions
  {
    if sessions != [] {
      var up := Start(s);
      var now := Take(SessionStates(up, sessions[0].calls), sessions[0].cut);
      var passed := [up] + now;
      SessionIsSafeExactlyWhen(up, sessions[0].calls, sessions[0].cut);
      BootableConcat([up], now);
      assert [up][..0] == [];
      BootableConcat(passed, LifeStates(Last(up, passed), sessions[1..]));
      if AllBootable(now) {
        LifeIsBootableExactlyWhen(Last(up, passed), sessions[1..]);
      }
    }
  }

  /** No download starts after std_ota_reboot was called with a negative delay in the same boot. */
  predicate Tidy(calls: seq<Call>, flipped: bool)
    decreases calls
  {
    calls == [] ||
    (&& (flipped ==> !Downloads(calls[0]))
     && Tidy(calls[1..], flipped || (calls[0].Reboot? && calls[0].timeMs < 0)))
  }

  lemma {:induction false} TidySessionIsSafe(s: State, calls: seq<Call>, cut: nat, flipped: bool)
    requires Sound(s) && Tidy(calls, flipped) && (!flipped ==> s.selector == s.running)
    ensures SessionSafe(s, calls, cut)
    decreases calls
  {
    if calls != [] && cut > 0 {
      var call := calls[0];
      var passed := States(s, call);
      TidyStep(s, calls, flipped);
      if !Ends(Result(s, call)) && cut > |passed| {
        TidySessionIsSafe(Last(s, passed), calls[1..], cut - |passed|,
                          flipped || (call.Reboot? && call.timeMs < 0));
      }
    }
  }

  lemma TidyStep(s: State, calls: seq<Call>, flipped: bool)
    requires Sound(s) && calls != [] && Tidy(calls, flipped) && (!flipped ==> s.selector == s.running)
    ensures var next := Last(s, States(s, calls[0]));
            && Result(s, calls[0]) != Abort
            && Sound(next) && next.running == s.running
            && (!Ends(Result(s, calls[0])) && !(flipped || (calls[0].Reboot? && calls[0].timeMs < 0)) ==>
                  next.selector == s.running)
  {
    CallIsSound(s, calls[0]);
    if !Ends(Result(s, calls[0])) && !flipped {
      OnlyLastingRebootFlips(s, calls[0]);
    }
  }

  lemma SessionIsAllSound(s: State, calls: seq<Call>, flipped: bool)
    requires Sound(s) && Tidy(calls, flipped) && (!flipped ==> s.selector == s.running)
    ensures AllSound(SessionStates(s, calls), s.running)
  {
    var whole := |SessionStates(s, calls)| + 1;
    TidySessionIsSafe(s, calls, whole, flipped);
    SessionIsSafeExactlyWhen(s, calls, whole);
  }

  lemma OnlyLastingRebootFlips(s: State, call: Call)
    requires Sound(s) && s.selector == s.running && !Ends(Result(s, call))
    ensures Last(s, States(s, call)).selector == s.running || (call.Reboot? && call.timeMs < 0)
  {
    match call
    case UpdateNow(newer, net) => if newer { HttpIsSound(s, net); }
    case Reboot(_) =>
    case _ => SelectorIsRestored(s, call);
  }

  /** In particular a device whose application is tidy in that sense can lose power at any moment
      of any number of updates, failed or not, and always boots the slot it selected. */
  lemma {:induction false} TidyDeviceAlwaysBoots(s: State, sessions: seq<Session>)
    requires Bootable(s)
    requires forall k :: 0 <= k < |sessions| ==> Tidy(sessions[k].calls, false)
    ensures LifeSafe(s, sessions) && AllBootable(LifeStates(s, sessions))
    decreases sessions
  {
    if sessions != [] {
      var up := Start(s);
      var now := Take(SessionStates(up, sessions[0].calls), sessions[0].cut);
      TidySessionIsSafe(up, sessions[0].calls, sessions[0].cut, false);
      SessionIsSafeExactlyWhen(up, sessions[0].calls, sessions[0].cut);
      TidyDeviceAlwaysBoots(Last(up, [up] + now), sessions[1..]);
    }
    LifeIsBootableExactlyWhen(s, sessions);
  }

  /** A completed update swaps the roles of the slots: the next boot runs the new image and the
      slot it came from becomes the one to update. */
  lemma UpdateSwapsRoles(s: State, net: Network)
    requires Sound(s) && s.selector == s.running && HttpOutcome(s, net) == Ok
    ensures var after := Start(Last(s, States(s, UpdateNow(true, net))));
            after.running == Update(s) && Update(after) == s.running && Sound(after)
  {
    HttpIsSound(s, net);
    CallIsSound(s, UpdateNow(true, net));
  }

  lemma FirstUpdatePasses()
    ensures var s := State(true, false, A, A);
            var update := UpdateNow(true, Network(true, true, true, [Read(1024, true)]));
            && States(s, update) == [s, State(true, true, A, A), State(true, true, B, A),
                                     State(true, true, A, A), State(true, true, B, A)]
            && Result(s, update) == Restart
  {
    var s, whole, chunks := State(true, false, A, A), State(true, true, A, A), [Read(1024, true)];
    var net := Network(true, true, true, chunks);
    assert chunks[..0] == [];
    assert WriteStates(s, chunks) == [whole] && Length(chunks) == 1024;
    assert HttpStates(s, net) == [s] + [whole] + [whole.(selector := B), whole];
  }

  lemma LifeOfTwoBoots(s: State, calls: seq<Call>, cut: nat)
    requires Start(s) == s
    ensures var passed := [s] + Take(SessionStates(s, calls), cut);
            LifeStates(s, [Session(calls, cut), Session([], 0)]) == passed + [Start(Last(s, passed))]
  {
    var second := [Session([], 0)];
    var passed := [s] + Take(SessionStates(s, calls), cut);
    var up := Start(Last(s, passed));
    assert [Session(calls, cut), Session([], 0)][1..] == second && second[1..] == [];
    assert Take(SessionStates(up, []), 0) == [];
    assert LifeStates(Last(up, [up]), []) == [];
    assert LifeStates(Last(s, passed), second) == [up] + [] + [];
  }

  /** A whole life, state by state: a first image arrives in slot B and is booted; `cut` flash
      operations of the first boot get done. */
  lemma FirstUpdateStateByState(cut: nat)
    ensures var net := Network(true, true, true, [Read(1024, true)]);
            var life := [Session([UpdateNow(true, net), CheckUpdate], cut), Session([], 0)];
            var all := [State(true, false, A, A), State(true, true, A, A), State(true, true, B, A),
                        State(true, true, A, A), State(true, true, B, A)];
            LifeStates(State(true, false, A, A), life) ==
            [State(true, false, A, A)] + (if cut < 5 then all[..cut] else all) +
            [if cut == 3 || cut >= 5 then State(true, true, B, B)
             else if cut < 2 then State(true, false, A, A)
             else State(true, true, A, A)]
  {
    var s := State(true, false, A, A);
    var calls := [UpdateNow(true, Network(true, true, true, [Read(1024, true)])), CheckUpdate];
    FirstUpdatePasses();
    SessionUnfolds(s, calls);
    LifeOfTwoBoots(s, calls, cut);
  }

  // ---------------------------------------------------------------- the file's functions

  class Chip {
    var aValid: bool
    var bValid: bool
    var selector: Slot
    const running: Slot               // set once by std_ota_init
    ghost var passed: seq<State>      // the state after each flash operation of this boot

    ghost function View(): State
      reads this
    {
      State(aValid, bValid, selector, running)
    }

    /** Power-on: the bootloader picks the slot, std_ota_init records it. */
    constructor (flash: State)
      ensures View() == Start(flash) && passed == []
      ensures View() == flash.(running := running)
      ensures running == if Holds(flash, flash.selector) || !Holds(flash, Other(flash.selector))
                         then flash.selector else Other(flash.selector)
      ensures Bootable(flash) ==> Sound(View()) && selector == running
      ensures Holds(flash, A) || Holds(flash, B) ==> Holds(View(), running)
    {
      aValid, bValid, selector, passed := flash.aValid, flash.bValid, flash.selector, [];
      running := Start(flash).running;
    }

    method Valid(slot: Slot) returns (v: bool)
      ensures v == Holds(View(), slot)
    {
      v := if slot == A then aValid else bValid;
    }

    /** esp_ota_set_boot_partition. */
    method SetBootPartition(slot: Slot) returns (ok: bool)
      modifies this
      ensures ok == old(Holds(View(), slot))
      ensures View() == (if ok then old(View()).(selector := slot) else old(View()))
      ensures passed == old(passed) + Select(old(View()), slot)
    {
      ok := Valid(slot);
      if ok {
        selector := slot;
        passed := passed + [View()];
      }
    }

    /** Erasing the update slot, or writing to it; `valid` is whether it verifies afterwards. */
    method Program(valid: bool)
      modifies this
      ensures View() == Put(old(View()), Other(running), valid)
      ensures passed == old(passed) + [View()]
    {
      if Other(running) == A { aValid := valid; } else { bValid := valid; }
      passed := passed + [View()];
    }

    method StdOtaCheckUpdate() returns (o: Outcome)
      modifies this
      ensures o == FlipOutcome(old(View()))
      ensures passed == old(passed) + FlipStates(old(View()))
      ensures View() == Last(old(View()), FlipStates(old(View())))
      ensures o == Fail <==> !old(Holds(View(), Other(running)))
      ensures o == Ok ==> View() == old(View()).(selector := running)
    {
      var ok := SetBootPartition(Other(running));
      if !ok { return Fail; }
      ok := SetBootPartition(running);
      o := if ok then Ok else Abort;
    }

    /** The loop of std_ota_http_image after esp_ota_begin. */
    method Download(chunks: seq<Read>) returns (length: int, written: bool)
      modifies this
      ensures length == Length(chunks)
      ensures written <==> WriteStates(old(View()), chunks) != []
      ensures passed == old(passed) + WriteStates(old(View()), chunks)
      ensures View() == Last(old(View()), WriteStates(old(View()), chunks))
    {
      length, written := 0, false;
      for i := 0 to |chunks|
        invariant length == Length(chunks[..i])
        invariant written <==> WriteStates(old(View()), chunks[..i]) != []
        invariant passed == old(passed) + WriteStates(old(View()), chunks[..i])
        invariant View() == Last(old(View()), WriteStates(old(View()), chunks[..i]))
      {
        assert chunks[..i + 1][..i] == chunks[..i];
        if chunks[i].bytes < 0 {
          length := -1;
        }
        if chunks[i].bytes > 0 {
          Program(chunks[i].whole);
          written := true;
          length := length + chunks[i].bytes;
        }
      }
      assert chunks[..|chunks|] == chunks;
    }

    method StdOtaHttpImage(net: Network) returns (o: Outcome)
      modifies this
      ensures o == HttpOutcome(old(View()), net)
      ensures passed == old(passed) + HttpStates(old(View()), net)
      ensures View() == Last(old(View()), HttpStates(old(View()), net))
    {
      if !net.version { return Fail; }
      if !net.client { return Fail; }
      if !net.open { return Fail; }
      Program(false);
      var length, written := Download(net.chunks);
      var whole := Valid(Other(running));
      if !(written && whole) { return Fail; }
      if length <= 0 { return Fail; }
      o := StdOtaCheckUpdate();
    }

    method StdOtaReboot(timeMs: int) returns (o: Outcome)
      modifies this
      ensures o == RebootOutcome(old(View()), timeMs)
      ensures passed == old(passed) + Select(old(View()), Update(old(View())))
      ensures View() == Last(old(View()), Select(old(View()), Update(old(View()))))
      ensures o == if !old(Holds(View(), Other(running))) then Fail else if timeMs < 0 then Ok else Restart
      ensures View() == if o == Fail then old(View()) else old(View()).(selector := Other(running))
    {
      var ok := SetBootPartition(Other(running));
      if !ok { return Fail; }
      o := if timeMs >= 0 then Restart else Ok;
    }

    method StdOtaUpdate(newer: bool, net: Network) returns (o: Outcome)
      modifies this
      ensures o == Result(old(View()), UpdateNow(newer, net))
      ensures passed == old(passed) + States(old(View()), UpdateNow(newer, net))
      ensures View() == Last(old(View()), States(old(View()), UpdateNow(newer, net)))
      ensures !newer ==> o == Fail && View() == old(View()) && passed == old(passed)
    {
      if !newer { return Fail; }
      var ignored := StdOtaHttpImage(net);
      if ignored == Abort { return Abort; }
      o := StdOtaReboot(0);
    }

    method Do(call: Call) returns (o: Outcome)
      modifies this
      ensures o == Result(old(View()), call)
      ensures passed == old(passed) + States(old(View()), call)
      ensures View() == Last(old(View()), States(old(View()), call))
    {
      match call {
        case CheckUpdate => o := StdOtaCheckUpdate();
        case HttpImage(net) => o := StdOtaHttpImage(net);
        case Reboot(timeMs) => o := StdOtaReboot(timeMs);
        case UpdateNow(newer, net) => o := StdOtaUpdate(newer, net);
      }
    }

    /** The calls of one boot, one after the other, until one of them restarts the chip. */
    method Serve(calls: seq<Call>, ghost flipped: bool) returns (o: Outcome)
      requires Sound(View()) && Tidy(calls, flipped) && (!flipped ==> selector == running)
      modifies this
      ensures passed == old(passed) + SessionStates(old(View()), calls)
      ensures o != Abort
      decreases |calls|
    {
      if calls == [] { return Ok; }
      ghost var s, before := View(), passed;
      TidyStep(s, calls, flipped);
      SessionUnfolds(s, calls);
      o := Do(calls[0]);
      if o == Restart { return; }
      ghost var now := States(s, calls[0]);
      ghost var rest := SessionStates(View(), calls[1..]);
      o := Serve(calls[1..], flipped || (calls[0].Reboot? && calls[0].timeMs < 0));
      Associative(before, now, rest);
    }

    /** One boot of a tidy application: whatever it calls, every flash state on the way is one
        from which the device boots, and no checked operation aborts. */
    method ServeTidy(calls: seq<Call>) returns (o: Outcome)
      requires Sound(View()) && selector == running && Tidy(calls, false) && passed == []
      modifies this
      ensures passed == SessionStates(old(View()), calls)
      ensures AllSound(passed, running) && o != Abort
    {
      SessionIsAllSound(View(), calls, false);
      o := Serve(calls, false);
    }
  }
}
