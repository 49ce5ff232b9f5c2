/**
 The send half of std_espnow.c: any number of blocking callers and the writer task share
 one lock, one completion semaphore and one status word, which the radio's callback
 writes and signals in two separate steps.

 `State`, `Enabled` and `Next` are the protocol; `Espnow` holds the same variables as
 fields, changes them one atomic step at a time, and is proved against `Next`.
 */
module EspnowSend {
  import opened Common

  const ESP_NOW_SEND_SUCCESS := 0
  const MAX_SEND_QUEEN := 3
  /** Thread 0 is espnow_write_task; every other thread is a caller of std_espnow_write. */
  const WRITER := 0

  datatype Send = Send(peer: Option<Mac>, frame: seq<Byte>)

  /** Where a thread stands in espnow_write_data. `tx` numbers the transmission the radio
      accepted from this very call; `None` when the radio refused it. */
  datatype Pc =
    | Idle
    | AtLock(send: Send)
    | AtDrain(send: Send)
    | AtTransmit(send: Send)
    | AtTake(send: Send, tx: nat)
    | AtRead(send: Send, tx: nat)
    | AtUnlock(send: Send, got: Option<nat>, res: int)
    | Returned(send: Send, got: Option<nat>, res: int)

  /** A callback that has written the status and not yet given the semaphore. A stray
      callback belongs to no transmission of this module. */
  datatype Callback = NoCallback | Own(tx: nat) | Stray

  datatype Transmission = Transmission(thread: nat, addr: Mac, frame: seq<Byte>)

  datatype State = State(
    lockFree: bool,
    completion: bool,
    status: int,
    broadcast: Mac,
    threads: seq<Pc>,
    sendQueue: seq<Send>,
    callback: Callback,
    owed: set<nat>,          // accepted transmissions whose callback has not begun
    air: seq<Transmission>,  // every accepted transmission; the index is its number
    verdict: map<nat, int>,  // the status each callback reported
    posted: seq<Send>,       // every frame the send queue accepted
    fetched: seq<Send>)      // every frame the writer task took from it

  datatype Action =
    | Call(t: nat, send: Send)
    | Post(send: Send)
    | Fetch
    | Lock(t: nat)
    | Drain(t: nat)
    | Transmit(t: nat, err: int)
    | Take(t: nat)
    | Read(t: nat)
    | Unlock(t: nat)
    | Finish(t: nat)
    | CallbackStatus(tx: nat, status: int)
    | StrayStatus(status: int)
    | CallbackGive

  /** The thread a step belongs to; callbacks and posts belong to none. */
  function Actor(a: Action): Option<nat> {
    match a
    case Post(_) | CallbackStatus(_, _) | StrayStatus(_) | CallbackGive => None
    case Fetch => Some(WRITER)
    case Call(_, _) | Lock(_) | Drain(_) | Transmit(_, _) | Take(_) | Read(_) | Unlock(_) | Finish(_) => Some(a.t)
  }

  function Target(send: Send, broadcast: Mac): Mac {
    if send.peer.None? then broadcast else send.peer.value
  }

  predicate Enabled(s: State, a: Action) {
    match a
    case Call(t, _) => WRITER < t < |s.threads| && s.threads[t].Idle?
    case Post(_) => true
    case Fetch => WRITER < |s.threads| && s.threads[WRITER].Idle? && s.sendQueue != []
    case Lock(t) => t < |s.threads| && s.threads[t].AtLock? && s.lockFree
    case Drain(t) => t < |s.threads| && s.threads[t].AtDrain?
    case Transmit(t, _) => t < |s.threads| && s.threads[t].AtTransmit?
    case Take(t) => t < |s.threads| && s.threads[t].AtTake? && s.completion
    case Read(t) => t < |s.threads| && s.threads[t].AtRead?
    case Unlock(t) => t < |s.threads| && s.threads[t].AtUnlock?
    case Finish(t) => t < |s.threads| && s.threads[t].Returned?
    case CallbackStatus(tx, _) => tx in s.owed && s.callback.NoCallback?
    case StrayStatus(_) => s.callback.NoCallback?
    case CallbackGive => !s.callback.NoCallback?
  }

  function Next(s: State, a: Action): State
    requires Enabled(s, a)
  {
    match a
    case Call(t, send) => s.(threads := s.threads[t := AtLock(send)])
    case Post(send) =>
      if |s.sendQueue| < MAX_SEND_QUEEN
      then s.(sendQueue := s.sendQueue + [send], posted := s.posted + [send])
      else s
    case Fetch =>
      s.(threads := s.threads[WRITER := AtLock(s.sendQueue[0])],
         sendQueue := s.sendQueue[1..],
         fetched := s.fetched + [s.sendQueue[0]])
    case Lock(t) => s.(lockFree := false, threads := s.threads[t := AtDrain(s.threads[t].send)])
    case Drain(t) => s.(completion := false, threads := s.threads[t := AtTransmit(s.threads[t].send)])
    case Transmit(t, err) =>
      var send := s.threads[t].send;
      if err != 0 then s.(threads := s.threads[t := AtUnlock(send, None, err)])
      else
        var tx := |s.air|;
        s.(threads := s.threads[t := AtTake(send, tx)],
           owed := s.owed + {tx},
           air := s.air + [Transmission(t, Target(send, s.broadcast), send.frame)])
    case Take(t) =>
      s.(completion := false, threads := s.threads[t := AtRead(s.threads[t].send, s.threads[t].tx)])
    case Read(t) =>
      var res := if s.status == ESP_NOW_SEND_SUCCESS then 0 else -1;
      s.(threads := s.threads[t := AtUnlock(s.threads[t].send, Some(s.threads[t].tx), res)])
    case Unlock(t) =>
      var pc := s.threads[t];
      s.(lockFree := true, threads := s.threads[t := Returned(pc.send, pc.got, pc.res)])
    case Finish(t) => s.(threads := s.threads[t := Idle])
    case CallbackStatus(tx, status) =>
      s.(status := status, callback := Own(tx), owed := s.owed - {tx}, verdict := s.verdict[tx := status])
    case StrayStatus(status) => s.(status := status, callback := Stray)
    case CallbackGive => s.(completion := true, callback := NoCallback)
  }

  /** Between its drain and its status read a call depends on the semaphore and the status word. */
  predicate Exposed(pc: Pc) {
    pc.AtTransmit? || pc.AtTake? || pc.AtRead?
  }

  predicate Locked(pc: Pc) {
    pc.AtDrain? || Exposed(pc) || pc.AtUnlock?
  }

  /** The only assumption about callbacks that belong to no transmission of this module: they
      are over before a call drains the semaphore and do not begin until it has read the
      status. Before the drain they may leave any status and any completion behind. */
  predicate Orderly(s: State, a: Action) {
    && (a.StrayStatus? ==> forall t :: 0 <= t < |s.threads| ==> !Exposed(s.threads[t]))
    && (a.Drain? ==> !s.callback.Stray?)
  }

  function Init(callers: nat, broadcast: Mac, leftover: bool, status: int): State {
    State(true, leftover, status, broadcast, seq(callers + 1, i => Idle), [], NoCallback, {}, [], map[], [], [])
  }

  /** `acts` can happen from `s`, one after the other, and keep the assumption throughout. */
  ghost predicate IsRun(s: State, acts: seq<Action>)
    decreases acts
  {
    acts == [] || (Enabled(s, acts[0]) && Orderly(s, acts[0]) && IsRun(Next(s, acts[0]), acts[1..]))
  }

  ghost function Final(s: State, acts: seq<Action>): State
    requires IsRun(s, acts)
    decreases acts
  {
    if acts == [] then s else Final(Next(s, acts[0]), acts[1..])
  }

  // ---------------------------------------------------------------- the invariant

  /** The lock is taken exactly while one thread is inside, and never by two. */
  ghost predicate Exclusive(s: State) {
    && (forall t :: 0 <= t < |s.threads| && Locked(s.threads[t]) ==> !s.lockFree)
    && (forall t, u :: 0 <= t < u < |s.threads| ==> !(Locked(s.threads[t]) && Locked(s.threads[u])))
    && (!s.lockFree ==> exists t :: 0 <= t < |s.threads| && Locked(s.threads[t]))
  }

  ghost predicate Quiet(s: State) {
    s.owed == {} && !s.callback.Own?
  }

  /** Transmission `tx` is the last one of thread `t`, and carries the call's frame to the call's target. */
  ghost predicate Sent(s: State, t: nat, send: Send, tx: nat) {
    && tx < |s.air|
    && s.air[tx] == Transmission(t, Target(send, s.broadcast), send.frame)
    && forall k :: tx < k < |s.air| ==> s.air[k].thread != t
  }

  ghost predicate Answered(s: State, t: nat, send: Send, got: Option<nat>, res: int) {
    match got
    case None => res != 0
    case Some(tx) =>
      && Sent(s, t, send, tx)
      && tx in s.verdict
      && res == (if s.verdict[tx] == ESP_NOW_SEND_SUCCESS then 0 else -1)
  }

  /** What each program point knows about the completion of its own transmission. */
  ghost predicate Local(s: State, t: nat)
    requires t < |s.threads|
  {
    match s.threads[t]
    case Idle | AtLock(_) | AtDrain(_) => true
    case AtTransmit(_) => s.owed == {} && s.callback.NoCallback? && !s.completion
    case AtTake(send, tx) =>
      && Sent(s, t, send, tx)
      && if s.owed == {tx} then s.callback.NoCallback? && !s.completion
         else
           && s.owed == {} && tx in s.verdict && s.status == s.verdict[tx]
           && (if s.completion then s.callback.NoCallback? else s.callback == Own(tx))
    case AtRead(send, tx) =>
      && Sent(s, t, send, tx)
      && s.owed == {} && s.callback.NoCallback? && !s.completion
      && tx in s.verdict && s.status == s.verdict[tx]
    case AtUnlock(send, got, res) => Answered(s, t, send, got, res)
    case Returned(send, got, res) => Answered(s, t, send, got, res)
  }

  ghost predicate Inv(s: State) {
    && |s.threads| >= 1
    && Exclusive(s)
    && (forall t :: 0 <= t < |s.threads| ==> Local(s, t))
    && ((forall t :: 0 <= t < |s.threads| ==> !Exposed(s.threads[t])) ==> Quiet(s))
    && (forall tx :: tx in s.verdict || tx in s.owed ==> 0 <= tx < |s.air|)
    && s.verdict.Keys !! s.owed
    && s.posted == s.fetched + s.sendQueue
    && |s.sendQueue| <= MAX_SEND_QUEEN
  }

  lemma InitInv(callers: nat, broadcast: Mac, leftover: bool, status: int)
    ensures Inv(Init(callers, broadcast, leftover, status))
  {
  }

  /** Only taking and giving the lock change who is inside. */
  lemma InsideStays(s: State, a: Action)
    requires |s.threads| >= 1 && Enabled(s, a) && !a.Lock? && !a.Unlock?
    ensures var s' := Next(s, a);
            && s'.lockFree == s.lockFree && |s'.threads| == |s.threads|
            && forall t :: 0 <= t < |s.threads| ==> (Locked(s'.threads[t]) <==> Locked(s.threads[t]))
  {
  }

  lemma StepKeepsExclusive(s: State, a: Action)
    requires |s.threads| >= 1 && Exclusive(s) && Enabled(s, a)
    ensures Exclusive(Next(s, a))
  {
    var s' := Next(s, a);
    if a.Lock? {
      assert Locked(s'.threads[a.t]);
    } else if a.Unlock? {
      assert Locked(s.threads[a.t]);
    } else {
      InsideStays(s, a);
      if !s'.lockFree {
        var t :| 0 <= t < |s.threads| && Locked(s.threads[t]);
        assert Locked(s'.threads[t]);
      }
    }
  }

  /** The acting thread finds what its new program point promises. */
  lemma OwnStepKeepsLocal(s: State, a: Action, t: nat)
    requires Inv(s) && Enabled(s, a) && Orderly(s, a) && t < |s.threads| && Actor(a) == Some(t)
    ensures Local(Next(s, a), t)
  {
    assert Local(s, t);
    if a.Drain? {
      assert forall u :: 0 <= u < |s.threads| ==> !Exposed(s.threads[u]);
    }
  }

  /** The radio brings a waiting call forward, and stray callbacks touch no exposed one. */
  lemma RadioStepKeepsLocal(s: State, a: Action, t: nat)
    requires Inv(s) && Enabled(s, a) && Orderly(s, a) && t < |s.threads| && Actor(a).None?
    ensures Local(Next(s, a), t)
  {
    assert Local(s, t);
  }

  /** What a program point knows outlives any step that keeps the shared variables and only
      adds transmissions of other threads; only an exposed call depends on more. */
  lemma FramedLocal(s: State, s': State, t: nat)
    requires t < |s.threads| == |s'.threads| && s'.threads[t] == s.threads[t] && Local(s, t)
    requires s'.broadcast == s.broadcast && s'.verdict == s.verdict && |s.air| <= |s'.air|
    requires forall k :: 0 <= k < |s.air| ==> s'.air[k] == s.air[k]
    requires forall k :: |s.air| <= k < |s'.air| ==> s'.air[k].thread != t
    requires Exposed(s.threads[t]) ==>
      s'.owed == s.owed && s'.callback == s.callback && s'.completion == s.completion && s'.status == s.status
    ensures Local(s', t)
  {
  }

  lemma StepKeepsLocal(s: State, a: Action, t: nat)
    requires Inv(s) && Enabled(s, a) && Orderly(s, a) && t < |s.threads|
    ensures Local(Next(s, a), t)
  {
    if Actor(a) == Some(t) {
      OwnStepKeepsLocal(s, a, t);
    } else if Actor(a).None? {
      RadioStepKeepsLocal(s, a, t);
    } else {
      assert Local(s, t);
      assert Exposed(s.threads[t]) ==> !Locked(s.threads[Actor(a).value]);
      FramedLocal(s, Next(s, a), t);
    }
  }

  lemma StepKeepsQuiet(s: State, a: Action)
    requires Inv(s) && Enabled(s, a) && Orderly(s, a)
    requires forall t :: 0 <= t < |s.threads| ==> !Exposed(Next(s, a).threads[t])
    ensures Quiet(Next(s, a))
  {
    var s' := Next(s, a);
    if exists t :: 0 <= t < |s.threads| && Exposed(s.threads[t]) {
      var t :| 0 <= t < |s.threads| && Exposed(s.threads[t]);
      assert Local(s, t);
      assert !Exposed(s'.threads[t]);
    }
  }

  lemma StepKeepsRest(s: State, a: Action)
    requires Inv(s) && Enabled(s, a)
    ensures var s' := Next(s, a);
            && |s'.threads| == |s.threads|
            && (forall tx :: tx in s'.verdict || tx in s'.owed ==> 0 <= tx < |s'.air|)
            && s'.verdict.Keys !! s'.owed
  {
  }

  lemma StepKeepsQueue(s: State, a: Action)
    requires Enabled(s, a) && s.posted == s.fetched + s.sendQueue && |s.sendQueue| <= MAX_SEND_QUEEN
    ensures Next(s, a).posted == Next(s, a).fetched + Next(s, a).sendQueue
    ensures |Next(s, a).sendQueue| <= MAX_SEND_QUEEN
  {
  }

  lemma StepKeepsInv(s: State, a: Action)
    requires Inv(s) && Enabled(s, a) && Orderly(s, a)
    ensures Inv(Next(s, a))
  {
    var s' := Next(s, a);
    StepKeepsRest(s, a);
    StepKeepsQueue(s, a);
    assert Exclusive(s') by {
      StepKeepsExclusive(s, a);
    }
    forall t | 0 <= t < |s'.threads|
      ensures Local(s', t)
    {
      StepKeepsLocal(s, a, t);
    }
    if forall t :: 0 <= t < |s'.threads| ==> !Exposed(s'.threads[t]) {
      StepKeepsQuiet(s, a);
    }
  }

  lemma {:induction false} RunKeepsInv(s: State, acts: seq<Action>)
    requires Inv(s) && IsRun(s, acts)
    ensures Inv(Final(s, acts))
    decreases acts
  {
    if acts != [] {
      StepKeepsInv(s, acts[0]);
      RunKeepsInv(Next(s, acts[0]), acts[1..]);
    }
  }

  // ---------------------------------------------------------------- main results

  /** A step of anyone else leaves a thread where it is. */
  lemma OthersLeaveThread(s: State, a: Action, t: nat)
    requires Enabled(s, a) && t < |s.threads| && Actor(a) != Some(t)
    ensures var s' := Next(s, a);
            && |s'.threads| == |s.threads| && s'.threads[t] == s.threads[t] && |s'.air| >= |s.air|
            && (t == WRITER ==> s'.fetched == s.fetched)
  {
  }

  /** What caller `t` last asked to be written. */
  function Asked(acts: seq<Action>, t: nat, was: Option<Send>): Option<Send>
    decreases acts
  {
    if acts == [] then was
    else Asked(acts[1..], t, if acts[0].Call? && acts[0].t == t then Some(acts[0].send) else was)
  }

  /** What esp_now_send last answered to thread `t`. */
  function LastError(acts: seq<Action>, t: nat, was: int): int
    decreases acts
  {
    if acts == [] then was
    else LastError(acts[1..], t, if acts[0].Transmit? && acts[0].t == t then acts[0].err else was)
  }

  /** The frames a queue of three takes when it holds `waiting`, and of which each fetch takes one. */
  function Taken(acts: seq<Action>, waiting: nat): seq<Send>
    decreases acts
  {
    if acts == [] then []
    else if acts[0].Post? && waiting < 3 then [acts[0].send] + Taken(acts[1..], waiting + 1)
    else Taken(acts[1..], if acts[0].Fetch? && waiting > 0 then waiting - 1 else waiting)
  }

  /** The verdict on a transmission is what the radio reported for it. */
  lemma {:induction false} VerdictIsTheReport(s: State, acts: seq<Action>, tx: nat, st: int)
    requires Inv(s) && IsRun(s, acts) && tx !in s.verdict
    ensures CallbackStatus(tx, st) in acts <==>
            tx in Final(s, acts).verdict && Final(s, acts).verdict[tx] == st
    decreases acts
  {
    if acts != [] {
      var a, s' := acts[0], Next(s, acts[0]);
      StepKeepsInv(s, a);
      assert acts == [a] + acts[1..];
      if a.CallbackStatus? && a.tx == tx {
        VerdictStays(s', acts[1..], tx);
      } else {
        VerdictIsTheReport(s', acts[1..], tx, st);
      }
    }
  }

  /** Once reported, never again and never changed. */
  lemma {:induction false} VerdictStays(s: State, acts: seq<Action>, tx: nat)
    requires Inv(s) && IsRun(s, acts) && tx in s.verdict
    ensures tx in Final(s, acts).verdict && Final(s, acts).verdict[tx] == s.verdict[tx]
    ensures forall st :: CallbackStatus(tx, st) !in acts
    decreases acts
  {
    if acts != [] {
      StepKeepsInv(s, acts[0]);
      assert acts == [acts[0]] + acts[1..];
      VerdictStays(Next(s, acts[0]), acts[1..], tx);
    }
  }

  /** A call is about what was asked, and a refused one answers what the radio answered. */
  ghost predicate Remembers(pc: Pc, asked: Option<Send>, err: int) {
    && (!pc.Idle? ==> asked == Some(pc.send))
    && ((pc.AtUnlock? || pc.Returned?) && pc.got.None? ==> pc.res == err && err != 0)
  }

  lemma {:induction false} CallIsWhatWasAsked(s: State, acts: seq<Action>, t: nat, asked: Option<Send>, err: int)
    requires IsRun(s, acts) && WRITER < t < |s.threads| && Remembers(s.threads[t], asked, err)
    ensures t < |Final(s, acts).threads|
    ensures Remembers(Final(s, acts).threads[t], Asked(acts, t, asked), LastError(acts, t, err))
    decreases acts
  {
    if acts != [] {
      var a, s' := acts[0], Next(s, acts[0]);
      if Actor(a) != Some(t) {
        OthersLeaveThread(s, a, t);
      }
      CallIsWhatWasAsked(s', acts[1..], t, if a.Call? && a.t == t then Some(a.send) else asked,
                         if a.Transmit? && a.t == t then a.err else err);
    }
  }

  /** The writer task answers for the frame it fetched last. */
  ghost predicate WriterRemembers(s: State, err: int) {
    && |s.threads| > WRITER
    && (!s.threads[WRITER].Idle? ==> s.fetched != [] && s.threads[WRITER].send == s.fetched[|s.fetched| - 1])
    && ((s.threads[WRITER].AtUnlock? || s.threads[WRITER].Returned?) && s.threads[WRITER].got.None? ==>
          s.threads[WRITER].res == err && err != 0)
  }

  lemma StepKeepsWriter(s: State, a: Action, err: int)
    requires Enabled(s, a) && WriterRemembers(s, err)
    ensures WriterRemembers(Next(s, a), if a.Transmit? && a.t == WRITER then a.err else err)
  {
    if Actor(a) != Some(WRITER) {
      OthersLeaveThread(s, a, WRITER);
    }
  }

  lemma {:induction false} WriterSendsWhatItFetched(s: State, acts: seq<Action>, err: int)
    requires IsRun(s, acts) && WriterRemembers(s, err)
    ensures WriterRemembers(Final(s, acts), LastError(acts, WRITER, err))
    decreases acts
  {
    if acts != [] {
      var a := acts[0];
      StepKeepsWriter(s, a, err);
      WriterSendsWhatItFetched(Next(s, a), acts[1..], if a.Transmit? && a.t == WRITER then a.err else err);
    }
  }

  lemma {:induction false} PostedIsWhatFits(s: State, acts: seq<Action>)
    requires IsRun(s, acts)
    ensures Final(s, acts).posted == s.posted + Taken(acts, |s.sendQueue|)
    decreases acts
  {
    if acts == [] {
      assert s.posted + [] == s.posted;
    } else {
      var s' := Next(s, acts[0]);
      PostedIsWhatFits(s', acts[1..]);
      if acts[0].Post? && |s.sendQueue| < 3 {
        Associative(s.posted, [acts[0].send], Taken(acts[1..], |s'.sendQueue|));
      }
    }
  }

  lemma {:induction false} BroadcastStays(s: State, acts: seq<Action>)
    requires IsRun(s, acts)
    ensures Final(s, acts).broadcast == s.broadcast && |Final(s, acts).threads| == |s.threads|
    decreases acts
  {
    if acts != [] {
      BroadcastStays(Next(s, acts[0]), acts[1..]);
    }
  }

  /** Transmission `tx` of thread `t` went out with the frame of `send`, to its peer or, without
      one, to the broadcast address. */
  ghost predicate Delivered(air: seq<Transmission>, tx: nat, t: nat, send: Send, broadcast: Mac) {
    && tx < |air|
    && air[tx].thread == t && air[tx].frame == send.frame
    && (send.peer.None? ==> air[tx].addr == broadcast)
    && (send.peer.Some? ==> air[tx].addr == send.peer.value)
    && (forall k :: tx < k < |air| ==> air[k].thread != t)
  }

  /** Whatever the interleaving, a call that returns answers for what it was asked to write: 0
      exactly when the radio's callback for its own last transmission reported success (status 0),
      -1 when it reported anything else, and the radio's error when it was refused. */
  lemma WriteReportsItsOwnTransmission(callers: nat, broadcast: Mac, leftover: bool, status: int,
                                       acts: seq<Action>, t: nat)
    requires IsRun(Init(callers, broadcast, leftover, status), acts)
    requires t < |Final(Init(callers, broadcast, leftover, status), acts).threads|
    requires Final(Init(callers, broadcast, leftover, status), acts).threads[t].Returned?
    ensures var s := Final(Init(callers, broadcast, leftover, status), acts);
            var pc := s.threads[t];
            && (t != WRITER ==> Asked(acts, t, None) == Some(pc.send))
            && (t == WRITER ==> s.fetched != [] && pc.send == s.fetched[|s.fetched| - 1])
            && match pc.got
               case None => pc.res == LastError(acts, t, 0) && pc.res != 0
               case Some(tx) =>
                 && Delivered(s.air, tx, t, pc.send, broadcast)
                 && (exists st :: CallbackStatus(tx, st) in acts)
                 && (pc.res == 0 <==> CallbackStatus(tx, 0) in acts)
                 && (pc.res == 0 || pc.res == -1)
  {
    var s0 := Init(callers, broadcast, leftover, status);
    var s := Final(s0, acts);
    InitInv(callers, broadcast, leftover, status);
    RunKeepsInv(s0, acts);
    BroadcastStays(s0, acts);
    assert Local(s, t);
    if t == WRITER {
      WriterSendsWhatItFetched(s0, acts, 0);
    } else {
      CallIsWhatWasAsked(s0, acts, t, None, 0);
    }
    if s.threads[t].got.Some? {
      var tx := s.threads[t].got.value;
      VerdictIsTheReport(s0, acts, tx, s.verdict[tx]);
      VerdictIsTheReport(s0, acts, tx, 0);
    }
  }

  /** In every run at most one call is inside the lock, and the frames posted without blocking
      are the ones the writer task took, in order, followed by at most three that wait. */
  lemma RunsExcludeAndConserve(callers: nat, broadcast: Mac, leftover: bool, status: int, acts: seq<Action>)
    requires IsRun(Init(callers, broadcast, leftover, status), acts)
    ensures var s := Final(Init(callers, broadcast, leftover, status), acts);
            && (forall t, u :: 0 <= t < u < |s.threads| ==> !(Locked(s.threads[t]) && Locked(s.threads[u])))
            && s.posted == Taken(acts, 0) == s.fetched + s.sendQueue
            && |s.sendQueue| <= 3
            && |s.owed| <= 1
  {
    var s0 := Init(callers, broadcast, leftover, status);
    PostedIsWhatFits(s0, acts);
    InitInv(callers, broadcast, leftover, status);
    RunKeepsInv(s0, acts);
    var s := Final(s0, acts);
    if t :| 0 <= t < |s.threads| && Exposed(s.threads[t]) {
      assert Local(s, t);
    }
  }

  function Tokens(s: State): nat {
    if s.completion then 1 else 0
  }

  function Takes(acts: seq<Action>): nat
    decreases acts
  {
    if acts == [] then 0 else (if acts[0].Take? then 1 else 0) + Takes(acts[1..])
  }

  function Gives(acts: seq<Action>): nat
    decreases acts
  {
    if acts == [] then 0 else (if acts[0].CallbackGive? then 1 else 0) + Gives(acts[1..])
  }

  /** No completion is taken twice: takes, and the one still there, never exceed what was given. */
  lemma {:induction false} NoCompletionTwice(s: State, acts: seq<Action>)
    requires IsRun(s, acts)
    ensures Takes(acts) + Tokens(Final(s, acts)) <= Gives(acts) + Tokens(s)
    decreases acts
  {
    if acts != [] {
      NoCompletionTwice(Next(s, acts[0]), acts[1..]);
    }
  }

  /** The step that brings a call inside the lock, or the radio serving it, forward. */
  function Helpful(s: State, t: nat, err: int, verdict: int): Action
    requires t < |s.threads| && Locked(s.threads[t])
  {
    match s.threads[t]
    case AtDrain(_) => if s.callback.NoCallback? then Drain(t) else CallbackGive
    case AtTransmit(_) => Transmit(t, err)
    case AtTake(_, tx) =>
      if s.completion then Take(t)
      else if s.callback.NoCallback? then CallbackStatus(tx, verdict)
      else CallbackGive
    case AtRead(_, _) => Read(t)
    case _ => Unlock(t)
  }

  /** How many helpful steps are left before the call gives the lock back. */
  function Left(s: State, t: nat): nat
    requires t < |s.threads|
  {
    match s.threads[t]
    case AtDrain(_) => if s.callback.NoCallback? then 7 else 8
    case AtTransmit(_) => 6
    case AtTake(_, _) => if s.completion then 3 else if s.callback.NoCallback? then 5 else 4
    case AtRead(_, _) => 2
    case AtUnlock(_, _, _) => 1
    case _ => 0
  }

  /** A completion is never lost: the call inside the lock always has a next step, its own or
      the radio's, that brings it closer to giving the lock back. */
  lemma InsideCallAlwaysAdvances(s: State, t: nat, err: int, verdict: int)
    requires Inv(s) && t < |s.threads| && Locked(s.threads[t])
    ensures var a := Helpful(s, t, err, verdict);
            && Enabled(s, a) && Orderly(s, a)
            && Left(Next(s, a), t) < Left(s, t)
  {
    assert Local(s, t);
  }

  lemma Prepend(s: State, a: Action, acts: seq<Action>)
    requires Enabled(s, a) && Orderly(s, a) && IsRun(Next(s, a), acts)
    ensures IsRun(s, [a] + acts)
    ensures Final(s, [a] + acts) == Final(Next(s, a), acts)
  {
    assert ([a] + acts)[1..] == acts;
  }

  /** A step of call `t`, or of the radio answering a transmission. */
  predicate Serves(a: Action, t: nat) {
    Actor(a) == Some(t) || a.CallbackStatus? || a.CallbackGive?
  }

  lemma HelpfulStaysOrReturns(s: State, t: nat, err: int, verdict: int)
    requires Inv(s) && t < |s.threads| && Locked(s.threads[t])
    requires Enabled(s, Helpful(s, t, err, verdict))
    ensures var s' := Next(s, Helpful(s, t, err, verdict));
            && t < |s'.threads|
            && (if s.threads[t].AtUnlock? then s'.threads[t].Returned? && s'.lockFree else Locked(s'.threads[t]))
            && s'.threads[t].send == s.threads[t].send
    ensures Serves(Helpful(s, t, err, verdict), t)
  {
  }

  /** Hence from every moment at which a call is inside the lock, at most eight steps, its own and
      the radio's, lead to its return with the lock free, whatever the radio answers. */
  lemma {:induction false} InsideCallReturns(s: State, t: nat, err: int, verdict: int) returns (acts: seq<Action>)
    requires Inv(s) && t < |s.threads| && Locked(s.threads[t])
    ensures IsRun(s, acts) && |acts| <= Left(s, t) <= 8
    ensures forall i :: 0 <= i < |acts| ==> Serves(acts[i], t)
    ensures var s' := Final(s, acts);
            && Inv(s') && s'.lockFree && t < |s'.threads|
            && s'.threads[t].Returned? && s'.threads[t].send == s.threads[t].send
    decreases Left(s, t)
  {
    var a := Helpful(s, t, err, verdict);
    InsideCallAlwaysAdvances(s, t, err, verdict);
    var s' := Next(s, a);
    StepKeepsInv(s, a);
    HelpfulStaysOrReturns(s, t, err, verdict);
    if Locked(s'.threads[t]) {
      acts := InsideCallReturns(s', t, err, verdict);
    } else {
      acts := [];
    }
    Prepend(s, a, acts);
    acts := [a] + acts;
  }

  /** Nothing else that may happen sets that call back; only a stray callback before its drain can. */
  lemma OthersNeverSetBack(s: State, t: nat, a: Action)
    requires Inv(s) && t < |s.threads| && Locked(s.threads[t])
    requires Enabled(s, a) && Orderly(s, a)
    ensures a.StrayStatus? || Left(Next(s, a), t) <= Left(s, t)
    ensures a.StrayStatus? ==> s.threads[t].AtDrain? || s.threads[t].AtUnlock?
  {
    assert Local(s, t);
  }

  /** Every call that gave an answer gave the right one. */
  ghost predicate AnswersRight(s: State) {
    forall t :: 0 <= t < |s.threads| && (s.threads[t].AtUnlock? || s.threads[t].Returned?) ==>
      Answered(s, t, s.threads[t].send, s.threads[t].got, s.threads[t].res)
  }

  lemma InvAnswersRight(s: State)
    requires Inv(s)
    ensures AnswersRight(s)
  {
    forall t | 0 <= t < |s.threads| && (s.threads[t].AtUnlock? || s.threads[t].Returned?)
      ensures Answered(s, t, s.threads[t].send, s.threads[t].got, s.threads[t].res)
    {
      assert Local(s, t);
    }
  }

  /** A stray callback that reports `status` now does no harm, however the run goes on. */
  ghost predicate StrayIsHarmless(s: State)
    requires s.callback.NoCallback?
  {
    forall status, acts :: IsRun(Next(s, StrayStatus(status)), acts) ==>
      AnswersRight(Final(Next(s, StrayStatus(status)), acts))
  }

  /** The status word does not tell the verdict on `tx`. */
  ghost predicate Misleading(s: State, tx: nat) {
    tx in s.verdict ==> !(s.status == ESP_NOW_SEND_SUCCESS <==> s.verdict[tx] == ESP_NOW_SEND_SUCCESS)
  }

  lemma ReadMisleads(s: State, t: nat) returns (acts: seq<Action>)
    requires t < |s.threads| && s.threads[t].AtRead? && Misleading(s, s.threads[t].tx)
    ensures IsRun(s, acts) && !AnswersRight(Final(s, acts))
  {
    var s' := Next(s, Read(t));
    assert !Answered(s', t, s'.threads[t].send, s'.threads[t].got, s'.threads[t].res);
    Prepend(s, Read(t), []);
    acts := [Read(t)];
  }

  lemma TakeMisleads(s: State, t: nat) returns (acts: seq<Action>)
    requires t < |s.threads| && s.threads[t].AtTake? && s.completion && Misleading(s, s.threads[t].tx)
    ensures IsRun(s, acts) && !AnswersRight(Final(s, acts))
  {
    acts := ReadMisleads(Next(s, Take(t)), t);
    Prepend(s, Take(t), acts);
    acts := [Take(t)] + acts;
  }

  lemma TransmitMisleads(s: State, t: nat) returns (acts: seq<Action>)
    requires t < |s.threads| && s.threads[t].AtTransmit? && s.completion && |s.air| !in s.verdict
    ensures IsRun(s, acts) && !AnswersRight(Final(s, acts))
  {
    acts := TakeMisleads(Next(s, Transmit(t, 0)), t);
    Prepend(s, Transmit(t, 0), acts);
    acts := [Transmit(t, 0)] + acts;
  }

  /** The run that goes wrong when a stray callback hits an exposed call. */
  lemma StrayMisleads(s: State, t: nat) returns (status: int, acts: seq<Action>)
    requires Inv(s) && t < |s.threads| && Exposed(s.threads[t]) && s.callback.NoCallback?
    ensures IsRun(Next(s, StrayStatus(status)), acts)
    ensures !AnswersRight(Final(Next(s, StrayStatus(status)), acts))
  {
    assert Local(s, t);
    var pc := s.threads[t];
    status := if !pc.AtTransmit? && pc.tx in s.verdict && s.verdict[pc.tx] == ESP_NOW_SEND_SUCCESS
              then ESP_NOW_SEND_SUCCESS + 1 else ESP_NOW_SEND_SUCCESS;
    var s1 := Next(s, StrayStatus(status));
    var s2 := Next(s1, CallbackGive);
    if pc.AtTransmit? {
      acts := TransmitMisleads(s2, t);
    } else if pc.AtTake? {
      acts := TakeMisleads(s2, t);
    } else {
      acts := ReadMisleads(s2, t);
    }
    Prepend(s1, CallbackGive, acts);
    acts := [CallbackGive] + acts;
  }

  /** The assumption on stray callbacks is exact: at any reachable point one may come without
      harm if and only if no call stands between its drain and its status read. */
  lemma StrayIsHarmlessExactlyWhenNobodyIsExposed(s: State)
    requires Inv(s) && s.callback.NoCallback?
    ensures StrayIsHarmless(s) <==> forall t :: 0 <= t < |s.threads| ==> !Exposed(s.threads[t])
  {
    if t :| 0 <= t < |s.threads| && Exposed(s.threads[t]) {
      var status, acts := StrayMisleads(s, t);
    } else {
      forall status, acts | IsRun(Next(s, StrayStatus(status)), acts)
        ensures AnswersRight(Final(Next(s, StrayStatus(status)), acts))
      {
        StepKeepsInv(s, StrayStatus(status));
        RunKeepsInv(Next(s, StrayStatus(status)), acts);
        InvAnswersRight(Final(Next(s, StrayStatus(status)), acts));
      }
    }
  }

  /** The other half of the assumption is exact too: a call may drain the semaphore if and only
      if no stray callback is between its status write and its give. */
  lemma DrainIsSafeExactlyWhenNoStrayIsHalfDone(s: State, t: nat)
    requires Inv(s) && t < |s.threads| && s.threads[t].AtDrain?
    ensures (forall acts :: IsRun(Next(s, Drain(t)), acts) ==> AnswersRight(Final(Next(s, Drain(t)), acts)))
            <==> !s.callback.Stray?
  {
    var s1 := Next(s, Drain(t));
    if s.callback.Stray? {
      var acts := TransmitMisleads(Next(s1, CallbackGive), t);
      Prepend(s1, CallbackGive, acts);
      assert IsRun(s1, [CallbackGive] + acts);
    } else {
      StepKeepsInv(s, Drain(t));
      forall acts | IsRun(s1, acts)
        ensures AnswersRight(Final(s1, acts))
      {
        RunKeepsInv(s1, acts);
        InvAnswersRight(Final(s1, acts));
      }
    }
  }

  // ---------------------------------------------------------------- schedules

  /** A step that the rest of the system may make while thread `t` waits or is preempted. */
  predicate May(s: State, a: Action, t: nat) {
    Enabled(s, a) && Orderly(s, a) && Actor(a) != Some(t)
  }

  /** After a turn: of `acts`, in order, each that may happen has happened. */
  function Turn(s: State, acts: seq<Action>, t: nat): State
    decreases acts
  {
    if acts == [] then s else Turn(if May(s, acts[0], t) then Next(s, acts[0]) else s, acts[1..], t)
  }

  /** After the first `k` turns. */
  function Turns(s: State, others: seq<seq<Action>>, k: nat, t: nat): State
    requires k <= |others|
  {
    if k == 0 then s else Turn(Turns(s, others, k - 1, t), others[k - 1], t)
  }

  lemma TurnsGoOn(s: State, others: seq<seq<Action>>, k: nat, a: Action, t: nat)
    requires k < |others| && others[k] == [a] && May(Turns(s, others, k, t), a, t)
    ensures Turns(s, others, k + 1, t) == Next(Turns(s, others, k, t), a)
  {
    var now := Turns(s, others, k, t);
    assert Turn(now, [a], t) == Turn(Next(now, a), [a][1..], t);
  }

  /** What a thread can wait for in espnow_write_data. */
  datatype Wait = ForLock | ForNoStray | ForCompletion

  predicate Ready(s: State, w: Wait) {
    match w
    case ForLock => s.lockFree
    case ForNoStray => !s.callback.Stray?
    case ForCompletion => s.completion
  }

  /** Thread `t` has waited through turns of the others up to the first moment it need not, or
      through the whole schedule; `rest` is left of it. */
  ghost predicate Waited(s: State, s': State, others: seq<seq<Action>>, rest: seq<seq<Action>>, t: nat, w: Wait) {
    && |rest| <= |others| && rest == others[|others| - |rest|..]
    && s' == Turns(s, others, |others| - |rest|, t)
    && (forall j :: 0 <= j < |others| - |rest| ==> !Ready(Turns(s, others, j, t), w))
    && (Ready(s', w) || rest == [])
  }

  predicate StillWaits(s: State, t: nat)
    requires t < |s.threads|
  {
    || (s.threads[t].AtLock? && !s.lockFree)
    || (s.threads[t].AtDrain? && s.callback.Stray?)
    || (s.threads[t].AtTake? && !s.completion)
  }

  // ---------------------------------------------------------------- the file's variables

  class Espnow {
    var lockFree: bool           // g_send_lock
    var completion: bool         // g_send_rcb
    var status: int              // g_send_status
    const broadcast: Mac         // g_broadcast_peer
    var threads: seq<Pc>
    var sendQueue: seq<Send>     // g_espnow_sed_queue
    var callback: Callback
    var owed: set<nat>
    var air: seq<Transmission>
    var verdict: map<nat, int>
    var posted: seq<Send>
    var fetched: seq<Send>
    ghost var turns: nat         // how many turns the rest of the system has had

    function View(): State
      reads this
    {
      State(lockFree, completion, status, broadcast, threads, sendQueue, callback, owed, air, verdict, posted, fetched)
    }

    /** std_espnow_init: the lock is created empty and given, the completion semaphore drained. */
    constructor (callers: nat, broadcast: Mac)
      ensures View() == Init(callers, broadcast, false, -1)
      ensures Inv(View())
    {
      this.broadcast := broadcast;
      lockFree, completion, status := true, false, -1;
      threads, sendQueue := seq(callers + 1, i => Idle), [];
      callback, owed, air := NoCallback, {}, [];
      verdict, posted, fetched := map[], [], [];
      turns := 0;
    }

    /** One atomic step of any thread or of the radio. */
    method Step(a: Action)
      requires Enabled(View(), a)
      modifies this
      ensures View() == Next(old(View()), a)
      ensures turns == old(turns)
    {
      match a {
        case Call(t, send) =>
          threads := threads[t := AtLock(send)];
        case Post(send) =>
          if |sendQueue| < MAX_SEND_QUEEN {
            sendQueue := sendQueue + [send];
            posted := posted + [send];
          }
        case Fetch =>
          var send := sendQueue[0];
          sendQueue := sendQueue[1..];
          fetched := fetched + [send];
          threads := threads[WRITER := AtLock(send)];
        case Lock(t) =>
          lockFree := false;
          threads := threads[t := AtDrain(threads[t].send)];
        case Drain(t) =>
          completion := false;
          threads := threads[t := AtTransmit(threads[t].send)];
        case Transmit(t, err) =>
          var send := threads[t].send;
          if err != 0 {
            threads := threads[t := AtUnlock(send, None, err)];
          } else {
            threads := threads[t := AtTake(send, |air|)];
            owed := owed + {|air|};
            air := air + [Transmission(t, Target(send, broadcast), send.frame)];
          }
        case Take(t) =>
          completion := false;
          threads := threads[t := AtRead(threads[t].send, threads[t].tx)];
        case Read(t) =>
          var res := -1;
          if status == ESP_NOW_SEND_SUCCESS {
            res := 0;
          }
          threads := threads[t := AtUnlock(threads[t].send, Some(threads[t].tx), res)];
        case Unlock(t) =>
          lockFree := true;
          threads := threads[t := Returned(threads[t].send, threads[t].got, threads[t].res)];
        case Finish(t) =>
          threads := threads[t := Idle];
        case _ =>
          SendCallback(a);
      }
    }

    /** espnow_send_cb, in its two halves. */
    method SendCallback(a: Action)
      requires Enabled(View(), a) && (a.CallbackStatus? || a.StrayStatus? || a.CallbackGive?)
      modifies this
      ensures View() == Next(old(View()), a)
      ensures a.CallbackStatus? || a.StrayStatus? ==> status == a.status && completion == old(completion)
      ensures a.CallbackGive? ==> completion && status == old(status)
      ensures turns == old(turns)
    {
      match a {
        case CallbackStatus(tx, st) =>
          status := st;
          owed := owed - {tx};
          verdict := verdict[tx := st];
          callback := Own(tx);
        case StrayStatus(st) =>
          status := st;
          callback := Stray;
        case CallbackGive =>
          completion := true;
          callback := NoCallback;
      }
    }

    /** A step that keeps the assumption on stray callbacks keeps the invariant. */
    method Advance(a: Action)
      requires Inv(View()) && Enabled(View(), a) && Orderly(View(), a)
      modifies this
      ensures Inv(View()) && View() == Next(old(View()), a)
      ensures turns == old(turns)
    {
      StepKeepsInv(View(), a);
      Step(a);
    }

    /** The rest of the system runs: of `acts`, those that can happen, never a step of thread `t`. */
    method Others(t: nat, acts: seq<Action>)
      requires Inv(View()) && t < |threads|
      modifies this
      ensures Inv(View()) && |threads| == old(|threads|)
      ensures (t == WRITER ==> fetched == old(fetched)) && threads[t] == old(threads[t])
      ensures |air| >= old(|air|) && View() == Turn(old(View()), acts, t)
      ensures turns == old(turns) + 1
    {
      for i := 0 to |acts|
        invariant Inv(View()) && |threads| == old(|threads|)
        invariant (t == WRITER ==> fetched == old(fetched)) && threads[t] == old(threads[t])
        invariant |air| >= old(|air|)
        invariant Turn(View(), acts[i..], t) == Turn(old(View()), acts, t) && turns == old(turns)
      {
        assert acts[i..][1..] == acts[i + 1..];
        if May(View(), acts[i], t) {
          OthersLeaveThread(View(), acts[i], t);
          Advance(acts[i]);
        }
      }
      turns := turns + 1;
    }

    /** A preemption point: the others may take a turn. */
    method Preempt(t: nat, others: seq<seq<Action>>) returns (rest: seq<seq<Action>>)
      requires Inv(View()) && t < |threads|
      modifies this
      ensures Inv(View()) && |threads| == old(|threads|)
      ensures (t == WRITER ==> fetched == old(fetched)) && threads[t] == old(threads[t])
      ensures |air| >= old(|air|)
      ensures rest == (if others == [] then [] else others[1..])
      ensures View() == if others == [] then old(View()) else Turn(old(View()), others[0], t)
      ensures turns + |rest| == old(turns) + |others|
    {
      rest := others;
      if rest != [] {
        Others(t, rest[0]);
        rest := rest[1..];
      }
    }

    /** Blocks until `w` holds, or until the schedule ends. */
    method Block(t: nat, w: Wait, others: seq<seq<Action>>) returns (rest: seq<seq<Action>>)
      requires Inv(View()) && t < |threads|
      modifies this
      ensures Inv(View()) && |threads| == old(|threads|)
      ensures (t == WRITER ==> fetched == old(fetched)) && threads[t] == old(threads[t])
      ensures |air| >= old(|air|)
      ensures Waited(old(View()), View(), others, rest, t, w)
      ensures turns + |rest| == old(turns) + |others|
    {
      rest := others;
      while !Ready(View(), w) && rest != []
        invariant Inv(View()) && |threads| == old(|threads|)
        invariant (t == WRITER ==> fetched == old(fetched)) && threads[t] == old(threads[t])
        invariant |air| >= old(|air|)
        invariant |rest| <= |others| && rest == others[|others| - |rest|..]
        invariant turns + |rest| == old(turns) + |others|
        invariant View() == Turns(old(View()), others, |others| - |rest|, t)
        invariant forall j :: 0 <= j < |others| - |rest| ==> !Ready(Turns(old(View()), others, j, t), w)
        decreases |rest|
      {
        Others(t, rest[0]);
        rest := rest[1..];
      }
    }

    /** send_lock: waits until the lock is free, or until the schedule ends. */
    method SendLock(t: nat, others: seq<seq<Action>>) returns (ok: bool, rest: seq<seq<Action>>)
      requires Inv(View()) && t < |threads| && threads[t].AtLock?
      modifies this
      ensures Inv(View()) && |threads| == old(|threads|)
      ensures (t == WRITER ==> fetched == old(fetched)) && |air| >= old(|air|)
      ensures threads[t] == if ok then AtDrain(old(threads[t]).send) else old(threads[t])
      ensures if ok then exists s :: Waited(old(View()), s, others, rest, t, ForLock) && s.lockFree
              else Waited(old(View()), View(), others, rest, t, ForLock) && !lockFree
      ensures turns + |rest| == old(turns) + |others|
    {
      rest := Block(t, ForLock, others);
      ok := lockFree;
      if ok {
        Advance(Lock(t));
      }
    }

    /** The drain of line 161. A stray callback caught half done is waited for: that is the assumption. */
    method DrainCompletion(t: nat, others: seq<seq<Action>>) returns (ok: bool, rest: seq<seq<Action>>)
      requires Inv(View()) && t < |threads| && threads[t].AtDrain?
      modifies this
      ensures Inv(View()) && |threads| == old(|threads|)
      ensures (t == WRITER ==> fetched == old(fetched)) && |air| >= old(|air|)
      ensures threads[t] == if ok then AtTransmit(old(threads[t]).send) else old(threads[t])
      ensures !ok ==> rest == [] && callback.Stray?
      ensures turns + |rest| == old(turns) + |others|
    {
      rest := Preempt(t, others);
      rest := Block(t, ForNoStray, rest);
      ok := !callback.Stray?;
      if ok {
        Advance(Drain(t));
      }
    }

    /** Lines 162 and 163: a refused frame skips the wait. */
    method TransmitFrame(t: nat, err: int, others: seq<seq<Action>>) returns (rest: seq<seq<Action>>)
      requires Inv(View()) && t < |threads| && threads[t].AtTransmit?
      modifies this
      ensures Inv(View()) && |threads| == old(|threads|) && (t == WRITER ==> fetched == old(fetched))
      ensures var send := old(threads[t]).send;
              if err != 0 then threads[t] == AtUnlock(send, None, err)
              else threads[t].AtTake? && threads[t].send == send && old(|air|) <= threads[t].tx
      ensures turns + |rest| == old(turns) + |others|
    {
      rest := Preempt(t, others);
      Advance(Transmit(t, err));
    }

    /** The wait of line 164 and the status test of lines 166 to 169. */
    method AwaitStatus(t: nat, others: seq<seq<Action>>) returns (ok: bool, rest: seq<seq<Action>>)
      requires Inv(View()) && t < |threads| && threads[t].AtTake?
      modifies this
      ensures Inv(View()) && |threads| == old(|threads|) && (t == WRITER ==> fetched == old(fetched))
      ensures if ok
              then threads[t].AtUnlock? && threads[t].send == old(threads[t]).send
                   && threads[t].got == Some(old(threads[t]).tx)
              else threads[t] == old(threads[t])
      ensures if ok then exists s, r :: Waited(old(View()), s, others, r, t, ForCompletion) && s.completion
              else Waited(old(View()), View(), others, rest, t, ForCompletion) && !completion
      ensures turns + |rest| == old(turns) + |others|
    {
      rest := Block(t, ForCompletion, others);
      ok := completion;
      if ok {
        ghost var s, r := View(), rest;
        Advance(Take(t));
        rest := Preempt(t, rest);
        Advance(Read(t));
        assert Waited(old(View()), s, others, r, t, ForCompletion) && s.completion;
      }
    }

    /** send_unlock, after one last preemption. */
    method SendUnlock(t: nat, others: seq<seq<Action>>) returns (rest: seq<seq<Action>>)
      requires Inv(View()) && t < |threads| && threads[t].AtUnlock?
      modifies this
      ensures Inv(View()) && |threads| == old(|threads|) && (t == WRITER ==> fetched == old(fetched))
      ensures var pc := old(threads[t]); threads[t] == Returned(pc.send, pc.got, pc.res)
      ensures Answered(View(), t, threads[t].send, threads[t].got, threads[t].res)
      ensures turns + |rest| == old(turns) + |others|
    {
      rest := Preempt(t, others);
      Advance(Unlock(t));
      assert Local(View(), t);
    }

    /**
     espnow_write_data on thread `t`, statement by statement. `others[k]` is what the rest of
     the system does at the k-th place where this thread waits or may be preempted; `err` is
     what esp_now_send answers. The result is `None` when the schedule is used up while it waits:
     for the lock, for a stray callback to end, or for its completion.
     */
    method WriteData(t: nat, err: int, others: seq<seq<Action>>) returns (r: Option<int>, rest: seq<seq<Action>>)
      requires Inv(View()) && t < |threads| && threads[t].AtLock?
      modifies this
      ensures Inv(View()) && |threads| == old(|threads|) && (t == WRITER ==> fetched == old(fetched))
      ensures r.None? ==> rest == [] && StillWaits(View(), t)
      ensures r.Some? ==> threads[t].Returned? && threads[t].send == old(threads[t]).send
      ensures r.Some? && err != 0 ==> r.value == err && threads[t].got.None?
      ensures r.Some? && err == 0 ==> threads[t].got.Some? && old(|air|) <= threads[t].got.value
      ensures r.Some? ==> threads[t].res == r.value && Answered(View(), t, threads[t].send, threads[t].got, r.value)
      ensures turns + |rest| == old(turns) + |others|
    {
      r := None;
      var ok;
      ok, rest := SendLock(t, others);
      if !ok { return; }
      ok, rest := DrainCompletion(t, rest);
      if !ok { return; }
      rest := TransmitFrame(t, err, rest);
      if err == 0 {
        ok, rest := AwaitStatus(t, rest);
        if !ok { return; }
      }
      rest := SendUnlock(t, rest);
      r := Some(threads[t].res);
    }

    /** One turn of espnow_write_task: it takes the oldest queued frame and no other, sends it when
        the radio accepts, drops the result, and is ready for the next. `done` is false when the
        schedule is used up first. */
    method WriteTaskTurn(err: int, others: seq<seq<Action>>) returns (done: bool, rest: seq<seq<Action>>)
      requires Inv(View()) && threads[WRITER].Idle? && sendQueue != []
      modifies this
      ensures Inv(View()) && |threads| == old(|threads|)
      ensures fetched == old(fetched) + [old(sendQueue)[0]]
      ensures threads[WRITER].Idle? <==> done
      ensures !done ==> rest == [] && StillWaits(View(), WRITER)
      ensures done && err == 0 ==>
                exists tx :: old(|air|) <= tx && Delivered(air, tx, WRITER, old(sendQueue)[0], broadcast)
      ensures turns + |rest| == old(turns) + |others|
    {
      Advance(Fetch);
      var r;
      r, rest := WriteData(WRITER, err, others);
      done := r.Some?;
      if done {
        assert err == 0 ==>
            Delivered(air, threads[WRITER].got.value, WRITER, old(sendQueue)[0], broadcast);
        Advance(Finish(WRITER));
      }
    }

    /** std_espnow_write without blocking: 0 exactly when the queue had room and took the frame. */
    method WriteQueued(send: Send) returns (r: int)
      requires Inv(View())
      modifies this
      ensures Inv(View()) && View() == Next(old(View()), Post(send))
      ensures r == 0 || r == -1
      ensures r == 0 <==> old(|sendQueue|) < 3
      ensures r == 0 ==> sendQueue == old(sendQueue) + [send] && posted == old(posted) + [send]
      ensures r == -1 ==> View() == old(View())
    {
      r := if |sendQueue| < MAX_SEND_QUEEN then 0 else -1;
      Advance(Post(send));
    }
  }
}
