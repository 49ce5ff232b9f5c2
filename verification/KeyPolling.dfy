/**
 The interrupt and the polling task of std_key.c. A level change raises an interrupt, which
 gives a binary semaphore; the task takes it and then polls every registered key for 166
 rounds. Reading a pin, sending the event (which may block on the event queue) and updating
 the key are separate steps, so pins may change in between.
 */
module KeyPolling {
  import opened Common
  import opened KeyDebounce

  const MAX_IO := 40
  const QUEUE_SIZE := 5
  const CHECK_TOTAL_MS := 5000
  const ROUNDS := 166

  lemma RoundsOfWindow()
    ensures ROUNDS == CHECK_TOTAL_MS / CHECK_PEROID_MS == 5000 / 30 && MAX_IO == 40
  {
  }

  datatype Event = Event(io: nat, ty: int, hold: nat)

  /** Where loop_task stands. `Poll(n, io)`: about to look at key `io` in round `n`, or at the
      delay of the round when `io == MAX_IO`. */
  datatype Pc =
    | Parked
    | Poll(n: nat, io: nat)
    | Sampled(n: nat, io: nat, high: bool)
    | Reported(n: nat, io: nat, high: bool)

  datatype State = State(
    level: seq<bool>,               // pin levels, true = high
    interrupt: bool,                // raised and not yet handled
    token: bool,                    // g_loop_run_sem
    pc: Pc,
    keys: seq<Option<Key>>,         // g_info
    shakes: seq<int>,               // the shake time each key was added with
    samples: seq<seq<bool>>,        // what each key has been shown
    waiting: seq<Event>,            // g_key_queue
    emitted: seq<Event>,            // every event ever sent
    consumed: seq<Event>,           // every event std_wait_event returned
    started: nat,                   // polling windows begun
    finished: nat,                  // polling windows completed
    rounds: nat,                    // polling rounds completed
    base: seq<nat>)                 // looks the task had spent on a pin when its key was added

  datatype Action =
    | Add(io: nat, ty: int, shake: int)
    | Edge(io: nat)
    | Isr
    | Wake
    | Skip
    | Sample
    | Send
    | Update
    | Delay
    | Consume

  /** The event the sample in hand makes status_judge send, if any. */
  function Due(s: State): Option<nat>
    requires s.pc.Sampled? && s.pc.io < |s.keys| && s.keys[s.pc.io].Some?
  {
    Report(s.keys[s.pc.io].value, s.pc.high)
  }

  /** How often the task has come past pin `io`, registered or not. */
  function Looks(s: State, io: nat): nat {
    s.rounds + (if !s.pc.Parked? && s.pc.io > io then 1 else 0)
  }

  predicate Shaped(s: State) {
    && |s.level| == |s.keys| == |s.shakes| == |s.samples| == |s.base| == MAX_IO
    && (s.pc.Poll? ==> s.pc.n < ROUNDS && s.pc.io <= MAX_IO)
    && (s.pc.Sampled? || s.pc.Reported? ==> s.pc.n < ROUNDS && s.pc.io < MAX_IO && s.keys[s.pc.io].Some?)
  }

  predicate Enabled(s: State, a: Action) {
    Shaped(s) &&
    match a
    case Add(io, _, _) => io < MAX_IO && s.keys[io].None?
    case Edge(io) => io < MAX_IO
    case Isr => s.interrupt
    case Wake => s.pc.Parked? && s.token
    case Skip => s.pc.Poll? && s.pc.io < MAX_IO && s.keys[s.pc.io].None?
    case Sample => s.pc.Poll? && s.pc.io < MAX_IO && s.keys[s.pc.io].Some?
    case Send => s.pc.Sampled? && Due(s).Some? && |s.waiting| < QUEUE_SIZE
    case Update => s.pc.Reported? || (s.pc.Sampled? && Due(s).None?)
    case Delay => s.pc.Poll? && s.pc.io == MAX_IO
    case Consume => s.waiting != []
  }

  /** The state after std_key_add, whatever the pin reads. */
  function Added(s: State, io: nat, ty: int, shake: int): State
    requires Shaped(s) && io < MAX_IO
  {
    s.(keys := s.keys[io := Some(Fresh(shake, ty))], shakes := s.shakes[io := shake],
       samples := s.samples[io := []], base := s.base[io := Looks(s, io)])
  }

  function Next(s: State, a: Action): State
    requires Enabled(s, a)
  {
    match a
    case Add(io, ty, shake) => Added(s, io, ty, shake)
    case Edge(io) => s.(level := s.level[io := !s.level[io]], interrupt := s.interrupt || s.keys[io].Some?)
    case Isr => s.(interrupt := false, token := true)
    case Wake => s.(token := false, pc := Poll(0, 0), started := s.started + 1)
    case Skip => s.(pc := Poll(s.pc.n, s.pc.io + 1))
    case Sample => s.(pc := Sampled(s.pc.n, s.pc.io, s.level[s.pc.io]))
    case Send =>
      var e := Event(s.pc.io, s.keys[s.pc.io].value.ty, Due(s).value);
      s.(waiting := s.waiting + [e], emitted := s.emitted + [e], pc := Reported(s.pc.n, s.pc.io, s.pc.high))
    case Update =>
      var io := s.pc.io;
      s.(keys := s.keys[io := Some(Judge(s.keys[io].value, s.pc.high))],
         samples := s.samples[io := s.samples[io] + [s.pc.high]],
         pc := Poll(s.pc.n, io + 1))
    case Delay =>
      if s.pc.n + 1 < ROUNDS then s.(pc := Poll(s.pc.n + 1, 0), rounds := s.rounds + 1)
      else s.(pc := Parked, rounds := s.rounds + 1, finished := s.finished + 1)
    case Consume => s.(waiting := s.waiting[1..], consumed := s.consumed + [s.waiting[0]])
  }

  /** Before any key is added the task does not exist; it is created waiting for the semaphore. */
  function Init(level: seq<bool>): State
    requires |level| == MAX_IO
  {
    State(level, false, false, Parked, seq(MAX_IO, i => None), seq(MAX_IO, i => 0), seq(MAX_IO, i => []),
          [], [], [], 0, 0, 0, seq(MAX_IO, i => 0))
  }

  ghost predicate IsRun(s: State, acts: seq<Action>)
    decreases acts
  {
    acts == [] || (Enabled(s, acts[0]) && IsRun(Next(s, acts[0]), acts[1..]))
  }

  ghost function Final(s: State, acts: seq<Action>): State
    requires IsRun(s, acts)
    decreases acts
  {
    if acts == [] then s else Final(Next(s, acts[0]), acts[1..])
  }

  lemma {:induction false} Split(s: State, xs: seq<Action>, ys: seq<Action>)
    requires IsRun(s, xs + ys)
    ensures IsRun(s, xs) && IsRun(Final(s, xs), ys) && Final(s, xs + ys) == Final(Final(s, xs), ys)
    decreases xs
  {
    if xs == [] {
      assert xs + ys == ys;
    } else {
      assert (xs + ys)[1..] == xs[1..] + ys;
      Split(Next(s, xs[0]), xs[1..], ys);
    }
  }

  lemma Prepend(s: State, a: Action, acts: seq<Action>)
    requires Enabled(s, a) && IsRun(Next(s, a), acts)
    ensures IsRun(s, [a] + acts) && Final(s, [a] + acts) == Final(Next(s, a), acts)
  {
    assert ([a] + acts)[1..] == acts;
  }

  lemma StepKeepsShaped(s: State, a: Action)
    requires Enabled(s, a)
    ensures Shaped(Next(s, a))
  {
  }

  lemma StepKeepsKey(s: State, a: Action, io: nat)
    requires Enabled(s, a) && io < MAX_IO && s.keys[io].Some?
    ensures var s' := Next(s, a);
            io < |s'.keys| && io < |s'.base| && s'.keys[io].Some? && s'.base[io] == s.base[io]
  {
  }

  // ---------------------------------------------------------------- agreement with the pins

  /** The task will still look at key `io` in the window it is in. */
  predicate WillLook(pc: Pc, io: nat) {
    match pc
    case Parked => false
    case Poll(n, at) => n + 1 < ROUNDS || at <= io
    case Sampled(n, at, _) => n + 1 < ROUNDS || at < io
    case Reported(n, at, _) => n + 1 < ROUNDS || at < io
  }

  /** Another look is certain: a window is owed, or this one is not past the key. */
  predicate LookAhead(s: State, io: nat) {
    s.interrupt || s.token || WillLook(s.pc, io)
  }

  predicate InHand(pc: Pc, io: nat) {
    (pc.Sampled? || pc.Reported?) && pc.io == io
  }

  /** The recorded status of a key, read as a pin level. */
  predicate Recorded(k: Key) {
    k.status == Release
  }

  /** A key whose status differs from its pin will be looked at again; a sample in hand counts
      as the status it is about to become. */
  ghost predicate Agrees(s: State, io: nat)
    requires io < |s.keys| && io < |s.level|
  {
    s.keys[io].Some? && !LookAhead(s, io) ==>
      (if InHand(s.pc, io) then s.pc.high else Recorded(s.keys[io].value)) == s.level[io]
  }

  ghost predicate Agreement(s: State) {
    Shaped(s) && forall io :: 0 <= io < MAX_IO ==> Agrees(s, io)
  }

  /** std_key_add records a released key without reading the pin, so it is meant for a pin that
      reads high, or that the task will still come past. */
  predicate InTime(s: State, a: Action)
    requires Enabled(s, a)
  {
    a.Add? ==> s.level[a.io] || LookAhead(s, a.io)
  }

  /** Every key that `acts` add is added in time. */
  ghost predicate AddsInTime(s: State, acts: seq<Action>)
    requires IsRun(s, acts)
    decreases acts
  {
    acts == [] || (InTime(s, acts[0]) && AddsInTime(Next(s, acts[0]), acts[1..]))
  }

  lemma StepKeepsAgrees(s: State, a: Action, io: nat)
    requires Enabled(s, a) && io < MAX_IO && Agrees(s, io)
    requires a.Add? && a.io == io ==> InTime(s, a)
    ensures Agrees(Next(s, a), io)
  {
  }

  lemma StepKeepsAgreement(s: State, a: Action)
    requires Agreement(s) && Enabled(s, a) && InTime(s, a)
    ensures Agreement(Next(s, a))
  {
    StepKeepsShaped(s, a);
    forall io | 0 <= io < MAX_IO
      ensures Agrees(Next(s, a), io)
    {
      StepKeepsAgrees(s, a, io);
    }
  }

  lemma {:induction false} RunKeepsAgreement(s: State, acts: seq<Action>)
    requires Agreement(s) && IsRun(s, acts) && AddsInTime(s, acts)
    ensures Agreement(Final(s, acts))
    decreases acts
  {
    if acts != [] {
      StepKeepsAgreement(s, acts[0]);
      RunKeepsAgreement(Next(s, acts[0]), acts[1..]);
    }
  }

  /** The task is parked, with nothing that would wake it. */
  predicate Asleep(s: State) {
    s.pc.Parked? && !s.token && !s.interrupt
  }

  /** The recorded status of every registered key is the level of its pin. */
  ghost predicate AllRight(s: State) {
    && |s.keys| == |s.level| == MAX_IO
    && forall io :: 0 <= io < MAX_IO && s.keys[io].Some? ==>
         (s.keys[io].value.status == Release <==> s.level[io])
  }

  lemma AgreementAsleep(s: State)
    requires Agreement(s) && Asleep(s)
    ensures AllRight(s)
  {
    forall io | 0 <= io < MAX_IO && s.keys[io].Some?
      ensures s.keys[io].value.status == Release <==> s.level[io]
    {
      assert Agrees(s, io);
    }
  }

  /** Whatever the interleaving of edges, interrupts, polling and event consumers: when the task
      sleeps, every key's recorded status is the level of its pin, if all were added in time. */
  lemma SleepsOnlyInAgreement(level: seq<bool>, acts: seq<Action>)
    requires |level| == MAX_IO && IsRun(Init(level), acts) && AddsInTime(Init(level), acts)
    requires Asleep(Final(Init(level), acts))
    ensures AllRight(Final(Init(level), acts))
  {
    RunKeepsAgreement(Init(level), acts);
    AgreementAsleep(Final(Init(level), acts));
  }

  // ---------------------------------------------------------------- the demand on std_key_add is exact

  /** However the run goes on, key `io` is recorded rightly whenever the task sleeps. */
  ghost predicate SleepsRight(s: State, io: nat) {
    forall acts :: IsRun(s, acts) && Asleep(Final(s, acts)) ==> RightAt(Final(s, acts), io)
  }

  predicate RightAt(s: State, io: nat) {
    && io < |s.keys| && io < |s.level| && s.keys[io].Some?
    && (s.keys[io].value.status == Release <==> s.level[io])
  }

  lemma {:induction false} RunKeepsAgrees(s: State, acts: seq<Action>, io: nat)
    requires Shaped(s) && IsRun(s, acts) && io < MAX_IO && s.keys[io].Some? && Agrees(s, io)
    ensures Shaped(Final(s, acts)) && Final(s, acts).keys[io].Some? && Agrees(Final(s, acts), io)
    decreases acts
  {
    if acts != [] {
      StepKeepsShaped(s, acts[0]);
      StepKeepsKey(s, acts[0], io);
      StepKeepsAgrees(s, acts[0], io);
      RunKeepsAgrees(Next(s, acts[0]), acts[1..], io);
    }
  }

  /** The task is past key `io` for the last time, and nothing would wake it again. */
  predicate Past(s: State, io: nat) {
    Shaped(s) && io < MAX_IO && s.keys[io].Some? && !LookAhead(s, io) && !InHand(s.pc, io)
  }

  /** What the task does next in its last round, with a consumer when the event queue is full. */
  function Onward(s: State): Action
    requires Shaped(s) && !s.pc.Parked?
  {
    match s.pc
    case Poll(_, io) => if io == MAX_IO then Delay else if s.keys[io].None? then Skip else Sample
    case Sampled(_, _, _) =>
      if Due(s).None? then Update else if |s.waiting| < QUEUE_SIZE then Send else Consume
    case Reported(_, _, _) => Update
  }

  function Phase(pc: Pc): nat {
    match pc
    case Parked => 0
    case Poll(_, _) => 2
    case Sampled(_, _, _) => 1
    case Reported(_, _, _) => 0
  }

  function RoundLeft(pc: Pc): nat {
    if pc.Parked? || pc.io > MAX_IO then 0 else MAX_IO + 1 - pc.io
  }

  lemma OnwardStaysPast(s: State, io: nat)
    requires Past(s, io) && !s.pc.Parked?
    ensures var a := Onward(s);
            && Enabled(s, a)
            && Past(Next(s, a), io)
            && Next(s, a).keys[io] == s.keys[io] && Next(s, a).level == s.level
            && (RoundLeft(Next(s, a).pc) < RoundLeft(s.pc)
               || (Next(s, a).pc.io == s.pc.io && Phase(Next(s, a).pc) < Phase(s.pc))
               || (Next(s, a).pc == s.pc && |Next(s, a).waiting| < |s.waiting|))
  {
  }

  /** The round runs to its end, and the window with it, with no edge on the way. */
  lemma {:induction false} RunOut(s: State, io: nat) returns (acts: seq<Action>)
    requires Past(s, io)
    ensures IsRun(s, acts) && Asleep(Final(s, acts))
    ensures Past(Final(s, acts), io)
    ensures Final(s, acts).keys[io] == s.keys[io] && Final(s, acts).level == s.level
    decreases RoundLeft(s.pc), Phase(s.pc), |s.waiting|
  {
    if s.pc.Parked? {
      acts := [];
    } else {
      OnwardStaysPast(s, io);
      acts := RunOut(Next(s, Onward(s)), io);
      Prepend(s, Onward(s), acts);
      acts := [Onward(s)] + acts;
    }
  }

  /** A key is recorded rightly at every sleep after its addition, whatever happens in between, if
      and only if its pin reads high when it is added or the task is still to come past it. */
  lemma AddedKeySleepsRightExactlyWhen(s: State, io: nat, ty: int, shake: int)
    requires Shaped(s) && io < MAX_IO && s.keys[io].None?
    ensures SleepsRight(Added(s, io, ty, shake), io) <==> s.level[io] || LookAhead(s, io)
  {
    var s' := Added(s, io, ty, shake);
    if s.level[io] || LookAhead(s, io) {
      forall acts | IsRun(s', acts) && Asleep(Final(s', acts))
        ensures RightAt(Final(s', acts), io)
      {
        RunKeepsAgrees(s', acts, io);
      }
    } else {
      var acts := RunOut(s', io);
      assert !RightAt(Final(s', acts), io);
    }
  }

  /** A key added first of all on a pin that reads low is recorded wrongly at some sleep. */
  lemma LowPinAddedFirstSleepsWrong(level: seq<bool>, io: nat, ty: int, shake: int)
    requires |level| == MAX_IO && io < MAX_IO && !level[io]
    ensures !SleepsRight(Added(Init(level), io, ty, shake), io)
  {
    AddedKeySleepsRightExactlyWhen(Init(level), io, ty, shake);
  }

  // ---------------------------------------------------------------- no lost wake-up

  /** A window is 166 rounds. */
  ghost predicate RoundsCounted(s: State) {
    && s.started == s.finished + (if s.pc.Parked? then 0 else 1)
    && s.rounds == ROUNDS * s.finished + (if s.pc.Parked? then 0 else s.pc.n)
  }

  /** A round shows a registered key one sample. */
  ghost predicate SamplesCounted(s: State, io: nat)
    requires Shaped(s) && io < MAX_IO
  {
    s.keys[io].Some? ==> |s.samples[io]| + s.base[io] == Looks(s, io)
  }

  ghost predicate Counted(s: State) {
    RoundsCounted(s) && Shaped(s) && forall io :: 0 <= io < MAX_IO ==> SamplesCounted(s, io)
  }

  lemma StepKeepsRounds(s: State, a: Action)
    requires Enabled(s, a) && RoundsCounted(s)
    ensures RoundsCounted(Next(s, a))
  {
  }

  lemma StepKeepsSamples(s: State, a: Action, io: nat)
    requires Enabled(s, a) && io < MAX_IO && SamplesCounted(s, io)
    ensures Shaped(Next(s, a)) && SamplesCounted(Next(s, a), io)
  {
    StepKeepsShaped(s, a);
  }

  lemma StepKeepsCounted(s: State, a: Action)
    requires Counted(s) && Enabled(s, a)
    ensures Counted(Next(s, a))
  {
    StepKeepsShaped(s, a);
    StepKeepsRounds(s, a);
    forall io | 0 <= io < MAX_IO
      ensures SamplesCounted(Next(s, a), io)
    {
      assert SamplesCounted(s, io);
      StepKeepsSamples(s, a, io);
    }
  }

  lemma {:induction false} RunKeepsKey(s: State, acts: seq<Action>, io: nat)
    requires Shaped(s) && IsRun(s, acts) && io < MAX_IO && s.keys[io].Some?
    ensures var s' := Final(s, acts);
            Shaped(s') && s'.keys[io].Some? && s'.base[io] == s.base[io]
    decreases acts
  {
    if acts != [] {
      StepKeepsShaped(s, acts[0]);
      StepKeepsKey(s, acts[0], io);
      RunKeepsKey(Next(s, acts[0]), acts[1..], io);
    }
  }

  /** Looks spent so far, at a moment of window number `started` and at the sleep after `finished`. */
  lemma LooksByWindow(s: State, io: nat)
    requires Shaped(s) && RoundsCounted(s)
    ensures Looks(s, io) <= ROUNDS * s.started
    ensures s.pc.Parked? ==> Looks(s, io) == ROUNDS * s.finished
  {
  }

  /** From any moment of a window to any sleep after the end of a later one lie 166 samples. */
  lemma LaterWindowShowsAll(s: State, s': State, io: nat)
    requires Shaped(s) && RoundsCounted(s) && Shaped(s') && RoundsCounted(s') && io < MAX_IO
    requires SamplesCounted(s, io) && SamplesCounted(s', io)
    requires s'.pc.Parked? && s'.finished > s.started
    requires s.keys[io].Some? && s'.keys[io].Some? && s'.base[io] == s.base[io]
    ensures |s'.samples[io]| >= |s.samples[io]| + ROUNDS
  {
    LooksByWindow(s, io);
    LooksByWindow(s', io);
  }

  /** `mark` windows had begun when an edge came: either it is still to be served, or another
      window has begun since. */
  ghost predicate Served(s: State, mark: nat) {
    Counted(s) && s.started >= mark && (s.interrupt || s.token || s.started > mark)
  }

  lemma {:induction false} RunKeepsCount(s: State, acts: seq<Action>)
    requires Counted(s) && IsRun(s, acts)
    ensures Counted(Final(s, acts))
    decreases acts
  {
    if acts != [] {
      StepKeepsCounted(s, acts[0]);
      RunKeepsCount(Next(s, acts[0]), acts[1..]);
    }
  }

  lemma {:induction false} RunKeepsServed(s: State, acts: seq<Action>, mark: nat)
    requires Served(s, mark) && IsRun(s, acts)
    ensures Served(Final(s, acts), mark)
    decreases acts
  {
    if acts != [] {
      StepKeepsCounted(s, acts[0]);
      RunKeepsServed(Next(s, acts[0]), acts[1..], mark);
    }
  }

  /** `s'` is asleep after a whole window that began after `s`, and that showed every key
      registered in `s` at least 166 further samples. */
  ghost predicate WholeWindowLater(s: State, s': State) {
    && Shaped(s) && Shaped(s')
    && s'.finished > s.started
    && forall i :: 0 <= i < MAX_IO && s.keys[i].Some? ==>
         s'.keys[i].Some? && |s'.samples[i]| >= |s.samples[i]| + ROUNDS
  }

  lemma EdgeIsServed(s: State, io: nat, after: seq<Action>)
    requires Counted(s) && io < MAX_IO && s.keys[io].Some? && IsRun(Next(s, Edge(io)), after)
    requires Asleep(Final(Next(s, Edge(io)), after))
    ensures WholeWindowLater(s, Final(Next(s, Edge(io)), after))
  {
    var s1 := Next(s, Edge(io));
    var s' := Final(s1, after);
    StepKeepsCounted(s, Edge(io));
    RunKeepsServed(s1, after, s.started);
    forall i | 0 <= i < MAX_IO && s.keys[i].Some?
      ensures s'.keys[i].Some? && |s'.samples[i]| >= |s.samples[i]| + ROUNDS
    {
      RunKeepsKey(s1, after, i);
      LaterWindowShowsAll(s, s', i);
    }
  }

  /** After an edge on a registered pin, the task does not sleep before a window that began
      after the edge has run to its end, however many edges share one token. */
  lemma EdgeIsFollowedByWholeWindow(level: seq<bool>, before: seq<Action>, io: nat, after: seq<Action>)
    requires |level| == MAX_IO && IsRun(Init(level), before + ([Edge(io)] + after))
    requires IsRun(Init(level), before) ==>
               io < |Final(Init(level), before).keys| && Final(Init(level), before).keys[io].Some?
    requires Asleep(Final(Init(level), before + ([Edge(io)] + after)))
    ensures IsRun(Init(level), before)
    ensures WholeWindowLater(Final(Init(level), before), Final(Init(level), before + ([Edge(io)] + after)))
  {
    Split(Init(level), before, [Edge(io)] + after);
    RunKeepsCount(Init(level), before);
    assert ([Edge(io)] + after)[1..] == after;
    EdgeIsServed(Final(Init(level), before), io, after);
  }

  // ---------------------------------------------------------------- edges, levels and windows

  /** Whether `acts` hold an odd number of edges of pin `io`. */
  function OddEdges(acts: seq<Action>, io: nat): bool
    decreases acts
  {
    acts != [] && ((acts[0] == Edge(io)) != OddEdges(acts[1..], io))
  }

  /** The edges on pins that have a key, when those in `keyed` have one already. */
  function KeyEdges(acts: seq<Action>, keyed: set<nat>): nat
    decreases acts
  {
    if acts == [] then 0
    else
      (if acts[0].Edge? && acts[0].io in keyed then 1 else 0) +
      KeyEdges(acts[1..], if acts[0].Add? then keyed + {acts[0].io} else keyed)
  }

  /** Windows begun, and wake-ups still on their way. */
  function Wakeups(s: State): nat {
    s.started + (if s.token then 1 else 0) + (if s.interrupt then 1 else 0)
  }

  lemma {:induction false} LevelFollowsEdges(s: State, acts: seq<Action>, io: nat)
    requires Shaped(s) && IsRun(s, acts) && io < MAX_IO
    ensures Shaped(Final(s, acts)) && Final(s, acts).level[io] == (s.level[io] != OddEdges(acts, io))
    decreases acts
  {
    if acts != [] {
      StepKeepsShaped(s, acts[0]);
      LevelFollowsEdges(Next(s, acts[0]), acts[1..], io);
    }
  }

  /** No window without an edge of its own: whatever is polled was woken by a pin with a key. */
  lemma {:induction false} WindowsNeedEdges(s: State, acts: seq<Action>, keyed: set<nat>)
    requires Shaped(s) && IsRun(s, acts)
    requires forall io :: 0 <= io < MAX_IO && s.keys[io].Some? ==> io in keyed
    ensures Wakeups(Final(s, acts)) <= Wakeups(s) + KeyEdges(acts, keyed)
    decreases acts
  {
    if acts != [] {
      var a, s' := acts[0], Next(s, acts[0]);
      StepKeepsShaped(s, a);
      assert Wakeups(s') <= Wakeups(s) + (if a.Edge? && a.io in keyed then 1 else 0);
      WindowsNeedEdges(s', acts[1..], if a.Add? then keyed + {a.io} else keyed);
    }
  }

  // ---------------------------------------------------------------- the events

  /** The hold times of the events of one key, in order. */
  function HoldsOf(events: seq<Event>, io: nat): seq<nat> {
    if events == [] then []
    else
      var last := events[|events| - 1];
      HoldsOf(events[..|events| - 1], io) + (if last.io == io then [last.hold] else [])
  }

  /** The samples a key has been shown, counting the one whose event has just been sent. */
  function Shown(s: State, io: nat): seq<bool>
    requires io < |s.samples|
  {
    if s.pc.Reported? && s.pc.io == io then s.samples[io] + [s.pc.high] else s.samples[io]
  }

  /** A key is its machine run over `samples`; its hold times are those of `shown`. */
  ghost predicate Tracks(key: Option<Key>, shake: int, samples: seq<bool>, shown: seq<bool>, holds: seq<nat>) {
    match key
    case None => holds == [] && samples == []
    case Some(k) => k == Run(Fresh(shake, k.ty), samples) && holds == Holds(Fresh(shake, k.ty), shown)
  }

  ghost predicate KeyFollows(s: State, io: nat)
    requires io < |s.keys| && io < |s.samples| && io < |s.shakes|
  {
    Tracks(s.keys[io], s.shakes[io], s.samples[io], Shown(s, io), HoldsOf(s.emitted, io))
  }

  /** What was sent is what was consumed, in order, and then what waits: at most five events. */
  ghost predicate Queued(s: State) {
    s.emitted == s.consumed + s.waiting && |s.waiting| <= QUEUE_SIZE
  }

  ghost predicate Follows(s: State) {
    && Shaped(s)
    && (forall io :: 0 <= io < MAX_IO ==> KeyFollows(s, io))
    && (s.pc.Reported? ==> Report(s.keys[s.pc.io].value, s.pc.high).Some?)
    && Queued(s)
  }

  lemma RunAppend(k: Key, samples: seq<bool>, high: bool)
    ensures Run(k, samples + [high]) == Judge(Run(k, samples), high)
    ensures Holds(k, samples + [high]) == Holds(k, samples) + ToSeq(Report(Run(k, samples), high))
  {
    assert (samples + [high])[..|samples|] == samples;
  }

  lemma HoldsOfAppend(events: seq<Event>, e: Event, io: nat)
    ensures HoldsOf(events + [e], io) == HoldsOf(events, io) + (if e.io == io then [e.hold] else [])
  {
    assert (events + [e])[..|events|] == events;
  }

  lemma TracksSend(k: Key, shake: int, samples: seq<bool>, high: bool, holds: seq<nat>)
    requires Tracks(Some(k), shake, samples, samples, holds) && Report(k, high).Some?
    ensures Tracks(Some(k), shake, samples, samples + [high], holds + [Report(k, high).value])
  {
    RunAppend(Fresh(shake, k.ty), samples, high);
  }

  lemma TracksUpdate(k: Key, shake: int, samples: seq<bool>, high: bool, sent: bool, holds: seq<nat>)
    requires Tracks(Some(k), shake, samples, if sent then samples + [high] else samples, holds)
    requires !sent ==> Report(k, high).None?
    ensures Tracks(Some(Judge(k, high)), shake, samples + [high], samples + [high], holds)
  {
    RunAppend(Fresh(shake, k.ty), samples, high);
  }

  lemma SendFollows(s: State, io: nat)
    requires Enabled(s, Send) && io < MAX_IO && KeyFollows(s, io)
    ensures KeyFollows(Next(s, Send), io)
  {
    var s' := Next(s, Send);
    var holds := HoldsOf(s.emitted, io);
    assert s'.keys == s.keys && s'.shakes == s.shakes && s'.samples == s.samples && s'.pc.Reported?;
    HoldsOfAppend(s.emitted, s'.emitted[|s.emitted|], io);
    if s.pc.io == io {
      var k, high := s.keys[io].value, s.pc.high;
      TracksSend(k, s.shakes[io], s.samples[io], high, holds);
      assert HoldsOf(s'.emitted, io) == holds + [Report(k, high).value];
    } else {
      assert Shown(s', io) == s.samples[io] == Shown(s, io);
    }
  }

  lemma UpdateFrames(s: State, io: nat)
    requires Enabled(s, Update) && io < MAX_IO
    ensures var s' := Next(s, Update);
            && Shaped(s') && s'.emitted == s.emitted && s'.shakes == s.shakes
            && Shown(s', io) == s'.samples[io]
            && (if s.pc.io == io
                then && s'.keys[io] == Some(Judge(s.keys[io].value, s.pc.high))
                     && s'.samples[io] == s.samples[io] + [s.pc.high]
                else s'.keys[io] == s.keys[io] && s'.samples[io] == s.samples[io] == Shown(s, io))
  {
  }

  lemma UpdateFollows(s: State, io: nat)
    requires Enabled(s, Update) && io < MAX_IO && KeyFollows(s, io)
    ensures KeyFollows(Next(s, Update), io)
  {
    UpdateFrames(s, io);
    if s.pc.io == io {
      TracksUpdate(s.keys[io].value, s.shakes[io], s.samples[io], s.pc.high, s.pc.Reported?, HoldsOf(s.emitted, io));
    }
  }

  lemma AddFollows(s: State, a: Action, io: nat)
    requires Enabled(s, a) && a.Add? && a.io == io && KeyFollows(s, io)
    ensures KeyFollows(Next(s, a), io)
  {
    var s' := Next(s, a);
    assert s'.samples[io] == [] == Shown(s', io) && s'.emitted == s.emitted;
    assert Tracks(s'.keys[io], a.shake, [], [], HoldsOf(s.emitted, io));
  }

  /** Steps that neither send nor update leave a registered key's record alone. */
  lemma OtherStepFrames(s: State, a: Action, io: nat)
    requires Enabled(s, a) && !a.Send? && !a.Update? && !(a.Add? && a.io == io) && io < MAX_IO
    ensures var s' := Next(s, a);
            && Shaped(s') && s'.emitted == s.emitted
            && s'.keys[io] == s.keys[io] && s'.samples[io] == s.samples[io] && s'.shakes[io] == s.shakes[io]
            && Shown(s', io) == Shown(s, io)
  {
  }

  lemma StepKeepsQueued(s: State, a: Action)
    requires Enabled(s, a) && Queued(s)
    ensures Queued(Next(s, a))
  {
  }

  lemma StepKeepsFollows(s: State, a: Action)
    requires Follows(s) && Enabled(s, a)
    ensures Follows(Next(s, a))
  {
    var s' := Next(s, a);
    forall io | 0 <= io < MAX_IO
      ensures KeyFollows(s', io)
    {
      assert KeyFollows(s, io);
      if a.Send? {
        SendFollows(s, io);
      } else if a.Update? {
        UpdateFollows(s, io);
      } else if a.Add? && a.io == io {
        AddFollows(s, a, io);
      } else {
        OtherStepFrames(s, a, io);
      }
    }
    StepKeepsQueued(s, a);
  }

  lemma {:induction false} RunKeepsFollows(s: State, acts: seq<Action>)
    requires Follows(s) && IsRun(s, acts)
    ensures Follows(Final(s, acts))
    decreases acts
  {
    if acts != [] {
      StepKeepsFollows(s, acts[0]);
      RunKeepsFollows(Next(s, acts[0]), acts[1..]);
    }
  }

  datatype Settings = Settings(ty: int, shake: int)

  /** What std_key_add was last told about pin `io`. */
  function AddedWith(acts: seq<Action>, io: nat, was: Option<Settings>): Option<Settings>
    decreases acts
  {
    if acts == [] then was
    else
      AddedWith(acts[1..], io,
                if acts[0].Add? && acts[0].io == io then Some(Settings(acts[0].ty, acts[0].shake)) else was)
  }

  /** The key of pin `io`, and every event ever sent for it, is as it was asked for. */
  ghost predicate AsAdded(s: State, io: nat, added: Option<Settings>) {
    && io < |s.keys| && io < |s.shakes|
    && match added
       case None => s.keys[io].None? && forall i :: 0 <= i < |s.emitted| ==> s.emitted[i].io != io
       case Some(told) =>
         && s.keys[io].Some? && s.keys[io].value.ty == told.ty
         && s.keys[io].value.shake == told.shake % 0x1_0000_0000 && s.shakes[io] == told.shake
         && forall i :: 0 <= i < |s.emitted| && s.emitted[i].io == io ==> s.emitted[i].ty == told.ty
  }

  lemma StepKeepsAsAdded(s: State, a: Action, io: nat, added: Option<Settings>)
    requires Enabled(s, a) && io < MAX_IO && AsAdded(s, io, added)
    ensures AsAdded(Next(s, a), io, if a.Add? && a.io == io then Some(Settings(a.ty, a.shake)) else added)
  {
  }

  lemma {:induction false} KeysAreAsAdded(s: State, acts: seq<Action>, io: nat, added: Option<Settings>)
    requires Shaped(s) && IsRun(s, acts) && io < MAX_IO && AsAdded(s, io, added)
    ensures AsAdded(Final(s, acts), io, AddedWith(acts, io, added))
    decreases acts
  {
    if acts != [] {
      var a := acts[0];
      StepKeepsShaped(s, a);
      StepKeepsAsAdded(s, a, io, added);
      KeysAreAsAdded(Next(s, a), acts[1..], io,
                     if a.Add? && a.io == io then Some(Settings(a.ty, a.shake)) else added);
    }
  }

  /** In every interleaving, and with any number of keys sharing the event queue, a key is there
      when it was added; its events carry the type it was added with, and their hold times are the
      long low runs, for the shake time it was added with, of the samples it was shown. */
  lemma EachKeyReportsItsLongRuns(level: seq<bool>, acts: seq<Action>, io: nat)
    requires |level| == MAX_IO && IsRun(Init(level), acts) && io < MAX_IO
    ensures var s, told := Final(Init(level), acts), AddedWith(acts, io, None);
            && |s.keys| == |s.samples| == MAX_IO
            && AsAdded(s, io, told)
            && match told
               case None => s.keys[io].None? && HoldsOf(s.emitted, io) == []
               case Some(it) => HoldsOf(s.emitted, io) == LongRuns(it.shake % 0x1_0000_0000, Shown(s, io))
  {
    InitFollows(level);
    RunKeepsFollows(Init(level), acts);
    KeysAreAsAdded(Init(level), acts, io, None);
    assert KeyFollows(Final(Init(level), acts), io);
    if Final(Init(level), acts).keys[io].Some? {
      KeyReportsLongRuns(Final(Init(level), acts), io);
    }
  }

  lemma InitFollows(level: seq<bool>)
    requires |level| == MAX_IO
    ensures Follows(Init(level))
  {
  }

  lemma KeyReportsLongRuns(s: State, io: nat)
    requires Follows(s) && io < MAX_IO && s.keys[io].Some?
    ensures HoldsOf(s.emitted, io) == LongRuns(s.shakes[io] % TWO_32, Shown(s, io))
  {
    assert KeyFollows(s, io);
    DebouncerReportsLongRuns(s.shakes[io], s.keys[io].value.ty, Shown(s, io));
  }

  /** Consumers get every event once, in the order they were sent, and at most five wait. */
  lemma EventsAreConsumedInOrder(level: seq<bool>, acts: seq<Action>)
    requires |level| == MAX_IO && IsRun(Init(level), acts)
    ensures var s := Final(Init(level), acts);
            s.emitted == s.consumed + s.waiting && |s.waiting| <= 5
  {
    InitFollows(level);
    RunKeepsFollows(Init(level), acts);
  }

  // ---------------------------------------------------------------- the file's variables

  ghost predicate Inv(s: State) {
    Agreement(s) && Counted(s) && Follows(s)
  }

  lemma InitInv(level: seq<bool>)
    requires |level| == MAX_IO
    ensures Inv(Init(level))
  {
    InitFollows(level);
  }

  lemma StepKeepsInv(s: State, a: Action)
    requires Inv(s) && Enabled(s, a) && InTime(s, a)
    ensures Inv(Next(s, a))
  {
    StepKeepsAgreement(s, a);
    StepKeepsCounted(s, a);
    StepKeepsFollows(s, a);
  }

  /** Registered keys stay registered, and samples and events are only ever added. */
  ghost predicate KeyGrows(s: State, s': State, io: nat)
    requires Shaped(s) && Shaped(s') && io < MAX_IO
  {
    s.keys[io].Some? ==>
      && s'.keys[io].Some?
      && s'.base[io] == s.base[io] && s'.shakes[io] == s.shakes[io] && s.samples[io] <= s'.samples[io]
  }

  ghost predicate Grows(s: State, s': State) {
    && Shaped(s) && Shaped(s')
    && s.emitted <= s'.emitted
    && forall io :: 0 <= io < MAX_IO ==> KeyGrows(s, s', io)
  }

  lemma StepGrows(s: State, a: Action)
    requires Enabled(s, a)
    ensures Grows(s, Next(s, a))
  {
    StepKeepsShaped(s, a);
    forall io | 0 <= io < MAX_IO
      ensures KeyGrows(s, Next(s, a), io)
    {
    }
  }

  lemma GrowsOn(s: State, s': State, s'': State)
    requires Grows(s, s') && Grows(s', s'')
    ensures Grows(s, s'')
  {
    forall io | 0 <= io < MAX_IO
      ensures KeyGrows(s, s'', io)
    {
      assert KeyGrows(s, s', io) && KeyGrows(s', s'', io);
    }
  }

  /** What the rest of the system does while the task waits or is preempted. */
  predicate Outside(a: Action) {
    a.Add? || a.Edge? || a.Isr? || a.Consume?
  }

  /** A step of the rest of the system; `all` when the task is part of it. */
  predicate May(s: State, a: Action, all: bool) {
    Enabled(s, a) && InTime(s, a) && (all || Outside(a))
  }

  /** After a turn: of `acts`, in order, each that may happen has happened. */
  function Turn(s: State, acts: seq<Action>, all: bool): State
    decreases acts
  {
    if acts == [] then s else Turn(if May(s, acts[0], all) then Next(s, acts[0]) else s, acts[1..], all)
  }

  /** After the first `k` turns. */
  function Turns(s: State, others: seq<seq<Action>>, k: nat, all: bool): State
    requires k <= |others|
  {
    if k == 0 then s else Turn(Turns(s, others, k - 1, all), others[k - 1], all)
  }

  lemma TurnsGoOn(s: State, others: seq<seq<Action>>, k: nat, a: Action, all: bool)
    requires k < |others| && others[k] == [a] && May(Turns(s, others, k, all), a, all)
    ensures Turns(s, others, k + 1, all) == Next(Turns(s, others, k, all), a)
  {
    var now := Turns(s, others, k, all);
    assert Turn(now, [a], all) == Turn(Next(now, a), [a][1..], all);
  }

  /** What is waited for: the task's semaphore, room for an event, or an event. */
  datatype Wait = ForToken | ForRoom | ForEvent

  predicate Ready(s: State, w: Wait) {
    match w
    case ForToken => s.token
    case ForRoom => |s.waiting| < 5
    case ForEvent => s.waiting != []
  }

  /** A wait of at most `patience` turns ends after `k` of them: at the first moment that it need
      not go on, or when its time or the schedule is over. */
  ghost predicate Waits(s: State, others: seq<seq<Action>>, k: nat, all: bool, w: Wait, patience: nat) {
    && k <= |others| && k <= patience
    && (forall j :: 0 <= j < k ==> !Ready(Turns(s, others, j, all), w))
    && (Ready(Turns(s, others, k, all), w) || k == patience || k == |others|)
  }

  /** Nothing of the task's own has changed. */
  ghost predicate Apart(s: State, s': State) {
    && Shaped(s) && Shaped(s')
    && s'.pc == s.pc && s'.emitted == s.emitted
    && s'.started == s.started && s'.finished == s.finished && s'.rounds == s.rounds
    && |s'.waiting| <= |s.waiting|
    && forall io :: 0 <= io < MAX_IO && s.keys[io].Some? ==>
         s'.keys[io] == s.keys[io] && s'.samples[io] == s.samples[io]
  }

  lemma OutsideIsApart(s: State, a: Action)
    requires Enabled(s, a) && Outside(a)
    ensures Apart(s, Next(s, a))
  {
  }

  /** Every key registered in `s` has been shown exactly `n` further samples. */
  ghost predicate ShownMore(s: State, s': State, n: int) {
    && Grows(s, s')
    && forall io :: 0 <= io < MAX_IO && s.keys[io].Some? ==> |s'.samples[io]| == |s.samples[io]| + n
  }

  predicate AtRoundStart(pc: Pc) {
    pc.Parked? || (pc.Poll? && pc.io == 0)
  }

  lemma RoundsShow(s: State, s': State)
    requires Counted(s) && Counted(s') && Grows(s, s') && AtRoundStart(s.pc) && AtRoundStart(s'.pc)
    ensures ShownMore(s, s', s'.rounds - s.rounds)
  {
    forall io | 0 <= io < MAX_IO && s.keys[io].Some?
      ensures |s'.samples[io]| == |s.samples[io]| + (s'.rounds - s.rounds)
    {
      assert KeyGrows(s, s', io) && SamplesCounted(s, io) && SamplesCounted(s', io);
    }
  }

  /** Every registered key's events are the long low runs of its samples. */
  ghost predicate AllReported(s: State) {
    && Shaped(s)
    && forall io :: 0 <= io < MAX_IO && s.keys[io].Some? ==>
         HoldsOf(s.emitted, io) == LongRuns(s.shakes[io] % TWO_32, s.samples[io])
  }

  lemma ParkedReportsAll(s: State)
    requires Follows(s) && s.pc.Parked?
    ensures AllReported(s)
  {
    forall io | 0 <= io < MAX_IO && s.keys[io].Some?
      ensures HoldsOf(s.emitted, io) == LongRuns(s.shakes[io] % TWO_32, s.samples[io])
    {
      KeyReportsLongRuns(s, io);
    }
  }

  /** The task waits in xQueueSend. */
  predicate AwaitsRoom(s: State) {
    s.pc.Sampled? && |s.waiting| >= 5
  }

  /** Key `io` has seen one more sample: it became what its machine says, and sent what it says. */
  ghost predicate Judged(s: State, s': State, io: nat, high: bool)
    requires Shaped(s) && Shaped(s') && io < MAX_IO && s.keys[io].Some?
  {
    var k := s.keys[io].value;
    && s'.samples[io] == s.samples[io] + [high]
    && s'.keys[io] == Some(Judge(k, high))
    && s'.emitted == s.emitted + (if Report(k, high).Some? then [Event(io, k.ty, Report(k, high).value)] else [])
  }

  class KeyTask {
    const info: array<Option<Key>>  // g_info
    var level: seq<bool>
    var interrupt: bool
    var token: bool                 // g_loop_run_sem
    var pc: Pc
    var shakes: seq<int>
    var samples: seq<seq<bool>>
    var waiting: seq<Event>         // g_key_queue
    var emitted: seq<Event>
    var consumed: seq<Event>
    var started: nat
    var finished: nat
    var rounds: nat
    var base: seq<nat>
    ghost var turns: nat            // how many turns the rest of the system has had

    function View(): State
      reads this, info
    {
      State(level, interrupt, token, pc, info[..], shakes, samples, waiting, emitted, consumed,
            started, finished, rounds, base)
    }

    constructor (level: seq<bool>)
      requires |level| == MAX_IO
      ensures fresh(info) && View() == Init(level) && Inv(View())
    {
      info := new Option<Key>[MAX_IO](_ => None);
      this.level, interrupt, token, pc := level, false, false, Parked;
      shakes, samples, base := seq(MAX_IO, i => 0), seq(MAX_IO, i => []), seq(MAX_IO, i => 0);
      waiting, emitted, consumed, started, finished, rounds := [], [], [], 0, 0, 0;
      turns := 0;
      new;
      assert info[..] == seq(MAX_IO, i => None);
      InitInv(level);
    }

    /** std_key_add: the key is recorded rightly at every later sleep exactly when its pin reads
        high now or the task is still to come past it. */
    method KeyAdd(io: nat, ty: int, shake: int)
      requires Enabled(View(), Add(io, ty, shake))
      modifies this, info
      ensures View() == Next(old(View()), Add(io, ty, shake)) && turns == old(turns)
      ensures info[io] == Some(Key(shake % 0x1_0000_0000, ty, Release, 0))
      ensures forall i :: 0 <= i < MAX_IO && i != io ==> info[i] == old(info[i])
      ensures SleepsRight(View(), io) <==> old(level[io] || LookAhead(View(), io))
    {
      AddedKeySleepsRightExactlyWhen(View(), io, ty, shake);
      base := base[io := rounds + (if !pc.Parked? && pc.io > io then 1 else 0)];
      shakes, samples := shakes[io := shake], samples[io := []];
      info[io] := Some(Key(shake % TWO_32, ty, Release, 0));
    }

    /** What the rest of the system may do at any moment. */
    method OutsideStep(a: Action)
      requires Enabled(View(), a) && Outside(a)
      modifies this, info
      ensures View() == Next(old(View()), a) && turns == old(turns)
    {
      match a {
        case Add(io, ty, shake) =>
          KeyAdd(io, ty, shake);
        case Edge(io) =>
          level := level[io := !level[io]];
          interrupt := interrupt || info[io].Some?;
        case Isr =>
          interrupt, token := false, true;
        case Consume =>
          consumed := consumed + [waiting[0]];
          waiting := waiting[1..];
      }
    }

    /** A step of the task itself. */
    method TaskStep(a: Action)
      requires Enabled(View(), a) && !Outside(a) && !a.Update?
      modifies this
      ensures View() == Next(old(View()), a) && turns == old(turns)
    {
      match a {
        case Wake =>
          token, pc, started := false, Poll(0, 0), started + 1;
        case Skip =>
          pc := Poll(pc.n, pc.io + 1);
        case Sample =>
          pc := Sampled(pc.n, pc.io, level[pc.io]);
        case Send =>
          var e := Event(pc.io, info[pc.io].value.ty, info[pc.io].value.press);
          waiting, emitted := waiting + [e], emitted + [e];
          pc := Reported(pc.n, pc.io, pc.high);
        case Delay =>
          if pc.n + 1 < ROUNDS {
            pc := Poll(pc.n + 1, 0);
          } else {
            pc, finished := Parked, finished + 1;
          }
          rounds := rounds + 1;
      }
    }

    /** The assignment to the key's fields that ends status_judge. */
    method StoreKey(k: Key)
      requires Enabled(View(), Update) && k == Judge(info[pc.io].value, pc.high)
      modifies this, info
      ensures View() == Next(old(View()), Update) && turns == old(turns)
    {
      var io := pc.io;
      info[io] := Some(k);
      samples := samples[io := samples[io] + [pc.high]];
      pc := Poll(pc.n, io + 1);
    }

    /** A turn of the rest of the system: each of `acts` that can happen does. */
    method Others(acts: seq<Action>, all: bool)
      requires Inv(View())
      modifies this, info
      ensures Inv(View()) && Grows(old(View()), View()) && (!all ==> Apart(old(View()), View()))
      ensures View() == Turn(old(View()), acts, all) && turns == old(turns) + 1
    {
      for i := 0 to |acts|
        invariant Inv(View()) && Grows(old(View()), View()) && (!all ==> Apart(old(View()), View()))
        invariant Turn(View(), acts[i..], all) == Turn(old(View()), acts, all) && turns == old(turns)
      {
        assert acts[i..][1..] == acts[i + 1..];
        if May(View(), acts[i], all) {
          ghost var was := View();
          Advance(acts[i]);
          GrowsOn(old(View()), was, View());
        }
      }
      turns := turns + 1;
    }

    /** Any step that is possible, with keys added in time. */
    method Advance(a: Action)
      requires Inv(View()) && Enabled(View(), a) && InTime(View(), a)
      modifies this, info
      ensures Inv(View()) && Grows(old(View()), View()) && (Outside(a) ==> Apart(old(View()), View()))
      ensures View() == Next(old(View()), a) && turns == old(turns)
    {
      StepKeepsInv(View(), a);
      StepGrows(View(), a);
      if Outside(a) {
        OutsideIsApart(View(), a);
        OutsideStep(a);
      } else if a.Update? {
        StoreKey(Judge(info[pc.io].value, pc.high));
      } else {
        TaskStep(a);
      }
    }

    /** Any preemption point: the others may take a turn. */
    method Preempt(others: seq<seq<Action>>) returns (rest: seq<seq<Action>>)
      requires Inv(View())
      modifies this, info
      ensures Inv(View()) && Grows(old(View()), View()) && Apart(old(View()), View())
      ensures rest == if others == [] then [] else others[1..]
      ensures View() == if others == [] then old(View()) else Turn(old(View()), others[0], false)
      ensures turns + |rest| == old(turns) + |others|
    {
      rest := others;
      if rest != [] {
        Others(rest[0], false);
        rest := rest[1..];
      }
    }

    /** Blocks until `w` holds, for at most `patience` turns of the others; `k` turns pass. */
    method Block(w: Wait, patience: nat, others: seq<seq<Action>>, all: bool)
      returns (rest: seq<seq<Action>>, ghost k: nat)
      requires Inv(View())
      modifies this, info
      ensures Inv(View()) && Grows(old(View()), View()) && (!all ==> Apart(old(View()), View()))
      ensures Waits(old(View()), others, k, all, w, patience)
      ensures rest == others[k..] && View() == Turns(old(View()), others, k, all)
      ensures turns + |rest| == old(turns) + |others|
    {
      rest := others;
      var waited := 0;
      while !Ready(View(), w) && waited < patience && rest != []
        invariant Inv(View()) && Grows(old(View()), View()) && (!all ==> Apart(old(View()), View()))
        invariant waited <= |others| && waited <= patience && rest == others[waited..]
        invariant View() == Turns(old(View()), others, waited, all) && turns == old(turns) + waited
        invariant forall j :: 0 <= j < waited ==> !Ready(Turns(old(View()), others, j, all), w)
        decreases |rest|
      {
        ghost var was := View();
        Others(rest[0], all);
        GrowsOn(old(View()), was, View());
        rest := rest[1..];
        waited := waited + 1;
      }
      k := waited;
    }

    /** std_wait_event: the oldest event, or nothing when none came in time. Here the task itself
        is among the others. */
    method WaitEvent(patience: nat, others: seq<seq<Action>>)
      returns (e: Option<Event>, rest: seq<seq<Action>>, ghost k: nat)
      requires Inv(View())
      modifies this, info
      ensures Inv(View()) && Waits(old(View()), others, k, true, ForEvent, patience) && rest == others[k..]
      ensures var s := Turns(old(View()), others, k, true);
              if s.waiting == [] then e == None && View() == s
              else
                && e == Some(s.waiting[0]) && waiting == s.waiting[1..]
                && consumed == s.consumed + [s.waiting[0]] && emitted == s.emitted
    {
      rest, k := Block(ForEvent, patience, others, true);
      e := None;
      if waiting != [] {
        e := Some(waiting[0]);
        Advance(Consume);
      }
    }

    /** xQueueSend blocks while the event queue is full. */
    method AwaitRoom(others: seq<seq<Action>>) returns (ok: bool, rest: seq<seq<Action>>, ghost k: nat)
      requires Inv(View())
      modifies this, info
      ensures Inv(View()) && Grows(old(View()), View()) && Apart(old(View()), View())
      ensures Waits(old(View()), others, k, false, ForRoom, |others|)
      ensures rest == others[k..] && View() == Turns(old(View()), others, k, false)
      ensures (ok <==> |waiting| < 5) && (!ok ==> rest == [])
      ensures turns + |rest| == old(turns) + |others| && (others == [] ==> token == old(token))
    {
      rest, k := Block(ForRoom, |others|, others, false);
      ok := |waiting| < QUEUE_SIZE;
    }

    method SendEvent()
      requires Inv(View()) && Enabled(View(), Send)
      modifies this
      ensures Inv(View()) && View() == Next(old(View()), Send) && Grows(old(View()), View())
      ensures turns == old(turns)
    {
      StepKeepsInv(View(), Send);
      StepGrows(View(), Send);
      TaskStep(Send);
    }

    /** press_time_handle: an event goes out exactly when the press outlasted the shake time, as
        soon as the event queue has room. */
    method PressTimeHandle(others: seq<seq<Action>>) returns (ok: bool, rest: seq<seq<Action>>)
      requires Inv(View()) && pc.Sampled? && pc.high && info[pc.io].value.status == Press
      modifies this, info
      ensures Inv(View()) && Grows(old(View()), View())
      ensures rounds == old(rounds) && started == old(started) && finished == old(finished)
      ensures var io := old(pc).io; info[io] == old(info[io]) && samples[io] == old(samples[io])
      ensures ok ==> Enabled(View(), Update) && pc.n == old(pc).n && pc.io == old(pc).io && pc.high
      ensures var k := old(info[pc.io]).value;
              if ok && k.press > k.shake then emitted == old(emitted) + [Event(old(pc).io, k.ty, k.press)]
              else emitted == old(emitted)
      ensures !ok ==> AwaitsRoom(View()) && rest == []
      ensures turns + |rest| == old(turns) + |others| && |rest| <= |others|
      ensures others == [] ==> token == old(token)
    {
      rest, ok := others, true;
      var k := info[pc.io].value;
      if k.press > k.shake {
        ghost var k;
        ok, rest, k := AwaitRoom(others);
        if ok {
          ghost var was := View();
          SendEvent();
          GrowsOn(old(View()), was, View());
        }
      }
    }

    method UpdateKey(k: Key)
      requires Inv(View()) && Enabled(View(), Update) && k == Judge(info[pc.io].value, pc.high)
      modifies this, info
      ensures Inv(View()) && View() == Next(old(View()), Update) && Grows(old(View()), View())
      ensures turns == old(turns)
    {
      StepKeepsInv(View(), Update);
      StepGrows(View(), Update);
      StoreKey(k);
    }

    /** The switch of status_judge on the sample in hand. */
    method JudgeSample(others: seq<seq<Action>>) returns (ok: bool, rest: seq<seq<Action>>)
      requires Inv(View()) && pc.Sampled?
      modifies this, info
      ensures Inv(View()) && Grows(old(View()), View())
      ensures rounds == old(rounds) && started == old(started) && finished == old(finished)
      ensures ok ==> pc == Poll(old(pc).n, old(pc).io + 1)
      ensures ok ==> Judged(old(View()), View(), old(pc).io, old(pc).high)
      ensures !ok ==> AwaitsRoom(View()) && rest == []
      ensures turns + |rest| == old(turns) + |others| && |rest| <= |others|
      ensures others == [] ==> token == old(token)
    {
      ok, rest := true, others;
      var k := info[pc.io].value;
      match k.status {
        case Press =>
          if !pc.high {
            UpdateKey(k.(press := (k.press + CHECK_PEROID_MS) % TWO_32));
          } else {
            ok, rest := PressTimeHandle(rest);
            if ok {
              ghost var was := View();
              UpdateKey(k.(status := Release));
              GrowsOn(old(View()), was, View());
            }
          }
        case Release =>
          UpdateKey(if !pc.high then k.(status := Press, press := 0) else k);
      }
    }

    /** status_judge on the key in turn: it sees the level its pin has now, and what it sends and
        becomes is what its machine says, whatever the others do meanwhile. */
    method StatusJudge(others: seq<seq<Action>>) returns (ok: bool, rest: seq<seq<Action>>)
      requires Inv(View()) && Enabled(View(), Sample)
      modifies this, info
      ensures Inv(View()) && Grows(old(View()), View())
      ensures rounds == old(rounds) && started == old(started) && finished == old(finished)
      ensures ok ==> pc == Poll(old(pc).n, old(pc).io + 1)
      ensures ok ==> Judged(old(View()), View(), old(pc).io, old(level[pc.io]))
      ensures !ok ==> AwaitsRoom(View()) && rest == []
      ensures turns + |rest| == old(turns) + |others| && |rest| <= |others|
      ensures others == [] ==> token == old(token)
    {
      TakeSample();
      ghost var was := View();
      rest := Preempt(others);
      GrowsOn(old(View()), was, View());
      was := View();
      ok, rest := JudgeSample(rest);
      GrowsOn(old(View()), was, View());
    }

    method TakeSample()
      requires Inv(View()) && Enabled(View(), Sample)
      modifies this
      ensures Inv(View()) && View() == Next(old(View()), Sample) && Grows(old(View()), View())
      ensures turns == old(turns)
    {
      StepKeepsInv(View(), Sample);
      StepGrows(View(), Sample);
      TaskStep(Sample);
    }

    /** The body of the inner loop: pin `pc.io` in turn. */
    method LookAt(others: seq<seq<Action>>) returns (ok: bool, rest: seq<seq<Action>>)
      requires Inv(View()) && pc.Poll? && pc.io < MAX_IO
      modifies this, info
      ensures Inv(View()) && Grows(old(View()), View())
      ensures rounds == old(rounds) && started == old(started) && finished == old(finished)
      ensures ok ==> pc == Poll(old(pc).n, old(pc).io + 1)
      ensures !ok ==> AwaitsRoom(View()) && rest == []
      ensures turns + |rest| == old(turns) + |others| && |rest| <= |others|
      ensures others == [] ==> token == old(token)
      ensures others != [] ==> |rest| < |others|
    {
      ok := true;
      rest := Preempt(others);
      ghost var was := View();
      if info[pc.io].Some? {
        ok, rest := StatusJudge(rest);
      } else {
        StepKeepsInv(View(), Skip);
        StepGrows(View(), Skip);
        TaskStep(Skip);
      }
      GrowsOn(old(View()), was, View());
    }

    /** vTaskDelay, and the loop counter of the window. */
    method EndRound(others: seq<seq<Action>>) returns (rest: seq<seq<Action>>)
      requires Inv(View()) && Enabled(View(), Delay)
      modifies this, info
      ensures Inv(View()) && Grows(old(View()), View())
      ensures rounds == old(rounds) + 1 && started == old(started)
      ensures if old(pc).n + 1 < ROUNDS then pc == Poll(old(pc).n + 1, 0) && finished == old(finished)
              else pc == Parked && finished == old(finished) + 1
      ensures turns + |rest| == old(turns) + |others| && |rest| <= |others|
      ensures others == [] ==> token == old(token)
    {
      rest := Preempt(others);
      ghost var was := View();
      StepKeepsInv(was, Delay);
      StepGrows(was, Delay);
      TaskStep(Delay);
      GrowsOn(old(View()), was, View());
    }

    /** One round: the inner loop and the delay. Every key registered when it begins is shown one
        sample. */
    method Round(others: seq<seq<Action>>) returns (ok: bool, rest: seq<seq<Action>>)
      requires Inv(View()) && pc.Poll? && pc.io == 0
      modifies this, info
      ensures Inv(View()) && Grows(old(View()), View())
      ensures started == old(started)
      ensures ok ==> ShownMore(old(View()), View(), 1)
      ensures ok ==> if old(pc).n + 1 < ROUNDS then pc == Poll(old(pc).n + 1, 0) && finished == old(finished)
                     else pc == Parked && finished == old(finished) + 1
      ensures !ok ==> AwaitsRoom(View()) && rest == []
      ensures turns + |rest| == old(turns) + |others| && |rest| <= |others|
      ensures others == [] ==> token == old(token)
      ensures others != [] ==> |rest| < |others|
    {
      ok, rest := LookAt(others);
      while ok && pc.io < MAX_IO
        invariant Inv(View()) && Grows(old(View()), View())
        invariant rounds == old(rounds) && started == old(started) && finished == old(finished)
        invariant if ok then pc.Poll? && pc.n == old(pc).n && pc.io <= MAX_IO else AwaitsRoom(View()) && rest == []
        invariant turns + |rest| == old(turns) + |others| && |rest| <= |others|
        invariant others == [] ==> token == old(token)
        invariant others != [] ==> |rest| < |others|
        decreases ok, if ok then MAX_IO - pc.io else 0
      {
        ghost var was := View();
        ok, rest := LookAt(rest);
        GrowsOn(old(View()), was, View());
      }
      if ok {
        ghost var was := View();
        rest := EndRound(rest);
        GrowsOn(old(View()), was, View());
        RoundsShow(old(View()), View());
      }
    }

    /** One polling window of loop_task, begun by taking the semaphore: 166 rounds, each showing
        every key one sample, however the others run meanwhile. It ends early only when the
        schedule does with the event queue full. */
    method Window(others: seq<seq<Action>>) returns (ok: bool, rest: seq<seq<Action>>)
      requires Inv(View()) && Enabled(View(), Wake)
      modifies this, info
      ensures Inv(View()) && Grows(old(View()), View())
      ensures ok ==> pc.Parked? && finished == old(finished) + 1 && ShownMore(old(View()), View(), 166)
      ensures !ok ==> AwaitsRoom(View()) && rest == []
      ensures turns + |rest| == old(turns) + |others| && |rest| <= |others|
      ensures others == [] ==> !token
      ensures others != [] ==> |rest| < |others|
    {
      StepKeepsInv(View(), Wake);
      StepGrows(View(), Wake);
      TaskStep(Wake);
      ghost var was := View();
      ok, rest := Round(others);
      GrowsOn(old(View()), was, View());
      while ok && !pc.Parked?
        invariant Inv(View()) && Grows(old(View()), View())
        invariant ok ==> AtRoundStart(pc) && finished == old(finished) + (if pc.Parked? then 1 else 0)
        invariant !ok ==> AwaitsRoom(View()) && rest == []
        invariant turns + |rest| == old(turns) + |others| && |rest| <= |others|
        invariant others == [] ==> !token
        invariant others != [] ==> |rest| < |others|
        decreases ok, if pc.Poll? then ROUNDS - pc.n else 0
      {
        was := View();
        ok, rest := Round(rest);
        GrowsOn(old(View()), was, View());
      }
      if ok {
        RoundsShow(old(View()), View());
      }
    }

    /**
     loop_task under any schedule of edges, interrupts, consumers and keys added in time, until the
     schedule is used up and the task waits: for the semaphore, or for room in the event queue.
     */
    method LoopTask(others: seq<seq<Action>>)
      requires Inv(View()) && pc.Parked?
      modifies this, info
      ensures Inv(View()) && Grows(old(View()), View())
      ensures (pc.Parked? && !token) || AwaitsRoom(View())
      ensures turns == old(turns) + |others|
      ensures Asleep(View()) ==> AllRight(View())
      ensures pc.Parked? ==> AllReported(View())
    {
      var ok, rest := true, others;
      while ok && (token || rest != [])
        invariant Inv(View()) && Grows(old(View()), View())
        invariant if ok then pc.Parked? else AwaitsRoom(View()) && rest == []
        invariant turns + |rest| == old(turns) + |others|
        decreases ok, |rest|, token
      {
        ghost var was := View();
        if token {
          ok, rest := Window(rest);
        } else {
          ghost var k;
          rest, k := Block(ForToken, |rest|, rest, false);
        }
        GrowsOn(old(View()), was, View());
      }
      if ok {
        ParkedReportsAll(View());
        if !interrupt {
          AgreementAsleep(View());
        }
      }
    }
  }
}
