/**
 std_reboot.c: a counter in non-volatile storage that every boot increments and, five seconds
 later, zeroes; a boot that finds it too high erases the whole store and restarts. Power may go
 at any point, and the application may erase the store (std_reset) while the task runs.
 */
module Reboot {
  import opened Common

  const KEY_REBOOT := "std_reboot"

  /** One durable integer per key: a save or an erase happens whole or not at all. */
  type Store = map<string, int>

  const TWO_31 := 0x8000_0000

  /** The value of an int that has been incremented `n` times from 0. */
  function Int32(n: int): (v: int)
    ensures -TWO_31 <= v < TWO_31 && (n - v) % 0x1_0000_0000 == 0
  {
    (n + TWO_31) % TWO_32 - TWO_31
  }

  /** Where reboot_check_task stands. `Loaded` holds the value read, `Saved` the value written. */
  datatype Pc =
    | Off
    | Started
    | Found
    | Missing
    | Loaded(times: int)
    | Saved(times: int)
    | Resetting
    | Erased
    | Waiting
    | Done

  datatype State = State(
    store: Store,
    pc: Pc,
    boots: nat,     // boots started
    resets: nat,    // erases that a boot's counter caused
    since: nat)     // increments saved since a zero was last written

  datatype Action =
    | PowerOn
    | Test
    | Load(garbage: int)
    | Save
    | Decide
    | Erase
    | Zero
    | PowerCut
    | AppErase
    | AppSave(key: string, value: int)

  predicate Enabled(s: State, a: Action) {
    match a
    case PowerOn => s.pc.Off?
    case Test => s.pc.Started?
    case Load(_) => s.pc.Found?
    case Save => s.pc.Loaded? || s.pc.Missing?
    case Decide => s.pc.Saved?
    case Erase => s.pc.Resetting?
    case Zero => s.pc.Waiting?
    case PowerCut => !s.pc.Off?
    case AppErase => !s.pc.Off?
    case AppSave(key, _) => !s.pc.Off? && key != KEY_REBOOT
  }

  function Next(s: State, a: Action): State
    requires Enabled(s, a)
  {
    match a
    case PowerOn => s.(pc := Started, boots := s.boots + 1)
    case Test => s.(pc := if KEY_REBOOT in s.store then Found else Missing)
    case Load(garbage) =>
      // the result of std_nvs_load is not looked at: when the key is gone, `times` is whatever
      // the stack held
      s.(pc := Loaded(if KEY_REBOOT in s.store then s.store[KEY_REBOOT] else garbage))
    case Save =>
      if s.pc.Missing? then s.(store := s.store[KEY_REBOOT := 0], pc := Done, since := 0)
      else
        var times := Int32(s.pc.times + 1);
        s.(store := s.store[KEY_REBOOT := times], pc := Saved(times), since := s.since + 1)
    case Decide => s.(pc := if s.pc.times == 0 || s.pc.times == 1 || s.pc.times == 2 then Waiting else Resetting)
    case Erase => s.(store := map[], pc := Erased, resets := s.resets + 1)
    case Zero => s.(store := s.store[KEY_REBOOT := 0], pc := Done, since := 0)
    case PowerCut => s.(pc := Off)
    case AppErase => s.(store := map[])
    case AppSave(key, value) => s.(store := s.store[key := value])
  }

  /** What is demanded of the application. A gap erase is one that falls between the task's
      existence test and its load; a funded one comes when the boots already started pay for
      one more reset. */
  datatype Rule = Unrestricted | NoGapErase | FundedGapErase

  predicate Obeys(s: State, a: Action, rule: Rule) {
    a.AppErase? && s.pc.Found? ==>
      match rule
      case Unrestricted => true
      case NoGapErase => false
      case FundedGapErase => 4 * (s.resets + 1) <= s.boots
  }

  const BLANK := State(map[], Off, 0, 0, 0)

  ghost predicate IsRun(s: State, acts: seq<Action>, rule: Rule)
    decreases acts
  {
    acts == [] ||
    (Enabled(s, acts[0]) && Obeys(s, acts[0], rule) && IsRun(Next(s, acts[0]), acts[1..], rule))
  }

  /** Where `acts` lead; a step that cannot happen ends them. */
  ghost function Final(s: State, acts: seq<Action>): State
    decreases acts
  {
    if acts == [] || !Enabled(s, acts[0]) then s else Final(Next(s, acts[0]), acts[1..])
  }

  // ---------------------------------------------------------------- what the counter counts

  /** The stored counter is the number of increments saved since a zero was last written. */
  ghost predicate CounterRight(s: State) {
    KEY_REBOOT in s.store ==> s.store[KEY_REBOOT] == Int32(s.since)
  }

  ghost predicate Counting(s: State) {
    && CounterRight(s)
    && match s.pc
       case Found => KEY_REBOOT in s.store
       case Loaded(times) => times == Int32(s.since)
       case Saved(times) => times == Int32(s.since) && s.since > 0
       case Resetting => Int32(s.since) !in {0, 1, 2}
       case Waiting => Int32(s.since) in {0, 1, 2}
       case _ => true
  }

  lemma Int32Step(n: int)
    ensures Int32(Int32(n) + 1) == Int32(n + 1)
  {
    var m := n + TWO_31;
    var q, r := m / TWO_32, m % TWO_32;
    assert Int32(n) + 1 + TWO_31 == r + 1;
    var q', r' := (r + 1) / TWO_32, (r + 1) % TWO_32;
    assert m + 1 == (q + q') * TWO_32 + r';
  }

  lemma StepKeepsCounting(s: State, a: Action)
    requires Counting(s) && Enabled(s, a) && Obeys(s, a, NoGapErase)
    ensures Counting(Next(s, a))
  {
    Int32Step(s.since);
    assert Int32(0) == 0;
  }

  lemma {:induction false} RunKeepsCounting(s: State, acts: seq<Action>)
    requires Counting(s) && IsRun(s, acts, NoGapErase)
    ensures Counting(Final(s, acts))
    decreases acts
  {
    if acts != [] {
      StepKeepsCounting(s, acts[0]);
      RunKeepsCounting(Next(s, acts[0]), acts[1..]);
    }
  }

  // ---------------------------------------------------------------- the amortised bound

  /** Boots a stored value has cost since the last erase, at least. */
  function Cost(times: int): nat {
    if times == 0 then 1 else if times == 1 then 2 else if times == 2 then 3 else 4
  }

  function StoredCost(store: Store): nat {
    if KEY_REBOOT in store then Cost(store[KEY_REBOOT]) else 0
  }

  /** Four boots are paid for every reset, and the counter's value is paid as well; a boot that
      has not saved yet has one more to spend. With its key gone, a boot about to load may find
      any value on its stack, so a whole reset must be paid. */
  ghost predicate Paid(s: State) {
    && 4 * s.resets + StoredCost(s.store) <= s.boots
    && match s.pc
       case Started => 4 * s.resets + StoredCost(s.store) + 1 <= s.boots
       case Found => 4 * s.resets + (if KEY_REBOOT in s.store then StoredCost(s.store) + 1 else 4) <= s.boots
       case Missing => 4 * s.resets + 1 <= s.boots
       case Loaded(times) => 4 * s.resets + CostSaved(times) <= s.boots
       case Saved(times) => 4 * s.resets + Cost(times) <= s.boots
       case Resetting => 4 * s.resets + 4 <= s.boots
       case Waiting => 4 * s.resets + 1 <= s.boots
       case _ => true
  }

  /** What the value loaded will cost at most once it is incremented and saved. */
  function CostSaved(times: int): nat {
    if Cost(times) + 1 < 4 then Cost(times) + 1 else 4
  }

  lemma StepKeepsPaid(s: State, a: Action)
    requires Paid(s) && Enabled(s, a) && Obeys(s, a, FundedGapErase)
    ensures Paid(Next(s, a))
  {
    if s.pc.Loaded? {
      assert Cost(Int32(s.pc.times + 1)) <= CostSaved(s.pc.times);
    }
  }

  lemma {:induction false} RunKeepsPaid(s: State, acts: seq<Action>, rule: Rule)
    requires Paid(s) && IsRun(s, acts, rule) && rule != Unrestricted
    ensures Paid(Final(s, acts))
    decreases acts
  {
    if acts != [] {
      StepKeepsPaid(s, acts[0]);
      RunKeepsPaid(Next(s, acts[0]), acts[1..], rule);
    }
  }

  ghost predicate Inv(s: State) {
    Counting(s) && Paid(s)
  }

  // ---------------------------------------------------------------- the counts, from the steps

  function PowerOns(acts: seq<Action>): nat
    decreases acts
  {
    if acts == [] then 0 else (if acts[0].PowerOn? then 1 else 0) + PowerOns(acts[1..])
  }

  function Erases(acts: seq<Action>): nat
    decreases acts
  {
    if acts == [] then 0 else (if acts[0].Erase? then 1 else 0) + Erases(acts[1..])
  }

  /** Increments saved since a zero was last written, `n` of them before `acts`: a save is an
      increment when the same boot has loaded before it, and writes a zero when it has not. */
  function Increments(acts: seq<Action>, loaded: bool, n: nat): nat
    decreases acts
  {
    if acts == [] then n
    else
      match acts[0]
      case PowerOn => Increments(acts[1..], false, n)
      case Load(_) => Increments(acts[1..], true, n)
      case Save => Increments(acts[1..], false, if loaded then n + 1 else 0)
      case Zero => Increments(acts[1..], loaded, 0)
      case _ => Increments(acts[1..], loaded, n)
  }

  lemma {:induction false} CountsComeFromSteps(s: State, acts: seq<Action>)
    requires IsRun(s, acts, Unrestricted)
    ensures Final(s, acts).boots == s.boots + PowerOns(acts)
    ensures Final(s, acts).resets == s.resets + Erases(acts)
    decreases acts
  {
    if acts != [] {
      CountsComeFromSteps(Next(s, acts[0]), acts[1..]);
    }
  }

  lemma {:induction false} SinceComesFromSteps(s: State, acts: seq<Action>, loaded: bool)
    requires IsRun(s, acts, Unrestricted)
    requires (s.pc.Loaded? ==> loaded) && (s.pc.Started? || s.pc.Found? || s.pc.Missing? ==> !loaded)
    ensures Final(s, acts).since == Increments(acts, loaded, s.since)
    decreases acts
  {
    if acts != [] {
      var loadedNow := match acts[0]
                       case PowerOn | Save => false
                       case Load(_) => true
                       case _ => loaded;
      SinceComesFromSteps(Next(s, acts[0]), acts[1..], loadedNow);
    }
  }

  lemma {:induction false} RunLoosens(s: State, acts: seq<Action>, rule: Rule)
    requires IsRun(s, acts, rule)
    ensures IsRun(s, acts, Unrestricted)
    decreases acts
  {
    if acts != [] {
      RunLoosens(Next(s, acts[0]), acts[1..], rule);
    }
  }

  // ---------------------------------------------------------------- main results

  lemma BlankInv()
    ensures Inv(BLANK)
  {
  }

  /** From blank storage, with power cut anywhere and the application saving other keys and
      erasing the store at any time, between test and load only when one more reset is paid for:
      at least four boots for every reset the counter causes. */
  lemma FourBootsForEveryReset(acts: seq<Action>)
    requires IsRun(BLANK, acts, FundedGapErase)
    ensures 4 * Erases(acts) <= PowerOns(acts)
  {
    BlankInv();
    RunKeepsPaid(BLANK, acts, FundedGapErase);
    RunLoosens(BLANK, acts, FundedGapErase);
    CountsComeFromSteps(BLANK, acts);
  }

  /** With no erase between test and load, a stored counter is the number of increments saved
      since a zero was last written. */
  lemma CounterCountsBoots(acts: seq<Action>)
    requires IsRun(BLANK, acts, NoGapErase)
    ensures var store := Final(BLANK, acts).store;
            KEY_REBOOT in store ==> store[KEY_REBOOT] == Int32(Increments(acts, false, 0))
  {
    BlankInv();
    RunKeepsCounting(BLANK, acts);
    RunLoosens(BLANK, acts, NoGapErase);
    SinceComesFromSteps(BLANK, acts, false);
  }

  /** Whether the last thing that happened to the counter's key was an erase; `was` for none. */
  function Wiped(acts: seq<Action>, was: bool): bool
    decreases acts
  {
    if acts == [] then was
    else
      Wiped(acts[1..], match acts[0]
                       case Erase | AppErase => true
                       case Save | Zero => false
                       case _ => was)
  }

  /** The counter is absent exactly while nothing was written under its key since an erase, or
      ever. */
  lemma {:induction false} AbsentExactlyWhenWiped(s: State, acts: seq<Action>)
    requires IsRun(s, acts, Unrestricted)
    ensures KEY_REBOOT !in Final(s, acts).store <==> Wiped(acts, KEY_REBOOT !in s.store)
    decreases acts
  {
    if acts != [] {
      AbsentExactlyWhenWiped(Next(s, acts[0]), acts[1..]);
    }
  }

  /** A boot that has saved its increment goes on to erase everything exactly when the count is at
      least 3, whether it reached 3 in this boot or in an earlier one that was cut short. */
  lemma ResetsExactlyFromThree(acts: seq<Action>)
    requires IsRun(BLANK, acts, NoGapErase)
    requires Final(BLANK, acts).pc.Saved? && Increments(acts, false, 0) < TWO_32
    ensures Next(Final(BLANK, acts), Decide).pc ==
            if Increments(acts, false, 0) >= 3 then Resetting else Waiting
  {
    BlankInv();
    RunKeepsCounting(BLANK, acts);
    RunLoosens(BLANK, acts, NoGapErase);
    SinceComesFromSteps(BLANK, acts, false);
    Int32IsExact(Final(BLANK, acts).since);
  }

  lemma Int32IsExact(n: nat)
    requires n < TWO_32
    ensures Int32(n) == if n < TWO_31 then n else n - TWO_32
  {
  }

  function Lookup(store: Store, key: string): Option<int> {
    if key in store then Some(store[key]) else None
  }

  /** What the application last saved under `key` and no erase has removed since; `was` is what
      the key held before. */
  function LastSaved(acts: seq<Action>, key: string, was: Option<int>): Option<int>
    decreases acts
  {
    if acts == [] then was
    else
      var now := match acts[0]
                 case Erase | AppErase => None
                 case AppSave(k, value) => if k == key then Some(value) else was
                 case _ => was;
      LastSaved(acts[1..], key, now)
  }

  /** Over any run, cuts and gap erases included, every other key holds what the application last
      saved under it, and nothing once anything was erased: the task never touches another key
      except by a reset. */
  lemma {:induction false} OtherKeysHoldTheLastSave(s: State, acts: seq<Action>, key: string)
    requires IsRun(s, acts, Unrestricted) && key != KEY_REBOOT
    ensures Lookup(Final(s, acts).store, key) == LastSaved(acts, key, Lookup(s.store, key))
    decreases acts
  {
    if acts != [] {
      OtherKeysHoldTheLastSave(Next(s, acts[0]), acts[1..], key);
    }
  }

  // ---------------------------------------------------------------- the bound is tight

  lemma Prepend(s: State, a: Action, acts: seq<Action>, rule: Rule)
    requires Enabled(s, a) && Obeys(s, a, rule) && IsRun(Next(s, a), acts, rule)
    ensures IsRun(s, [a] + acts, rule) && Final(s, [a] + acts) == Final(Next(s, a), acts)
  {
    assert ([a] + acts)[1..] == acts;
  }

  lemma {:induction false} Concat(s: State, xs: seq<Action>, ys: seq<Action>, rule: Rule)
    requires IsRun(s, xs, rule) && IsRun(Final(s, xs), ys, rule)
    ensures IsRun(s, xs + ys, rule) && Final(s, xs + ys) == Final(Final(s, xs), ys)
    decreases xs
  {
    if xs == [] {
      assert xs + ys == ys;
    } else {
      Concat(Next(s, xs[0]), xs[1..], ys, rule);
      assert (xs + ys)[1..] == xs[1..] + ys;
    }
  }

  /** `s'` can be reached from `s`. */
  ghost predicate Reaches(s: State, s': State) {
    exists acts :: IsRun(s, acts, NoGapErase) && Final(s, acts) == s'
  }

  lemma ReachesNext(s: State, s': State, a: Action)
    requires Reaches(s, s') && Enabled(s', a) && Obeys(s', a, NoGapErase)
    ensures Reaches(s, Next(s', a))
  {
    var acts :| IsRun(s, acts, NoGapErase) && Final(s, acts) == s';
    Prepend(s', a, [], NoGapErase);
    Concat(s, acts, [a], NoGapErase);
  }

  lemma ReachedKeepsInv(s: State, s': State)
    requires Inv(s) && Reaches(s, s')
    ensures Inv(s')
  {
    var acts :| IsRun(s, acts, NoGapErase) && Final(s, acts) == s';
    RunKeepsCounting(s, acts);
    RunKeepsPaid(s, acts, NoGapErase);
  }

  /** A boot on an empty store that is switched off at once. */
  lemma FirstBoot(s: State, rule: Rule) returns (acts: seq<Action>)
    requires s.pc.Off? && s.store == map[]
    ensures IsRun(s, acts, rule)
    ensures Final(s, acts) == State(map[KEY_REBOOT := 0], Off, s.boots + 1, s.resets, 0)
  {
    var s1 := Next(s, PowerOn);
    var s2 := Next(s1, Test);
    var s3 := Next(s2, Save);
    Prepend(s3, PowerCut, [], rule);
    Prepend(s2, Save, [PowerCut], rule);
    Prepend(s1, Test, [Save] + [PowerCut], rule);
    Prepend(s, PowerOn, [Test] + ([Save] + [PowerCut]), rule);
    acts := [PowerOn] + ([Test] + ([Save] + [PowerCut]));
  }

  /** A boot that is switched off right after its save. */
  lemma ShortBoot(s: State, n: nat) returns (acts: seq<Action>)
    requires s.pc.Off? && s.store == map[KEY_REBOOT := n] && s.since == n && n < 3
    ensures IsRun(s, acts, NoGapErase)
    ensures Final(s, acts) == State(map[KEY_REBOOT := n + 1], Off, s.boots + 1, s.resets, n + 1)
  {
    var s1 := Next(s, PowerOn);
    var s2 := Next(s1, Test);
    var s3 := Next(s2, Load(0));
    var s4 := Next(s3, Save);
    Prepend(s4, PowerCut, [], NoGapErase);
    Prepend(s3, Save, [PowerCut], NoGapErase);
    Prepend(s2, Load(0), [Save] + [PowerCut], NoGapErase);
    Prepend(s1, Test, [Load(0)] + ([Save] + [PowerCut]), NoGapErase);
    Prepend(s, PowerOn, [Test] + ([Load(0)] + ([Save] + [PowerCut])), NoGapErase);
    acts := [PowerOn] + ([Test] + ([Load(0)] + ([Save] + [PowerCut])));
  }

  /** A boot that finds 2 and runs on: it resets. */
  lemma ResettingBoot(s: State) returns (acts: seq<Action>)
    requires s.pc.Off? && s.store == map[KEY_REBOOT := 2] && s.since == 2
    ensures IsRun(s, acts, NoGapErase)
    ensures Final(s, acts) == State(map[], Off, s.boots + 1, s.resets + 1, 3)
  {
    var s1 := Next(s, PowerOn);
    var s2 := Next(s1, Test);
    var s3 := Next(s2, Load(0));
    var s4 := Next(s3, Save);
    var s5 := Next(s4, Decide);
    var s6 := Next(s5, Erase);
    Prepend(s6, PowerCut, [], NoGapErase);
    acts := [PowerCut];
    Prepend(s5, Erase, acts, NoGapErase);
    acts := [Erase] + acts;
    Prepend(s4, Decide, acts, NoGapErase);
    acts := [Decide] + acts;
    Prepend(s3, Save, acts, NoGapErase);
    acts := [Save] + acts;
    Prepend(s2, Load(0), acts, NoGapErase);
    acts := [Load(0)] + acts;
    Prepend(s1, Test, acts, NoGapErase);
    acts := [Test] + acts;
    Prepend(s, PowerOn, acts, NoGapErase);
    acts := [PowerOn] + acts;
  }

  lemma Cycle(s: State) returns (acts: seq<Action>)
    requires s.pc.Off? && s.store == map[]
    ensures IsRun(s, acts, NoGapErase)
    ensures Final(s, acts) == State(map[], Off, s.boots + 4, s.resets + 1, 3)
  {
    acts := FirstBoot(s, NoGapErase);
    var more := ShortBoot(Final(s, acts), 0);
    Concat(s, acts, more, NoGapErase);
    acts := acts + more;
    more := ShortBoot(Final(s, acts), 1);
    Concat(s, acts, more, NoGapErase);
    acts := acts + more;
    more := ResettingBoot(Final(s, acts));
    Concat(s, acts, more, NoGapErase);
    acts := acts + more;
  }

  /** Four is exact: for every `n` some run of exactly 4n boots resets n times. */
  lemma {:induction false} BoundIsTight(n: nat) returns (acts: seq<Action>)
    ensures IsRun(BLANK, acts, NoGapErase)
    ensures var s := Final(BLANK, acts);
            s.boots == 4 * n && s.resets == n && s.store == map[] && s.pc.Off?
  {
    if n == 0 {
      acts := [];
    } else {
      acts := BoundIsTight(n - 1);
      var more := Cycle(Final(BLANK, acts));
      Concat(BLANK, acts, more, NoGapErase);
      acts := acts + more;
    }
  }

  // ---------------------------------------------------------------- the assumption is exact

  /** The counter stays right however the run goes on. */
  ghost predicate StaysRight(s: State) {
    forall acts :: IsRun(s, acts, NoGapErase) ==> CounterRight(Final(s, acts))
  }

  lemma GarbageIsSaved(s: State) returns (acts: seq<Action>)
    requires s.pc.Found? && KEY_REBOOT !in s.store
    ensures IsRun(s, acts, NoGapErase) && !CounterRight(Final(s, acts))
  {
    var garbage := if Int32(s.since + 1) == 7 then 7 else 6;
    var s1 := Next(s, Load(garbage));
    Prepend(s1, Save, [], NoGapErase);
    Prepend(s, Load(garbage), [Save], NoGapErase);
    acts := [Load(garbage)] + [Save];
    assert Int32(7) == 7 && Int32(8) == 8;
  }

  /** The application may erase the store at any moment of the task without spoiling the counter,
      except between the existence test and the load, whose result the task does not look at. */
  lemma AppEraseIsHarmlessExactlyOutsideTestAndLoad(s: State)
    requires Counting(s) && !s.pc.Off?
    ensures StaysRight(Next(s, AppErase)) <==> !s.pc.Found?
  {
    var s' := Next(s, AppErase);
    if s.pc.Found? {
      var acts := GarbageIsSaved(s');
      assert !StaysRight(s');
    } else {
      StepKeepsCounting(s, AppErase);
      forall acts | IsRun(s', acts, NoGapErase)
        ensures CounterRight(Final(s', acts))
      {
        RunKeepsCounting(s', acts);
      }
    }
  }

  /** The bound holds however the run goes on. */
  ghost predicate StaysBounded(s: State, rule: Rule) {
    forall acts :: IsRun(s, acts, rule) ==> 4 * Final(s, acts).resets <= Final(s, acts).boots
  }

  /** A boot whose key was erased in the gap may load a garbage value, and reset in this very boot. */
  lemma GarbageResets(s: State, rule: Rule) returns (acts: seq<Action>)
    requires s.pc.Found? && KEY_REBOOT !in s.store
    ensures IsRun(s, acts, rule)
    ensures Final(s, acts).resets == s.resets + 1 && Final(s, acts).boots == s.boots
  {
    var s1 := Next(s, Load(6));
    var s2 := Next(s1, Save);
    var s3 := Next(s2, Decide);
    assert Int32(7) == 7;
    Prepend(s3, Erase, [], rule);
    Prepend(s2, Decide, [Erase], rule);
    Prepend(s1, Save, [Decide] + [Erase], rule);
    Prepend(s, Load(6), [Save] + ([Decide] + [Erase]), rule);
    acts := [Load(6)] + ([Save] + ([Decide] + [Erase]));
  }

  /** The application may erase the store without breaking the bound, now or later, if and only
      if it does not do so between test and load, or the boots already pay for one more reset. */
  lemma AppEraseKeepsTheBoundExactlyWhenFunded(s: State, rule: Rule)
    requires Paid(s) && !s.pc.Off? && rule != Unrestricted
    ensures StaysBounded(Next(s, AppErase), rule) <==> (s.pc.Found? ==> 4 * (s.resets + 1) <= s.boots)
  {
    var s' := Next(s, AppErase);
    if s.pc.Found? && 4 * (s.resets + 1) > s.boots {
      var acts := GarbageResets(s', rule);
      assert !StaysBounded(s', rule);
    } else {
      StepKeepsPaid(s, AppErase);
      forall acts | IsRun(s', acts, rule)
        ensures 4 * Final(s', acts).resets <= Final(s', acts).boots
      {
        RunKeepsPaid(s', acts, rule);
      }
    }
  }

  /** From blank storage, one erase in the gap of the second boot: a reset in only two boots. */
  lemma GapEraseBreaksTheBound() returns (acts: seq<Action>)
    ensures IsRun(BLANK, acts, Unrestricted)
    ensures Final(BLANK, acts).boots == 2 && Final(BLANK, acts).resets == 1
  {
    var first := FirstBoot(BLANK, Unrestricted);
    var s1 := Final(BLANK, first);
    var s2 := Next(s1, PowerOn);
    var s3 := Next(s2, Test);
    var s4 := Next(s3, AppErase);
    var rest := GarbageResets(s4, Unrestricted);
    Prepend(s3, AppErase, rest, Unrestricted);
    Prepend(s2, Test, [AppErase] + rest, Unrestricted);
    Prepend(s1, PowerOn, [Test] + ([AppErase] + rest), Unrestricted);
    rest := [PowerOn] + ([Test] + ([AppErase] + rest));
    Concat(BLANK, first, rest, Unrestricted);
    acts := first + rest;
  }

  // ---------------------------------------------------------------- the device

  class Device {
    var store: Store
    var pc: Pc
    var boots: nat
    var resets: nat
    var since: nat

    function View(): State
      reads this
    {
      State(store, pc, boots, resets, since)
    }

    constructor ()
      ensures View() == BLANK && Inv(View())
    {
      store, pc, boots, resets, since := map[], Off, 0, 0, 0;
    }

    /** std_nvs_save under the task's key. */
    method SaveTimes(times: int)
      modifies this`store
      ensures store == old(store)[KEY_REBOOT := times]
    {
      store := store[KEY_REBOOT := times];
    }

    /** std_nvs_erase(NULL). */
    method EraseAll()
      modifies this`store
      ensures store == map[]
    {
      store := map[];
    }

    /**
     One boot: reboot_check_task and, when it decides so, std_reset. `writes` durable operations
     get done before the power goes; the other keys are left alone unless everything is erased.
     Whatever happens is a run of the step machine above.
     */
    method Boot(writes: nat)
      requires Inv(View()) && pc.Off?
      modifies this
      ensures Inv(View()) && pc.Off?
      ensures Reaches(old(View()), View())
      ensures boots == old(boots) + 1
      ensures old(KEY_REBOOT !in store) ==>
                resets == old(resets) && store == if writes == 0 then old(store) else old(store)[KEY_REBOOT := 0]
      ensures old(KEY_REBOOT in store) && writes == 0 ==> resets == old(resets) && store == old(store)
      ensures old(KEY_REBOOT in store) && writes == 1 ==>
                resets == old(resets) && store == old(store)[KEY_REBOOT := Int32(old(since) + 1)]
      ensures old(KEY_REBOOT in store) && writes >= 2 ==>
                if Int32(old(since) + 1) in {0, 1, 2}
                then resets == old(resets) && store == old(store)[KEY_REBOOT := 0]
                else resets == old(resets) + 1 && store == map[]
    {
      ghost var was := View();
      assert IsRun(was, [], NoGapErase) && Final(was, []) == was;
      assert Reaches(was, was);
      boots := boots + 1;
      pc := Started;
      ReachesNext(was, was, PowerOn);
      if KEY_REBOOT in store {
        pc := Found;
        ReachesNext(was, View().(pc := Started), Test);
        BootFound(writes, was);
      } else {
        pc := Missing;
        ReachesNext(was, View().(pc := Started), Test);
        BootMissing(writes, was);
      }
      ReachedKeepsInv(was, View());
    }

    /** The branch of reboot_check_task for a counter that is absent: it is created as 0. */
    method BootMissing(writes: nat, ghost was: State)
      requires pc.Missing? && Reaches(was, View())
      modifies this
      ensures pc.Off? && Reaches(was, View()) && boots == old(boots) && resets == old(resets)
      ensures store == if writes == 0 then old(store) else old(store)[KEY_REBOOT := 0]
    {
      if writes > 0 {
        ghost var s := View();
        SaveTimes(0);
        since := 0;
        pc := Done;
        ReachesNext(was, s, Save);
      }
      ReachesNext(was, View(), PowerCut);
      pc := Off;
    }

    /** The branch of reboot_check_task for a counter that exists. */
    method BootFound(writes: nat, ghost was: State)
      requires Counting(View()) && pc.Found? && Reaches(was, View())
      modifies this
      ensures pc.Off? && Reaches(was, View()) && boots == old(boots)
      ensures writes == 0 ==> resets == old(resets) && store == old(store)
      ensures writes == 1 ==> resets == old(resets) && store == old(store)[KEY_REBOOT := Int32(old(since) + 1)]
      ensures writes >= 2 ==>
                if Int32(old(since) + 1) in {0, 1, 2}
                then resets == old(resets) && store == old(store)[KEY_REBOOT := 0]
                else resets == old(resets) + 1 && store == map[]
    {
      Int32Step(since);
      var times := store[KEY_REBOOT];
      ReachesNext(was, View(), Load(0));
      pc := Loaded(times);
      times := Int32(times + 1);
      if writes > 0 {
        SaveIncrement(times, was);
        if writes > 1 {
          AfterSave(was);
        }
      }
      ReachesNext(was, View(), PowerCut);
      pc := Off;
    }

    /** The increment and its save. */
    method SaveIncrement(times: int, ghost was: State)
      requires pc.Loaded? && times == Int32(pc.times + 1) && Reaches(was, View())
      modifies this
      ensures pc == Saved(times) && Reaches(was, View()) && boots == old(boots) && resets == old(resets)
      ensures store == old(store)[KEY_REBOOT := times]
    {
      ReachesNext(was, View(), Save);
      SaveTimes(times);
      since := since + 1;
      pc := Saved(times);
    }

    /** The switch of reboot_check_task: resets, or zeroes the counter after the delay. */
    method AfterSave(ghost was: State)
      requires pc.Saved? && Reaches(was, View())
      modifies this
      ensures !pc.Off? && Reaches(was, View()) && boots == old(boots)
      ensures if old(pc).times in {0, 1, 2}
              then resets == old(resets) && store == old(store)[KEY_REBOOT := 0]
              else resets == old(resets) + 1 && store == map[]
    {
      ReachesNext(was, View(), Decide);
      match pc.times {
        case 0 => pc := Waiting;
        case 1 => pc := Waiting;
        case 2 => pc := Waiting;
        case _ => pc := Resetting;
      }
      ghost var s := View();
      if pc.Resetting? {
        EraseAll();
        resets := resets + 1;
        pc := Erased;
        ReachesNext(was, s, Erase);
      } else {
        SaveTimes(0);
        since := 0;
        pc := Done;
        ReachesNext(was, s, Zero);
      }
    }

    /** A whole life of boots, each cut off after some number of durable operations. */
    method Life(cuts: seq<nat>)
      requires View() == BLANK
      modifies this
      ensures boots == |cuts| && 4 * resets <= |cuts|
      ensures KEY_REBOOT in store ==> store[KEY_REBOOT] == Int32(since)
    {
      BlankInv();
      for i := 0 to |cuts|
        invariant Inv(View()) && pc.Off? && boots == i
      {
        Boot(cuts[i]);
      }
    }
  }
}
