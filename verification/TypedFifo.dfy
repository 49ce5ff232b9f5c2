/**
 The read protocol that std_espnow.c and std_queue.c share: a bounded FIFO from which a reader
 peeks the head, compares its type, and pops in a third, separate step. A reader that asks for
 type 0 takes whatever comes first.

 A message carries the number of its arrival, which stands for the address of its allocation,
 so that "the same message" means more than "an equal one".
 */
module TypedFifo {
  import opened Common

  const ANY := 0

  datatype Msg<T> = Msg(id: nat, ty: int, body: T)

  /** Where a reader stands. `Stopped` is the assertion on the pop having failed. */
  datatype Pc<T> =
    | Idle
    | Looping
    | Peeked(m: Msg<T>)
    | Matched(m: Msg<T>)
    | Returned(peeked: Option<Msg<T>>, got: Option<Msg<T>>)
    | Stopped

  datatype Delivery<T> = Delivery(reader: nat, m: Msg<T>)

  /** `wanted[r]` is the type reader `r` asks for; a task that asks for several types at
      different times counts as several readers. */
  datatype State<T> = State(
    capacity: nat,
    wanted: seq<int>,
    queue: seq<Msg<T>>,
    readers: seq<Pc<T>>,
    accepted: seq<Msg<T>>,
    dropped: seq<Msg<T>>,
    delivered: seq<Delivery<T>>)

  datatype Action<T> =
    | Arrive(ty: int, body: T)
    | Call(r: nat)
    | Receive(r: nat)
    | Peek(r: nat)
    | TimeOut(r: nat)
    | Test(r: nat)
    | Pop(r: nat)
    | Finish(r: nat)

  function Actor<T>(a: Action<T>): Option<nat> {
    if a.Arrive? then None else Some(a.r)
  }

  predicate Enabled<T>(s: State<T>, a: Action<T>) {
    |s.readers| == |s.wanted| &&
    match a
    case Arrive(_, _) => true
    case Call(r) => r < |s.readers| && s.readers[r].Idle?
    case Receive(r) => r < |s.readers| && s.readers[r].Looping? && s.wanted[r] == ANY && s.queue != []
    case Peek(r) => r < |s.readers| && s.readers[r].Looping? && s.wanted[r] != ANY && s.queue != []
    case TimeOut(r) => r < |s.readers| && s.readers[r].Looping? && s.queue == []
    case Test(r) => r < |s.readers| && s.readers[r].Peeked?
    case Pop(r) => r < |s.readers| && s.readers[r].Matched?
    case Finish(r) => r < |s.readers| && s.readers[r].Returned?
  }

  function Next<T>(s: State<T>, a: Action<T>): State<T>
    requires Enabled(s, a)
  {
    match a
    case Arrive(ty, body) =>
      var m := Msg(|s.accepted| + |s.dropped|, ty, body);
      if |s.queue| < s.capacity
      then s.(queue := s.queue + [m], accepted := s.accepted + [m])
      else s.(dropped := s.dropped + [m])
    case Call(r) => s.(readers := s.readers[r := Looping])
    case Receive(r) =>
      s.(readers := s.readers[r := Returned(None, Some(s.queue[0]))],
         queue := s.queue[1..],
         delivered := s.delivered + [Delivery(r, s.queue[0])])
    case Peek(r) => s.(readers := s.readers[r := Peeked(s.queue[0])])
    case TimeOut(r) => s.(readers := s.readers[r := Returned(None, None)])
    case Test(r) =>
      var m := s.readers[r].m;
      s.(readers := s.readers[r := if m.ty == s.wanted[r] then Matched(m) else Looping])
    case Pop(r) =>
      if s.queue == [] then s.(readers := s.readers[r := Stopped])
      else
        s.(readers := s.readers[r := Returned(Some(s.readers[r].m), Some(s.queue[0]))],
           queue := s.queue[1..],
           delivered := s.delivered + [Delivery(r, s.queue[0])])
    case Finish(r) => s.(readers := s.readers[r := Idle])
  }

  function Init<T>(capacity: nat, wanted: seq<int>): State<T> {
    State(capacity, wanted, [], seq(|wanted|, i => Idle), [], [], [])
  }

  ghost predicate IsRun<T>(s: State<T>, acts: seq<Action<T>>)
    decreases acts
  {
    acts == [] || (Enabled(s, acts[0]) && IsRun(Next(s, acts[0]), acts[1..]))
  }

  ghost function Final<T>(s: State<T>, acts: seq<Action<T>>): State<T>
    requires IsRun(s, acts)
    decreases acts
  {
    if acts == [] then s else Final(Next(s, acts[0]), acts[1..])
  }

  ghost function Messages<T>(ds: seq<Delivery<T>>): (ms: seq<Msg<T>>)
    ensures |ms| == |ds|
  {
    seq(|ds|, i requires 0 <= i < |ds| => ds[i].m)
  }

  // ---------------------------------------------------------------- conservation, for all readers

  ghost predicate Conserved<T>(s: State<T>) {
    && |s.readers| == |s.wanted|
    && |s.queue| <= s.capacity
    && s.accepted == Messages(s.delivered) + s.queue
    && Numbered(s.accepted, s.dropped)
  }

  /** Every arrival has its own number, growing in the order of acceptance. */
  ghost predicate Numbered<T>(accepted: seq<Msg<T>>, dropped: seq<Msg<T>>) {
    && (forall i :: 0 <= i < |accepted| ==> accepted[i].id < |accepted| + |dropped|)
    && (forall i :: 0 <= i < |dropped| ==> dropped[i].id < |accepted| + |dropped|)
    && (forall i, j :: 0 <= i < j < |accepted| ==> accepted[i].id < accepted[j].id)
    && (forall i, j :: 0 <= i < |accepted| && 0 <= j < |dropped| ==> accepted[i].id != dropped[j].id)
  }

  lemma DeliverHead<T>(ds: seq<Delivery<T>>, queue: seq<Msg<T>>, r: nat)
    requires queue != []
    ensures Messages(ds + [Delivery(r, queue[0])]) + queue[1..] == Messages(ds) + queue
  {
    assert Messages(ds + [Delivery(r, queue[0])]) == Messages(ds) + [queue[0]];
  }

  lemma NextNumber<T>(accepted: seq<Msg<T>>, dropped: seq<Msg<T>>, m: Msg<T>)
    requires Numbered(accepted, dropped) && m.id == |accepted| + |dropped|
    ensures Numbered(accepted + [m], dropped) && Numbered(accepted, dropped + [m])
  {
  }

  lemma ArriveConserves<T>(s: State<T>, ty: int, body: T)
    requires Conserved(s)
    ensures Conserved(Next(s, Arrive(ty, body)))
  {
    var m := Msg(|s.accepted| + |s.dropped|, ty, body);
    var s' := Next(s, Arrive(ty, body));
    assert Numbered(s.accepted + [m], s.dropped) && Numbered(s.accepted, s.dropped + [m]) by {
      NextNumber(s.accepted, s.dropped, m);
    }
    if |s.queue| < s.capacity {
      assert s'.accepted == Messages(s'.delivered) + s'.queue by {
        Associative(Messages(s.delivered), s.queue, [m]);
      }
    }
  }

  lemma StepConserves<T>(s: State<T>, a: Action<T>)
    requires Conserved(s) && Enabled(s, a)
    ensures Conserved(Next(s, a))
  {
    if a.Arrive? {
      ArriveConserves(s, a.ty, a.body);
    } else {
      var s' := Next(s, a);
      assert s'.accepted == s.accepted && s'.dropped == s.dropped;
      if (a.Receive? || a.Pop?) && s.queue != [] {
        DeliverHead(s.delivered, s.queue, a.r);
      }
    }
  }

  lemma {:induction false} RunConserves<T>(s: State<T>, acts: seq<Action<T>>)
    requires Conserved(s) && IsRun(s, acts)
    ensures Conserved(Final(s, acts))
    decreases acts
  {
    if acts != [] {
      StepConserves(s, acts[0]);
      RunConserves(Next(s, acts[0]), acts[1..]);
    }
  }

  /** The messages a full queue refused, too, are numbered in order. */
  ghost predicate Rising<T>(ms: seq<Msg<T>>) {
    forall i, j :: 0 <= i < j < |ms| ==> ms[i].id < ms[j].id
  }

  lemma RiseByOne<T>(ms: seq<Msg<T>>, m: Msg<T>)
    requires Rising(ms) && forall i :: 0 <= i < |ms| ==> ms[i].id < m.id
    ensures Rising(ms + [m])
  {
  }

  lemma StepKeepsDropped<T>(s: State<T>, a: Action<T>)
    requires Numbered(s.accepted, s.dropped) && Rising(s.dropped) && Enabled(s, a)
    ensures Rising(Next(s, a).dropped)
  {
    if a.Arrive? {
      RiseByOne(s.dropped, Msg(|s.accepted| + |s.dropped|, a.ty, a.body));
    } else {
      assert Next(s, a).dropped == s.dropped;
    }
  }

  lemma {:induction false} RunKeepsDropped<T>(s: State<T>, acts: seq<Action<T>>)
    requires Conserved(s) && Rising(s.dropped) && IsRun(s, acts)
    ensures Rising(Final(s, acts).dropped)
    decreases acts
  {
    if acts != [] {
      StepConserves(s, acts[0]);
      StepKeepsDropped(s, acts[0]);
      RunKeepsDropped(Next(s, acts[0]), acts[1..]);
    }
  }

  /** Whoever reads: the messages accepted are those delivered, in order, and then those still
      queued; none is delivered twice, and none the full queue refused is ever delivered. */
  lemma NothingLostNothingTwice<T>(capacity: nat, wanted: seq<int>, acts: seq<Action<T>>)
    requires IsRun(Init(capacity, wanted), acts)
    ensures var s := Final(Init(capacity, wanted), acts);
            && s.accepted == Messages(s.delivered) + s.queue
            && |s.queue| <= capacity
            && (forall i, j :: 0 <= i < j < |s.delivered| ==> s.delivered[i].m.id < s.delivered[j].m.id)
            && (forall i, j :: 0 <= i < |s.delivered| && 0 <= j < |s.dropped| ==>
                  s.delivered[i].m.id != s.dropped[j].id)
  {
    RunConserves(Init(capacity, wanted), acts);
    var s := Final(Init(capacity, wanted), acts);
    RunKeepsTable(Init(capacity, wanted), acts);
    assert forall i :: 0 <= i < |s.delivered| ==> s.accepted[i] == s.delivered[i].m;
  }

  lemma {:induction false} RunKeepsTable<T>(s: State<T>, acts: seq<Action<T>>)
    requires IsRun(s, acts)
    ensures Final(s, acts).wanted == s.wanted && Final(s, acts).capacity == s.capacity
    decreases acts
  {
    if acts != [] {
      RunKeepsTable(Next(s, acts[0]), acts[1..]);
    }
  }

  // ---------------------------------------------------------------- exactness of the pop

  /** No typed reader shares the queue with another reader of its type or with a take-any reader. */
  predicate Exclusive(wanted: seq<int>) {
    forall i, j :: 0 <= i < |wanted| && 0 <= j < |wanted| && i != j && wanted[i] != ANY ==>
      wanted[j] != ANY && wanted[j] != wanted[i]
  }

  /** No pop failed, and each took the very message its reader had peeked and type-tested. */
  ghost predicate Clean<T>(s: State<T>) {
    && |s.readers| == |s.wanted|
    && forall r :: 0 <= r < |s.readers| ==>
      && !s.readers[r].Stopped?
      && (s.readers[r].Returned? && s.wanted[r] != ANY ==>
            && s.readers[r].got == s.readers[r].peeked
            && (s.readers[r].got.Some? ==> s.readers[r].got.value.ty == s.wanted[r]))
  }

  ghost predicate AtHead<T>(s: State<T>, m: Msg<T>) {
    s.queue != [] && s.queue[0] == m
  }

  /** A peeked message of the reader's own type is still the head, until the reader pops it. */
  ghost predicate Held<T>(s: State<T>) {
    && |s.readers| == |s.wanted|
    && (forall r :: 0 <= r < |s.readers| ==>
          match s.readers[r]
          case Peeked(m) => s.wanted[r] != ANY && (m.ty == s.wanted[r] ==> AtHead(s, m))
          case Matched(m) => s.wanted[r] != ANY && m.ty == s.wanted[r] && AtHead(s, m)
          case _ => true)
    && (forall i :: 0 <= i < |s.delivered| ==>
          && s.delivered[i].reader < |s.wanted|
          && (s.wanted[s.delivered[i].reader] != ANY ==> s.delivered[i].m.ty == s.wanted[s.delivered[i].reader]))
  }

  lemma StepKeepsHeld<T>(s: State<T>, a: Action<T>)
    requires Exclusive(s.wanted) && Held(s) && Clean(s) && Enabled(s, a)
    ensures Held(Next(s, a)) && Clean(Next(s, a))
  {
  }

  lemma {:induction false} RunKeepsHeld<T>(s: State<T>, acts: seq<Action<T>>)
    requires Exclusive(s.wanted) && Held(s) && Clean(s) && IsRun(s, acts)
    ensures Held(Final(s, acts)) && Clean(Final(s, acts))
    decreases acts
  {
    if acts != [] {
      StepKeepsHeld(s, acts[0]);
      RunKeepsHeld(Next(s, acts[0]), acts[1..]);
    }
  }

  lemma Prepend<T>(s: State<T>, a: Action<T>, acts: seq<Action<T>>)
    requires Enabled(s, a) && IsRun(Next(s, a), acts)
    ensures IsRun(s, [a] + acts)
    ensures Final(s, [a] + acts) == Final(Next(s, a), acts)
  {
    assert ([a] + acts)[1..] == acts;
  }

  /** Reader `j` empties a one-message queue whose only message is of a type it takes. */
  lemma OtherTakes<T>(s: State<T>, j: nat) returns (acts: seq<Action<T>>, s': State<T>)
    requires |s.readers| == |s.wanted| && j < |s.readers| && s.readers[j].Idle?
    requires |s.queue| == 1 && (s.wanted[j] == ANY || s.queue[0].ty == s.wanted[j])
    ensures IsRun(s, acts) && Final(s, acts) == s'
    ensures s'.queue == [] && s'.wanted == s.wanted && |s'.readers| == |s.readers|
    ensures forall r :: 0 <= r < |s.readers| && r != j ==> s'.readers[r] == s.readers[r]
  {
    var s1 := Next(s, Call(j));
    if s.wanted[j] == ANY {
      s' := Next(s1, Receive(j));
      Prepend(s1, Receive(j), []);
      acts := [Receive(j)];
    } else {
      var s2 := Next(s1, Peek(j));
      var s3 := Next(s2, Test(j));
      s' := Next(s3, Pop(j));
      Prepend(s3, Pop(j), []);
      Prepend(s2, Test(j), [Pop(j)]);
      acts := [Test(j)] + [Pop(j)];
      Prepend(s1, Peek(j), acts);
      acts := [Peek(j)] + acts;
    }
    Prepend(s, Call(j), acts);
    acts := [Call(j)] + acts;
  }

  /** One message of type `ty` arrives and the idle typed reader `i` peeks it. */
  lemma ArriveAndPeek<T>(capacity: nat, wanted: seq<int>, i: nat, ty: int, body: T)
    returns (acts: seq<Action<T>>, s': State<T>)
    requires capacity >= 1 && i < |wanted| && wanted[i] != ANY
    ensures IsRun(Init(capacity, wanted), acts) && Final(Init(capacity, wanted), acts) == s'
    ensures s'.wanted == wanted && |s'.readers| == |wanted|
    ensures s'.queue == [Msg(0, ty, body)] && s'.readers[i] == Peeked(Msg(0, ty, body))
    ensures forall r :: 0 <= r < |wanted| && r != i ==> s'.readers[r].Idle?
  {
    var s0 := Init<T>(capacity, wanted);
    var s1 := Next(s0, Arrive(ty, body));
    var s2 := Next(s1, Call(i));
    s' := Next(s2, Peek(i));
    acts := [Peek(i)];
    Prepend(s2, Peek(i), []);
    Prepend(s1, Call(i), acts);
    acts := [Call(i)] + acts;
    Prepend(s0, Arrive(ty, body), acts);
    acts := [Arrive(ty, body)] + acts;
  }

  lemma Concat<T>(s: State<T>, xs: seq<Action<T>>, ys: seq<Action<T>>)
    requires IsRun(s, xs) && IsRun(Final(s, xs), ys)
    ensures IsRun(s, xs + ys) && Final(s, xs + ys) == Final(Final(s, xs), ys)
    decreases xs
  {
    if xs == [] {
      assert xs + ys == ys;
    } else {
      Concat(Next(s, xs[0]), xs[1..], ys);
      assert (xs + ys)[1..] == xs[1..] + ys;
    }
  }

  /** Two readers that both take type `wanted[i]`: one pops what the other has just matched. */
  lemma SharedTypeBreaks<T>(capacity: nat, wanted: seq<int>, i: nat, j: nat, body: T) returns (acts: seq<Action<T>>)
    requires capacity >= 1 && i < |wanted| && j < |wanted| && i != j
    requires wanted[i] != ANY && (wanted[j] == ANY || wanted[j] == wanted[i])
    ensures IsRun(Init(capacity, wanted), acts) && !Clean(Final(Init(capacity, wanted), acts))
  {
    var s0 := Init<T>(capacity, wanted);
    var xs, s1 := ArriveAndPeek(capacity, wanted, i, wanted[i], body);
    var s2 := Next(s1, Test(i));
    Prepend(s1, Test(i), []);
    Concat(s0, xs, [Test(i)]);
    var ys, s3 := OtherTakes(s2, j);
    Concat(s0, xs + [Test(i)], ys);
    var s4 := Next(s3, Pop(i));
    Prepend(s3, Pop(i), []);
    assert s4.readers[i].Stopped?;
    acts := xs + [Test(i)] + ys + [Pop(i)];
    Concat(s0, xs + [Test(i)] + ys, [Pop(i)]);
  }

  /** The pop after a matching peek removes the peeked message in every run, and its assertion
      never fails, if and only if the table of readers is exclusive. */
  lemma PopIsExactExactlyWhenExclusive<T(!new)>(capacity: nat, wanted: seq<int>, body: T)
    requires capacity >= 1
    ensures (forall acts: seq<Action<T>> :: IsRun(Init(capacity, wanted), acts) ==>
               Clean(Final(Init(capacity, wanted), acts)))
            <==> Exclusive(wanted)
  {
    if Exclusive(wanted) {
      forall acts: seq<Action<T>> | IsRun(Init(capacity, wanted), acts)
        ensures Clean(Final(Init(capacity, wanted), acts))
      {
        RunKeepsHeld(Init(capacity, wanted), acts);
      }
    } else {
      var i, j :| 0 <= i < |wanted| && 0 <= j < |wanted| && i != j && wanted[i] != ANY
                  && !(wanted[j] != ANY && wanted[j] != wanted[i]);
      var acts := SharedTypeBreaks(capacity, wanted, i, j, body);
    }
  }

  // ---------------------------------------------------------------- the type test

  /** Every message a reader still has to type-test is in the queue, not with another reader. */
  ghost predicate TestsQueued<T>(s: State<T>) {
    forall r :: 0 <= r < |s.readers| && s.readers[r].Peeked? ==> s.readers[r].m in s.queue
  }

  /** A typed reader has the queue to itself. */
  predicate Alone(wanted: seq<int>) {
    |wanted| <= 1 || forall i :: 0 <= i < |wanted| ==> wanted[i] == ANY
  }

  lemma {:induction false} AloneTestsQueued<T>(s: State<T>, acts: seq<Action<T>>)
    requires Alone(s.wanted) && Held(s) && IsRun(s, acts) && Clean(s)
    requires forall r :: 0 <= r < |s.readers| && s.readers[r].Peeked? ==> AtHead(s, s.readers[r].m)
    ensures TestsQueued(Final(s, acts))
    decreases acts
  {
    if acts != [] {
      StepKeepsHeld(s, acts[0]);
      AloneTestsQueued(Next(s, acts[0]), acts[1..]);
    }
  }

  lemma SecondReaderTakesPeeked<T>(capacity: nat, wanted: seq<int>, i: nat, j: nat, body: T)
    returns (acts: seq<Action<T>>)
    requires capacity >= 1 && i < |wanted| && j < |wanted| && i != j && wanted[i] != ANY
    ensures IsRun(Init(capacity, wanted), acts) && !TestsQueued(Final(Init(capacity, wanted), acts))
  {
    var xs, s1 := ArriveAndPeek(capacity, wanted, i, wanted[j], body);
    var ys, s2 := OtherTakes(s1, j);
    Concat(Init(capacity, wanted), xs, ys);
    acts := xs + ys;
    assert s2.readers[i].Peeked?;
  }

  /** The type test reads a message that is still queued, in every run, if and only if no typed
      reader has company. Exclusive types alone do not give this: the owner of the peeked
      message's type may take it, and release it, before the test. */
  lemma TypeTestIsOfQueuedMessageExactlyWhenAlone<T(!new)>(capacity: nat, wanted: seq<int>, body: T)
    requires capacity >= 1
    ensures (forall acts: seq<Action<T>> :: IsRun(Init(capacity, wanted), acts) ==>
               TestsQueued(Final(Init(capacity, wanted), acts)))
            <==> Alone(wanted)
  {
    if Alone(wanted) {
      forall acts: seq<Action<T>> | IsRun(Init(capacity, wanted), acts)
        ensures TestsQueued(Final(Init(capacity, wanted), acts))
      {
        AloneTestsQueued(Init(capacity, wanted), acts);
      }
    } else {
      var i :| 0 <= i < |wanted| && wanted[i] != ANY;
      var j := if i == 0 then 1 else 0;
      var acts := SecondReaderTakesPeeked(capacity, wanted, i, j, body);
    }
  }

  // ---------------------------------------------------------------- what each reader gets

  ghost function TakenBy<T>(ds: seq<Delivery<T>>, r: nat): seq<Msg<T>> {
    if ds == [] then []
    else TakenBy(ds[..|ds| - 1], r) + (if ds[|ds| - 1].reader == r then [ds[|ds| - 1].m] else [])
  }

  ghost function OfType<T>(ms: seq<Msg<T>>, ty: int): seq<Msg<T>> {
    if ms == [] then []
    else OfType(ms[..|ms| - 1], ty) + (if ms[|ms| - 1].ty == ty then [ms[|ms| - 1]] else [])
  }

  lemma {:induction false} TakenIsOfType<T>(ds: seq<Delivery<T>>, ms: seq<Msg<T>>, r: nat, wanted: seq<int>)
    requires |ds| == |ms| && r < |wanted| && wanted[r] != ANY && Exclusive(wanted)
    requires forall i :: 0 <= i < |ds| ==>
      && ds[i].m == ms[i] && ds[i].reader < |wanted|
      && (wanted[ds[i].reader] != ANY ==> ms[i].ty == wanted[ds[i].reader])
    ensures TakenBy(ds, r) == OfType(ms, wanted[r])
  {
    if ds != [] {
      TakenIsOfType(ds[..|ds| - 1], ms[..|ms| - 1], r, wanted);
    }
  }

  /** With an exclusive table, each typed reader gets exactly the messages of its type, in the
      order they were accepted, out of the prefix of the accepted stream taken so far. */
  lemma EachReaderGetsItsTypeInOrder<T>(capacity: nat, wanted: seq<int>, acts: seq<Action<T>>, r: nat)
    requires Exclusive(wanted) && r < |wanted| && wanted[r] != ANY
    requires IsRun(Init(capacity, wanted), acts)
    ensures var s := Final(Init(capacity, wanted), acts);
            && |s.delivered| <= |s.accepted|
            && TakenBy(s.delivered, r) == OfType(s.accepted[..|s.delivered|], wanted[r])
  {
    var s0 := Init<T>(capacity, wanted);
    RunConserves(s0, acts);
    RunKeepsHeld(s0, acts);
    RunKeepsTable(s0, acts);
    TakenOfAccepted(Final(s0, acts), r);
  }

  lemma TakenOfAccepted<T>(s: State<T>, r: nat)
    requires Exclusive(s.wanted) && r < |s.wanted| && s.wanted[r] != ANY && Held(s)
    requires s.accepted == Messages(s.delivered) + s.queue
    ensures TakenBy(s.delivered, r) == OfType(s.accepted[..|s.delivered|], s.wanted[r])
  {
    assert s.accepted[..|s.delivered|] == Messages(s.delivered);
    TakenIsOfType(s.delivered, Messages(s.delivered), r, s.wanted);
  }

  // ---------------------------------------------------------------- a head nobody takes

  /** Reader `r` takes messages of the head's type. */
  predicate Claims<T>(s: State<T>, r: nat)
    requires s.queue != [] && r < |s.wanted|
  {
    s.wanted[r] == ANY || s.wanted[r] == s.queue[0].ty
  }

  /** The next message handed out after `s` is its head. */
  ghost predicate HandsOut<T>(s: State<T>, s': State<T>) {
    s.queue != [] && |s'.delivered| > |s.delivered| && s'.delivered[|s.delivered|].m == s.queue[0]
  }

  /** No reader takes the head, or holds a match that would let it pop. */
  ghost predicate Blocked<T>(s: State<T>) {
    && |s.readers| == |s.wanted| && s.queue != []
    && forall r :: 0 <= r < |s.wanted| ==>
         && !Claims(s, r) && !s.readers[r].Matched?
         && (s.readers[r].Peeked? ==> s.readers[r].m.ty != s.wanted[r])
  }

  lemma StepKeepsBlocked<T>(s: State<T>, a: Action<T>)
    requires Blocked(s) && Enabled(s, a)
    ensures Blocked(Next(s, a))
    ensures Next(s, a).delivered == s.delivered && Next(s, a).queue[0] == s.queue[0]
  {
  }

  /** The head stays for ever, and nothing is handed out any more. */
  lemma {:induction false} BlockedForEver<T>(s: State<T>, acts: seq<Action<T>>)
    requires Blocked(s) && IsRun(s, acts)
    ensures Blocked(Final(s, acts))
    ensures Final(s, acts).delivered == s.delivered && Final(s, acts).queue[0] == s.queue[0]
    decreases acts
  {
    if acts != [] {
      StepKeepsBlocked(s, acts[0]);
      BlockedForEver(Next(s, acts[0]), acts[1..]);
    }
  }

  /** The step that brings reader `r` closer to taking the head. */
  function Toward<T>(s: State<T>, r: nat): Action<T>
    requires r < |s.readers| && r < |s.wanted|
  {
    match s.readers[r]
    case Looping => if s.wanted[r] == ANY then Receive(r) else Peek(r)
    case Peeked(_) => Test(r)
    case Matched(_) => Pop(r)
    case Returned(_, _) => Finish(r)
    case _ => Call(r)
  }

  function Distance<T>(s: State<T>, r: nat): nat
    requires r < |s.readers| && r < |s.wanted|
  {
    match s.readers[r]
    case Returned(_, _) => 6
    case Idle => 5
    case Looping => 4
    case Peeked(m) => if m.ty == s.wanted[r] then 3 else 5
    case Matched(_) => 2
    case Stopped => 0
  }

  lemma TowardHelps<T>(s: State<T>, r: nat)
    requires |s.readers| == |s.wanted| && s.queue != [] && r < |s.wanted| && Claims(s, r) && !s.readers[r].Stopped?
    ensures Enabled(s, Toward(s, r))
    ensures var s' := Next(s, Toward(s, r));
            || HandsOut(s, s')
            || (&& |s'.readers| == |s'.wanted| == |s.wanted|
                && s'.queue == s.queue && s'.delivered == s.delivered && s'.wanted == s.wanted
                && !s'.readers[r].Stopped? && Distance(s', r) < Distance(s, r))
  {
  }

  /** A reader that takes the head's type can go on, alone, until it has the head. */
  lemma {:induction false} ClaimerTakesHead<T>(s: State<T>, r: nat) returns (acts: seq<Action<T>>)
    requires |s.readers| == |s.wanted| && s.queue != [] && r < |s.wanted| && Claims(s, r) && !s.readers[r].Stopped?
    ensures IsRun(s, acts) && HandsOut(s, Final(s, acts)) && |acts| <= 6
    ensures |acts| <= Distance(s, r)
    ensures forall i :: 0 <= i < |acts| ==> Actor(acts[i]) == Some(r)
    decreases Distance(s, r)
  {
    var a := Toward(s, r);
    TowardHelps(s, r);
    acts := [];
    if !HandsOut(s, Next(s, a)) {
      acts := ClaimerTakesHead(Next(s, a), r);
    }
    Prepend(s, a, acts);
    acts := [a] + acts;
  }

  lemma HeldIsBlocked<T>(s: State<T>)
    requires Held(s) && s.queue != [] && forall r :: 0 <= r < |s.wanted| ==> !Claims(s, r)
    ensures Blocked(s)
  {
    forall r | 0 <= r < |s.wanted|
      ensures !s.readers[r].Matched? && (s.readers[r].Peeked? ==> s.readers[r].m.ty != s.wanted[r])
    {
      assert !Claims(s, r);
    }
  }

  /** Some reader takes messages of the head's type. */
  ghost predicate Claimed<T>(s: State<T>)
    requires s.queue != []
  {
    exists r :: 0 <= r < |s.wanted| && Claims(s, r)
  }

  /** Some continuation hands out the head. */
  ghost predicate Takeable<T(!new)>(s: State<T>) {
    exists more :: IsRun(s, more) && HandsOut(s, Final(s, more))
  }

  /** No continuation hands out anything, and the head stays. */
  ghost predicate StuckForEver<T(!new)>(s: State<T>)
    requires s.queue != []
  {
    forall more :: IsRun(s, more) ==>
      && Final(s, more).delivered == s.delivered
      && Final(s, more).queue != [] && Final(s, more).queue[0] == s.queue[0]
  }

  lemma TakeableExactlyWhenClaimed<T(!new)>(s: State<T>)
    requires Held(s) && Clean(s) && s.queue != []
    ensures Takeable(s) <==> Claimed(s)
    ensures !Claimed(s) ==> StuckForEver(s)
  {
    if Claimed(s) {
      var r :| 0 <= r < |s.wanted| && Claims(s, r);
      var more := ClaimerTakesHead(s, r);
    } else {
      HeldIsBlocked(s);
      forall more | IsRun(s, more)
        ensures Final(s, more).delivered == s.delivered
        ensures Final(s, more).queue != [] && Final(s, more).queue[0] == s.queue[0]
      {
        BlockedForEver(s, more);
      }
    }
  }

  /** In every run of an exclusive table: the head can still be handed out if and only if some
      reader takes its type. Otherwise it stays, and nothing is ever handed out again. */
  lemma HeadIsTakenExactlyWhenClaimed<T(!new)>(capacity: nat, wanted: seq<int>, acts: seq<Action<T>>)
    requires Exclusive(wanted) && IsRun(Init(capacity, wanted), acts)
    requires Final(Init(capacity, wanted), acts).queue != []
    ensures var s := Final(Init(capacity, wanted), acts);
            && s.wanted == wanted
            && (Takeable(s) <==> Claimed(s))
            && (!Claimed(s) ==> StuckForEver(s))
  {
    RunKeepsHeld(Init(capacity, wanted), acts);
    RunKeepsTable(Init(capacity, wanted), acts);
    TakeableExactlyWhenClaimed(Final(Init(capacity, wanted), acts));
  }

  // ---------------------------------------------------------------- the queue and its callers

  ghost predicate Inv<T>(s: State<T>) {
    Conserved(s) && (Exclusive(s.wanted) ==> Held(s) && Clean(s))
  }

  lemma StepKeepsInv<T>(s: State<T>, a: Action<T>)
    requires Inv(s) && Enabled(s, a)
    ensures Inv(Next(s, a))
  {
    StepConserves(s, a);
    if Exclusive(s.wanted) {
      StepKeepsHeld(s, a);
    }
  }

  /** What a call gives back: a message, NULL after a time-out, nothing because its assertion
      failed, or nothing yet because the schedule ended. */
  datatype Outcome<T> = Got(m: Msg<T>) | TimedOut | Halted | Pending

  /** A step that the rest of the system may make while reader `me` waits or is preempted. */
  predicate May<T>(s: State<T>, a: Action<T>, me: Option<nat>) {
    Enabled(s, a) && (Actor(a).None? || Actor(a) != me)
  }

  /** After a turn: of `acts`, in order, each that may happen has happened. */
  function Turn<T>(s: State<T>, acts: seq<Action<T>>, me: Option<nat>): State<T>
    decreases acts
  {
    if acts == [] then s else Turn(if May(s, acts[0], me) then Next(s, acts[0]) else s, acts[1..], me)
  }

  /** After the first `k` turns. */
  function Turns<T>(s: State<T>, others: seq<seq<Action<T>>>, k: nat, me: Option<nat>): State<T>
    requires k <= |others|
  {
    if k == 0 then s else Turn(Turns(s, others, k - 1, me), others[k - 1], me)
  }

  lemma TurnsGoOn<T>(s: State<T>, others: seq<seq<Action<T>>>, k: nat, a: Action<T>, me: Option<nat>)
    requires k < |others| && others[k] == [a] && May(Turns(s, others, k, me), a, me)
    ensures Turns(s, others, k + 1, me) == Next(Turns(s, others, k, me), a)
  {
    var now := Turns(s, others, k, me);
    assert Turn(now, [a], me) == Turn(Next(now, a), [a][1..], me);
  }

  /** What a call on a queue waits for. */
  datatype Wait = ForMessage | ForRoom

  predicate Ready<T>(s: State<T>, w: Wait) {
    match w
    case ForMessage => s.queue != []
    case ForRoom => |s.queue| < s.capacity
  }

  /** A wait of at most `patience` turns ends after `k` of them: at the first moment that it need
      not go on, or when its time or the schedule is over. */
  ghost predicate Waits<T>(s: State<T>, others: seq<seq<Action<T>>>, k: nat, me: Option<nat>, w: Wait, patience: nat) {
    && k <= |others| && k <= patience
    && (forall j :: 0 <= j < k ==> !Ready(Turns(s, others, j, me), w))
    && (Ready(Turns(s, others, k, me), w) || k == patience || k == |others|)
  }

  /** `patience` turns have passed, or all there were. */
  ghost predicate Exhausted<T>(others: seq<T>, rest: seq<T>, patience: nat) {
    rest == [] || |rest| + patience <= |others|
  }

  lemma OthersLeaveReader<T>(s: State<T>, a: Action<T>, me: Option<nat>)
    requires May(s, a, me) && (me.Some? ==> me.value < |s.readers|)
    ensures |Next(s, a).readers| == |s.readers|
    ensures me.Some? ==> Next(s, a).readers[me.value] == s.readers[me.value]
  {
  }

  class Fifo<T> {
    const capacity: nat
    const wanted: seq<int>
    var queue: seq<Msg<T>>
    var readers: seq<Pc<T>>
    var accepted: seq<Msg<T>>
    var dropped: seq<Msg<T>>
    var delivered: seq<Delivery<T>>
    ghost var turns: nat         // how many turns the rest of the system has had

    function View(): State<T>
      reads this
    {
      State(capacity, wanted, queue, readers, accepted, dropped, delivered)
    }

    constructor (capacity: nat, wanted: seq<int>)
      ensures View() == Init(capacity, wanted) && Inv(View())
    {
      this.capacity, this.wanted := capacity, wanted;
      queue, readers := [], seq(|wanted|, i => Idle);
      accepted, dropped, delivered := [], [], [];
      turns := 0;
    }

    /** One atomic step of a producer or a reader. */
    method Perform(a: Action<T>)
      requires Enabled(View(), a)
      modifies this
      ensures View() == Next(old(View()), a)
      ensures turns == old(turns)
    {
      match a {
        case Arrive(ty, body) =>
          var m := Msg(|accepted| + |dropped|, ty, body);
          if |queue| < capacity {
            queue := queue + [m];
            accepted := accepted + [m];
          } else {
            dropped := dropped + [m];
          }
        case Call(r) =>
          readers := readers[r := Looping];
        case Receive(r) =>
          readers := readers[r := Returned(None, Some(queue[0]))];
          delivered := delivered + [Delivery(r, queue[0])];
          queue := queue[1..];
        case Peek(r) =>
          readers := readers[r := Peeked(queue[0])];
        case TimeOut(r) =>
          readers := readers[r := Returned(None, None)];
        case Test(r) =>
          var m := readers[r].m;
          readers := readers[r := if m.ty == wanted[r] then Matched(m) else Looping];
        case Pop(r) =>
          if queue == [] {
            readers := readers[r := Stopped];
          } else {
            readers := readers[r := Returned(Some(readers[r].m), Some(queue[0]))];
            delivered := delivered + [Delivery(r, queue[0])];
            queue := queue[1..];
          }
        case Finish(r) =>
          readers := readers[r := Idle];
      }
    }

    /** A step keeps the invariant. */
    method Step(a: Action<T>)
      requires Inv(View()) && Enabled(View(), a)
      modifies this
      ensures Inv(View()) && View() == Next(old(View()), a)
      ensures turns == old(turns)
    {
      StepKeepsInv(View(), a);
      Perform(a);
    }

    /** The rest of the system runs: of `acts`, those that can happen, never a step of reader `me`. */
    method Others(me: Option<nat>, acts: seq<Action<T>>)
      requires Inv(View()) && (me.Some? ==> me.value < |readers|)
      modifies this
      ensures Inv(View()) && |readers| == old(|readers|)
      ensures me.Some? ==> readers[me.value] == old(readers[me.value])
      ensures View() == Turn(old(View()), acts, me)
      ensures turns == old(turns) + 1
    {
      for i := 0 to |acts|
        invariant Inv(View()) && |readers| == old(|readers|)
        invariant me.Some? ==> readers[me.value] == old(readers[me.value])
        invariant Turn(View(), acts[i..], me) == Turn(old(View()), acts, me) && turns == old(turns)
      {
        assert acts[i..][1..] == acts[i + 1..];
        if May(View(), acts[i], me) {
          OthersLeaveReader(View(), acts[i], me);
          Step(acts[i]);
        }
      }
      turns := turns + 1;
    }

    /** Blocks until `w` holds, for at most `patience` turns of the others; `k` turns pass. */
    method Block(me: Option<nat>, w: Wait, patience: nat, others: seq<seq<Action<T>>>)
      returns (rest: seq<seq<Action<T>>>, ghost k: nat)
      requires Inv(View()) && (me.Some? ==> me.value < |readers|)
      modifies this
      ensures Inv(View()) && |readers| == old(|readers|)
      ensures me.Some? ==> readers[me.value] == old(readers[me.value])
      ensures Waits(old(View()), others, k, me, w, patience)
      ensures rest == others[k..] && View() == Turns(old(View()), others, k, me)
      ensures turns + |rest| == old(turns) + |others|
    {
      rest := others;
      var waited := 0;
      while !Ready(View(), w) && waited < patience && rest != []
        invariant Inv(View()) && |readers| == old(|readers|)
        invariant me.Some? ==> readers[me.value] == old(readers[me.value])
        invariant waited <= |others| && waited <= patience && rest == others[waited..]
        invariant View() == Turns(old(View()), others, waited, me) && turns == old(turns) + waited
        invariant forall j :: 0 <= j < waited ==> !Ready(Turns(old(View()), others, j, me), w)
        decreases |rest|
      {
        Others(me, rest[0]);
        rest := rest[1..];
        waited := waited + 1;
      }
      k := waited;
    }

    /** Blocks while the queue is empty. */
    method AwaitMessage(r: nat, patience: nat, others: seq<seq<Action<T>>>)
      returns (rest: seq<seq<Action<T>>>, ghost k: nat)
      requires Inv(View()) && r < |readers|
      modifies this
      ensures Inv(View()) && |readers| == old(|readers|) && readers[r] == old(readers[r])
      ensures Waits(old(View()), others, k, Some(r), ForMessage, patience)
      ensures rest == others[k..] && View() == Turns(old(View()), others, k, Some(r))
      ensures queue == [] ==> Exhausted(others, rest, patience)
      ensures turns + |rest| == old(turns) + |others|
    {
      rest, k := Block(Some(r), ForMessage, patience, others);
    }

    /** Any preemption point: the others may take a turn. */
    method Preempt(r: nat, others: seq<seq<Action<T>>>) returns (rest: seq<seq<Action<T>>>)
      requires Inv(View()) && r < |readers|
      modifies this
      ensures Inv(View()) && |readers| == old(|readers|) && readers[r] == old(readers[r])
      ensures rest == if others == [] then [] else others[1..]
      ensures View() == if others == [] then old(View()) else Turn(old(View()), others[0], Some(r))
      ensures turns + |rest| == old(turns) + |others|
    {
      rest := others;
      if rest != [] {
        Others(Some(r), rest[0]);
        rest := rest[1..];
      }
    }

    /** One look: peek the head, let the others run, test the type. */
    method Look(r: nat, others: seq<seq<Action<T>>>) returns (rest: seq<seq<Action<T>>>)
      requires Inv(View()) && r < |readers| && readers[r].Looping? && wanted[r] != ANY && queue != []
      modifies this
      ensures Inv(View()) && |readers| == old(|readers|)
      ensures readers[r].Looping? || readers[r] == Matched(old(queue[0]))
      ensures readers[r].Matched? <==> old(queue[0]).ty == wanted[r]
      ensures others == [] ==> queue == old(queue) && delivered == old(delivered)
      ensures rest == if others == [] then [] else others[1..]
      ensures turns + |rest| == old(turns) + |others|
    {
      Step(Peek(r));
      rest := Preempt(r, others);
      Step(Test(r));
    }

    /** A take-any reader's receive. */
    method ReceiveAny(r: nat) returns (out: Outcome<T>)
      requires Inv(View()) && r < |readers| && readers[r].Looping? && wanted[r] == ANY
      modifies this
      ensures Inv(View()) && |readers| == old(|readers|)
      ensures if old(queue) == [] then out.TimedOut? && queue == []
              else out == Got(old(queue)[0]) && delivered == old(delivered) + [Delivery(r, out.m)]
      ensures turns == old(turns)
    {
      if queue == [] {
        Step(TimeOut(r));
        out := TimedOut;
      } else {
        out := Got(queue[0]);
        Step(Receive(r));
      }
    }

    /** The pop of line 83 (std_queue.c) and line 253 (std_espnow.c), with its assertion. */
    method PopMatched(r: nat) returns (out: Outcome<T>)
      requires Inv(View()) && r < |readers| && readers[r].Matched?
      modifies this
      ensures Inv(View()) && |readers| == old(|readers|)
      ensures out.Halted? || (out.Got? && delivered == old(delivered) + [Delivery(r, out.m)])
      ensures out.Halted? <==> old(queue) == []
      ensures old(queue) != [] ==> out == Got(old(queue)[0])
      ensures Exclusive(wanted) ==>
                && out == Got(old(readers[r].m)) && out.m.ty == wanted[r]
                && readers[r] == Returned(Some(out.m), Some(out.m))
      ensures turns == old(turns)
    {
      if queue == [] {
        out := Halted;
      } else {
        out := Got(queue[0]);
      }
      Step(Pop(r));
    }

    /** The loop of a typed reader: a head of another type costs a delay and another look. */
    method LookUntilMatched(r: nat, patience: nat, others: seq<seq<Action<T>>>) returns (rest: seq<seq<Action<T>>>)
      requires Inv(View()) && r < |readers| && readers[r].Looping? && wanted[r] != ANY
      modifies this
      ensures Inv(View()) && |readers| == old(|readers|)
      ensures readers[r].Matched? || (readers[r].Looping? && (queue == [] || rest == []))
      ensures others == [] ==> rest == [] && queue == old(queue) && delivered == old(delivered)
      ensures others == [] ==> (readers[r].Matched? <==> old(queue) != [] && old(queue)[0].ty == wanted[r])
      ensures |rest| <= |others|
      ensures old(queue) != [] && old(queue)[0].ty == wanted[r] ==> readers[r] == Matched(old(queue)[0])
      ensures if old(queue) == [] then readers[r].Looping? && queue == [] && rest == others
              else readers[r].Looping? && queue == [] ==> Exhausted(others, rest, patience)
      ensures turns + |rest| == old(turns) + |others|
    {
      rest := others;
      ghost var looked := false;
      while readers[r].Looping? && queue != []
        invariant Inv(View()) && |readers| == old(|readers|)
        invariant readers[r].Looping? || readers[r].Matched?
        invariant turns + |rest| == old(turns) + |others| && |rest| <= |others|
        invariant !looked ==> queue == old(queue) && rest == others && readers[r].Looping?
        invariant looked && readers[r].Looping? ==> queue == [] ==> Exhausted(others, rest, patience)
        invariant looked ==> old(queue) != []
        invariant looked && old(queue)[0].ty == wanted[r] ==> readers[r] == Matched(old(queue)[0])
        invariant others == [] ==> rest == [] && queue == old(queue) && delivered == old(delivered)
        invariant others == [] ==> (readers[r].Matched? ==> old(queue) != [] && old(queue)[0].ty == wanted[r])
        decreases |rest|, readers[r].Looping?
      {
        rest := Look(r, rest);
        looked := true;
        if readers[r].Looping? {
          if rest == [] { return; }
          rest := Preempt(r, rest);
          ghost var k;
          rest, k := AwaitMessage(r, patience, rest);
        }
      }
    }

    /** A typed reader's loop, and the pop of what it matched. */
    method ReceiveTyped(r: nat, patience: nat, others: seq<seq<Action<T>>>)
      returns (out: Outcome<T>, rest: seq<seq<Action<T>>>)
      requires Inv(View()) && r < |readers| && readers[r].Looping? && wanted[r] != ANY
      modifies this
      ensures Inv(View()) && |readers| == old(|readers|)
      ensures out.Got? ==> delivered != [] && delivered[|delivered| - 1] == Delivery(r, out.m)
      ensures out.TimedOut? ==> queue == []
      ensures Exclusive(wanted) ==> !out.Halted?
      ensures Exclusive(wanted) && out.Got? ==>
                out.m.ty == wanted[r] && readers[r] == Returned(Some(out.m), Some(out.m))
      ensures others == [] ==>
                out == if old(queue) == [] then TimedOut
                       else if old(queue)[0].ty == wanted[r] then Got(old(queue)[0])
                       else Pending
      ensures |rest| <= |others| && (out.Pending? ==> rest == [])
      ensures if old(queue) == [] then out == TimedOut && rest == others
              else out.TimedOut? ==> Exhausted(others, rest, patience)
      ensures Exclusive(wanted) && old(queue) != [] && old(queue)[0].ty == wanted[r] ==> out == Got(old(queue)[0])
      ensures turns + |rest| == old(turns) + |others|
    {
      rest := LookUntilMatched(r, patience, others);
      if readers[r].Matched? {
        rest := Preempt(r, rest);
        out := PopMatched(r);
      } else if queue == [] {
        Step(TimeOut(r));
        out := TimedOut;
      } else {
        out := Pending;
      }
    }

    /**
     std_queue_recv, and std_espnow_read, by reader `r`: a take-any reader receives; a typed
     reader peeks, tests, and either pops or delays and looks again, with the others running at
     every point where it waits or may be preempted. The first wait takes `k` turns: what is at
     the head then, if anything, settles a take-any read, and a typed read of that type.
     */
    method Recv(r: nat, patience: nat, others: seq<seq<Action<T>>>)
      returns (out: Outcome<T>, rest: seq<seq<Action<T>>>, ghost k: nat)
      requires Inv(View()) && r < |readers| && readers[r].Idle?
      modifies this
      ensures Inv(View()) && |readers| == old(|readers|)
      ensures out.Got? ==> delivered != [] && delivered[|delivered| - 1] == Delivery(r, out.m)
      ensures out.TimedOut? ==> queue == [] && Exhausted(others, rest, patience)
      ensures out.Pending? ==> rest == []
      ensures Exclusive(wanted) ==> !out.Halted?
      ensures Exclusive(wanted) && out.Got? && wanted[r] != ANY ==>
                out.m.ty == wanted[r] && readers[r] == Returned(Some(out.m), Some(out.m))
      ensures Waits(Next(old(View()), Call(r)), others, k, Some(r), ForMessage, patience)
      ensures var q := Turns(Next(old(View()), Call(r)), others, k, Some(r)).queue;
              && (q == [] ==> out == TimedOut)
              && (q != [] && wanted[r] == 0 ==> out == Got(q[0]))
              && (q != [] && wanted[r] == q[0].ty && Exclusive(wanted) ==> out == Got(q[0]))
      ensures others == [] ==>
                out == if old(queue) == [] then TimedOut
                       else if wanted[r] == 0 || old(queue)[0].ty == wanted[r] then Got(old(queue)[0])
                       else Pending
      ensures turns + |rest| == old(turns) + |others|
    {
      Step(Call(r));
      rest, k := AwaitMessage(r, patience, others);
      if wanted[r] == ANY {
        out := ReceiveAny(r);
        return;
      }
      out, rest := ReceiveTyped(r, patience, rest);
    }

    /** std_espnow_empty by a take-any reader: receives until a receive times out. At that moment
        every message ever accepted has been handed out. */
    method Empty(r: nat, patience: nat, others: seq<seq<Action<T>>>) returns (rest: seq<seq<Action<T>>>)
      requires Inv(View()) && r < |readers| && readers[r].Idle? && wanted[r] == ANY
      modifies this
      ensures Inv(View()) && |readers| == old(|readers|)
      ensures queue == [] && accepted == Messages(delivered)
      ensures readers[r] == Returned(None, None)
      ensures Exhausted(others, rest, patience)
      ensures turns + |rest| == old(turns) + |others|
    {
      rest := others;
      var done := false;
      while !done
        invariant Inv(View()) && |readers| == old(|readers|) && |rest| <= |others|
        invariant if done then readers[r] == Returned(None, None) && queue == [] else readers[r].Idle?
        invariant done ==> Exhausted(others, rest, patience)
        invariant turns + |rest| == old(turns) + |others|
        decreases !done, |rest|, |queue|
      {
        Step(Call(r));
        ghost var k;
        rest, k := AwaitMessage(r, patience, rest);
        if queue == [] {
          Step(TimeOut(r));
          done := true;
        } else {
          Step(Receive(r));
          Step(Finish(r));
        }
      }
    }

    /** xQueueSend without waiting. */
    method Offer(ty: int, body: T) returns (r: int)
      requires Inv(View())
      modifies this
      ensures Inv(View()) && View() == Next(old(View()), Arrive(ty, body))
      ensures r == if |old(queue)| < capacity then 0 else -1
      ensures r == 0 ==> accepted != [] && var m := accepted[|accepted| - 1];
                m.ty == ty && m.body == body && queue != [] && queue[|queue| - 1] == m
      ensures r == -1 ==> dropped != [] && var m := dropped[|dropped| - 1]; m.ty == ty && m.body == body
      ensures r == -1 ==> |queue| == capacity
      ensures turns == old(turns)
    {
      r := if |queue| < capacity then 0 else -1;
      Step(Arrive(ty, body));
    }

    /** std_queue_send: waits for room, `k` turns, then appends; 0 exactly when there was room. */
    method Send(ty: int, body: T, patience: nat, others: seq<seq<Action<T>>>)
      returns (r: int, rest: seq<seq<Action<T>>>, ghost k: nat)
      requires Inv(View())
      modifies this
      ensures Inv(View())
      ensures Waits(old(View()), others, k, None, ForRoom, patience) && rest == others[k..]
      ensures var s := Turns(old(View()), others, k, None);
              && r == (if |s.queue| < s.capacity then 0 else -1)
              && Enabled(s, Arrive(ty, body)) && View() == Next(s, Arrive(ty, body))
      ensures r == 0 ==> accepted != [] && var m := accepted[|accepted| - 1];
                m.ty == ty && m.body == body && queue != [] && queue[|queue| - 1] == m
      ensures r == -1 ==> dropped != [] && var m := dropped[|dropped| - 1]; m.ty == ty && m.body == body
      ensures r == -1 ==> |queue| == capacity && Exhausted(others, rest, patience)
      ensures turns + |rest| == old(turns) + |others|
    {
      rest, k := Block(None, ForRoom, patience, others);
      r := Offer(ty, body);
    }
  }
}
