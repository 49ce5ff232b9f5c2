/**
 What std_espnow.c puts in a frame and takes out of it: build_espnow_send on the sending side,
 espnow_recv_cb in front of the receive queue on the other.
 */
module EspnowFrames {
  import opened Common
  import EspnowSend
  import TypedFifo

  const ESPNOW_DEBUG := 2
  const ESPNOW_RLOG := 4
  const ESPNOW_NONE := 5
  const MAX_PACKET := 250
  const MAX_RECV_QUEEN := 3
  /** sizeof(espnow_send_t) on the 32-bit target: the peer pointer, the data pointer, the type
      byte padded to a word, and the length. */
  const SIZEOF_SEND := 16

  /** The body of a queued espnow_recv_t; its type is the type of the queued message. */
  datatype Packet = Packet(addr: Mac, channel: Byte, data: seq<Byte>)

  /** build_espnow_send, which stops at its assertion when the payload is too long. */
  method BuildSend(ty: Byte, peer: Option<Mac>, data: seq<Byte>) returns (r: Option<EspnowSend.Send>)
    requires |data| < 256
    ensures r.Some? <==> |data| <= 234
    ensures r.Some? ==> r.value.peer == peer && r.value.frame == [ty] + data && |r.value.frame| <= 250
  {
    if |data| > MAX_PACKET - SIZEOF_SEND {
      return None;
    }
    var buffer := new Byte[|data| + 1](_ => 0);
    buffer[0] := ty;
    for i := 0 to |data|
      invariant buffer[0] == ty
      invariant forall j :: 0 <= j < i ==> buffer[j + 1] == data[j]
    {
      buffer[i + 1] := data[i];
    }
    r := Some(EspnowSend.Send(peer, buffer[..]));
  }

  /** The filter of the receive callback: a log frame is printed and dropped even when its type
      is the selected one; a debug frame always passes. */
  predicate Passes(selected: Byte, frame: seq<Byte>): (passes: bool)
    requires frame != []
    ensures passes <==> frame[0] == 2 || (frame[0] != 4 && frame[0] == selected)
  {
    frame[0] != ESPNOW_RLOG && (frame[0] == ESPNOW_DEBUG || frame[0] == selected)
  }

  /** espnow_recv_cb. The queue is offered the message without waiting. */
  method RecvCb(fifo: TypedFifo.Fifo<Packet>, selected: Byte, src: Mac, channel: Byte, frame: seq<Byte>)
    requires TypedFifo.Inv(fifo.View()) && frame != []
    modifies fifo
    ensures TypedFifo.Inv(fifo.View())
    ensures fifo.View() ==
            if frame[0] == 2 || (frame[0] != 4 && frame[0] == selected)
            then TypedFifo.Next(old(fifo.View()), TypedFifo.Arrive(frame[0], Packet(src, channel, frame[1..])))
            else old(fifo.View())
  {
    if frame[0] == ESPNOW_RLOG {
      return;
    }
    if frame[0] != ESPNOW_DEBUG && frame[0] != selected {
      return;
    }
    ghost var k;
    var r, rest;
    r, rest, k := fifo.Send(frame[0], Packet(src, channel, frame[1..]), 0, []);
  }

  // ---------------------------------------------------------------- end to end

  /** A frame some station built with build_espnow_send, and the callback that delivers it here
      while the type `selected` is selected: std_espnow_select_type may change it between frames. */
  datatype Heard = Heard(src: Mac, channel: Byte, ty: Byte, data: seq<Byte>, selected: Byte)

  function Frame(h: Heard): (f: seq<Byte>)
    ensures f != []
  {
    [h.ty] + h.data
  }

  type Message = TypedFifo.Msg<Packet>

  /** What the callbacks for `heard` offer to the receive queue, numbered in order. */
  function Offered(heard: seq<Heard>): seq<Message> {
    if heard == [] then []
    else
      var before, h := Offered(heard[..|heard| - 1]), heard[|heard| - 1];
      before +
      (if Passes(h.selected, Frame(h))
       then [TypedFifo.Msg(|before|, Frame(h)[0] as int, Packet(h.src, h.channel, Frame(h)[1..]))]
       else [])
  }

  /** The messages that arrive in a run, numbered from `n`. */
  function Arrived<T>(n: nat, acts: seq<TypedFifo.Action<T>>): seq<TypedFifo.Msg<T>>
    decreases acts
  {
    if acts == [] then []
    else if acts[0].Arrive? then [TypedFifo.Msg(n, acts[0].ty, acts[0].body)] + Arrived(n + 1, acts[1..])
    else Arrived(n, acts[1..])
  }

  /** What was heard and passes the filter, in order. */
  function Passing(heard: seq<Heard>): seq<Heard> {
    if heard == [] then []
    else
      var h := heard[|heard| - 1];
      Passing(heard[..|heard| - 1]) +
      (if h.ty == 2 || (h.ty != 4 && h.ty == h.selected) then [h] else [])
  }

  /** `m` is passing frame number `m.id` with its type, sender, channel and payload. */
  ghost predicate Intact(m: Message, passing: seq<Heard>) {
    && m.id < |passing|
    && var h := passing[m.id];
       h.ty != 4 && m.ty == h.ty && m.body == Packet(h.src, h.channel, h.data)
  }

  lemma {:induction false} OfferedIsIntact(heard: seq<Heard>)
    ensures |Offered(heard)| == |Passing(heard)|
    ensures forall k :: 0 <= k < |Offered(heard)| ==>
              Offered(heard)[k].id == k && Intact(Offered(heard)[k], Passing(heard))
  {
    if heard != [] {
      OfferedIsIntact(heard[..|heard| - 1]);
      var h := heard[|heard| - 1];
      assert Frame(h)[1..] == h.data;
    }
  }

  type Messages<T> = seq<TypedFifo.Msg<T>>

  /** The messages accepted and the messages dropped are together those that arrived. */
  ghost predicate Split<T>(accepted: Messages<T>, dropped: Messages<T>, arrived: Messages<T>) {
    && |accepted| + |dropped| == |arrived|
    && multiset(accepted) + multiset(dropped) == multiset(arrived)
  }

  lemma SplitOneMore<T>(accepted: Messages<T>, dropped: Messages<T>, arrived: Messages<T>, m: TypedFifo.Msg<T>)
    requires Split(accepted, dropped, arrived)
    ensures Split(accepted + [m], dropped, arrived + [m]) && Split(accepted, dropped + [m], arrived + [m])
  {
  }

  lemma ArriveFrames<T>(s: TypedFifo.State<T>, ty: int, body: T)
    requires TypedFifo.Enabled(s, TypedFifo.Arrive(ty, body))
    ensures var s' := TypedFifo.Next(s, TypedFifo.Arrive(ty, body));
            var m := TypedFifo.Msg(|s.accepted| + |s.dropped|, ty, body);
            || (s'.accepted == s.accepted + [m] && s'.dropped == s.dropped)
            || (s'.accepted == s.accepted && s'.dropped == s.dropped + [m])
  {
  }

  lemma OtherStepFrames<T>(s: TypedFifo.State<T>, a: TypedFifo.Action<T>)
    requires TypedFifo.Enabled(s, a) && !a.Arrive?
    ensures TypedFifo.Next(s, a).accepted == s.accepted && TypedFifo.Next(s, a).dropped == s.dropped
  {
  }

  lemma ArrivedUnfolds<T>(acts: seq<TypedFifo.Action<T>>, before: Messages<T>)
    requires acts != []
    ensures var n, a := |before|, acts[0];
            before + Arrived(n, acts) ==
            if a.Arrive? then (before + [TypedFifo.Msg(n, a.ty, a.body)]) + Arrived(n + 1, acts[1..])
            else before + Arrived(n, acts[1..])
  {
    if acts[0].Arrive? {
      Associative(before, [TypedFifo.Msg(|before|, acts[0].ty, acts[0].body)], Arrived(|before| + 1, acts[1..]));
    }
  }

  lemma ArriveKeepsSplit<T>(s: TypedFifo.State<T>, ty: int, body: T, before: Messages<T>)
    requires TypedFifo.Enabled(s, TypedFifo.Arrive(ty, body)) && Split(s.accepted, s.dropped, before)
    ensures var s' := TypedFifo.Next(s, TypedFifo.Arrive(ty, body));
            Split(s'.accepted, s'.dropped, before + [TypedFifo.Msg(|before|, ty, body)])
  {
    SplitOneMore(s.accepted, s.dropped, before, TypedFifo.Msg(|before|, ty, body));
    ArriveFrames(s, ty, body);
  }

  /** Accepted and dropped after a run. */
  ghost predicate SplitAfter<T>(s: TypedFifo.State<T>, acts: seq<TypedFifo.Action<T>>, arrived: Messages<T>)
    requires TypedFifo.IsRun(s, acts)
  {
    Split(TypedFifo.Final(s, acts).accepted, TypedFifo.Final(s, acts).dropped, arrived)
  }

  lemma {:induction false} RunKeepsSplit<T>(s: TypedFifo.State<T>, acts: seq<TypedFifo.Action<T>>, before: Messages<T>)
    requires TypedFifo.IsRun(s, acts) && Split(s.accepted, s.dropped, before)
    ensures SplitAfter(s, acts, before + Arrived(|before|, acts))
    decreases acts
  {
    if acts == [] {
      assert before + Arrived(|before|, acts) == before;
    } else {
      var a, s' := acts[0], TypedFifo.Next(s, acts[0]);
      ArrivedUnfolds(acts, before);
      if a.Arrive? {
        ArriveKeepsSplit(s, a.ty, a.body, before);
        RunKeepsSplit(s', acts[1..], before + [TypedFifo.Msg(|before|, a.ty, a.body)]);
      } else {
        OtherStepFrames(s, a);
        RunKeepsSplit(s', acts[1..], before);
      }
      assert TypedFifo.Final(s, acts) == TypedFifo.Final(s', acts[1..]);
    }
  }

  lemma SplitMember<T>(accepted: Messages<T>, dropped: Messages<T>, arrived: Messages<T>, m: TypedFifo.Msg<T>)
    requires Split(accepted, dropped, arrived)
    ensures m in arrived <==> m in accepted || m in dropped
  {
    assert m in arrived <==> m in multiset(accepted) + multiset(dropped);
  }

  /** A number is in one of the two lists and not in both. */
  lemma OneListOnly(accepted: Messages<Packet>, dropped: Messages<Packet>, arrived: Messages<Packet>, k: nat)
    requires TypedFifo.Numbered(accepted, dropped) && Split(accepted, dropped, arrived)
    requires k < |arrived| && arrived[k].id == k
    ensures NumberIn(k, accepted) != NumberIn(k, dropped)
  {
    SplitMember(accepted, dropped, arrived, arrived[k]);
  }

  /** End to end: in every run fed by the receive callback, with the selected type changed at any
      time, each frame that was heard and passes the filter is exactly one of accepted and, by a
      full queue, dropped; whatever is accepted, and so whatever any reader takes, and whatever
      is dropped is one of them with its type, sender and payload unchanged, in the order heard;
      no log frame is among them. */
  lemma FramesArriveIntact(capacity: nat, wanted: seq<int>, heard: seq<Heard>, acts: seq<TypedFifo.Action<Packet>>)
    requires TypedFifo.IsRun(TypedFifo.Init(capacity, wanted), acts)
    requires Arrived(0, acts) == Offered(heard)
    ensures var s := TypedFifo.Final(TypedFifo.Init<Packet>(capacity, wanted), acts);
            && TypedFifo.Rising(s.accepted) && TypedFifo.Rising(s.dropped)
            && |s.accepted| + |s.dropped| == |Passing(heard)|
            && (forall m :: m in s.accepted || m in s.dropped ==> Intact(m, Passing(heard)))
            && (forall k :: 0 <= k < |Passing(heard)| ==> NumberIn(k, s.accepted) != NumberIn(k, s.dropped))
  {
    var s0 := TypedFifo.Init<Packet>(capacity, wanted);
    var s := TypedFifo.Final(s0, acts);
    TypedFifo.RunConserves(s0, acts);
    TypedFifo.RunKeepsDropped(s0, acts);
    RunKeepsSplit(s0, acts, []);
    assert [] + Arrived(0, acts) == Offered(heard);
    OfferedIsIntact(heard);
    forall m | m in s.accepted || m in s.dropped
      ensures Intact(m, Passing(heard))
    {
      SplitMember(s.accepted, s.dropped, Offered(heard), m);
      assert m in Offered(heard);
    }
    forall k | 0 <= k < |Passing(heard)|
      ensures NumberIn(k, s.accepted) != NumberIn(k, s.dropped)
    {
      OneListOnly(s.accepted, s.dropped, Offered(heard), k);
    }
  }

  ghost predicate NumberIn(k: nat, ms: seq<Message>) {
    exists i :: 0 <= i < |ms| && ms[i].id == k
  }

  /** The receive queue of std_espnow_init holds three messages. */
  method OpenReceiveQueue(wanted: seq<int>) returns (fifo: TypedFifo.Fifo<Packet>)
    ensures fresh(fifo) && fifo.capacity == 3 && fifo.wanted == wanted
    ensures TypedFifo.Inv(fifo.View()) && fifo.View() == TypedFifo.Init(3, wanted)
  {
    fifo := new TypedFifo.Fifo<Packet>(MAX_RECV_QUEEN, wanted);
  }

  /** The round trip on one frame: built, heard, queued and read with nothing in between, a
      payload within the size check comes back with its type and every byte, and exactly when
      its type passes the filter. */
  method RoundTrip(ty: Byte, peer: Option<Mac>, src: Mac, channel: Byte, data: seq<Byte>, selected: Byte)
    returns (got: TypedFifo.Outcome<Packet>)
    requires |data| <= 234
    ensures if ty == 2 || (ty != 4 && ty == selected)
            then got.Got? && got.m.ty == ty && got.m.body == Packet(src, channel, data)
            else got.TimedOut?
  {
    var built := BuildSend(ty, peer, data);
    var fifo := OpenReceiveQueue([ty as int]);
    RecvCb(fifo, selected, src, channel, built.value.frame);
    assert built.value.frame[1..] == data;
    ghost var k;
    var rest;
    got, rest, k := fifo.Recv(0, 0, []);
  }
}
