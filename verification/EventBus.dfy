/** Control Plane event delivery: the bus, and the protocol between the bus, the stream handler and a
    client that reconnects with a cursor. */
module EventBus {
  import opened Options

  const RING_CAP := 256
  const DEFAULT_BUFFER := 64

  datatype Event = Event(num: nat, kind: string, subsystem: string, time: int, data: string)

  // A subscriber's buffered channel.
  datatype Chan = Chan(buf: seq<Event>, cap: nat)

  // The numbers after `a`, up to and including `b`.
  function Range(a: nat, b: nat): (r: seq<nat>)
    ensures |r| == (if b > a then b - a else 0) && forall i :: 0 <= i < |r| ==> r[i] == a + 1 + i
    ensures forall n :: n in r <==> a < n <= b
    decreases b
  {
    if b <= a then [] else Range(a, b - 1) + [b]
  }

  predicate Increasing(s: seq<nat>) {
    forall i, j :: 0 <= i < j < |s| ==> s[i] < s[j]
  }

  function Nums(es: seq<Event>): (r: seq<nat>)
    ensures |r| == |es|
  {
    seq(|es|, i requires 0 <= i < |es| => es[i].num)
  }

  lemma NumsSnoc(es: seq<Event>, ev: Event)
    ensures Nums(es + [ev]) == Nums(es) + [ev.num]
  {
  }

  // A send that is skipped when the channel is full.
  function Offer<T>(buf: seq<T>, cap: nat, x: T): seq<T> {
    if |buf| < cap then buf + [x] else buf
  }

  function Max(a: int, b: int): int {
    if a > b then a else b
  }

  // What the ring still holds beyond a cursor, when `pub` events were published.
  function Retained(after: nat, pub: nat, cap: nat): seq<nat> {
    Range(Max(after, pub - cap), pub)
  }

  class Bus {
    var seqNo: nat
    var ring: seq<Event>
    var subs: map<nat, Chan>
    var nextSub: nat

    // The ring holds the last RING_CAP events, numbered without a hole up to the newest.
    ghost predicate Valid()
      reads this
    {
      && |ring| == (if seqNo < RING_CAP then seqNo else RING_CAP)
      && (forall i :: 0 <= i < |ring| ==> ring[i].num == seqNo - |ring| + 1 + i)
      && (forall id :: id in subs ==> id < nextSub && |subs[id].buf| <= subs[id].cap)
    }

    constructor ()
      ensures Valid() && seqNo == 0 && subs == map[]
    {
      seqNo, ring, subs, nextSub := 0, [], map[], 0;
    }

    /** One new number; kept in the ring; offered to every subscriber, none of which can block it. */
    method Publish(kind: string, subsystem: string, data: string, now: int) returns (ev: Event)
      requires Valid()
      modifies this
      ensures Valid()
      ensures seqNo == old(seqNo) + 1 && ev == Event(seqNo, kind, subsystem, now, data)
      ensures ring[|ring| - 1] == ev && ring[..|ring| - 1] == old(ring)[|old(ring)| + 1 - |ring|..]
      ensures nextSub == old(nextSub) && subs.Keys == old(subs).Keys
      ensures forall id :: id in subs ==>
                var was := old(subs)[id];
                subs[id] == if |was.buf| < was.cap then Chan(was.buf + [ev], was.cap) else was
    {
      seqNo := seqNo + 1;
      ev := Event(seqNo, kind, subsystem, now, data);
      ring := ring + [ev];
      if |ring| > RING_CAP { ring := ring[|ring| - RING_CAP..]; }
      OfferAll(ev);
    }

    // The subscribers are taken in any order.
    method OfferAll(ev: Event)
      modifies this`subs
      ensures subs.Keys == old(subs).Keys
      ensures forall id :: id in subs ==> subs[id] == old(subs)[id].(buf := Offer(old(subs)[id].buf, old(subs)[id].cap, ev))
    {
      var todo := subs.Keys;
      while todo != {}
        invariant todo <= subs.Keys == old(subs).Keys
        invariant forall id :: id in todo ==> subs[id] == old(subs)[id]
        invariant forall id :: id in subs && id !in todo ==>
                    subs[id] == old(subs)[id].(buf := Offer(old(subs)[id].buf, old(subs)[id].cap, ev))
        decreases todo
      {
        var id :| id in todo;
        var ch := subs[id];
        if |ch.buf| < ch.cap { subs := subs[id := ch.(buf := ch.buf + [ev])]; }
        todo := todo - {id};
      }
    }

    method Subscribe(buffer: int) returns (id: nat)
      requires Valid()
      modifies this
      ensures Valid() && seqNo == old(seqNo) && ring == old(ring)
      ensures id !in old(subs) && subs == old(subs)[id := Chan([], if buffer <= 0 then 64 else buffer)]
    {
      var cap := buffer;
      if cap <= 0 { cap := DEFAULT_BUFFER; }
      id := nextSub;
      nextSub := nextSub + 1;
      subs := subs[id := Chan([], cap)];
    }

    method Unsubscribe(id: nat)
      requires Valid()
      modifies this
      ensures Valid() && seqNo == old(seqNo) && ring == old(ring) && subs == old(subs) - {id}
    {
      if id in subs { subs := subs - {id}; } else { assert subs - {id} == subs; }
    }

    /** Everything newer than the cursor that was not evicted, oldest first. */
    method Recent(after: nat) returns (out: seq<Event>)
      requires Valid()
      ensures Nums(out) == Retained(after, seqNo, 256)
      ensures forall ev :: ev in out ==> ev in ring
    {
      out := [];
      var first := seqNo - |ring|;
      var i := 0;
      while i < |ring|
        invariant 0 <= i <= |ring|
        invariant forall ev :: ev in out ==> ev in ring
        invariant Nums(out) == Range(Max(after, first), Max(Max(after, first), first + i))
      {
        if ring[i].num > after {
          NumsSnoc(out, ring[i]);
          out := out + [ring[i]];
        }
        i := i + 1;
      }
    }
  }

  // ---------------------------------------------------------------------------------------------
  // The delivery protocol
  // ---------------------------------------------------------------------------------------------

  // Where the stream handler of the client's current connection is.
  datatype Handler =
    | Idle
    | Subscribed(after: nat)
    | Replaying(todo: seq<nat>, to: nat)
    | Live(to: nat)

  // Events are their numbers. `seen` is the last number the current connection has dealt with;
  // `dropped` and `behind` record the two ways in which an event can escape the client.
  datatype World = World(
    pub: nat,                 // how many events were published
    handler: Handler,
    chan: seq<nat>,           // the connection's subscriber channel
    wire: seq<nat>,           // written to the stream and not read by the client
    last: nat,                // the client's cursor
    received: seq<nat>,       // every event the client emitted
    seen: nat,
    dropped: bool,            // a send was skipped because the channel was full
    behind: bool)             // a replay found the event after the cursor evicted

  // `writable` says which events can be serialised; the others are left out of the stream.
  datatype Config = Config(ringCap: nat, buffer: nat, writable: nat -> bool)

  datatype Action = Publish | Connect | Snapshot | Replay | Forward | Deliver | Disconnect

  const START := World(0, Idle, [], [], 0, [], 0, false, false)

  function Written(cfg: Config, wire: seq<nat>, n: nat): seq<nat> {
    if cfg.writable(n) then wire + [n] else wire
  }

  function Step(cfg: Config, w: World, a: Action): Option<World> {
    match a
    case Publish =>
      Some(w.(pub := w.pub + 1,
              chan := if w.handler.Idle? then [] else Offer(w.chan, cfg.buffer, w.pub + 1),
              dropped := w.dropped || (!w.handler.Idle? && |w.chan| >= cfg.buffer)))
    case Connect =>
      if !w.handler.Idle? then None
      else Some(w.(handler := Subscribed(w.last), chan := [], wire := [], seen := w.last))
    case Snapshot =>
      if !w.handler.Subscribed? then None
      else Some(w.(handler := Replaying(Retained(w.handler.after, w.pub, cfg.ringCap), 0),
                   behind := w.behind || w.handler.after < w.pub - cfg.ringCap))
    case Replay =>
      if !w.handler.Replaying? then None
      else if w.handler.todo == [] then Some(w.(handler := Live(w.handler.to)))
      else
        var n := w.handler.todo[0];
        Some(w.(handler := Replaying(w.handler.todo[1..], n), wire := Written(cfg, w.wire, n), seen := n))
    case Forward =>
      if !w.handler.Live? || w.chan == [] then None
      else
        var n := w.chan[0];
        Some(w.(chan := w.chan[1..],
                wire := if n <= w.handler.to then w.wire else Written(cfg, w.wire, n),
                seen := if n <= w.handler.to then w.seen else n))
    case Deliver =>
      if w.wire == [] then None
      else Some(w.(wire := w.wire[1..], last := w.wire[0], received := w.received + [w.wire[0]]))
    case Disconnect => Some(w.(handler := Idle, chan := []))
  }

  function Run(cfg: Config, w: World, acts: seq<Action>): Option<World>
    decreases |acts|
  {
    if acts == [] then Some(w)
    else
      match Step(cfg, w, acts[0])
      case None => None
      case Some(w') => Run(cfg, w', acts[1..])
  }

  ghost predicate Within(s: seq<nat>, lo: int, hi: int) {
    forall n :: n in s ==> lo < n <= hi
  }

  // Nothing the client got, or is about to get, is older than something it got before.
  ghost predicate InOrder(w: World) {
    && w.last <= w.seen <= w.pub
    && Increasing(w.received) && Within(w.received, 0, w.last)
    && Increasing(w.wire) && Within(w.wire, w.last, w.seen)
    && Increasing(w.chan) && Within(w.chan, 0, w.pub)
    && HandlerInOrder(w)
  }

  ghost predicate HandlerInOrder(w: World) {
    match w.handler
    case Idle => w.chan == []
    case Subscribed(after) => w.wire == [] && after == w.last == w.seen && Within(w.chan, w.seen, w.pub)
    case Replaying(todo, to) =>
      Increasing(todo) && Within(todo, w.seen, w.pub) && (todo != [] || to == w.seen || Within(w.chan, w.seen, w.pub))
    case Live(to) => forall n :: n in w.chan && n > to ==> n > w.seen
  }

  // Nothing is missing: what is behind the cursor was received, and what is not is still on its way.
  ghost predicate NoGap(cfg: Config, w: World) {
    && (forall n :: 0 < n <= w.last && cfg.writable(n) ==> n in w.received)
    && (forall n :: w.last < n <= w.seen && cfg.writable(n) ==> n in w.wire)
    && (forall n :: n in w.received || n in w.wire ==> cfg.writable(n))
    && HandlerNoGap(w)
  }

  ghost predicate HandlerNoGap(w: World) {
    match w.handler
    case Idle => true
    case Subscribed(_) => true
    case Replaying(todo, to) =>
      && to <= w.seen
      && (forall n :: w.seen < n <= w.seen + |todo| ==> n in todo)
      && (forall n :: w.seen + |todo| < n <= w.pub ==> n in w.chan)
    case Live(to) => to <= w.seen && forall n :: w.seen < n <= w.pub ==> n in w.chan
  }

  lemma IncreasingTail(s: seq<nat>)
    requires s != [] && Increasing(s)
    ensures s[0] in s && Increasing(s[1..])
    ensures forall n :: n in s[1..] ==> n in s && s[0] < n
    ensures forall n :: n in s ==> n == s[0] || n in s[1..]
  {
    assert s == [s[0]] + s[1..];
  }

  lemma IncreasingSnoc(s: seq<nat>, n: nat)
    requires Increasing(s) && forall m :: m in s ==> m < n
    ensures Increasing(s + [n])
  {
    forall i, j | 0 <= i < j < |s + [n]| ensures (s + [n])[i] < (s + [n])[j] { assert s[i] in s; }
  }

  lemma ReplayInOrder(cfg: Config, w: World, w': World)
    requires InOrder(w) && Step(cfg, w, Replay) == Some(w')
    ensures InOrder(w')
  {
    if w.handler.todo != [] {
      IncreasingTail(w.handler.todo);
      IncreasingSnoc(w.wire, w.handler.todo[0]);
    }
  }

  lemma ForwardInOrder(cfg: Config, w: World, w': World)
    requires InOrder(w) && Step(cfg, w, Forward) == Some(w')
    ensures InOrder(w')
  {
    IncreasingTail(w.chan);
    if w.chan[0] > w.handler.to { IncreasingSnoc(w.wire, w.chan[0]); }
  }

  lemma StepInOrder(cfg: Config, w: World, a: Action, w': World)
    requires InOrder(w) && Step(cfg, w, a) == Some(w')
    ensures InOrder(w')
  {
    match a
    case Publish => IncreasingSnoc(w.chan, w.pub + 1);
    case Replay => ReplayInOrder(cfg, w, w');
    case Forward => ForwardInOrder(cfg, w, w');
    case Deliver =>
      IncreasingTail(w.wire);
      IncreasingSnoc(w.received, w.wire[0]);
    case _ =>
  }

  // The smallest element of a run without holes is the next number.
  lemma NextNumber(s: seq<nat>, lo: nat, hi: nat)
    requires s != [] && Increasing(s) && lo < hi && (forall n :: lo < n <= hi ==> n in s) && s[0] > lo
    ensures s[0] == lo + 1
  {
    assert lo + 1 in s;
    IncreasingTail(s);
  }

  lemma StepNoGap(cfg: Config, w: World, a: Action, w': World)
    requires InOrder(w) && (!w.dropped && !w.behind ==> NoGap(cfg, w)) && Step(cfg, w, a) == Some(w')
    ensures !w'.dropped && !w'.behind ==> NoGap(cfg, w')
  {
    if !w'.dropped && !w'.behind {
      match a
      case Replay =>
        if w.handler.todo != [] {
          IncreasingTail(w.handler.todo);
          NextNumber(w.handler.todo, w.seen, w.seen + |w.handler.todo|);
        }
      case Forward =>
        IncreasingTail(w.chan);
        if w.chan[0] > w.handler.to { NextNumber(w.chan, w.seen, w.pub); }
      case Deliver => IncreasingTail(w.wire);
      case _ =>
    }
  }

  lemma {:induction false} RunKeeps(cfg: Config, w: World, acts: seq<Action>, w': World)
    requires InOrder(w) && (!w.dropped && !w.behind ==> NoGap(cfg, w)) && Run(cfg, w, acts) == Some(w')
    ensures InOrder(w') && (!w'.dropped && !w'.behind ==> NoGap(cfg, w'))
    decreases |acts|
  {
    if acts != [] {
      var w1 := Step(cfg, w, acts[0]).value;
      StepInOrder(cfg, w, acts[0], w1);
      StepNoGap(cfg, w, acts[0], w1);
      RunKeeps(cfg, w1, acts[1..], w');
    }
  }

  lemma StepAdvances(cfg: Config, w: World, a: Action, w': World)
    requires InOrder(w) && Step(cfg, w, a) == Some(w')
    ensures w.received <= w'.received && w.last <= w'.last && w.pub <= w'.pub
  {
    assert a.Deliver? ==> w.wire[0] in w.wire;
  }

  /** Nothing is taken back from the client, and its cursor never moves back. */
  lemma {:induction false} CursorAdvances(cfg: Config, w: World, acts: seq<Action>, w': World)
    requires InOrder(w) && Run(cfg, w, acts) == Some(w')
    ensures w.received <= w'.received && w.last <= w'.last
    decreases |acts|
  {
    if acts != [] {
      var w1 := Step(cfg, w, acts[0]).value;
      StepInOrder(cfg, w, acts[0], w1);
      StepAdvances(cfg, w, acts[0], w1);
      CursorAdvances(cfg, w1, acts[1..], w');
    }
  }

  /** Over any number of disconnects and any interleaving of publishes, what the client emits is strictly
      increasing: no repeats, nothing out of order. */
  lemma ReceivedIncreasing(cfg: Config, acts: seq<Action>, w: World)
    requires Run(cfg, START, acts) == Some(w)
    ensures Increasing(w.received)
    ensures w.last == if w.received == [] then 0 else w.received[|w.received| - 1]
  {
    RunKeeps(cfg, START, acts, w);
    LastIsCursor(cfg, START, acts, w);
  }

  lemma {:induction false} LastIsCursor(cfg: Config, w: World, acts: seq<Action>, w': World)
    requires Run(cfg, w, acts) == Some(w') && w.last == LastOf(w.received)
    ensures w'.last == LastOf(w'.received)
    decreases |acts|
  {
    if acts != [] {
      var w1 := Step(cfg, w, acts[0]).value;
      StepLastIsCursor(cfg, w, acts[0], w1);
      LastIsCursor(cfg, w1, acts[1..], w');
    }
  }

  function LastOf(received: seq<nat>): nat {
    if received == [] then 0 else received[|received| - 1]
  }

  lemma StepLastIsCursor(cfg: Config, w: World, a: Action, w': World)
    requires Step(cfg, w, a) == Some(w') && w.last == LastOf(w.received)
    ensures w'.last == LastOf(w'.received)
  {
  }

  /** And it is complete, as long as no channel overflowed and every replay still found the event after
      the cursor: exactly the serialisable events up to the cursor. */
  lemma ReceivedComplete(cfg: Config, acts: seq<Action>, w: World)
    requires Run(cfg, START, acts) == Some(w) && !w.dropped && !w.behind
    ensures forall n :: n in w.received <==> 0 < n <= w.last && cfg.writable(n)
  {
    RunKeeps(cfg, START, acts, w);
  }

  /** A client whose stream has nothing on the way has everything. */
  lemma CaughtUp(cfg: Config, acts: seq<Action>, w: World)
    requires Run(cfg, START, acts) == Some(w) && !w.dropped && !w.behind
    requires w.handler.Live? && w.chan == [] && w.wire == []
    ensures forall n :: n in w.received <==> 0 < n <= w.pub && cfg.writable(n)
  {
    RunKeeps(cfg, START, acts, w);
    assert w.seen < w.pub ==> w.pub in w.chan;
  }

  /** An event the cursor has moved past without it is lost for good: no reconnect brings it back. */
  lemma {:induction false} PassedIsLost(cfg: Config, w: World, acts: seq<Action>, w': World, n: nat)
    requires InOrder(w) && n <= w.last && n !in w.received && Run(cfg, w, acts) == Some(w')
    ensures n !in w'.received
    decreases |acts|
  {
    if acts != [] {
      var w1 := Step(cfg, w, acts[0]).value;
      StepInOrder(cfg, w, acts[0], w1);
      assert acts[0].Deliver? ==> w.wire[0] in w.wire;
      PassedIsLost(cfg, w1, acts[1..], w', n);
    }
  }

  // -- which events can still come -----------------------------------------------------------------

  // Written or queued for the client on its current connection.
  predicate OnItsWay(w: World, n: nat) {
    n in w.wire || n in w.chan || (w.handler.Replaying? && n in w.handler.todo)
  }

  // Published, not received, not on its way, and no replay would find it.
  ghost predicate Gone(cfg: Config, w: World, n: nat) {
    && n <= w.pub && n !in w.received && !OnItsWay(w, n)
    && n !in Retained(w.last, w.pub, cfg.ringCap)
  }

  lemma StepGone(cfg: Config, w: World, a: Action, w': World, n: nat)
    requires InOrder(w) && Gone(cfg, w, n) && Step(cfg, w, a) == Some(w')
    ensures Gone(cfg, w', n)
  {
    StepAdvances(cfg, w, a, w');
  }

  lemma {:induction false} GoneForGood(cfg: Config, w: World, acts: seq<Action>, w': World, n: nat)
    requires InOrder(w) && Gone(cfg, w, n) && Run(cfg, w, acts) == Some(w')
    ensures n !in w'.received
    decreases |acts|
  {
    if acts != [] {
      var w1 := Step(cfg, w, acts[0]).value;
      StepInOrder(cfg, w, acts[0], w1);
      StepGone(cfg, w, acts[0], w1, n);
      GoneForGood(cfg, w1, acts[1..], w', n);
    }
  }

  // The replay goes on until it has delivered `n`.
  lemma {:induction false} ReplayTo(cfg: Config, w: World, n: nat) returns (acts: seq<Action>, w': World)
    requires w.handler.Replaying? && w.wire == [] && n in w.handler.todo && cfg.writable(n)
    ensures Run(cfg, w, acts) == Some(w') && n in w'.received
    decreases if w.handler.Replaying? then |w.handler.todo| else 0
  {
    var m := w.handler.todo[0];
    var w1 := Step(cfg, w, Replay).value;
    var first := if cfg.writable(m) then [Replay, Deliver] else [Replay];
    var w2 := if cfg.writable(m) then Step(cfg, w1, Deliver).value else w1;
    assert first[1..] == (if cfg.writable(m) then [Deliver] else []) && [Deliver][1..] == [];
    assert Run(cfg, w, first) == Some(w2);
    if n == m {
      acts, w' := first, w2;
    } else {
      var rest;
      rest, w' := ReplayTo(cfg, w2, n);
      RunAppend(cfg, w, first, rest);
      acts := first + rest;
    }
  }

  /** What the cursor has not passed and the ring still holds is received after a reconnect, whatever state
      the connection is in. */
  lemma Recoverable(cfg: Config, w: World, n: nat) returns (acts: seq<Action>, w': World)
    requires cfg.writable(n) && n in Retained(w.last, w.pub, cfg.ringCap)
    ensures Run(cfg, w, acts) == Some(w') && n in w'.received
  {
    var again := [Disconnect, Connect, Snapshot];
    assert again[1..] == [Connect, Snapshot] && again[1..][1..] == [Snapshot] && [Snapshot][1..] == [];
    var w1 := Run(cfg, w, again).value;
    var rest;
    rest, w' := ReplayTo(cfg, w1, n);
    RunAppend(cfg, w, again, rest);
    acts := again + rest;
  }

  ghost predicate CanStillCome(cfg: Config, w: World, n: nat) {
    exists acts: seq<Action> :: Run(cfg, w, acts).Some? && n in Run(cfg, w, acts).value.received
  }

  /** An event that was skipped can still reach the client exactly while the cursor has not passed it and the
      ring holds it. */
  lemma SkippedExactly(cfg: Config, w: World, n: nat)
    requires InOrder(w) && 0 < n <= w.pub && cfg.writable(n) && n !in w.received && !OnItsWay(w, n)
    ensures CanStillCome(cfg, w, n) <==> n in Retained(w.last, w.pub, cfg.ringCap)
  {
    if n in Retained(w.last, w.pub, cfg.ringCap) {
      var acts, w' := Recoverable(cfg, w, n);
    } else {
      forall acts: seq<Action> | Run(cfg, w, acts).Some? ensures n !in Run(cfg, w, acts).value.received {
        GoneForGood(cfg, w, acts, Run(cfg, w, acts).value, n);
      }
    }
  }

  // -- a skipped send is not made good -------------------------------------------------------------

  function Times(a: Action, n: nat): (r: seq<Action>)
    ensures |r| == n
  {
    if n == 0 then [] else [a] + Times(a, n - 1)
  }

  function ReadAll(n: nat): seq<Action> {
    if n == 0 then [] else [Forward, Deliver] + ReadAll(n - 1)
  }

  lemma {:induction false} RunAppend(cfg: Config, w: World, a: seq<Action>, b: seq<Action>)
    requires Run(cfg, w, a).Some?
    ensures Run(cfg, w, a + b) == Run(cfg, Run(cfg, w, a).value, b)
    decreases |a|
  {
    if a == [] {
      assert a + b == b;
    } else {
      assert (a + b)[1..] == a[1..] + b;
      RunAppend(cfg, Step(cfg, w, a[0]).value, a[1..], b);
    }
  }

  // A live connection without a replay, holding `chan`, whose client has read everything written.
  function Flowing(pub: nat, chan: seq<nat>, last: nat, received: seq<nat>, dropped: bool): World {
    World(pub, Live(0), chan, [], last, received, last, dropped, false)
  }

  lemma {:induction false} FillUp(cfg: Config, k: nat, n: nat)
    requires k + n <= cfg.buffer
    ensures Run(cfg, Flowing(k, Range(0, k), 0, [], false), Times(Publish, n)) == Some(Flowing(k + n, Range(0, k + n), 0, [], false))
    decreases n
  {
    if n > 0 {
      var w := Flowing(k, Range(0, k), 0, [], false);
      assert Range(0, k) + [k + 1] == Range(0, k + 1);
      assert Step(cfg, w, Publish) == Some(Flowing(k + 1, Range(0, k + 1), 0, [], false));
      FillUp(cfg, k + 1, n - 1);
      assert Times(Publish, n)[1..] == Times(Publish, n - 1);
    }
  }

  lemma ReadOne(cfg: Config, w: World)
    requires w.handler == Live(0) && w.wire == [] && w.chan != [] && w.chan[0] > 0 && cfg.writable(w.chan[0])
    ensures Run(cfg, w, [Forward, Deliver]) ==
              Some(w.(chan := w.chan[1..], seen := w.chan[0], last := w.chan[0], received := w.received + [w.chan[0]]))
  {
    var acts := [Forward, Deliver];
    assert acts[1..] == [Deliver] && acts[1..][1..] == [];
    var w1 := Step(cfg, w, Forward).value;
    assert w1.wire == [w.chan[0]] && w1.wire[1..] == [];
  }

  lemma {:induction false} ReadOut(cfg: Config, w: World)
    requires w.handler == Live(0) && w.wire == [] && forall i :: 0 <= i < |w.chan| ==> w.chan[i] > 0 && cfg.writable(w.chan[i])
    ensures Run(cfg, w, ReadAll(|w.chan|)).Some?
    ensures var w' := Run(cfg, w, ReadAll(|w.chan|)).value;
            && w'.received == w.received + w.chan && w'.pub == w.pub && w'.behind == w.behind
            && w'.last == (if w.chan == [] then w.last else w.chan[|w.chan| - 1])
    decreases |w.chan|
  {
    if w.chan != [] {
      ReadOne(cfg, w);
      RunAppend(cfg, w, [Forward, Deliver], ReadAll(|w.chan| - 1));
      var w1 := Run(cfg, w, [Forward, Deliver]).value;
      ReadOut(cfg, w1);
      assert w1.received + w1.chan == w.received + w.chan;
    }
  }

  lemma Overrun(cfg: Config, b: nat)
    requires cfg.buffer == b > 0 && (forall n :: cfg.writable(n))
    ensures Run(cfg, Flowing(b, Range(0, b), 0, [], false), [Publish, Forward, Deliver, Publish]) ==
              Some(Flowing(b + 2, Range(0, b)[1..] + [b + 2], 1, [1], true))
  {
    var full := Flowing(b, Range(0, b), 0, [], false);
    var p1 := full.(pub := b + 1, dropped := true);
    assert Step(cfg, full, Publish) == Some(p1);
    ReadOne(cfg, p1);
    var p3 := Flowing(b + 1, Range(0, b)[1..], 1, [1], true);
    assert p1.received + [1] == [1];
    assert Run(cfg, p1, [Forward, Deliver]) == Some(p3);
    RunAppend(cfg, p1, [Forward, Deliver], [Publish]);
    assert [Forward, Deliver] + [Publish] == [Forward, Deliver, Publish];
    var more := [Publish, Forward, Deliver, Publish];
    assert more[1..] == [Forward, Deliver, Publish] && [Publish][1..] == [];
  }

  lemma Opened(cfg: Config)
    ensures Run(cfg, START, [Connect, Snapshot, Replay]) == Some(Flowing(0, [], 0, [], false))
  {
    var open := [Connect, Snapshot, Replay];
    assert open[1..] == [Snapshot, Replay] && open[1..][1..] == [Replay] && open[1..][1..][1..] == [];
  }

  lemma Overflowed(cfg: Config) returns (acts: seq<Action>)
    requires cfg.buffer > 0 && (forall n :: cfg.writable(n))
    ensures Run(cfg, START, acts) == Some(Flowing(cfg.buffer + 2, Range(0, cfg.buffer)[1..] + [cfg.buffer + 2], 1, [1], true))
  {
    var b := cfg.buffer;
    Opened(cfg);
    var open := [Connect, Snapshot, Replay];
    FillUp(cfg, 0, b);
    RunAppend(cfg, START, open, Times(Publish, b));
    Overrun(cfg, b);
    RunAppend(cfg, START, open + Times(Publish, b), [Publish, Forward, Deliver, Publish]);
    acts := open + Times(Publish, b) + [Publish, Forward, Deliver, Publish];
  }

  /** The channel of any size overflows once, the client reads on and never disconnects; the skipped
      event is behind its cursor and never comes, although the ring still holds it. */
  lemma OverflowLosesEvent(cfg: Config) returns (acts: seq<Action>, w: World)
    requires cfg.buffer > 0 && (forall n :: cfg.writable(n))
    ensures Run(cfg, START, acts) == Some(w)
    ensures cfg.buffer + 1 < w.last && !CanStillCome(cfg, w, cfg.buffer + 1) && !w.behind
    ensures cfg.ringCap > 1 ==> cfg.buffer + 1 in Retained(0, w.pub, cfg.ringCap)
  {
    var first := Overflowed(cfg);
    var w1 := Run(cfg, START, first).value;
    ReadOut(cfg, w1);
    RunAppend(cfg, START, first, ReadAll(|w1.chan|));
    acts := first + ReadAll(|w1.chan|);
    w := Run(cfg, w1, ReadAll(|w1.chan|)).value;
    assert w1.chan[|w1.chan| - 1] == cfg.buffer + 2;
    RunKeeps(cfg, START, acts, w);
    forall more: seq<Action> | Run(cfg, w, more).Some? ensures cfg.buffer + 1 !in Run(cfg, w, more).value.received {
      PassedIsLost(cfg, w, more, Run(cfg, w, more).value, cfg.buffer + 1);
    }
  }
}
