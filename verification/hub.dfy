/** The hub that fans out ingested sessions to SSE subscribers (internal/server/hub.go): a mutex,
    and one buffered channel of 8 per subscriber. */
module Hub {
  import opened Options
  import opened Sets

  /** The capacity of a subscriber's channel. */
  const CAPACITY := 8

  /** A send that does not block: the item is dropped when the queue is full. */
  function Offered<T>(queue: seq<T>, item: T): seq<T> {
    if |queue| < CAPACITY then queue + [item] else queue
  }

  // --- Interleavings ---

  // The mutex makes Subscribe, Unsubscribe and Broadcast exclude each other. Receivers do not take
  // it, so a broadcast is a series of sends with receives in between.

  datatype Chan<T> = Chan(queue: seq<T>, received: seq<T>, closed: bool)

  /** A broadcast that holds the mutex: its item, and the subscribers not yet offered it. */
  datatype Sending<T> = Sending(item: T, pending: set<nat>)

  datatype State<T> = State(subs: set<nat>, chans: map<nat, Chan<T>>, sending: Option<Sending<T>>)

  datatype Op<T> =
    | Join(id: nat)
    | Leave(id: nat)
    | Begin(item: T)
    | Send(id: nat)
    | End
    | Take(id: nat)

  function Start<T>(): State<T> {
    State({}, map[], None)
  }

  predicate Enabled<T>(s: State<T>, op: Op<T>) {
    match op
    case Join(id) => s.sending.None? && id !in s.chans
    case Leave(id) => s.sending.None? && id in s.chans
    case Begin(_) => s.sending.None?
    case Send(id) => s.sending.Some? && id in s.sending.value.pending
    case End => s.sending.Some? && s.sending.value.pending == {}
    case Take(id) => id in s.chans && s.chans[id].queue != []
  }

  function Step<T>(s: State<T>, op: Op<T>): State<T>
    requires Enabled(s, op)
  {
    match op
    case Join(id) => s.(subs := s.subs + {id}, chans := s.chans[id := Chan([], [], false)])
    case Leave(id) =>
      if id in s.subs
      then s.(subs := s.subs - {id}, chans := s.chans[id := s.chans[id].(closed := true)])
      else s
    case Begin(item) => s.(sending := Some(Sending(item, s.subs)))
    case Send(id) =>
      if id !in s.chans then s else
        var c := s.chans[id];
        s.(sending := Some(s.sending.value.(pending := s.sending.value.pending - {id})),
           chans := s.chans[id := c.(queue := Offered(c.queue, s.sending.value.item))])
    case End => s.(sending := None)
    case Take(id) =>
      var c := s.chans[id];
      s.(chans := s.chans[id := c.(queue := c.queue[1..], received := c.received + [c.queue[0]])])
  }

  predicate IsRun<T>(s: State<T>, ops: seq<Op<T>>)
    decreases |ops|
  {
    ops == [] || (Enabled(s, ops[0]) && IsRun(Step(s, ops[0]), ops[1..]))
  }

  function After<T>(s: State<T>, ops: seq<Op<T>>): State<T>
    requires IsRun(s, ops)
    decreases |ops|
  {
    if ops == [] then s else After(Step(s, ops[0]), ops[1..])
  }

  // --- The code ---

  class Channel<T> {
    var queue: seq<T>
    var closed: bool
    /** What has been taken out so far. */
    ghost var received: seq<T>

    constructor ()
      ensures queue == [] && !closed && received == []
    {
      queue, closed, received := [], false, [];
    }

    ghost function View(): Chan<T>
      reads this
    {
      Chan(queue, received, closed)
    }

    /** `select { case ch <- s: default: }`. A send on a closed channel would panic. */
    method TrySend(item: T)
      requires !closed
      modifies this`queue
      ensures queue == Offered(old(queue), item)
    {
      if |queue| < CAPACITY {
        queue := queue + [item];
      }
    }

    /** Closing a closed channel would panic. Items still queued can be received. */
    method Close()
      requires !closed
      modifies this`closed
      ensures closed
    {
      closed := true;
    }

    method Receive() returns (item: T)
      requires queue != []
      modifies this`queue, this`received
      ensures old(queue) == [item] + queue && received == old(received) + [item]
    {
      item, queue := queue[0], queue[1..];
      received := received + [item];
    }
  }

  class Server<T> {
    var subscribers: set<Channel<T>>

    /** Every channel handed out so far, by its number in the interleaving machine; the operations
        made, and the state of the machine they lead to. */
    ghost var names: map<Channel<T>, nat>
    ghost var trace: seq<Op<T>>
    ghost var now: State<T>

    /** The channels and the subscribers are those of the machine. */
    ghost predicate Shows()
      reads this, names.Keys
    {
      && (forall c, d :: c in names && d in names && c != d ==> names[c] != names[d])
      && now.chans.Keys == names.Values
      && (forall c :: c in names ==> now.chans[names[c]] == c.View())
      && subscribers <= names.Keys
      && (forall c :: c in names ==> (c in subscribers <==> names[c] in now.subs))
    }

    /** The operations made are a run of the machine. */
    ghost predicate Follows()
      reads this
    {
      IsRun(Start(), trace) && After(Start(), trace) == now && Safe(now)
    }

    ghost predicate Valid()
      reads this, names.Keys
    {
      Follows() && Shows() && now.sending.None?
    }

    constructor ()
      ensures Valid() && subscribers == {} && names == map[]
    {
      subscribers, names, trace, now := {}, map[], [], Start();
    }

    /** One operation of the machine. */
    ghost method Did(op: Op<T>)
      requires Follows() && Enabled(now, op)
      modifies this`trace, this`now
      ensures Follows() && now == Step(old(now), op) && trace == old(trace) + [op]
    {
      RunSnoc(Start(), trace, op);
      StepSafe(now, op);
      trace, now := trace + [op], Step(now, op);
    }

    method Subscribe() returns (ch: Channel<T>)
      requires Valid()
      modifies this
      ensures Valid() && fresh(ch) && subscribers == old(subscribers) + {ch}
      ensures ch.queue == [] && !ch.closed
      ensures names.Keys == old(names.Keys) + {ch} && forall c :: c in old(names) ==> names[c] == old(names[c])
    {
      ch := new Channel();
      Register(ch);
    }

    method Register(ch: Channel<T>)
      requires Valid() && ch !in names && ch.View() == Chan([], [], false)
      modifies this
      ensures Valid() && subscribers == old(subscribers) + {ch}
      ensures names.Keys == old(names.Keys) + {ch} && forall c :: c in old(names) ==> names[c] == old(names[c])
    {
      ghost var id := FreshNumber(now.chans.Keys);
      assert forall c :: c in names ==> names[c] in names.Values;
      subscribers := subscribers + {ch};
      Did(Join(id));
      OneMoreName(names, ch, id);
      names := names[ch := id];
    }

    /** A channel that is not registered, or no longer, is left alone: it is not closed again. */
    method Unsubscribe(ch: Channel<T>)
      requires Valid()
      modifies this, ch`closed
      ensures Valid() && subscribers == old(subscribers) - {ch} && names == old(names)
      ensures ch.closed == (old(ch.closed) || ch in old(subscribers))
    {
      var left := subscribers;
      while left != {}
        invariant left <= subscribers == old(subscribers) && names == old(names)
        invariant ch in subscribers ==> ch in left
        invariant Valid() && ch.closed == old(ch.closed)
        decreases left
      {
        var k :| k in left;
        if k == ch {
          Drop(k);
          return;
        }
        left := left - {k};
      }
    }

    method Drop(ch: Channel<T>)
      requires Valid() && ch in subscribers
      modifies this, ch`closed
      ensures Valid() && subscribers == old(subscribers) - {ch} && names == old(names) && ch.closed
    {
      OpenWhileRegistered(now, names[ch]);
      subscribers := subscribers - {ch};
      ch.Close();
      Did(Leave(names[ch]));
    }

    /** Uninterrupted: every subscriber is offered the item, and nobody waits. */
    method Broadcast(item: T)
      requires Valid()
      modifies this`trace, this`now, subscribers`queue
      ensures Valid()
      ensures forall ch :: ch in subscribers ==>
                             ch.queue == if |old(ch.queue)| < 8 then old(ch.queue) + [item] else old(ch.queue)
    {
      ghost var was := Announce(item);
      SendAll(item, was);
      Conclude(item, was);
    }

    /** The broadcast lets go of the mutex. */
    ghost method Conclude(item: T, was: map<Channel<T>, seq<T>>)
      requires Broadcasts(item, {}, was)
      modifies this`trace, this`now
      ensures Valid() && was.Keys == subscribers
      ensures forall ch :: ch in subscribers ==> ch.queue == Offered(was[ch], item)
    {
      assert Numbers({}) == {};
      Did(End);
    }

    /** The broadcast has the mutex and has offered nothing yet. */
    ghost method Announce(item: T) returns (was: map<Channel<T>, seq<T>>)
      requires Valid()
      modifies this`trace, this`now
      ensures Broadcasts(item, subscribers, was) && forall ch :: ch in subscribers ==> was[ch] == ch.queue
    {
      assert Numbers(subscribers) == now.subs by {
        forall id | id in now.subs
          ensures id in Numbers(subscribers)
        {
          var c :| c in names && names[c] == id;
        }
      }
      Did(Begin(item));
      was := map ch | ch in subscribers :: ch.queue;
    }

    ghost function Numbers(chs: set<Channel<T>>): set<nat>
      requires chs <= names.Keys
      reads this
    {
      set c | c in chs :: names[c]
    }

    /** In the middle of a broadcast: those in `left` have not been offered the item yet. */
    ghost predicate Broadcasts(item: T, left: set<Channel<T>>, was: map<Channel<T>, seq<T>>)
      reads this, names.Keys
    {
      && Follows() && Shows() && left <= subscribers == was.Keys
      && now.sending == Some(Sending(item, Numbers(left)))
      && forall ch :: ch in subscribers ==> ch.queue == if ch in left then was[ch] else Offered(was[ch], item)
    }

    /** The loop of `Broadcast`. */
    method SendAll(item: T, ghost was: map<Channel<T>, seq<T>>)
      requires Broadcasts(item, subscribers, was)
      modifies this`trace, this`now, subscribers`queue
      ensures Broadcasts(item, {}, was)
    {
      var left := subscribers;
      while left != {}
        invariant Broadcasts(item, left, was)
        decreases left
      {
        var ch :| ch in left;
        SendOne(ch, item, left, was);
        left := left - {ch};
      }
    }

    /** One iteration of the loop of `Broadcast`. */
    method SendOne(ch: Channel<T>, item: T, ghost left: set<Channel<T>>, ghost was: map<Channel<T>, seq<T>>)
      requires Broadcasts(item, left, was) && ch in left
      modifies this`trace, this`now, ch`queue
      ensures Broadcasts(item, left - {ch}, was)
    {
      OpenWhileRegistered(now, names[ch]);
      ch.TrySend(item);
      Did(Send(names[ch]));
      assert Numbers(left - {ch}) == Numbers(left) - {names[ch]};
    }

    /** A reader of the stream takes the next item. */
    method Next(ch: Channel<T>) returns (item: T)
      requires Valid() && ch in names && ch.queue != []
      modifies this`trace, this`now, ch`queue, ch`received
      ensures Valid() && old(ch.queue) == [item] + ch.queue && ch.received == old(ch.received) + [item]
    {
      item := ch.Receive();
      Did(Take(names[ch]));
    }
  }

  lemma OneMoreName<K>(m: map<K, nat>, k: K, id: nat)
    requires k !in m
    ensures m[k := id].Values == m.Values + {id}
  {
    var m' := m[k := id];
    forall v | v in m.Values
      ensures v in m'.Values
    {
      var j :| j in m && m[j] == v;
      assert m'[j] == v;
    }
    assert m'[k] == id;
  }

  // --- Safety ---

  ghost predicate Safe<T>(s: State<T>) {
    && s.subs <= s.chans.Keys
    && (s.sending.Some? ==> s.sending.value.pending <= s.subs)
    && (forall id :: id in s.chans ==> |s.chans[id].queue| <= CAPACITY)
    && (forall id :: id in s.chans ==> (s.chans[id].closed <==> id !in s.subs))
  }

  lemma StepSafe<T>(s: State<T>, op: Op<T>)
    requires Safe(s) && Enabled(s, op)
    ensures Safe(Step(s, op))
  {
  }

  lemma OpenWhileRegistered<T>(s: State<T>, id: nat)
    requires Safe(s) && id in s.subs
    ensures id in s.chans && !s.chans[id].closed
  {
  }

  lemma {:induction false} RunSnoc<T>(s: State<T>, ops: seq<Op<T>>, op: Op<T>)
    requires IsRun(s, ops) && Enabled(After(s, ops), op)
    ensures IsRun(s, ops + [op]) && After(s, ops + [op]) == Step(After(s, ops), op)
    decreases |ops|
  {
    if ops == [] {
      assert [] + [op] == [op] && [op][1..] == [];
      assert IsRun(Step(s, op), []);
    } else {
      RunSnoc(Step(s, ops[0]), ops[1..], op);
      assert (ops + [op])[1..] == ops[1..] + [op];
    }
  }

  lemma {:induction false} RunSafe<T>(s: State<T>, ops: seq<Op<T>>)
    requires Safe(s) && IsRun(s, ops)
    ensures Safe(After(s, ops))
    decreases |ops|
  {
    if ops != [] {
      RunSafe(Step(s, ops[0]), ops[1..]);
    }
  }

  /** In every interleaving: no send reaches a closed channel, no registered channel is closed, so
      none is closed twice, and no queue exceeds its capacity. */
  lemma NoPanics<T>(ops: seq<Op<T>>, id: nat)
    requires IsRun(Start<T>(), ops)
    ensures var s := After(Start<T>(), ops);
            && (Enabled(s, Send(id)) ==> id in s.chans && !s.chans[id].closed)
            && (id in s.subs ==> id in s.chans && !s.chans[id].closed)
            && (id in s.chans ==> |s.chans[id].queue| <= 8)
  {
    RunSafe(Start<T>(), ops);
  }

  // --- One subscriber's stream ---

  /** What happens to one subscriber: it is offered an item, or takes one. */
  datatype Event<T> = Offer(item: T) | Taken

  /** What one operation means to one subscriber while `item` is being broadcast. */
  function Part<T>(op: Op<T>, id: nat, item: Option<T>): seq<Event<T>> {
    match op
    case Send(k) => if k == id && item.Some? then [Offer(item.value)] else []
    case Take(k) => if k == id then [Taken] else []
    case _ => []
  }

  function Current<T>(op: Op<T>, item: Option<T>): Option<T> {
    match op
    case Begin(x) => Some(x)
    case End => None
    case _ => item
  }

  /** The subscriber's own part of a run, read off the operations: everything that other
      subscribers do is ignored. */
  function Local<T>(ops: seq<Op<T>>, id: nat, item: Option<T>): seq<Event<T>> {
    if ops == [] then [] else Part(ops[0], id, item) + Local(ops[1..], id, Current(ops[0], item))
  }

  function Takes<T>(h: seq<Event<T>>): nat {
    if h == [] then 0 else Takes(h[..|h| - 1]) + (if h[|h| - 1].Taken? then 1 else 0)
  }

  function Offers<T>(h: seq<Event<T>>): seq<T> {
    if h == [] then [] else
      Offers(h[..|h| - 1]) + (if h[|h| - 1].Offer? then [h[|h| - 1].item] else [])
  }

  /** The items offered while fewer than eight accepted ones were still waiting. */
  function Kept<T>(h: seq<Event<T>>): seq<T> {
    if h == [] then [] else
      var before := h[..|h| - 1];
      match h[|h| - 1]
      case Taken => Kept(before)
      case Offer(x) => if |Kept(before)| - Takes(before) < CAPACITY then Kept(before) + [x] else Kept(before)
  }

  /** The queue and what was received are the two parts of the kept items. */
  ghost predicate Streams<T>(c: Chan<T>, h: seq<Event<T>>) {
    Takes(h) <= |Kept(h)| && c.received == Kept(h)[..Takes(h)] && c.queue == Kept(h)[Takes(h)..]
  }

  lemma StreamOffer<T>(c: Chan<T>, h: seq<Event<T>>, x: T)
    requires Streams(c, h)
    ensures Streams(c.(queue := Offered(c.queue, x)), h + [Offer(x)])
  {
    assert (h + [Offer(x)])[..|h|] == h;
  }

  lemma StreamTake<T>(c: Chan<T>, h: seq<Event<T>>)
    requires Streams(c, h) && c.queue != []
    ensures Streams(c.(queue := c.queue[1..], received := c.received + [c.queue[0]]), h + [Taken])
  {
    assert (h + [Event<T>.Taken])[..|h|] == h;
  }

  function Broadcasting<T>(s: State<T>): Option<T> {
    match s.sending
    case None => None
    case Some(b) => Some(b.item)
  }

  lemma StepBroadcasting<T>(s: State<T>, op: Op<T>)
    requires Safe(s) && Enabled(s, op)
    ensures Broadcasting(Step(s, op)) == Current(op, Broadcasting(s))
  {
  }

  ghost predicate StreamsAt<T>(s: State<T>, id: nat, h: seq<Event<T>>) {
    if id in s.chans then Streams(s.chans[id], h) else h == []
  }

  lemma StepStreams<T>(s: State<T>, op: Op<T>, id: nat, h: seq<Event<T>>)
    requires Safe(s) && Enabled(s, op) && StreamsAt(s, id, h)
    ensures StreamsAt(Step(s, op), id, h + Part(op, id, Broadcasting(s)))
  {
    if op == Send(id) {
      StreamOffer(s.chans[id], h, s.sending.value.item);
    } else if op == Take(id) {
      StreamTake(s.chans[id], h);
    } else {
      assert Part(op, id, Broadcasting(s)) == [];
      assert h + [] == h;
    }
  }

  lemma LocalSplit<T>(s: State<T>, ops: seq<Op<T>>, id: nat)
    requires Safe(s) && ops != [] && Enabled(s, ops[0])
    ensures Local(ops, id, Broadcasting(s))
            == Part(ops[0], id, Broadcasting(s)) + Local(ops[1..], id, Broadcasting(Step(s, ops[0])))
  {
    StepBroadcasting(s, ops[0]);
  }

  lemma Associate<T>(a: seq<T>, b: seq<T>, c: seq<T>)
    ensures a + (b + c) == (a + b) + c
  {
  }

  /** `h` is the subscriber's part so far, `all` its part of the whole run. */
  lemma {:induction false} RunStreams<T>(s: State<T>, ops: seq<Op<T>>, id: nat, h: seq<Event<T>>, all: seq<Event<T>>)
    requires Safe(s) && IsRun(s, ops) && StreamsAt(s, id, h)
    requires all == h + Local(ops, id, Broadcasting(s))
    ensures StreamsAt(After(s, ops), id, all)
    decreases |ops|
  {
    if ops == [] {
      assert all == h;
    } else {
      var part := Part(ops[0], id, Broadcasting(s));
      StepStreams(s, ops[0], id, h);
      LocalSplit(s, ops, id);
      Associate(h, part, Local(ops[1..], id, Broadcasting(Step(s, ops[0]))));
      RunStreams(Step(s, ops[0]), ops[1..], id, h + part, all);
    }
  }

  /** Stream refinement: in every run, what a subscriber has received, followed by what waits in its
      queue, is what was kept of the items offered to it. */
  lemma SubscriberStream<T>(ops: seq<Op<T>>, id: nat)
    requires IsRun(Start<T>(), ops) && id in After(Start<T>(), ops).chans
    ensures var c, h := After(Start<T>(), ops).chans[id], Local(ops, id, None);
            && c.received + c.queue == Kept(h)
            && |c.received| == Takes(h)
  {
    var h := Local(ops, id, None);
    assert h == [] + h;
    RunStreams(Start<T>(), ops, id, [], h);
    StreamJoins(After(Start<T>(), ops).chans[id], h);
  }

  lemma StreamJoins<T>(c: Chan<T>, h: seq<Event<T>>)
    requires Streams(c, h)
    ensures c.received + c.queue == Kept(h) && |c.received| == Takes(h)
  {
  }

  /** Isolation: a subscriber's stream is a function of its own part of the run. In two runs that
      differ only in what others subscribe, receive, leave or miss, it is the same. */
  lemma SubscribersAreIsolated<T>(ops: seq<Op<T>>, ops': seq<Op<T>>, id: nat)
    requires IsRun(Start<T>(), ops) && id in After(Start<T>(), ops).chans
    requires IsRun(Start<T>(), ops') && id in After(Start<T>(), ops').chans
    requires Local(ops, id, None) == Local(ops', id, None)
    ensures var c, c' := After(Start<T>(), ops).chans[id], After(Start<T>(), ops').chans[id];
            c.received == c'.received && c.queue == c'.queue
  {
    SubscriberStream(ops, id);
    SubscriberStream(ops', id);
    var c, c' := After(Start<T>(), ops).chans[id], After(Start<T>(), ops').chans[id];
    assert c.received == (c.received + c.queue)[..|c.received|] == c'.received;
    assert c.queue == (c.received + c.queue)[|c.received|..] == c'.queue;
  }

  // --- Which items are missing ---

  /** The positions, among the offers, of the kept items. */
  function KeptAt<T>(h: seq<Event<T>>): seq<nat> {
    if h == [] then [] else
      var before := h[..|h| - 1];
      if h[|h| - 1].Offer? && |Kept(before)| - Takes(before) < CAPACITY
      then KeptAt(before) + [|Offers(before)|]
      else KeptAt(before)
  }

  predicate Increasing(xs: seq<nat>) {
    forall i, j :: 0 <= i < j < |xs| ==> xs[i] < xs[j]
  }

  /** The kept items are an in-order subsequence of the offers. */
  lemma {:induction false} KeptIsSubsequence<T>(h: seq<Event<T>>)
    ensures |KeptAt(h)| == |Kept(h)| && Increasing(KeptAt(h))
    ensures forall i :: 0 <= i < |Kept(h)| ==> KeptAt(h)[i] < |Offers(h)| && Kept(h)[i] == Offers(h)[KeptAt(h)[i]]
    decreases |h|
  {
    if h != [] {
      KeptIsSubsequence(h[..|h| - 1]);
    }
  }

  /** An offer is missing from the stream exactly if eight accepted items were waiting then. */
  lemma {:induction false} MissingWhenFull<T>(h: seq<Event<T>>, p: nat)
    requires p < |h| && h[p].Offer?
    ensures |Offers(h[..p])| in KeptAt(h) <==> |Kept(h[..p])| - Takes(h[..p]) < 8
    decreases |h|
  {
    var before := h[..|h| - 1];
    KeptIsSubsequence(before);
    if p == |h| - 1 {
      assert |Offers(before)| !in KeptAt(before);
    } else {
      MissingWhenFull(before, p);
      assert before[..p] == h[..p];
      OffersGrow(before, p);
      assert |Offers(h[..p])| < |Offers(before)|;
    }
  }

  lemma {:induction false} OffersGrow<T>(h: seq<Event<T>>, p: nat)
    requires p < |h| && h[p].Offer?
    ensures |Offers(h[..p])| < |Offers(h)|
    decreases |h|
  {
    if p < |h| - 1 {
      OffersGrow(h[..|h| - 1], p);
      assert h[..|h| - 1][..p] == h[..p];
    }
  }

  /** The offers made while the queue was full. */
  function Dropped<T>(h: seq<Event<T>>): nat {
    if h == [] then 0 else
      var before := h[..|h| - 1];
      Dropped(before) + (if h[|h| - 1].Offer? && |Kept(before)| - Takes(before) >= CAPACITY then 1 else 0)
  }

  lemma {:induction false} KeptAndDropped<T>(h: seq<Event<T>>)
    ensures |Kept(h)| + Dropped(h) == |Offers(h)|
    decreases |h|
  {
    if h != [] {
      KeptAndDropped(h[..|h| - 1]);
    }
  }

  // --- The offers are the broadcasts made while subscribed ---

  /** The item of a broadcast that has not reached this subscriber yet. */
  function Outstanding<T>(s: State<T>, id: nat): seq<T> {
    if s.sending.Some? && id in s.sending.value.pending then [s.sending.value.item] else []
  }

  lemma {:induction false} OffersConcat<T>(g: seq<Event<T>>, h: seq<Event<T>>)
    ensures Offers(g + h) == Offers(g) + Offers(h)
    decreases |h|
  {
    if h == [] {
      assert g + h == g;
    } else {
      OffersConcat(g, h[..|h| - 1]);
      assert (g + h)[..|g + h| - 1] == g + h[..|h| - 1];
    }
  }

  /** What one operation lets a subscriber hear, and whether it stays registered. */
  function HeardNow<T>(op: Op<T>, on: bool): seq<T> {
    if op.Begin? && on then [op.item] else []
  }

  function Registered<T>(op: Op<T>, id: nat, on: bool): bool {
    match op
    case Join(k) => on || k == id
    case Leave(k) => on && k != id
    case _ => on
  }

  /** The items whose broadcast began while the subscriber was registered. */
  function Heard<T>(ops: seq<Op<T>>, id: nat, on: bool): seq<T> {
    if ops == [] then [] else HeardNow(ops[0], on) + Heard(ops[1..], id, Registered(ops[0], id, on))
  }

  lemma StepHears<T>(s: State<T>, op: Op<T>, id: nat)
    requires Safe(s) && Enabled(s, op)
    ensures Outstanding(s, id) + HeardNow(op, id in s.subs)
            == Offers(Part(op, id, Broadcasting(s))) + Outstanding(Step(s, op), id)
    ensures Registered(op, id, id in s.subs) == (id in Step(s, op).subs)
  {
    var part := Part(op, id, Broadcasting(s));
    assert part != [] ==> part[..0] == [];
  }

  lemma Regroup<T>(o: seq<T>, now: seq<T>, later: seq<T>, x: seq<T>, o': seq<T>, y: seq<T>, end: seq<T>)
    requires o + now == x + o' && o' + later == y + end
    ensures o + (now + later) == (x + y) + end
  {
    Associate(o, now, later);
    Associate(x, o', later);
    Associate(x, y, end);
  }

  lemma {:induction false} RunHears<T>(s: State<T>, ops: seq<Op<T>>, id: nat)
    requires Safe(s) && IsRun(s, ops)
    ensures Outstanding(s, id) + Heard(ops, id, id in s.subs)
            == Offers(Local(ops, id, Broadcasting(s))) + Outstanding(After(s, ops), id)
    decreases |ops|
  {
    if ops != [] {
      var s' := Step(s, ops[0]);
      var part, rest := Part(ops[0], id, Broadcasting(s)), Local(ops[1..], id, Broadcasting(s'));
      StepHears(s, ops[0], id);
      LocalSplit(s, ops, id);
      OffersConcat(part, rest);
      RunHears(s', ops[1..], id);
      Regroup(Outstanding(s, id), HeardNow(ops[0], id in s.subs), Heard(ops[1..], id, id in s'.subs),
              Offers(part), Outstanding(s', id), Offers(rest), Outstanding(After(s, ops), id));
    }
  }

  /** Accounting: between broadcasts, everything broadcast while a subscriber was registered was
      received, waits in its queue, or was dropped while its queue was full; and what was offered
      to it is exactly those broadcasts, in order. */
  lemma EveryBroadcastAccounted<T>(ops: seq<Op<T>>, id: nat)
    requires IsRun(Start<T>(), ops) && id in After(Start<T>(), ops).chans
    requires After(Start<T>(), ops).sending.None?
    ensures var c, h := After(Start<T>(), ops).chans[id], Local(ops, id, None);
            && Offers(h) == Heard(ops, id, false)
            && |c.received| + |c.queue| + Dropped(h) == |Heard(ops, id, false)|
  {
    RunHears(Start<T>(), ops, id);
    var o: seq<T> := Outstanding(Start<T>(), id);
    assert o == [] && o + Heard(ops, id, false) == Heard(ops, id, false);
    assert Offers(Local(ops, id, None)) + [] == Offers(Local(ops, id, None));
    SubscriberStream(ops, id);
    KeptAndDropped(Local(ops, id, None));
  }

  /** What the machine's streams say of a server's channels: what was received from a channel and
      what waits in it is what was kept of the broadcasts made while it was registered. */
  lemma ServerStream<T>(server: Server<T>, ch: Channel<T>)
    requires server.Valid() && ch in server.names
    ensures var id := server.names[ch];
            var h := Local(server.trace, id, None);
            && ch.received + ch.queue == Kept(h)
            && Offers(h) == Heard(server.trace, id, false)
            && |ch.received| + |ch.queue| + Dropped(h) == |Heard(server.trace, id, false)|
  {
    var id := server.names[ch];
    assert id in server.now.chans && server.now.chans[id] == ch.View();
    SubscriberStream(server.trace, id);
    EveryBroadcastAccounted(server.trace, id);
  }
}
