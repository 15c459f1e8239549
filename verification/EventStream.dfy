/** The live event stream of one job: publishers store an event and then publish it, while clients
    subscribe, list the history, write it, and then drain a bounded channel. Every lock-protected
    action is one step; the steps of all publishers and clients interleave freely. */
module EventStream {
  import opened Text

  /** Events are known by their unique IDs. */
  type EventId = nat

  type ClientId = nat

  const CHANNEL_CAPACITY := 32

  datatype Phase = Subscribed | History | Live | Done

  /** One stream request. The last four fields record what the code keeps nowhere: the events that found
      the channel full, the history as listed, the events taken off the channel, and how many events had
      been published when the request subscribed. */
  datatype Client = Client(
    phase: Phase, subscribed: bool, closed: bool, channel: seq<EventId>,
    backlog: seq<EventId>, seen: set<EventId>, written: seq<EventId>,
    dropped: set<EventId>, history: seq<EventId>, taken: seq<EventId>, from: nat)

  /** Both lists in the order of time. */
  datatype Stream = Stream(stored: seq<EventId>, published: seq<EventId>, clients: map<ClientId, Client>)

  function NewClient(from: nat): Client { Client(Subscribed, true, false, [], [], {}, [], {}, [], [], from) }

  /** What publishing does to one subscriber: never blocks, drops when the channel is full. */
  function Offer(c: Client, e: EventId): Client {
    if !c.subscribed then c
    else if |c.channel| < CHANNEL_CAPACITY then c.(channel := c.channel + [e])
    else c.(dropped := c.dropped + {e})
  }

  function OfferAll(clients: map<ClientId, Client>, e: EventId): map<ClientId, Client> {
    map c | c in clients :: Offer(clients[c], e)
  }

  /** Taking one event off the channel; an event already written is skipped. */
  function Deliver(c: Client): Client
    requires c.channel != []
  {
    var e := c.channel[0];
    var rest := c.(channel := c.channel[1..], taken := c.taken + [e]);
    if e in c.seen then rest else rest.(seen := c.seen + {e}, written := c.written + [e])
  }

  datatype Step =
    | Store(e: EventId)
    | Publish(e: EventId)
    | Subscribe(c: ClientId)
    | ListHistory(c: ClientId)
    | WriteHistory(c: ClientId)
    | GoLive(c: ClientId)
    | Receive(c: ClientId)
    | Leave(c: ClientId)
    | Unsubscribe(c: ClientId)
    | Close(c: ClientId)

  predicate In(s: Stream, c: ClientId, phase: Phase) { c in s.clients && s.clients[c].phase == phase }

  predicate Enabled(s: Stream, step: Step) {
    match step
    case Store(e) => e !in s.stored
    case Publish(e) => e in s.stored && e !in s.published
    case Subscribe(c) => c !in s.clients
    case ListHistory(c) => In(s, c, Subscribed)
    case WriteHistory(c) => In(s, c, History) && s.clients[c].backlog != []
    case GoLive(c) => In(s, c, History) && s.clients[c].backlog == []
    case Receive(c) => In(s, c, Live) && s.clients[c].channel != []
    case Leave(c) => c in s.clients
    case Unsubscribe(c) => c in s.clients
    case Close(c) => c in s.clients && !s.clients[c].subscribed && !s.clients[c].closed
  }

  function Take(s: Stream, step: Step): Stream
    requires Enabled(s, step)
  {
    match step
    case Store(e) => s.(stored := s.stored + [e])
    case Publish(e) => s.(published := s.published + [e], clients := OfferAll(s.clients, e))
    case Subscribe(c) => s.(clients := s.clients[c := NewClient(|s.published|)])
    case ListHistory(c) => s.(clients := s.clients[c := s.clients[c].(phase := History, backlog := s.stored, history := s.stored)])
    case WriteHistory(c) =>
      var k := s.clients[c];
      s.(clients := s.clients[c := k.(backlog := k.backlog[1..], seen := k.seen + {k.backlog[0]}, written := k.written + [k.backlog[0]])])
    case GoLive(c) => s.(clients := s.clients[c := s.clients[c].(phase := Live)])
    case Receive(c) => s.(clients := s.clients[c := Deliver(s.clients[c])])
    case Leave(c) => s.(clients := s.clients[c := s.clients[c].(phase := Done)])
    case Unsubscribe(c) => s.(clients := s.clients[c := s.clients[c].(subscribed := false)])
    case Close(c) => s.(clients := s.clients[c := s.clients[c].(closed := true)])
  }

  const START := Stream([], [], map[])

  ghost predicate Legal(steps: seq<Step>)
    decreases |steps|, 0
  {
    steps == [] || (Legal(steps[..|steps| - 1]) && Enabled(After(steps[..|steps| - 1]), steps[|steps| - 1]))
  }

  ghost function After(steps: seq<Step>): Stream
    requires Legal(steps)
    decreases |steps|, 1
  {
    if steps == [] then START else Take(After(steps[..|steps| - 1]), steps[|steps| - 1])
  }

  // ---- invariant ----

  predicate Distinct(es: seq<EventId>) { forall i, j | 0 <= i < j < |es| :: es[i] != es[j] }

  /** An event is accounted for by a client: written, still to be written, or dropped. */
  predicate Accounted(c: Client, e: EventId) {
    e in c.written || e in c.backlog || e in c.channel || e in c.dropped
  }

  predicate Listening(c: Client) { c.subscribed && (c.phase == History || c.phase == Live) }

  ghost predicate ClientOk(s: Stream, c: Client) {
    && (c.subscribed ==> !c.closed)
    && |c.channel| <= CHANNEL_CAPACITY
    && Distinct(c.written) && Distinct(c.backlog) && Distinct(c.channel)
    && (forall e :: e in c.seen <==> e in c.written)
    && (forall e | e in c.backlog :: e !in c.seen && e in s.stored)
    && (forall e | e in c.channel :: e in s.published)
    && (forall e | e in c.written :: e in s.stored)
    && (c.phase == Subscribed ==> c.written == [] && c.backlog == [])
    && (c.phase == Live ==> c.backlog == [])
    && (Listening(c) ==> forall e | e in s.published :: Accounted(c, e))
  }

  ghost predicate Inv(s: Stream) {
    && Distinct(s.stored)
    && (forall e | e in s.published :: e in s.stored)
    && (forall c | c in s.clients :: ClientOk(s, s.clients[c]))
  }

  lemma OfferKeeps(s: Stream, c: Client, e: EventId, t: Stream)
    requires ClientOk(s, c) && e !in s.published && e in s.stored
    requires t.stored == s.stored && t.published == s.published + [e]
    ensures ClientOk(t, Offer(c, e))
  {
    var d := Offer(c, e);
    if Listening(c) {
      forall x | x in t.published ensures Accounted(d, x) {
        assert x != e ==> Accounted(c, x);
      }
    }
  }

  lemma DeliverKeeps(s: Stream, c: Client)
    requires ClientOk(s, c) && c.phase == Live && c.channel != [] && forall e | e in s.published :: e in s.stored
    ensures ClientOk(s, Deliver(c))
  {
    var d := Deliver(c);
    var e := c.channel[0];
    assert e in c.channel;
    assert forall x | x in c.channel :: x == e || x in d.channel;
    if Listening(c) {
      forall x | x in s.published ensures Accounted(d, x) {
        assert Accounted(c, x);
      }
    }
  }

  lemma WriteHistoryKeeps(s: Stream, c: Client)
    requires ClientOk(s, c) && c.phase == History && c.backlog != []
    ensures ClientOk(s, c.(backlog := c.backlog[1..], seen := c.seen + {c.backlog[0]}, written := c.written + [c.backlog[0]]))
  {
    var e := c.backlog[0];
    var d := c.(backlog := c.backlog[1..], seen := c.seen + {e}, written := c.written + [e]);
    assert e in c.backlog;
    assert forall x | x in c.backlog :: x == e || x in d.backlog;
    if Listening(c) {
      forall x | x in s.published ensures Accounted(d, x) {
        assert Accounted(c, x);
      }
    }
  }

  lemma ListKeeps(s: Stream, c: Client)
    requires Inv(s) && ClientOk(s, c) && c.phase == Subscribed
    ensures ClientOk(s, c.(phase := History, backlog := s.stored, history := s.stored))
  {
  }

  lemma ClientGrows(s: Stream, c: Client, t: Stream)
    requires ClientOk(s, c) && t.published == s.published && forall e | e in s.stored :: e in t.stored
    ensures ClientOk(t, c)
  {
  }

  lemma StepKeeps(s: Stream, step: Step)
    requires Inv(s) && Enabled(s, step)
    ensures Inv(Take(s, step))
  {
    if step.Store? || step.Publish? {
      PublisherStepKeeps(s, step);
    } else {
      ClientStepKeeps(s, step, step.c);
      OthersKeep(s, Take(s, step), step.c);
    }
  }

  lemma PublisherStepKeeps(s: Stream, step: Step)
    requires Inv(s) && Enabled(s, step) && (step.Store? || step.Publish?)
    ensures Inv(Take(s, step))
  {
    var t := Take(s, step);
    forall c | c in t.clients ensures ClientOk(t, t.clients[c]) {
      if step.Store? {
        ClientGrows(s, s.clients[c], t);
      } else {
        OfferKeeps(s, s.clients[c], step.e, t);
      }
    }
  }

  lemma ClientStepKeeps(s: Stream, step: Step, c: ClientId)
    requires Inv(s) && Enabled(s, step) && !step.Store? && !step.Publish? && step.c == c
    ensures var t := Take(s, step);
        c in t.clients && ClientOk(s, t.clients[c]) && t == s.(clients := s.clients[c := t.clients[c]])
  {
    if c in s.clients {
      assert ClientOk(s, s.clients[c]);
    }
    match step
    case ListHistory(_) => ListKeeps(s, s.clients[c]);
    case WriteHistory(_) => WriteHistoryKeeps(s, s.clients[c]);
    case Receive(_) => DeliverKeeps(s, s.clients[c]);
    case _ =>
  }

  lemma OthersKeep(s: Stream, t: Stream, c: ClientId)
    requires Inv(s) && c in t.clients && ClientOk(s, t.clients[c]) && t == s.(clients := s.clients[c := t.clients[c]])
    ensures Inv(t)
  {
    forall k | k in t.clients ensures ClientOk(t, t.clients[k]) {
      ClientGrows(s, t.clients[k], t);
    }
  }

  lemma {:induction false} ReachableInv(steps: seq<Step>)
    requires Legal(steps)
    ensures Inv(After(steps))
    decreases |steps|
  {
    if steps != [] {
      ReachableInv(steps[..|steps| - 1]);
      StepKeeps(After(steps[..|steps| - 1]), steps[|steps| - 1]);
    }
  }

  // ---- what clients see ----

  /** In every interleaving no event is written twice to a client, only stored events are written,
      and while the client listens after listing the history every published event is written,
      still pending, or was dropped at a full channel. */
  lemma NoGapNoDuplicate(steps: seq<Step>, c: ClientId)
    requires Legal(steps) && c in After(steps).clients
    ensures var s := After(steps); var k := s.clients[c];
        && (forall i, j | 0 <= i < j < |k.written| :: k.written[i] != k.written[j])
        && (forall e | e in k.written :: e in s.stored)
        && (Listening(k) ==> forall e | e in s.published :: e in k.written || e in k.backlog || e in k.channel || e in k.dropped)
  {
    ReachableInv(steps);
    var s := After(steps);
    assert ClientOk(s, s.clients[c]);
    if Listening(s.clients[c]) {
      forall e | e in s.published ensures Accounted(s.clients[c], e) {
      }
    }
  }

  /** Publishing never sends on a closed channel, and an event is dropped only by its own publish
      step, and only when the client's channel holds 32 events. */
  lemma PublishIsSafe(steps: seq<Step>, step: Step, c: ClientId)
    requires Legal(steps) && Enabled(After(steps), step) && c in After(steps).clients
    ensures var before := After(steps).clients[c]; var after := Take(After(steps), step).clients[c];
        && (step.Publish? && after.channel != before.channel ==> !before.closed && |before.channel| < 32)
        && (after.dropped != before.dropped ==>
              step.Publish? && after.dropped == before.dropped + {step.e} && before.subscribed && |before.channel| == 32)
  {
    ReachableInv(steps);
    assert ClientOk(After(steps), After(steps).clients[c]);
  }

  /** When everything stored has been published, a live client whose channel is drained and that
      dropped nothing has written exactly the stored events, each once. */
  lemma DrainedClientIsComplete(steps: seq<Step>, c: ClientId)
    requires Legal(steps) && c in After(steps).clients
    requires var s := After(steps); var k := s.clients[c];
        Listening(k) && k.phase == Live && k.channel == [] && k.dropped == {} && forall e | e in s.stored :: e in s.published
    ensures var s := After(steps); multiset(s.clients[c].written) == multiset(s.stored)
  {
    ReachableInv(steps);
    var s := After(steps);
    var k := s.clients[c];
    assert ClientOk(s, k);
    forall e ensures e in k.written <==> e in s.stored {
      if e in s.stored {
        assert Accounted(k, e);
      }
    }
    SameElements(k.written, s.stored);
  }

  // ---- the order of what clients see ----

  /** The events that are not in the history, in their order. */
  function Unseen(events: seq<EventId>, history: seq<EventId>): (r: seq<EventId>)
    ensures forall e :: e in r <==> e in events && e !in history
  {
    if events == [] then []
    else
      var n := |events| - 1;
      assert events == events[..n] + [events[n]];
      var init := Unseen(events[..n], history);
      if events[n] in history then init else init + [events[n]]
  }

  lemma UnseenMore(events: seq<EventId>, e: EventId, history: seq<EventId>)
    ensures Unseen(events + [e], history) == if e in history then Unseen(events, history) else Unseen(events, history) + [e]
  {
    assert (events + [e])[..|events|] == events;
  }

  /** `part` is what is left of `all` when some items are dropped. */
  predicate PartOf(part: seq<EventId>, all: seq<EventId>) {
    part == [] ||
    (all != [] && (PartOf(part, all[..|all| - 1]) ||
                   (part[|part| - 1] == all[|all| - 1] && PartOf(part[..|part| - 1], all[..|all| - 1]))))
  }

  lemma PartOfMore(part: seq<EventId>, all: seq<EventId>, e: EventId)
    requires PartOf(part, all)
    ensures PartOf(part + [e], all + [e]) && PartOf(part, all + [e])
  {
    assert (part + [e])[..|part|] == part && (all + [e])[..|all|] == all;
  }

  /** What a client has written and still has to write is the history in stored order, then the live events
      not in the history in the order they came off the channel. The channel holds events in the order they
      were published since the subscription, and all of them if none was dropped. */
  ghost predicate InOrder(s: Stream, c: Client) {
    && c.history <= s.stored
    && c.written + c.backlog == c.history + Unseen(c.taken, c.history)
    && (c.phase == Subscribed ==> c.history == []) && (c.phase == Subscribed || c.phase == History ==> c.taken == [])
    && Arrived(s.published, c)
  }

  ghost predicate Arrived(published: seq<EventId>, c: Client) {
    && Part(published, c.from, c.taken + c.channel)
    && (c.subscribed && c.dropped == {} ==> c.taken + c.channel == published[c.from..])
  }

  ghost predicate AllInOrder(s: Stream) { forall c | c in s.clients :: InOrder(s, s.clients[c]) }

  /** A part of what was published since `from`, each event once. */
  ghost predicate Part(published: seq<EventId>, from: nat, all: seq<EventId>) {
    from <= |published| && Distinct(all) && (forall e | e in all :: e in published) && PartOf(all, published[from..])
  }

  lemma PartMore(published: seq<EventId>, from: nat, all: seq<EventId>, e: EventId)
    requires Part(published, from, all) && e !in published
    ensures Part(published + [e], from, all) && Part(published + [e], from, all + [e])
    ensures (published + [e])[from..] == published[from..] + [e]
  {
    assert (published + [e])[from..] == published[from..] + [e];
    PartOfMore(all, published[from..], e);
    DistinctMore(all, e);
  }

  lemma OfferArrives(published: seq<EventId>, c: Client, e: EventId)
    requires Arrived(published, c) && e !in published
    ensures Arrived(published + [e], Offer(c, e))
  {
    PartMore(published, c.from, c.taken + c.channel, e);
    assert c.taken + (c.channel + [e]) == c.taken + c.channel + [e];
  }

  lemma DistinctMore(es: seq<EventId>, e: EventId)
    requires Distinct(es) && e !in es
    ensures Distinct(es + [e]) && forall x :: x in es + [e] <==> x in es || x == e
  {
  }

  lemma DeliverInOrder(s: Stream, c: Client)
    requires ClientOk(s, c) && InOrder(s, c) && c.phase == Live && c.channel != []
    ensures InOrder(s, Deliver(c))
  {
    var e := c.channel[0];
    var all := c.taken + c.channel;
    assert c.taken + [e] + c.channel[1..] == all;
    forall i | 0 <= i < |c.taken| ensures c.taken[i] != e {
      assert all[i] == c.taken[i] && all[|c.taken|] == e;
    }
    UnseenMore(c.taken, e, c.history);
    assert c.backlog == [] && c.written + [] == c.written;
    assert e in c.seen <==> e in c.history;
    assert c.written + [e] + [] == c.history + (Unseen(c.taken, c.history) + [e]);
  }

  lemma ClientStepInOrder(s: Stream, step: Step, c: ClientId)
    requires Inv(s) && AllInOrder(s) && Enabled(s, step) && !step.Store? && !step.Publish? && step.c == c
    ensures InOrder(Take(s, step), Take(s, step).clients[c])
  {
    match step
    case Subscribe(_) =>
    case ListHistory(_) =>
    case WriteHistory(_) =>
      var k := s.clients[c];
      assert k.written + [k.backlog[0]] + k.backlog[1..] == k.written + k.backlog;
    case Receive(_) => DeliverInOrder(s, s.clients[c]);
    case _ =>
  }

  lemma PublishInOrder(s: Stream, e: EventId)
    requires AllInOrder(s) && Enabled(s, Publish(e))
    ensures AllInOrder(Take(s, Publish(e)))
  {
    var t := Take(s, Publish(e));
    forall c | c in t.clients ensures InOrder(t, t.clients[c]) {
      assert InOrder(s, s.clients[c]);
      OfferArrives(s.published, s.clients[c], e);
      OfferKeepsOrder(s, t, s.clients[c], e);
    }
  }

  lemma OfferKeepsOrder(s: Stream, t: Stream, c: Client, e: EventId)
    requires InOrder(s, c) && t.stored == s.stored && Arrived(t.published, Offer(c, e))
    ensures InOrder(t, Offer(c, e))
  {
  }

  lemma OtherInOrder(s: Stream, t: Stream, c: Client)
    requires InOrder(s, c) && s.stored <= t.stored && t.published == s.published
    ensures InOrder(t, c)
  {
  }

  lemma StepInOrder(s: Stream, step: Step)
    requires Inv(s) && AllInOrder(s) && Enabled(s, step)
    ensures AllInOrder(Take(s, step))
  {
    var t := Take(s, step);
    if step.Publish? {
      PublishInOrder(s, step.e);
    } else {
      forall c | c in t.clients ensures InOrder(t, t.clients[c]) {
        if !step.Store? && step.c == c {
          ClientStepInOrder(s, step, c);
        } else {
          OtherInOrder(s, t, s.clients[c]);
        }
      }
    }
  }

  lemma {:induction false} ReachableInOrder(steps: seq<Step>)
    requires Legal(steps)
    ensures AllInOrder(After(steps))
    decreases |steps|
  {
    if steps != [] {
      ReachableInOrder(steps[..|steps| - 1]);
      ReachableInv(steps[..|steps| - 1]);
      StepInOrder(After(steps[..|steps| - 1]), steps[|steps| - 1]);
    }
  }

  /** In every interleaving a client writes a prefix of the stored events in stored order, and then live
      events in the order they were published; without drops it gets every event published since it
      subscribed. */
  lemma WrittenInOrder(steps: seq<Step>, c: ClientId)
    requires Legal(steps) && c in After(steps).clients
    ensures var s := After(steps); var k := s.clients[c];
        && k.history <= s.stored && k.written + k.backlog == k.history + Unseen(k.taken, k.history)
        && k.from <= |s.published| && PartOf(k.taken + k.channel, s.published[k.from..])
        && (k.subscribed && k.dropped == {} ==> k.taken + k.channel == s.published[k.from..])
  {
    ReachableInOrder(steps);
    assert InOrder(After(steps), After(steps).clients[c]);
  }

  lemma SameElements(a: seq<EventId>, b: seq<EventId>)
    requires Distinct(a) && Distinct(b) && forall e :: e in a <==> e in b
    ensures multiset(a) == multiset(b)
  {
    forall e ensures multiset(a)[e] == multiset(b)[e] {
      CountsOnce(a, e);
      CountsOnce(b, e);
    }
  }

  lemma {:induction false} CountsOnce(es: seq<EventId>, e: EventId)
    requires Distinct(es)
    ensures multiset(es)[e] == if e in es then 1 else 0
  {
    if es != [] {
      var n := |es| - 1;
      CountsOnce(es[..n], e);
      assert es == es[..n] + [es[n]];
      assert es[n] !in es[..n];
    }
  }

  // ---- the code of the publishers and of a stream request ----

  /** The loop over the subscribers. */
  method OfferToAll(clients: map<ClientId, Client>, e: EventId) returns (out: map<ClientId, Client>)
    ensures out == OfferAll(clients, e)
  {
    out := clients;
    var todo := clients.Keys;
    while todo != {}
      invariant out.Keys == clients.Keys && todo <= clients.Keys
      invariant forall c | c in clients :: out[c] == if c in todo then clients[c] else Offer(clients[c], e)
      decreases |todo|
    {
      var c :| c in todo;
      todo := todo - {c};
      var k := out[c];
      if k.subscribed {
        if |k.channel| < CHANNEL_CAPACITY {
          out := out[c := k.(channel := k.channel + [e])];
        } else {
          out := out[c := k.(dropped := k.dropped + {e})];
        }
      }
    }
  }

  class Broker {
    var stored: seq<EventId>
    var published: seq<EventId>
    var clients: map<ClientId, Client>

    constructor ()
      ensures View() == START
    {
      stored, published, clients := [], [], map[];
    }

    ghost function View(): Stream
      reads this
    {
      Stream(stored, published, clients)
    }

    method AddEvent(e: EventId)
      requires Enabled(View(), Store(e))
      modifies this`stored
      ensures View() == Take(old(View()), Store(e))
    {
      stored := stored + [e];
    }

    /** Offers the event to every subscriber without blocking. */
    method PublishEvent(e: EventId)
      requires Enabled(View(), Publish(e))
      modifies this`published, this`clients
      ensures View() == Take(old(View()), Publish(e))
    {
      published := published + [e];
      clients := OfferToAll(clients, e);
    }

    /** A new stream request: registers a channel, so that nothing published from now on is missed. */
    method SubscribeJob(c: ClientId)
      requires Enabled(View(), Subscribe(c))
      modifies this`clients
      ensures View() == Take(old(View()), Subscribe(c))
    {
      clients := clients[c := NewClient(|published|)];
    }

    /** Reads the stored events of the job. */
    method ListJobEvents(c: ClientId)
      requires Enabled(View(), ListHistory(c))
      modifies this`clients
      ensures View() == Take(old(View()), ListHistory(c))
    {
      clients := clients[c := clients[c].(phase := History, backlog := stored, history := stored)];
    }

    /** The history is written; the live loop begins. */
    method StartLive(c: ClientId)
      requires Enabled(View(), GoLive(c))
      modifies this`clients
      ensures View() == Take(old(View()), GoLive(c))
    {
      clients := clients[c := clients[c].(phase := Live)];
    }

    /** The request ends. */
    method LeaveStream(c: ClientId)
      requires Enabled(View(), Leave(c))
      modifies this`clients
      ensures View() == Take(old(View()), Leave(c))
    {
      clients := clients[c := clients[c].(phase := Done)];
    }

    /** The clean-up once the request's context is done, under the lock that publishers take. */
    method Unregister(c: ClientId)
      requires Enabled(View(), Unsubscribe(c))
      modifies this`clients
      ensures View() == Take(old(View()), Unsubscribe(c))
    {
      clients := clients[c := clients[c].(subscribed := false)];
    }

    /** The channel is closed after the lock is released. */
    method CloseChannel(c: ClientId)
      requires Enabled(View(), Close(c))
      modifies this`clients
      ensures View() == Take(old(View()), Close(c))
    {
      clients := clients[c := clients[c].(closed := true)];
    }

    /** Writes one event of the listed history. */
    method WriteOne(c: ClientId)
      requires Enabled(View(), WriteHistory(c))
      modifies this`clients
      ensures View() == Take(old(View()), WriteHistory(c))
    {
      var k := clients[c];
      var e := k.backlog[0];
      k := k.(seen := k.seen + {e});
      clients := clients[c := k.(backlog := k.backlog[1..], written := k.written + [e])];
    }

    /** One turn of the live loop: reads the channel and skips what was already written. */
    method ReceiveOne(c: ClientId)
      requires Enabled(View(), Receive(c))
      modifies this`clients
      ensures View() == Take(old(View()), Receive(c))
    {
      var k := clients[c];
      var e := k.channel[0];
      k := k.(channel := k.channel[1..], taken := k.taken + [e]);
      if e !in k.seen {
        k := k.(seen := k.seen + {e}, written := k.written + [e]);
      }
      clients := clients[c := k];
    }
  }
}
