/** Clients of the twin server: pushes, lost messages and the bounded offline queue, as steps that
    any number of clients and any number of threads in them interleave. */
module TwinClients {
  import opened Basics
  import opened Twin

  /** What a client learns of a push: the server's code, or nothing. */
  datatype Reply = Heard(code: Code) | Lost

  /** A call in progress. A push has been sent and its reply is to be handled; a flush has peeked at
      an entry and will post it; or its entry was accepted and is to be popped. */
  datatype Flight = Pushing(twin: DrawerTwin, reply: Reply) | Peeked(tag: nat) | Popping(tag: nat) | Landed

  /** A client. Every queue entry has a tag, its position among all twins ever queued; the queue
      holds the tags. The sets remember which entries the server accepted from the queue and which
      a full queue dropped. strayed: a pop removed an entry that the server had not accepted.
      broken: the front of an empty queue was popped. */
  datatype Client = Client(
    depth: int, queue: seq<nat>, issued: seq<DrawerTwin>, flights: seq<Flight>,
    accepted: set<nat>, dropped: set<nat>, strayed: bool, broken: bool)

  datatype System = System(server: Table, clients: map<nat, Client>)

  /** A client that starts with saved entries. */
  function LoadedClient(depth: int, saved: seq<DrawerTwin>): Client {
    Client(depth, Tags(|saved|), saved, [], {}, {}, false, false)
  }

  function Tags(n: nat): (r: seq<nat>)
    ensures |r| == n && forall i :: 0 <= i < n ==> r[i] == i
  {
    if n == 0 then [] else Tags(n - 1) + [n - 1]
  }

  // ---- Steps of one client

  predicate Flushing(f: Flight) {
    f.Peeked? || f.Popping?
  }

  predicate AnyFlushing(flights: seq<Flight>) {
    exists i :: 0 <= i < |flights| && Flushing(flights[i])
  }

  /** A full queue drops its oldest entry, then the twin is queued. */
  function Enqueue(c: Client, twin: DrawerTwin): Client {
    var c1 :=
      if |c.queue| < c.depth then c
      else if c.queue == [] then c.(broken := true)
      else c.(queue := c.queue[1..], dropped := c.dropped + {c.queue[0]});
    c1.(queue := c1.queue + [|c.issued|], issued := c.issued + [twin])
  }

  /** A flush removes the front of the queue, whatever it is by then. */
  function Popped(c: Client, i: nat): Client
    requires i < |c.flights|
  {
    var c1 := c.(flights := c.flights[i := Landed]);
    if c.queue == [] then c1.(broken := true)
    else c1.(queue := c.queue[1..], strayed := c.strayed || c.queue[0] !in c.accepted)
  }

  /** A push reaches the server or not, and the reply comes back or not. */
  function ReplyTo(t: Table, twin: DrawerTwin, delivered: bool, answered: bool): Reply {
    if delivered && answered then Heard(Judge(t, twin.drawerId, twin)) else Lost
  }

  function Delivered(t: Table, twin: DrawerTwin, delivered: bool): Table {
    if delivered then Posted(t, twin.drawerId, twin) else t
  }

  datatype Action =
    | Send(twin: DrawerTwin, delivered: bool, answered: bool)
    | Handle(i: nat)
    | Peek
    | Post(i: nat, delivered: bool, answered: bool)
    | Pop(i: nat)

  predicate Enabled(c: Client, a: Action) {
    match a
    case Send(_, _, _) => true
    case Handle(i) => i < |c.flights| && c.flights[i].Pushing?
    case Peek => c.queue != []
    case Post(i, _, _) => i < |c.flights| && c.flights[i].Peeked? && c.flights[i].tag < |c.issued|
    case Pop(i) => i < |c.flights| && c.flights[i].Popping?
  }

  function Sent(t: Table, c: Client, a: Action): Table
    requires Enabled(c, a)
  {
    match a
    case Send(twin, delivered, _) => Delivered(t, twin, delivered)
    case Post(i, delivered, _) => Delivered(t, c.issued[c.flights[i].tag], delivered)
    case _ => t
  }

  /** Handling a push's reply: anything but success and conflict queues the twin. */
  function Handled(c: Client, i: nat): Client
    requires i < |c.flights| && c.flights[i].Pushing?
  {
    var f := c.flights[i];
    var c1 := c.(flights := c.flights[i := Landed]);
    if f.reply == Heard(Accepted) || f.reply == Heard(Conflict) then c1 else Enqueue(c1, f.twin)
  }

  /** Posting a peeked entry: success leads to the pop, anything else ends the flush. */
  function PostedEntry(t: Table, c: Client, i: nat, delivered: bool, answered: bool): Client
    requires i < |c.flights| && c.flights[i].Peeked? && c.flights[i].tag < |c.issued|
  {
    var tag := c.flights[i].tag;
    var twin := c.issued[tag];
    var taken := delivered && Judge(t, twin.drawerId, twin) == Accepted;
    c.(accepted := if taken then c.accepted + {tag} else c.accepted,
       flights := c.flights[i := if ReplyTo(t, twin, delivered, answered) == Heard(Accepted) then Popping(tag) else Landed])
  }

  function Moved(t: Table, c: Client, a: Action): Client
    requires Enabled(c, a)
  {
    match a
    case Send(twin, delivered, answered) =>
      c.(flights := c.flights + [Pushing(twin, ReplyTo(t, twin, delivered, answered))])
    case Handle(i) => Handled(c, i)
    case Peek => c.(flights := c.flights + [Peeked(c.queue[0])])
    case Post(i, delivered, answered) => PostedEntry(t, c, i, delivered, answered)
    case Pop(i) => Popped(c, i)
  }

  // ---- What holds of a client whose pops have not strayed

  predicate Placed(c: Client, tag: nat) {
    tag in c.queue || tag in c.accepted || tag in c.dropped
  }

  predicate AtFront(c: Client, tag: nat) {
    c.queue != [] && c.queue[0] == tag
  }

  predicate FlightOk(c: Client, f: Flight) {
    match f
    case Peeked(tag) => tag < |c.issued| && (tag in c.accepted || tag in c.dropped || AtFront(c, tag))
    case Popping(tag) => tag in c.accepted && (tag in c.queue ==> AtFront(c, tag))
    case _ => true
  }

  predicate TagsOk(c: Client) {
    && (forall k :: 0 <= k < |c.queue| ==> c.queue[k] < |c.issued|)
    && (forall tag :: tag in c.accepted ==> tag < |c.issued|)
    && (forall tag :: tag in c.dropped ==> tag < |c.issued|)
  }

  /** The queue is in the order of issue; only its front may have been accepted, and nothing in it
      has been dropped. */
  predicate QueueOk(c: Client) {
    && (forall k, l :: 0 <= k < l < |c.queue| ==> c.queue[k] < c.queue[l])
    && (forall k :: 0 <= k < |c.queue| ==> c.queue[k] !in c.dropped && (k > 0 ==> c.queue[k] !in c.accepted))
  }

  predicate FlightsOk(c: Client) {
    forall i :: 0 <= i < |c.flights| ==> FlightOk(c, c.flights[i])
  }

  predicate AllPlaced(c: Client) {
    forall tag: nat :: tag < |c.issued| ==> Placed(c, tag)
  }

  predicate AcceptedGone(t: Table, c: Client)
    requires TagsOk(c)
  {
    forall tag :: tag in c.accepted ==> Superseded(t, c.issued[tag])
  }

  /** Every entry ever queued is still queued, or was accepted, or was dropped by a full queue. */
  predicate Accounted(t: Table, c: Client) {
    TagsOk(c) && QueueOk(c) && AcceptedGone(t, c) && FlightsOk(c) && AllPlaced(c)
  }

  /** Landing a flight disturbs nothing. */
  lemma LandKeeps(t: Table, c: Client, i: nat)
    requires Accounted(t, c) && i < |c.flights|
    ensures Accounted(t, c.(flights := c.flights[i := Landed]))
  {
    var after := c.(flights := c.flights[i := Landed]);
    assert forall tag :: Placed(c, tag) == Placed(after, tag);
    assert forall f :: FlightOk(c, f) == FlightOk(after, f);
  }

  lemma LaunchKeeps(t: Table, c: Client, f: Flight)
    requires Accounted(t, c) && FlightOk(c, f)
    ensures Accounted(t, c.(flights := c.flights + [f]))
  {
    var after := c.(flights := c.flights + [f]);
    assert forall tag :: Placed(c, tag) == Placed(after, tag);
    assert forall g :: FlightOk(c, g) == FlightOk(after, g);
  }

  lemma EnqueueRoom(t: Table, c: Client, twin: DrawerTwin)
    requires Accounted(t, c) && |c.queue| < c.depth
    ensures Accounted(t, Enqueue(c, twin))
  {
    var after := Enqueue(c, twin);
    forall i | 0 <= i < |c.flights|
      ensures FlightOk(after, c.flights[i])
    {
      assert FlightOk(c, c.flights[i]);
    }
    forall tag: nat | tag < |after.issued|
      ensures Placed(after, tag)
    {
      if tag == |c.issued| {
        assert after.queue[|c.queue|] == tag;
      } else {
        assert Placed(c, tag);
      }
    }
  }

  /** Dropping the front leaves a flush of it without its entry, but nothing unaccounted. */
  lemma EnqueueFull(t: Table, c: Client, twin: DrawerTwin)
    requires Accounted(t, c) && c.depth <= |c.queue| && c.queue != []
    ensures Accounted(t, Enqueue(c, twin))
  {
    var after := Enqueue(c, twin);
    assert after.queue == c.queue[1..] + [|c.issued|];
    forall i | 0 <= i < |c.flights|
      ensures FlightOk(after, c.flights[i])
    {
      assert FlightOk(c, c.flights[i]);
      if c.flights[i].Popping? && c.flights[i].tag in after.queue {
        FrontOnly(c, c.flights[i].tag);
      }
    }
    forall tag: nat | tag < |after.issued|
      ensures Placed(after, tag)
    {
      if tag == |c.issued| {
        assert after.queue[|c.queue| - 1] == tag;
      } else {
        assert Placed(c, tag);
        if tag in c.queue {
          var k :| 0 <= k < |c.queue| && c.queue[k] == tag;
          assert k == 0 || after.queue[k - 1] == tag;
        }
      }
    }
  }

  /** An accepted entry is not behind the front. */
  lemma FrontOnly(c: Client, tag: nat)
    requires TagsOk(c) && QueueOk(c) && c.queue != [] && tag in c.accepted
    ensures tag !in c.queue[1..] && tag != |c.issued|
  {
    forall k | 0 <= k < |c.queue| - 1
      ensures c.queue[1..][k] != tag
    {
      assert c.queue[1..][k] == c.queue[k + 1];
    }
  }

  /** A pop that removes an accepted entry leaves nothing unaccounted. */
  lemma PopKeeps(t: Table, c: Client, i: nat)
    requires Accounted(t, c) && i < |c.flights| && c.flights[i].Popping?
    requires c.queue != [] && c.queue[0] in c.accepted
    ensures Accounted(t, Popped(c, i))
  {
    var after := Popped(c, i);
    forall j | 0 <= j < |after.flights|
      ensures FlightOk(after, after.flights[j])
    {
      assert FlightOk(c, c.flights[j]);
      if after.flights[j].Popping? {
        FrontOnly(c, after.flights[j].tag);
      }
    }
    forall tag: nat | tag < |after.issued|
      ensures Placed(after, tag)
    {
      assert Placed(c, tag);
      if tag in c.queue {
        var k :| 0 <= k < |c.queue| && c.queue[k] == tag;
        assert k == 0 || after.queue[k - 1] == tag;
      }
    }
  }

  lemma SupersededAfter(t: Table, sent: DrawerTwin, delivered: bool, twin: DrawerTwin)
    requires Superseded(t, twin)
    ensures Superseded(Delivered(t, sent, delivered), twin)
  {
    SupersededStays(t, Push(sent.drawerId, sent), twin);
  }

  /** What another client sends, or a disabled device, disturbs no client. */
  lemma ServerMoves(t: Table, after: Table, c: Client)
    requires Accounted(t, c) && forall twin :: Superseded(t, twin) ==> Superseded(after, twin)
    ensures Accounted(after, c)
  {
  }

  lemma PostNotTaken(t: Table, c: Client, i: nat, delivered: bool, answered: bool)
    requires Accounted(t, c) && Enabled(c, Post(i, delivered, answered))
    requires !(delivered && Judge(t, c.issued[c.flights[i].tag].drawerId, c.issued[c.flights[i].tag]) == Accepted)
    ensures Accounted(t, PostedEntry(t, c, i, delivered, answered))
    ensures Delivered(t, c.issued[c.flights[i].tag], delivered) == t
  {
    LandKeeps(t, c, i);
    assert PostedEntry(t, c, i, delivered, answered) == c.(flights := c.flights[i := Landed]);
  }

  /** A peeked entry that the server takes has not been taken before: it is at the front, or was
      dropped. */
  lemma PostTaken(t: Table, c: Client, i: nat, answered: bool)
    requires Accounted(t, c) && Enabled(c, Post(i, true, answered))
    requires Judge(t, c.issued[c.flights[i].tag].drawerId, c.issued[c.flights[i].tag]) == Accepted
    ensures Accounted(Delivered(t, c.issued[c.flights[i].tag], true), PostedEntry(t, c, i, true, answered))
    ensures c.flights[i].tag !in c.accepted
  {
    var tag := c.flights[i].tag;
    var twin := c.issued[tag];
    var after, t' := PostedEntry(t, c, i, true, answered), Delivered(t, twin, true);
    AcceptedIsSuperseded(t, twin);
    assert FlightOk(c, c.flights[i]);
    assert tag !in c.accepted && (tag in c.dropped || AtFront(c, tag));
    forall j | 0 <= j < |c.flights|
      ensures FlightOk(after, after.flights[j])
    {
      assert FlightOk(c, c.flights[j]);
    }
    forall other | other in after.accepted
      ensures Superseded(t', c.issued[other])
    {
      if other != tag {
        SupersededAfter(t, twin, true, c.issued[other]);
      }
    }
    forall other: nat | other < |after.issued|
      ensures Placed(after, other)
    {
      assert Placed(c, other);
    }
  }

  /** Nothing has gone astray. */
  predicate Intact(c: Client) {
    !c.strayed && !c.broken
  }

  lemma HandleKeeps(t: Table, c: Client, i: nat)
    requires Accounted(t, c) && Enabled(c, Handle(i)) && Intact(Handled(c, i))
    ensures Accounted(t, Handled(c, i))
  {
    LandKeeps(t, c, i);
    var landed := c.(flights := c.flights[i := Landed]);
    if Handled(c, i) != landed {
      if |c.queue| < c.depth {
        EnqueueRoom(t, landed, c.flights[i].twin);
      } else {
        EnqueueFull(t, landed, c.flights[i].twin);
      }
    }
  }

  /** A step of a client that does not stray keeps its entries accounted for. */
  lemma MoveKeeps(t: Table, c: Client, a: Action)
    requires Accounted(t, c) && Enabled(c, a) && Intact(Moved(t, c, a))
    ensures Accounted(Sent(t, c, a), Moved(t, c, a))
  {
    match a
    case Send(twin, delivered, answered) =>
      LaunchKeeps(t, c, Pushing(twin, ReplyTo(t, twin, delivered, answered)));
      forall other | Superseded(t, other)
        ensures Superseded(Delivered(t, twin, delivered), other)
      {
        SupersededAfter(t, twin, delivered, other);
      }
      ServerMoves(t, Delivered(t, twin, delivered), Moved(t, c, a));
    case Handle(i) =>
      HandleKeeps(t, c, i);
    case Peek =>
      LaunchKeeps(t, c, Peeked(c.queue[0]));
    case Post(i, delivered, answered) =>
      if delivered && Judge(t, c.issued[c.flights[i].tag].drawerId, c.issued[c.flights[i].tag]) == Accepted {
        PostTaken(t, c, i, answered);
      } else {
        PostNotTaken(t, c, i, delivered, answered);
      }
    case Pop(i) =>
      PopKeeps(t, c, i);
  }

  // ---- Exactly which pops lose an entry

  /** Some entry is neither queued nor accepted nor dropped. */
  predicate LosesOne(c: Client) {
    exists tag: nat :: tag < |c.issued| && !Placed(c, tag)
  }

  /** A pop loses an entry exactly when the front of the queue is not one the server has accepted;
      that never happens while the front is still the entry the flush posted. */
  lemma PopLosesExactly(t: Table, c: Client, i: nat)
    requires Accounted(t, c) && Enabled(c, Pop(i))
    ensures LosesOne(Popped(c, i)) <==> c.queue != [] && c.queue[0] !in c.accepted
    ensures LosesOne(Popped(c, i)) ==> !AtFront(c, c.flights[i].tag)
    ensures Intact(c) ==> (LosesOne(Popped(c, i)) <==> Popped(c, i).strayed)
  {
    var after := Popped(c, i);
    assert FlightOk(c, c.flights[i]);
    if c.queue != [] && c.queue[0] !in c.accepted {
      var f := c.queue[0];
      forall k | 0 <= k < |after.queue|
        ensures after.queue[k] != f
      {
        assert after.queue[k] == c.queue[k + 1];
      }
      assert f < |after.issued| && !Placed(after, f);
    } else if c.queue != [] {
      PopKeeps(t, c, i);
    } else {
      forall tag: nat | tag < |after.issued|
        ensures Placed(after, tag)
      {
        assert Placed(c, tag);
      }
    }
  }

  // ---- One flush at a time

  /** Either the entry of the flush is in front, or it was dropped and what is in front has not been
      accepted. */
  predicate Lonely(c: Client, f: Flight) {
    Flushing(f) ==> AtFront(c, f.tag) || (f.tag in c.dropped && (c.queue != [] ==> c.queue[0] !in c.accepted))
  }

  /** At most one flush is under way, and it is lonely. */
  predicate Serial(c: Client) {
    && (forall i, j :: 0 <= i < j < |c.flights| ==> !(Flushing(c.flights[i]) && Flushing(c.flights[j])))
    && (forall i :: 0 <= i < |c.flights| ==> Lonely(c, c.flights[i]))
  }

  lemma SerialEnqueue(t: Table, c: Client, twin: DrawerTwin)
    requires Accounted(t, c) && Serial(c) && Intact(Enqueue(c, twin))
    ensures Serial(Enqueue(c, twin))
  {
    var after := Enqueue(c, twin);
    if |c.queue| < c.depth {
      assert c.queue != [] ==> after.queue[0] == c.queue[0];
    } else {
      assert after.queue == c.queue[1..] + [|c.issued|];
      assert |c.queue| > 1 ==> after.queue[0] == c.queue[1];
    }
    forall i | 0 <= i < |c.flights|
      ensures Lonely(after, c.flights[i])
    {
      assert Lonely(c, c.flights[i]);
    }
  }

  lemma SerialLand(c: Client, i: nat)
    requires Serial(c) && i < |c.flights|
    ensures Serial(c.(flights := c.flights[i := Landed]))
  {
    var after := c.(flights := c.flights[i := Landed]);
    forall j | 0 <= j < |c.flights|
      ensures Lonely(after, after.flights[j])
    {
      assert Lonely(c, c.flights[j]);
    }
  }

  lemma SerialLaunch(c: Client, f: Flight)
    requires Serial(c) && Lonely(c, f) && (Flushing(f) ==> !AnyFlushing(c.flights))
    ensures Serial(c.(flights := c.flights + [f]))
  {
    var after := c.(flights := c.flights + [f]);
    forall j | 0 <= j < |after.flights|
      ensures Lonely(after, after.flights[j])
    {
      assert j < |c.flights| ==> Lonely(c, c.flights[j]);
    }
  }

  lemma SerialPost(t: Table, c: Client, i: nat, delivered: bool, answered: bool)
    requires Accounted(t, c) && Serial(c) && Enabled(c, Post(i, delivered, answered))
    ensures Serial(PostedEntry(t, c, i, delivered, answered))
  {
    var after := PostedEntry(t, c, i, delivered, answered);
    assert Lonely(c, c.flights[i]);
    forall j | 0 <= j < |c.flights|
      ensures Lonely(after, after.flights[j])
    {
      assert j != i ==> !Flushing(c.flights[j]);
    }
  }

  lemma SerialPop(c: Client, i: nat)
    requires Serial(c) && Enabled(c, Pop(i))
    ensures Serial(Popped(c, i))
  {
    var after := Popped(c, i);
    forall j | 0 <= j < |c.flights|
      ensures !Flushing(after.flights[j])
    {
      assert j != i ==> !Flushing(c.flights[j]);
    }
  }

  lemma SerialStep(t: Table, c: Client, a: Action)
    requires Accounted(t, c) && Serial(c) && Enabled(c, a) && Intact(Moved(t, c, a))
    requires a.Peek? ==> !AnyFlushing(c.flights)
    ensures Serial(Moved(t, c, a))
  {
    match a
    case Send(twin, delivered, answered) =>
      SerialLaunch(c, Pushing(twin, ReplyTo(t, twin, delivered, answered)));
    case Handle(i) =>
      LandKeeps(t, c, i);
      SerialLand(c, i);
      if Moved(t, c, a) != c.(flights := c.flights[i := Landed]) {
        SerialEnqueue(t, c.(flights := c.flights[i := Landed]), c.flights[i].twin);
      }
    case Peek => SerialLaunch(c, Peeked(c.queue[0]));
    case Post(i, delivered, answered) => SerialPost(t, c, i, delivered, answered);
    case Pop(i) => SerialPop(c, i);
  }

  /** With one flush at a time, a pop loses an entry exactly when the front is not the entry the
      flush posted, and that is so exactly when a full queue has dropped that entry meanwhile. */
  lemma SerialPopLosesExactly(t: Table, c: Client, i: nat)
    requires Accounted(t, c) && Serial(c) && Enabled(c, Pop(i))
    ensures LosesOne(Popped(c, i)) <==> c.queue != [] && c.queue[0] != c.flights[i].tag
    ensures AtFront(c, c.flights[i].tag) <==> c.flights[i].tag !in c.dropped
  {
    PopLosesExactly(t, c, i);
    assert FlightOk(c, c.flights[i]) && Lonely(c, c.flights[i]);
  }

  // ---- Runs of the whole system

  datatype Step = ByClient(client: nat, action: Action) | ByServer(device: string)

  predicate Possible(s: System, step: Step) {
    step.ByClient? ==> step.client in s.clients && Enabled(s.clients[step.client], step.action)
  }

  function After(s: System, step: Step): System
    requires Possible(s, step)
  {
    match step
    case ByClient(k, a) => System(Sent(s.server, s.clients[k], a), s.clients[k := Moved(s.server, s.clients[k], a)])
    case ByServer(device) => s.(server := DisabledAll(s.server, device))
  }

  predicate CanRun(s: System, steps: seq<Step>)
    decreases |steps|, 0
  {
    steps == [] ||
    (var front := steps[..|steps| - 1];
     CanRun(s, front) && Possible(Run(s, front), steps[|steps| - 1]))
  }

  function Run(s: System, steps: seq<Step>): System
    requires CanRun(s, steps)
    decreases |steps|, 1
  {
    if steps == [] then s else After(Run(s, steps[..|steps| - 1]), steps[|steps| - 1])
  }

  predicate Fresh(c: Client) {
    c == LoadedClient(c.depth, c.issued)
  }

  predicate AllFresh(s: System) {
    forall k :: k in s.clients ==> Fresh(s.clients[k])
  }

  predicate Fine(t: Table, c: Client) {
    Intact(c) ==> Accounted(t, c)
  }

  predicate AllFine(s: System) {
    forall k :: k in s.clients ==> Fine(s.server, s.clients[k])
  }

  lemma SentKeepsSuperseded(t: Table, c: Client, a: Action, twin: DrawerTwin)
    requires Enabled(c, a) && Superseded(t, twin)
    ensures Superseded(Sent(t, c, a), twin)
  {
    match a
    case Send(sent, delivered, _) => SupersededAfter(t, sent, delivered, twin);
    case Post(i, delivered, _) => SupersededAfter(t, c.issued[c.flights[i].tag], delivered, twin);
    case _ =>
  }

  /** The marks stay, and each is set by just the step that earns it. */
  lemma MarksStay(t: Table, c: Client, a: Action)
    requires Enabled(c, a)
    ensures Intact(Moved(t, c, a)) ==> Intact(c)
    ensures Intact(c) ==>
              (Moved(t, c, a).strayed <==> a.Pop? && c.queue != [] && c.queue[0] !in c.accepted)
  {
  }

  lemma StepKeepsSuperseded(s: System, step: Step, twin: DrawerTwin)
    requires Possible(s, step) && Superseded(s.server, twin)
    ensures Superseded(After(s, step).server, twin)
  {
    if step.ByClient? {
      SentKeepsSuperseded(s.server, s.clients[step.client], step.action, twin);
    } else {
      SupersededStays(s.server, Disable(step.device), twin);
    }
  }

  lemma StepKeepsFine(s: System, step: Step)
    requires AllFine(s) && Possible(s, step)
    ensures AllFine(After(s, step))
  {
    var after := After(s, step);
    forall twin | Superseded(s.server, twin)
      ensures Superseded(after.server, twin)
    {
      StepKeepsSuperseded(s, step, twin);
    }
    forall k | k in after.clients
      ensures Fine(after.server, after.clients[k])
    {
      assert Fine(s.server, s.clients[k]);
      if step.ByClient? && step.client == k {
        MarksStay(s.server, s.clients[k], step.action);
        if Intact(after.clients[k]) {
          MoveKeeps(s.server, s.clients[k], step.action);
        }
      } else if Intact(s.clients[k]) {
        ServerMoves(s.server, after.server, s.clients[k]);
      }
    }
  }

  lemma FreshIsFine(t: Table, c: Client)
    requires Fresh(c)
    ensures Fine(t, c)
  {
    forall tag: nat | tag < |c.issued|
      ensures Placed(c, tag)
    {
      assert c.queue[tag] == tag;
    }
  }

  lemma {:induction false} RunsStayFine(s: System, steps: seq<Step>)
    requires AllFresh(s) && CanRun(s, steps)
    ensures AllFine(Run(s, steps))
  {
    if steps == [] {
      forall k | k in s.clients
        ensures Fine(s.server, s.clients[k])
      {
        FreshIsFine(s.server, s.clients[k]);
      }
    } else {
      RunsStayFine(s, steps[..|steps| - 1]);
      StepKeepsFine(Run(s, steps[..|steps| - 1]), steps[|steps| - 1]);
    }
  }

  /** In every interleaving, with any messages lost and any entries loaded at the start, every entry
      of a client none of whose pops strayed is still queued, or was accepted, or was dropped by a
      full queue. */
  lemma EntriesLeaveOnlyAcceptedOrDropped(s: System, steps: seq<Step>, k: nat, tag: nat)
    requires AllFresh(s) && CanRun(s, steps) && k in Run(s, steps).clients
    requires var c := Run(s, steps).clients[k]; Intact(c) && tag < |c.issued| && tag !in c.queue
    ensures var c := Run(s, steps).clients[k]; tag in c.accepted || tag in c.dropped
  {
    RunsStayFine(s, steps);
    assert Fine(Run(s, steps).server, Run(s, steps).clients[k]);
    assert Placed(Run(s, steps).clients[k], tag);
  }

  /** And the step at which a client first strays is a pop that loses an entry: the property fails
      exactly there. */
  lemma StrayingLoses(s: System, steps: seq<Step>, step: Step, k: nat)
    requires AllFresh(s) && CanRun(s, steps) && Possible(Run(s, steps), step) && k in Run(s, steps).clients
    requires Intact(Run(s, steps).clients[k])
    ensures k in After(Run(s, steps), step).clients
    ensures After(Run(s, steps), step).clients[k].strayed <==> LosesOne(After(Run(s, steps), step).clients[k])
  {
    var before, after := Run(s, steps), After(Run(s, steps), step);
    RunsStayFine(s, steps);
    StepKeepsFine(before, step);
    assert Fine(before.server, before.clients[k]) && Fine(after.server, after.clients[k]);
    if step.ByClient? && step.client == k {
      MarksStay(before.server, before.clients[k], step.action);
      if step.action.Pop? {
        PopLosesExactly(before.server, before.clients[k], step.action.i);
      } else if after.clients[k].broken {
        BrokenLosesNothing(before.server, before.clients[k], step.action);
      }
    }
  }

  /** Popping an empty queue to make room breaks the client, but loses no entry in the model. */
  lemma BrokenLosesNothing(t: Table, c: Client, a: Action)
    requires Accounted(t, c) && Enabled(c, a) && Intact(c) && !a.Pop? && Moved(t, c, a).broken
    ensures !LosesOne(Moved(t, c, a))
  {
    var after := Moved(t, c, a);
    forall tag: nat | tag < |after.issued|
      ensures Placed(after, tag)
    {
      if tag == |c.issued| {
        assert after.queue[0] == tag;
      } else {
        assert Placed(c, tag);
      }
    }
  }

  /** In the run the client starts a flush only when none of its flushes is under way. */
  predicate OneFlushAtATime(s: System, steps: seq<Step>, k: nat)
    requires CanRun(s, steps)
  {
    steps == [] ||
    (var front, step := steps[..|steps| - 1], steps[|steps| - 1];
     && OneFlushAtATime(s, front, k)
     && (step.ByClient? && step.client == k && step.action.Peek? ==> !AnyFlushing(Run(s, front).clients[k].flights)))
  }

  lemma {:induction false} SerialRuns(s: System, steps: seq<Step>, k: nat)
    requires AllFresh(s) && k in s.clients && CanRun(s, steps) && OneFlushAtATime(s, steps, k)
    ensures k in Run(s, steps).clients
    ensures Intact(Run(s, steps).clients[k]) ==> Serial(Run(s, steps).clients[k])
  {
    if steps == [] {
      assert Fresh(s.clients[k]);
    } else {
      var front, step := steps[..|steps| - 1], steps[|steps| - 1];
      SerialRuns(s, front, k);
      RunsStayFine(s, front);
      var before := Run(s, front);
      assert Fine(before.server, before.clients[k]);
      if step.ByClient? && step.client == k {
        MarksStay(before.server, before.clients[k], step.action);
        if Intact(Run(s, steps).clients[k]) {
          SerialStep(before.server, before.clients[k], step.action);
        }
      }
    }
  }

  /** For a client that runs one flush at a time, in every interleaving: until a pop finds another
      entry in front than the one it posted, nothing is lost; and such a pop loses the one it finds. */
  lemma SerialStrayExactly(s: System, steps: seq<Step>, k: nat, i: nat)
    requires AllFresh(s) && k in s.clients && CanRun(s, steps) && OneFlushAtATime(s, steps, k)
    requires k in Run(s, steps).clients && Intact(Run(s, steps).clients[k]) && Enabled(Run(s, steps).clients[k], Pop(i))
    ensures var c := Run(s, steps).clients[k];
            LosesOne(Popped(c, i)) <==> c.queue != [] && c.queue[0] != c.flights[i].tag
  {
    RunsStayFine(s, steps);
    SerialRuns(s, steps, k);
    assert Fine(Run(s, steps).server, Run(s, steps).clients[k]);
    SerialPopLosesExactly(Run(s, steps).server, Run(s, steps).clients[k], i);
  }

  /** What the server saw of a run. */
  function EventsOf(s: System, steps: seq<Step>): seq<Event>
    requires CanRun(s, steps)
  {
    if steps == [] then []
    else
      var front, step := steps[..|steps| - 1], steps[|steps| - 1];
      EventsOf(s, front) + EventOf(Run(s, front), step)
  }

  function EventOf(s: System, step: Step): seq<Event>
    requires Possible(s, step)
  {
    match step
    case ByServer(device) => [Disable(device)]
    case ByClient(k, Send(twin, true, _)) => [Push(twin.drawerId, twin)]
    case ByClient(k, Post(i, true, _)) =>
      var twin := s.clients[k].issued[s.clients[k].flights[i].tag];
      [Push(twin.drawerId, twin)]
    case _ => []
  }

  lemma HistorySnoc(t: Table, events: seq<Event>, e: Event)
    requires Addressed(events) && (e.Push? ==> e.path == e.twin.drawerId)
    ensures Addressed(events + [e]) && Serve(t, events + [e]) == Apply(Serve(t, events), e)
  {
    assert (events + [e])[..|events + [e]| - 1] == events;
  }

  /** A step is no event for the server, or one addressed event. */
  lemma StepIsEvent(s: System, step: Step)
    requires Possible(s, step)
    ensures var more := EventOf(s, step);
            || (more == [] && After(s, step).server == s.server)
            || (&& more == [more[0]] && (more[0].Push? ==> more[0].path == more[0].twin.drawerId)
                && After(s, step).server == Apply(s.server, more[0]))
  {
  }

  /** Every run of the system is, for the server, a history of addressed pushes, so all that holds
      of those holds in every interleaving. */
  lemma {:induction false} RunsAreHistories(s: System, steps: seq<Step>)
    requires CanRun(s, steps)
    ensures Addressed(EventsOf(s, steps)) && Serve(s.server, EventsOf(s, steps)) == Run(s, steps).server
  {
    if steps != [] {
      var front, step := steps[..|steps| - 1], steps[|steps| - 1];
      RunsAreHistories(s, front);
      StepIsEvent(Run(s, front), step);
      var before, more := EventsOf(s, front), EventOf(Run(s, front), step);
      assert EventsOf(s, steps) == before + more;
      if more == [] {
        assert before + more == before;
      } else {
        HistorySnoc(s.server, before, more[0]);
      }
    }
  }

  // ---- Queues that no flush can move

  /** The server would take the twin now. */
  predicate Acceptable(t: Table, twin: DrawerTwin) {
    !twin.disabled && !Superseded(t, twin)
  }

  lemma AcceptedExactly(t: Table, twin: DrawerTwin)
    ensures Judge(t, twin.drawerId, twin) == Accepted <==> Acceptable(t, twin)
  {
  }

  /** The action makes a full queue drop its oldest entry. */
  predicate Overflows(c: Client, a: Action)
    requires Enabled(c, a)
  {
    a.Handle? && |c.queue| >= c.depth &&
    c.flights[a.i].reply != Heard(Accepted) && c.flights[a.i].reply != Heard(Conflict)
  }

  /** In the run, the client's full queue drops nothing. */
  predicate NeverOverflows(s: System, steps: seq<Step>, k: nat)
    requires CanRun(s, steps)
  {
    steps == [] ||
    (var front, step := steps[..|steps| - 1], steps[|steps| - 1];
     && NeverOverflows(s, front, k)
     && (step.ByClient? && step.client == k ==> !Overflows(Run(s, front).clients[k], step.action)))
  }

  /** Some continuation without an overflow takes the client's front entry out of its queue. */
  ghost predicate CanMoveOn(s: System, k: nat)
    requires k in s.clients && s.clients[k].queue != []
  {
    exists steps ::
      CanRun(s, steps) && NeverOverflows(s, steps, k) && k in Run(s, steps).clients &&
      s.clients[k].queue[0] !in Run(s, steps).clients[k].queue
  }

  /** A flush under way that will pop, or will if its post is delivered and answered. */
  predicate WillPop(t: Table, c: Client, f: Flight) {
    f.Popping? || (f.Peeked? && f.tag < |c.issued| && Acceptable(t, c.issued[f.tag]))
  }

  /** The front entry cannot be accepted and no flush under way will pop. */
  predicate Blocked(t: Table, c: Client) {
    && c.queue != [] && c.queue[0] < |c.issued| && !Acceptable(t, c.issued[c.queue[0]])
    && (forall i :: 0 <= i < |c.flights| ==>
          !WillPop(t, c, c.flights[i]) && (c.flights[i].Peeked? ==> c.flights[i].tag < |c.issued|))
  }

  lemma UnacceptableStays(s: System, step: Step, twin: DrawerTwin)
    requires Possible(s, step) && !Acceptable(s.server, twin)
    ensures !Acceptable(After(s, step).server, twin)
  {
    if Superseded(s.server, twin) {
      StepKeepsSuperseded(s, step, twin);
    }
  }

  /** Whatever a blocked client does without an overflow, its front entry stays where it is. */
  lemma BlockedMove(t: Table, c: Client, a: Action)
    requires Blocked(t, c) && Enabled(c, a) && !Overflows(c, a)
    ensures Blocked(t, Moved(t, c, a)) && Moved(t, c, a).queue[0] == c.queue[0]
  {
    var after := Moved(t, c, a);
    if a.Post? {
      AcceptedExactly(t, c.issued[c.flights[a.i].tag]);
      assert !WillPop(t, c, c.flights[a.i]);
    }
    forall i | 0 <= i < |after.flights|
      ensures !WillPop(t, after, after.flights[i]) && (after.flights[i].Peeked? ==> after.flights[i].tag < |after.issued|)
    {
      if i < |c.flights| {
        assert !WillPop(t, c, c.flights[i]);
      }
    }
  }

  lemma BlockedServer(s: System, step: Step, c: Client)
    requires Possible(s, step) && Blocked(s.server, c)
    ensures Blocked(After(s, step).server, c)
  {
    var t' := After(s, step).server;
    UnacceptableStays(s, step, c.issued[c.queue[0]]);
    forall i | 0 <= i < |c.flights|
      ensures !WillPop(t', c, c.flights[i])
    {
      assert !WillPop(s.server, c, c.flights[i]);
      if c.flights[i].Peeked? {
        UnacceptableStays(s, step, c.issued[c.flights[i].tag]);
      }
    }
  }

  predicate BlockedAt(s: System, k: nat, tag: nat) {
    k in s.clients && Blocked(s.server, s.clients[k]) && s.clients[k].queue[0] == tag
  }

  lemma StepKeepsBlocked(s: System, step: Step, k: nat, tag: nat)
    requires BlockedAt(s, k, tag) && Possible(s, step)
    requires step.ByClient? && step.client == k ==> !Overflows(s.clients[k], step.action)
    ensures BlockedAt(After(s, step), k, tag)
  {
    if step.ByClient? && step.client == k {
      BlockedMove(s.server, s.clients[k], step.action);
      BlockedServer(s, step, Moved(s.server, s.clients[k], step.action));
    } else {
      BlockedServer(s, step, s.clients[k]);
    }
  }

  /** A blocked client that drops nothing keeps its front entry in every continuation. */
  lemma {:induction false} BlockedForGood(s: System, steps: seq<Step>, k: nat, tag: nat)
    requires BlockedAt(s, k, tag) && CanRun(s, steps) && NeverOverflows(s, steps, k)
    ensures BlockedAt(Run(s, steps), k, tag)
  {
    if steps != [] {
      BlockedForGood(s, steps[..|steps| - 1], k, tag);
      StepKeepsBlocked(Run(s, steps[..|steps| - 1]), steps[|steps| - 1], k, tag);
    }
  }

  lemma RunSnoc(s: System, steps: seq<Step>, step: Step)
    requires CanRun(s, steps) && Possible(Run(s, steps), step)
    ensures CanRun(s, steps + [step]) && Run(s, steps + [step]) == After(Run(s, steps), step)
  {
    assert (steps + [step])[..|steps + [step]| - 1] == steps;
  }

  /** One more step of the client, which is no overflow. */
  lemma Extend(s: System, steps: seq<Step>, k: nat, a: Action) returns (more: seq<Step>)
    requires CanRun(s, steps) && NeverOverflows(s, steps, k) && k in Run(s, steps).clients
    requires Enabled(Run(s, steps).clients[k], a) && !Overflows(Run(s, steps).clients[k], a)
    ensures CanRun(s, more) && NeverOverflows(s, more, k) && k in Run(s, more).clients
    ensures Run(s, more).server == Sent(Run(s, steps).server, Run(s, steps).clients[k], a)
    ensures Run(s, more).clients[k] == Moved(Run(s, steps).server, Run(s, steps).clients[k], a)
  {
    RunSnoc(s, steps, ByClient(k, a));
    more := steps + [ByClient(k, a)];
    assert more[..|more| - 1] == steps;
  }

  lemma FrontGone(c: Client, i: nat)
    requires QueueOk(c) && c.queue != [] && i < |c.flights|
    ensures c.queue[0] !in Popped(c, i).queue
  {
    forall k | 0 <= k < |c.queue| - 1
      ensures c.queue[1..][k] != c.queue[0]
    {
      assert c.queue[1..][k] == c.queue[k + 1];
    }
  }

  /** A flush about to pop takes the front entry away. */
  lemma PopMovesOn(s: System, steps: seq<Step>, k: nat, i: nat)
    requires CanRun(s, steps) && NeverOverflows(s, steps, k) && k in s.clients && k in Run(s, steps).clients
    requires s.clients[k].queue != [] && Run(s, steps).clients[k].queue == s.clients[k].queue
    requires QueueOk(Run(s, steps).clients[k]) && Enabled(Run(s, steps).clients[k], Pop(i))
    ensures CanMoveOn(s, k)
  {
    var more := Extend(s, steps, k, Pop(i));
    FrontGone(Run(s, steps).clients[k], i);
    assert s.clients[k].queue[0] !in Run(s, more).clients[k].queue;
  }

  lemma PostMovesOn(s: System, steps: seq<Step>, k: nat, i: nat)
    requires CanRun(s, steps) && NeverOverflows(s, steps, k) && k in s.clients && k in Run(s, steps).clients
    requires s.clients[k].queue != [] && Run(s, steps).clients[k].queue == s.clients[k].queue
    requires QueueOk(Run(s, steps).clients[k])
    requires var c := Run(s, steps).clients[k];
             i < |c.flights| && c.flights[i].Peeked? && WillPop(Run(s, steps).server, c, c.flights[i]) &&
             (c.flights[i].tag in c.queue ==> AtFront(c, c.flights[i].tag))
    ensures CanMoveOn(s, k)
  {
    var c, t := Run(s, steps).clients[k], Run(s, steps).server;
    AcceptedExactly(t, c.issued[c.flights[i].tag]);
    var more := Extend(s, steps, k, Post(i, true, true));
    assert Run(s, more).clients[k] == PostedEntry(t, c, i, true, true);
    PopMovesOn(s, more, k, i);
  }

  /** In every accounted state the front entry can be taken out by a flush, without an overflow,
      exactly when it is not disabled and not superseded, or a flush already under way will pop. */
  lemma MovesOnExactly(s: System, k: nat)
    requires k in s.clients && s.clients[k].queue != [] && Accounted(s.server, s.clients[k])
    ensures CanMoveOn(s, k) <==>
            var c := s.clients[k];
            || Acceptable(s.server, c.issued[c.queue[0]])
            || exists i :: 0 <= i < |c.flights| && WillPop(s.server, c, c.flights[i])
  {
    var c := s.clients[k];
    if i :| 0 <= i < |c.flights| && WillPop(s.server, c, c.flights[i]) {
      assert FlightOk(c, c.flights[i]);
      if c.flights[i].Popping? {
        PopMovesOn(s, [], k, i);
      } else {
        AcceptedNowhere(s.server, c, c.flights[i].tag);
        PostMovesOn(s, [], k, i);
      }
    } else if Acceptable(s.server, c.issued[c.queue[0]]) {
      var steps := Extend(s, [], k, Peek);
      assert Run(s, []) == s;
      PostMovesOn(s, steps, k, |c.flights|);
    } else {
      forall i | 0 <= i < |c.flights|
        ensures c.flights[i].Peeked? ==> c.flights[i].tag < |c.issued|
      {
        assert FlightOk(c, c.flights[i]);
      }
      forall steps | CanRun(s, steps) && NeverOverflows(s, steps, k)
        ensures BlockedAt(Run(s, steps), k, c.queue[0])
      {
        BlockedForGood(s, steps, k, c.queue[0]);
      }
    }
  }

  /** An entry that could still be accepted was not accepted before; a peeked one is in front or
      not queued at all. */
  lemma AcceptedNowhere(t: Table, c: Client, tag: nat)
    requires Accounted(t, c) && FlightOk(c, Peeked(tag)) && Acceptable(t, c.issued[tag])
    ensures tag in c.queue ==> AtFront(c, tag)
  {
    assert tag !in c.accepted;
  }

  /** In a state with no flush under way that is just: neither disabled nor superseded. */
  lemma QuietQueueMovesExactly(s: System, k: nat)
    requires k in s.clients && s.clients[k].queue != [] && Accounted(s.server, s.clients[k])
    requires !AnyFlushing(s.clients[k].flights)
    ensures var front := s.clients[k].issued[s.clients[k].queue[0]];
            CanMoveOn(s, k) <==> !front.disabled && !Superseded(s.server, front)
  {
    MovesOnExactly(s, k);
    var c := s.clients[k];
    assert forall i :: 0 <= i < |c.flights| ==> !Flushing(c.flights[i]);
  }

  // ---- How a queue gets blocked

  /** By a reply that is lost after the server took the front entry. */
  lemma LostReplyBlocks(t: Table, c: Client, i: nat)
    requires Accounted(t, c) && Enabled(c, Post(i, true, false)) && AtFront(c, c.flights[i].tag)
    requires Acceptable(t, c.issued[c.flights[i].tag])
    requires forall j :: 0 <= j < |c.flights| && j != i ==> !Flushing(c.flights[j])
    ensures Blocked(Sent(t, c, Post(i, true, false)), Moved(t, c, Post(i, true, false)))
  {
    AcceptedExactly(t, c.issued[c.flights[i].tag]);
    AcceptedIsSuperseded(t, c.issued[c.flights[i].tag]);
  }

  /** By a twin that is disabled: the server locks it out, the client queues it, and no message need
      be lost. */
  lemma DisabledTwinBlocks(t: Table, depth: int, twin: DrawerTwin)
    requires twin.disabled && depth >= 1
    ensures var c0 := LoadedClient(depth, []);
            var c1 := Moved(t, c0, Send(twin, true, true));
            && Sent(t, c0, Send(twin, true, true)) == t
            && Enabled(c1, Handle(0)) && Blocked(t, Moved(t, c1, Handle(0)))
  {
  }

  /** By a revision of the same drawer, not older, that another client pushes directly while the
      entry waits. */
  lemma OvertakenTwinBlocks(t: Table, c: Client, other: Client, later: DrawerTwin, answered: bool)
    requires Accounted(t, c) && c.queue != [] && !AnyFlushing(c.flights)
    requires var front := c.issued[c.queue[0]]; later.drawerId == front.drawerId && front.revision <= later.revision
    requires Acceptable(t, later)
    ensures Blocked(Sent(t, other, Send(later, true, answered)), c)
  {
    AcceptedExactly(t, later);
    assert forall i :: 0 <= i < |c.flights| ==> !Flushing(c.flights[i]);
  }

  // ---- The race

  function OneClient(): System {
    System(map[], map[0 := LoadedClient(1, [])])
  }

  /** The only client is in the given state. */
  predicate Stands(steps: seq<Step>, t: Table, c: Client) {
    CanRun(OneClient(), steps) &&
    var s := Run(OneClient(), steps);
    0 in s.clients && s.server == t && s.clients[0] == c
  }

  /** One more step of the only client. */
  lemma Do(steps: seq<Step>, t: Table, c: Client, a: Action) returns (more: seq<Step>)
    requires Stands(steps, t, c) && Enabled(c, a)
    ensures Stands(more, Sent(t, c, a), Moved(t, c, a))
  {
    RunSnoc(OneClient(), steps, ByClient(0, a));
    more := steps + [ByClient(0, a)];
  }

  /** The first twin is queued and its flush has been answered, but it is not popped yet. */
  function Answered(a: DrawerTwin): Client {
    Client(1, [0], [a], [Landed, Popping(0)], {0}, {}, false, false)
  }

  lemma QueueAndFlush(a: DrawerTwin) returns (steps: seq<Step>)
    requires !a.disabled
    ensures Stands(steps, map[a.drawerId := Stored(a)], Answered(a))
  {
    var c0 := Client(1, [], [], [], {}, {}, false, false);
    assert LoadedClient(1, []) == c0;
    steps := Do([], map[], c0, Send(a, false, false));
    var c1 := Client(1, [], [], [Pushing(a, Lost)], {}, {}, false, false);
    steps := Do(steps, map[], c1, Handle(0));
    var c2 := Client(1, [0], [a], [Landed], {}, {}, false, false);
    assert Moved(map[], c1, Handle(0)) == c2;
    steps := Do(steps, map[], c2, Peek);
    var c3 := Client(1, [0], [a], [Landed, Peeked(0)], {}, {}, false, false);
    steps := Do(steps, map[], c3, Post(1, true, true));
    assert Moved(map[], c3, Post(1, true, true)) == Answered(a);
  }

  /** The second twin is queued while the first still waits for its pop. */
  lemma OverflowMove(t: Table, a: DrawerTwin, b: DrawerTwin)
    ensures var c := Client(1, [0], [a], [Landed, Popping(0), Pushing(b, Lost)], {0}, {}, false, false);
            Moved(t, c, Handle(2)) == Client(1, [1], [a, b], [Landed, Popping(0), Landed], {0}, {0}, false, false)
  {
    var c := Client(1, [0], [a], [Landed, Popping(0), Pushing(b, Lost)], {0}, {}, false, false);
    assert c.flights[2 := Landed] == [Landed, Popping(0), Landed];
  }

  /** A queue of depth one and two twins: while the flush of the first waits for its answer, the
      second is queued and the full queue drops the first; the pop then removes the second, which
      was neither accepted nor dropped. */
  lemma RaceLosesEntry(a: DrawerTwin, b: DrawerTwin) returns (steps: seq<Step>)
    requires !a.disabled
    ensures CanRun(OneClient(), steps) && 0 in Run(OneClient(), steps).clients
    ensures var c := Run(OneClient(), steps).clients[0];
            c.strayed && c.issued == [a, b] && !Placed(c, 1)
  {
    var t: Table := map[a.drawerId := Stored(a)];
    steps := QueueAndFlush(a);
    steps := Do(steps, t, Answered(a), Send(b, false, false));
    var c1 := Client(1, [0], [a], [Landed, Popping(0), Pushing(b, Lost)], {0}, {}, false, false);
    assert Moved(t, Answered(a), Send(b, false, false)) == c1;
    steps := Do(steps, t, c1, Handle(2));
    OverflowMove(t, a, b);
    var c2 := Client(1, [1], [a, b], [Landed, Popping(0), Landed], {0}, {0}, false, false);
    steps := Do(steps, t, c2, Pop(1));
  }

  // ---- The client as an object, one call at a time

  /** The table after the first n entries of a queue have been accepted. */
  function Drained(t: Table, queue: seq<DrawerTwin>, n: nat): Table
    requires n <= |queue|
  {
    if n == 0 then t else Posted(Drained(t, queue, n - 1), queue[n - 1].drawerId, queue[n - 1])
  }

  /** What the client hears of the n-th entry, when those before it have been accepted. */
  function ReplyAt(t: Table, queue: seq<DrawerTwin>, delivered: nat -> bool, answered: nat -> bool, n: nat): Reply
    requires n < |queue|
  {
    ReplyTo(Drained(t, queue, n), queue[n], delivered(n), answered(n))
  }

  /** The first n entries are all heard to be accepted. */
  predicate AllHeard(t: Table, queue: seq<DrawerTwin>, delivered: nat -> bool, answered: nat -> bool, n: nat)
    requires n <= |queue|
  {
    n == 0 ||
    (AllHeard(t, queue, delivered, answered, n - 1) && ReplyAt(t, queue, delivered, answered, n - 1) == Heard(Accepted))
  }

  /** The queue's tags name issued twins. */
  predicate Spelled(c: Client) {
    forall i :: 0 <= i < |c.queue| ==> c.queue[i] < |c.issued|
  }

  /** The twins in the queue, front first. */
  function Contents(c: Client): (r: seq<DrawerTwin>)
    requires Spelled(c)
    ensures |r| == |c.queue| && forall i :: 0 <= i < |r| ==> r[i] == c.issued[c.queue[i]]
  {
    seq(|c.queue|, i requires 0 <= i < |c.queue| => c.issued[c.queue[i]])
  }

  /** The steps move twins as the client's methods do: a reply other than success and conflict queues the
      very twin that was pushed, behind what a full queue keeps; a pop takes the front; no other step
      touches the queue. */
  lemma StepsMoveTwins(t: Table, c: Client, a: Action)
    requires Enabled(c, a) && Spelled(c)
    ensures var after := Moved(t, c, a);
            && Spelled(after)
            && match a
               case Handle(i) =>
                 var f := c.flights[i];
                 if f.reply in {Heard(Accepted), Heard(Conflict)} then Contents(after) == Contents(c)
                 else Contents(after) ==
                      (if |c.queue| >= c.depth && c.queue != [] then Contents(c)[1..] else Contents(c)) + [f.twin]
               case Pop(_) => Contents(after) == if c.queue == [] then [] else Contents(c)[1..]
               case _ => Contents(after) == Contents(c)
  {
  }

  class TwinClient {
    const depth: int
    var queue: seq<DrawerTwin>

    constructor (depth: int, saved: seq<DrawerTwin>)
      ensures this.depth == depth && queue == saved
    {
      this.depth, queue := depth, saved;
    }

    method PushNow(server: Server, twin: DrawerTwin, delivered: bool, answered: bool) returns (r: Reply)
      modifies server
      ensures r == ReplyTo(old(server.twins), twin, delivered, answered)
      ensures server.twins == Delivered(old(server.twins), twin, delivered)
    {
      r := Lost;
      if delivered {
        var code := server.Post(true, twin.drawerId, Some(twin));
        if answered {
          r := Heard(code);
        }
      }
    }

    method EnqueueLocked(twin: DrawerTwin)
      requires 1 <= depth || queue != []
      modifies this
      ensures queue == (if |old(queue)| >= depth then old(queue)[1..] else old(queue)) + [twin]
    {
      if |queue| >= depth {
        queue := queue[1..];
      }
      queue := queue + [twin];
    }

    method PushTwin(server: Server, twin: DrawerTwin, delivered: bool, answered: bool) returns (r: Reply)
      requires 1 <= depth || queue != []
      modifies this, server
      ensures r == ReplyTo(old(server.twins), twin, delivered, answered)
      ensures server.twins == Delivered(old(server.twins), twin, delivered)
      ensures r == Heard(Accepted) || r == Heard(Conflict) ==> queue == old(queue)
      ensures r != Heard(Accepted) && r != Heard(Conflict) ==>
                queue == (if |old(queue)| >= depth then old(queue)[1..] else old(queue)) + [twin]
    {
      r := PushNow(server, twin, delivered, answered);
      if r != Heard(Accepted) && r != Heard(Conflict) {
        EnqueueLocked(twin);
      }
    }

    /** Posts entries from the front until one is not accepted; delivered(i) and answered(i) say
        whether the i-th post and its reply arrive. */
    method FlushOfflineQueue(server: Server, delivered: nat -> bool, answered: nat -> bool) returns (flushed: nat)
      modifies this, server
      ensures flushed <= |old(queue)| && queue == old(queue)[flushed..]
      ensures AllHeard(old(server.twins), old(queue), delivered, answered, flushed)
      ensures flushed < |old(queue)| ==>
                && ReplyAt(old(server.twins), old(queue), delivered, answered, flushed) != Heard(Accepted)
                && server.twins == Delivered(Drained(old(server.twins), old(queue), flushed),
                                             old(queue)[flushed], delivered(flushed))
      ensures flushed == |old(queue)| ==> server.twins == Drained(old(server.twins), old(queue), flushed)
    {
      flushed := 0;
      ghost var t0, all := server.twins, queue;
      while |queue| > 0
        invariant flushed <= |all| && queue == all[flushed..] && server.twins == Drained(t0, all, flushed)
        invariant AllHeard(t0, all, delivered, answered, flushed)
        decreases |queue|
      {
        var next := queue[0];
        assert next == all[flushed];
        var r := PushNow(server, next, delivered(flushed), answered(flushed));
        assert r == ReplyAt(t0, all, delivered, answered, flushed);
        if r != Heard(Accepted) {
          break;
        }
        queue := queue[1..];
        flushed := flushed + 1;
      }
    }
  }
}
