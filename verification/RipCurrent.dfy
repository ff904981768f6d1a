/**
 Passing messages from one block of a RipCurrent flow to the next: the priority queue of
 blocks/mmq/mmpq.h, and around it the counters of ripcurrent/ripcurrent.h by which the end of a flow
 waits until everything was handled. Any number of emitting threads and one consumer thread
 interleave; the steps are what they do between taking and releasing a lock.
 */
module RipCurrent {
  type Message = int

  datatype Entry = Entry(us: int, body: Message)

  // The queue: a set ordered by timestamp alone.

  predicate Sorted(q: seq<Entry>) {
    |q| <= 1 || (q[0].us < q[1].us && Sorted(q[1..]))
  }

  predicate Taken(q: seq<Entry>, us: int) {
    q != [] && (q[0].us == us || Taken(q[1..], us))
  }

  /** An entry equal to one in the set is not inserted. */
  function Insert(q: seq<Entry>, e: Entry): seq<Entry> {
    if q == [] then [e]
    else if e.us < q[0].us then [e] + q
    else if e.us == q[0].us then q
    else [q[0]] + Insert(q[1..], e)
  }

  lemma {:induction false} EarlierIsFree(q: seq<Entry>, us: int)
    requires Sorted(q) && q != [] && us < q[0].us
    ensures !Taken(q, us)
  {
    if |q| > 1 { EarlierIsFree(q[1..], us); }
  }

  lemma {:induction false} InsertKeepsSorted(q: seq<Entry>, e: Entry)
    requires Sorted(q)
    ensures Sorted(Insert(q, e))
    ensures Insert(q, e) != [] && (Insert(q, e)[0] == e || (q != [] && Insert(q, e)[0] == q[0]))
  {
    if q != [] {
      if e.us > q[0].us {
        InsertKeepsSorted(q[1..], e);
        assert Insert(q, e)[1..] == Insert(q[1..], e);
      } else if e.us < q[0].us {
        assert ([e] + q)[1..] == q;
      }
    }
  }

  lemma {:induction false} InsertMeans(q: seq<Entry>, e: Entry)
    requires Sorted(q)
    ensures Taken(q, e.us) ==> Insert(q, e) == q
    ensures !Taken(q, e.us) ==> multiset(Insert(q, e)) == multiset(q) + multiset{e}
  {
    if q != [] {
      assert q == [q[0]] + q[1..];
      if e.us > q[0].us {
        InsertMeans(q[1..], e);
        assert multiset([q[0]] + Insert(q[1..], e)) == multiset{q[0]} + multiset(Insert(q[1..], e));
      } else if e.us < q[0].us {
        EarlierIsFree(q, e.us);
      }
    }
  }

  class MMPQ {
    var queue: seq<Entry>
    var lastIndex: nat
    var lastUs: int

    constructor ()
      ensures queue == [] && lastIndex == 0 && lastUs == -1
    {
      queue, lastIndex, lastUs := [], 0, -1;
    }

    method Publish(body: Message, us: int)
      requires Sorted(queue)
      modifies this`queue, this`lastIndex
      ensures Sorted(queue) && lastIndex == old(lastIndex) + 1
      ensures queue == Insert(old(queue), Entry(us, body))
      ensures Taken(old(queue), us) ==> queue == old(queue)
      ensures !Taken(old(queue), us) ==> multiset(queue) == multiset(old(queue)) + multiset{Entry(us, body)}
    {
      InsertKeepsSorted(queue, Entry(us, body));
      InsertMeans(queue, Entry(us, body));
      lastIndex := lastIndex + 1;
      queue := Insert(queue, Entry(us, body));
    }

    /** Refuses a timestamp that is not later than the last one: the source throws. */
    method UpdateHead(us: int) returns (ok: bool)
      modifies this`lastUs
      ensures ok <==> us > old(lastUs)
      ensures lastUs == if us > old(lastUs) then us else old(lastUs)
    {
      ok := us > lastUs;
      if ok { lastUs := us; }
    }
  }

  // The protocol.

  /** A call that emits or schedules a message: begun, past `UpdateHead`, or refused by it. */
  datatype Pending =
    | Called(body: Message, us: int, scheduled: bool)
    | HeadUpdated(body: Message, us: int)
    | Refused(body: Message, us: int)

  /** The consumer holds the lock of the queue while it is not `Idle`. */
  datatype Consumer = Idle | Handling | Delivered | Reported

  datatype Counters = Counters(publishCalled: nat, published: nat, notPublished: nat, processed: nat)

  /** `emitted`, `handled`, `refused` and `dropped` are history: what became of each message. */
  datatype Flow = Flow(
    counters: Counters,
    calls: seq<Pending>,
    unreported: nat,
    queue: seq<Entry>,
    lastUs: int,
    consumer: Consumer,
    emitted: multiset<Message>,
    handled: multiset<Message>,
    refused: multiset<Message>,
    dropped: multiset<Message>)

  const START := Flow(Counters(0, 0, 0, 0), [], 0, [], -1, Idle, multiset{}, multiset{}, multiset{}, multiset{})

  predicate ProcessedEverything(c: Counters) {
    c.publishCalled == c.processed + c.notPublished
  }

  datatype Step =
    | Begin(body: Message, us: int, scheduled: bool)  // OnThreadUnsafeEmitted, OnThreadUnsafeScheduled
    | CallUpdateHead(i: nat)
    | CallPublish(i: nat)
    | ReportPublished
    | ReportNotPublished(i: nat)
    | HeadUpdate(us: int)                             // OnThreadUnsafeHeadUpdated
    | Take
    | Deliver
    | ReportProcessed
    | Erase

  predicate Can(f: Flow, s: Step) {
    match s
    case Begin(_, _, _) => true
    case CallUpdateHead(i) => f.consumer.Idle? && i < |f.calls| && f.calls[i].Called? && !f.calls[i].scheduled
    case CallPublish(i) =>
      f.consumer.Idle? && i < |f.calls|
      && (f.calls[i].HeadUpdated? || (f.calls[i].Called? && f.calls[i].scheduled))
    case ReportPublished => f.unreported > 0
    case ReportNotPublished(i) => i < |f.calls| && f.calls[i].Refused?
    case HeadUpdate(_) => f.consumer.Idle?
    case Take => f.consumer.Idle? && f.queue != [] && f.queue[0].us <= f.lastUs
    case Deliver => f.consumer.Handling? && f.queue != []
    case ReportProcessed => f.consumer.Delivered?
    case Erase => f.consumer.Reported? && f.queue != []
  }

  function Without<T>(s: seq<T>, i: nat): seq<T>
    requires i < |s|
  {
    s[..i] + s[i + 1..]
  }

  /** A message is published with the timestamp of one that is still in the queue. */
  predicate Clashes(f: Flow, s: Step)
    requires Can(f, s)
  {
    s.CallPublish? && Taken(f.queue, f.calls[s.i].us)
  }

  function Apply(f: Flow, s: Step): Flow
    requires Can(f, s)
  {
    var c := f.counters;
    match s
    case Begin(body, us, scheduled) =>
      f.(counters := c.(publishCalled := c.publishCalled + 1), calls := f.calls + [Called(body, us, scheduled)],
         emitted := f.emitted + multiset{body})
    case CallUpdateHead(i) =>
      var p := f.calls[i];
      if p.us > f.lastUs then f.(lastUs := p.us, calls := f.calls[i := HeadUpdated(p.body, p.us)])
      else f.(calls := f.calls[i := Refused(p.body, p.us)])
    case CallPublish(i) =>
      var p := f.calls[i];
      f.(calls := Without(f.calls, i), unreported := f.unreported + 1, queue := Insert(f.queue, Entry(p.us, p.body)),
         dropped := if Taken(f.queue, p.us) then f.dropped + multiset{p.body} else f.dropped)
    case ReportPublished =>
      f.(counters := c.(published := c.published + 1), unreported := f.unreported - 1)
    case ReportNotPublished(i) =>
      f.(counters := c.(notPublished := c.notPublished + 1), calls := Without(f.calls, i),
         refused := f.refused + multiset{f.calls[i].body})
    case HeadUpdate(us) => if us > f.lastUs then f.(lastUs := us) else f
    case Take => f.(consumer := Handling)
    case Deliver => f.(consumer := Delivered, handled := f.handled + multiset{f.queue[0].body})
    case ReportProcessed => f.(counters := c.(processed := c.processed + 1), consumer := Reported)
    case Erase => f.(consumer := Idle, queue := f.queue[1..])
  }

  // Where every message is.

  function InFlight(calls: seq<Pending>): multiset<Message> {
    if calls == [] then multiset{} else multiset{calls[0].body} + InFlight(calls[1..])
  }

  function Bodies(q: seq<Entry>): multiset<Message> {
    if q == [] then multiset{} else multiset{q[0].body} + Bodies(q[1..])
  }

  /** The entries not handed over yet. */
  function Waiting(f: Flow): seq<Entry> {
    if (f.consumer.Delivered? || f.consumer.Reported?) && f.queue != [] then f.queue[1..] else f.queue
  }

  type Bag = multiset<Message>

  /** Every message emitted is in exactly one place. */
  predicate Accounted(emitted: Bag, handled: Bag, inFlight: Bag, waiting: Bag, refused: Bag, dropped: Bag) {
    emitted == handled + inFlight + waiting + refused + dropped
  }

  lemma MessagesMove(e: Bag, h: Bag, i: Bag, w: Bag, r: Bag, d: Bag, m: Message)
    ensures Accounted(e, h, i, w, r, d) ==> Accounted(e + multiset{m}, h, i + multiset{m}, w, r, d)
    ensures Accounted(e, h, i + multiset{m}, w, r, d) ==> Accounted(e, h, i, w + multiset{m}, r, d)
    ensures Accounted(e, h, i + multiset{m}, w, r, d) ==> Accounted(e, h, i, w, r + multiset{m}, d)
    ensures Accounted(e, h, i + multiset{m}, w, r, d) ==> Accounted(e, h, i, w, r, d + multiset{m})
    ensures Accounted(e, h, i, multiset{m} + w, r, d) ==> Accounted(e, h + multiset{m}, i, w, r, d)
  {
  }

  predicate Inv(f: Flow) {
    && Sorted(f.queue)
    && (!f.consumer.Idle? ==> f.queue != [])
    && Accounted(f.emitted, f.handled, InFlight(f.calls), Bodies(Waiting(f)), f.refused, f.dropped)
    && f.counters.publishCalled == |f.emitted|
    && f.counters.notPublished == |f.refused|
    && f.counters.processed + (if f.consumer.Delivered? then 1 else 0) == |f.handled|
    && f.counters.published + f.unreported == |f.handled| + |Bodies(Waiting(f))| + |f.dropped|
  }

  lemma {:induction false} InFlightAppend(calls: seq<Pending>, p: Pending)
    ensures InFlight(calls + [p]) == InFlight(calls) + multiset{p.body}
  {
    if calls == [] {
      assert calls + [p] == [p];
    } else {
      assert (calls + [p])[1..] == calls[1..] + [p];
      InFlightAppend(calls[1..], p);
    }
  }

  lemma {:induction false} InFlightWithout(calls: seq<Pending>, i: nat)
    requires i < |calls|
    ensures InFlight(calls) == InFlight(Without(calls, i)) + multiset{calls[i].body}
  {
    if i == 0 {
      assert Without(calls, 0) == calls[1..];
    } else {
      assert Without(calls, i)[1..] == Without(calls[1..], i - 1);
      InFlightWithout(calls[1..], i - 1);
    }
  }

  lemma {:induction false} InFlightUpdate(calls: seq<Pending>, i: nat, p: Pending)
    requires i < |calls| && p.body == calls[i].body
    ensures InFlight(calls[i := p]) == InFlight(calls)
  {
    if i > 0 {
      assert calls[i := p][1..] == calls[1..][i - 1 := p];
      InFlightUpdate(calls[1..], i - 1, p);
    } else {
      assert calls[i := p][1..] == calls[1..];
    }
  }

  lemma {:induction false} BodiesInsert(q: seq<Entry>, e: Entry)
    requires Sorted(q)
    ensures Bodies(Insert(q, e)) == if Taken(q, e.us) then Bodies(q) else Bodies(q) + multiset{e.body}
  {
    if q != [] {
      if e.us > q[0].us {
        BodiesInsert(q[1..], e);
        assert Insert(q, e)[1..] == Insert(q[1..], e);
      } else if e.us < q[0].us {
        EarlierIsFree(q, e.us);
        assert ([e] + q)[1..] == q;
      }
    }
  }

  lemma PublishKeeps(f: Flow, i: nat)
    requires Inv(f) && Can(f, CallPublish(i))
    ensures Inv(Apply(f, CallPublish(i)))
  {
    hide Bodies, InFlight, Insert, Taken, Without, Sorted, Accounted;
    var e := Entry(f.calls[i].us, f.calls[i].body);
    InsertKeepsSorted(f.queue, e);
    BodiesInsert(f.queue, e);
    InFlightWithout(f.calls, i);
    MessagesMove(f.emitted, f.handled, InFlight(Without(f.calls, i)), Bodies(f.queue), f.refused, f.dropped, e.body);
  }

  lemma BeginKeeps(f: Flow, body: Message, us: int, scheduled: bool)
    requires Inv(f)
    ensures Inv(Apply(f, Begin(body, us, scheduled)))
  {
    hide Bodies, InFlight, Insert, Taken, Without, Sorted, Accounted;
    InFlightAppend(f.calls, Called(body, us, scheduled));
    MessagesMove(f.emitted, f.handled, InFlight(f.calls), Bodies(Waiting(f)), f.refused, f.dropped, body);
  }

  lemma UpdateHeadKeeps(f: Flow, i: nat)
    requires Inv(f) && Can(f, CallUpdateHead(i))
    ensures Inv(Apply(f, CallUpdateHead(i)))
  {
    hide Bodies, InFlight, Insert, Taken, Without, Sorted, Accounted;
    InFlightUpdate(f.calls, i, HeadUpdated(f.calls[i].body, f.calls[i].us));
    InFlightUpdate(f.calls, i, Refused(f.calls[i].body, f.calls[i].us));
  }

  lemma RefusalKeeps(f: Flow, i: nat)
    requires Inv(f) && Can(f, ReportNotPublished(i))
    ensures Inv(Apply(f, ReportNotPublished(i)))
  {
    hide Bodies, InFlight, Insert, Taken, Without, Sorted, Accounted;
    var w, body := Bodies(Waiting(f)), f.calls[i].body;
    InFlightWithout(f.calls, i);
    MessagesMove(f.emitted, f.handled, InFlight(Without(f.calls, i)), w, f.refused, f.dropped, body);
  }

  lemma ConsumerKeeps(f: Flow, s: Step)
    requires Inv(f) && Can(f, s) && (s.Take? || s.Deliver? || s.ReportProcessed? || s.Erase?)
    ensures Inv(Apply(f, s))
  {
    hide Bodies, InFlight, Insert, Taken, Without, Sorted, Accounted;
    if f.queue != [] {
      var body, w := f.queue[0].body, Bodies(f.queue[1..]);
      FirstAndRest(f.queue);
      MessagesMove(f.emitted, f.handled, InFlight(f.calls), w, f.refused, f.dropped, body);
    }
  }

  lemma FirstAndRest(q: seq<Entry>)
    requires q != [] && Sorted(q)
    ensures Sorted(q[1..]) && Bodies(q) == multiset{q[0].body} + Bodies(q[1..])
  {
  }

  lemma StepKeeps(f: Flow, s: Step)
    requires Inv(f) && Can(f, s)
    ensures Inv(Apply(f, s))
  {
    hide Bodies, InFlight, Insert, Taken, Without, Sorted, Accounted;
    match s
    case Begin(body, us, scheduled) => BeginKeeps(f, body, us, scheduled);
    case CallUpdateHead(i) => UpdateHeadKeeps(f, i);
    case CallPublish(i) => PublishKeeps(f, i);
    case ReportNotPublished(i) => RefusalKeeps(f, i);
    case ReportPublished =>
    case HeadUpdate(_) =>
    case _ => ConsumerKeeps(f, s);
  }

  // Runs.

  predicate CanAll(f: Flow, steps: seq<Step>)
    decreases |steps|
  {
    steps == [] || (Can(f, steps[0]) && CanAll(Apply(f, steps[0]), steps[1..]))
  }

  function Run(f: Flow, steps: seq<Step>): Flow
    requires CanAll(f, steps)
    decreases |steps|
  {
    if steps == [] then f else Run(Apply(f, steps[0]), steps[1..])
  }

  predicate AnyClash(f: Flow, steps: seq<Step>)
    requires CanAll(f, steps)
    decreases |steps|
  {
    steps != [] && (Clashes(f, steps[0]) || AnyClash(Apply(f, steps[0]), steps[1..]))
  }

  lemma DropsOnlyAtClashes(f: Flow, s: Step)
    requires Can(f, s)
    ensures |Apply(f, s).dropped| == 0 <==> |f.dropped| == 0 && !Clashes(f, s)
  {
    hide Insert, Taken, Without;
  }

  lemma {:induction false} RunKeeps(f: Flow, steps: seq<Step>)
    requires Inv(f) && CanAll(f, steps)
    ensures Inv(Run(f, steps))
    ensures |Run(f, steps).dropped| == 0 <==> |f.dropped| == 0 && !AnyClash(f, steps)
    decreases |steps|
  {
    hide Inv, Apply, Can, Clashes;
    if steps != [] {
      StepKeeps(f, steps[0]);
      DropsOnlyAtClashes(f, steps[0]);
      RunKeeps(Apply(f, steps[0]), steps[1..]);
    }
  }

  // Which messages are refused, and which are handled next.

  /** Each time the head is tried, in order: by an emitted message, or by an update of the head alone. */
  datatype Attempt = Emission(us: int, body: Message) | HeadOnly(us: int)

  function Attempts(f: Flow, steps: seq<Step>): seq<Attempt>
    requires CanAll(f, steps)
    decreases |steps|
  {
    if steps == [] then []
    else
      var rest := Attempts(Apply(f, steps[0]), steps[1..]);
      match steps[0]
      case CallUpdateHead(i) => [Emission(f.calls[i].us, f.calls[i].body)] + rest
      case HeadUpdate(us) => [HeadOnly(us)] + rest
      case _ => rest
  }

  function Later(a: int, b: int): int {
    if a < b then b else a
  }

  /** The emissions that are not later than everything tried before them. */
  function NotLater(highest: int, attempts: seq<Attempt>): multiset<Message>
    decreases |attempts|
  {
    if attempts == [] then multiset{}
    else
      var a := attempts[0];
      (if a.Emission? && a.us <= highest then multiset{a.body} else multiset{})
      + NotLater(Later(highest, a.us), attempts[1..])
  }

  function Highest(highest: int, attempts: seq<Attempt>): int
    decreases |attempts|
  {
    if attempts == [] then highest else Highest(Later(highest, attempts[0].us), attempts[1..])
  }

  function RefusedCalls(calls: seq<Pending>): multiset<Message> {
    if calls == [] then multiset{}
    else (if calls[0].Refused? then multiset{calls[0].body} else multiset{}) + RefusedCalls(calls[1..])
  }

  /** All refused so far, counted or not yet. */
  function AllRefused(f: Flow): multiset<Message> {
    f.refused + RefusedCalls(f.calls)
  }

  lemma {:induction false} RefusedAppend(calls: seq<Pending>, p: Pending)
    requires !p.Refused?
    ensures RefusedCalls(calls + [p]) == RefusedCalls(calls)
  {
    if calls == [] {
      assert calls + [p] == [p] && [p][1..] == [];
    } else {
      assert (calls + [p])[1..] == calls[1..] + [p];
      RefusedAppend(calls[1..], p);
    }
  }

  lemma {:induction false} RefusedWithout(calls: seq<Pending>, i: nat)
    requires i < |calls|
    ensures RefusedCalls(calls)
         == RefusedCalls(Without(calls, i)) + (if calls[i].Refused? then multiset{calls[i].body} else multiset{})
  {
    if i == 0 {
      assert Without(calls, 0) == calls[1..];
    } else {
      assert Without(calls, i)[1..] == Without(calls[1..], i - 1);
      RefusedWithout(calls[1..], i - 1);
    }
  }

  lemma {:induction false} RefusedUpdate(calls: seq<Pending>, i: nat, p: Pending)
    requires i < |calls| && !calls[i].Refused? && p.body == calls[i].body
    ensures RefusedCalls(calls[i := p]) == RefusedCalls(calls) + (if p.Refused? then multiset{p.body} else multiset{})
  {
    if i == 0 {
      assert calls[i := p][1..] == calls[1..];
    } else {
      assert calls[i := p][1..] == calls[1..][i - 1 := p];
      RefusedUpdate(calls[1..], i - 1, p);
    }
  }

  lemma StepRefuses(f: Flow, s: Step)
    requires Can(f, s)
    ensures var g := Apply(f, s);
            AllRefused(g) == AllRefused(f) +
              (if s.CallUpdateHead? && f.calls[s.i].us <= f.lastUs then multiset{f.calls[s.i].body} else multiset{})
    ensures Apply(f, s).lastUs == if s.CallUpdateHead? then Later(f.lastUs, f.calls[s.i].us)
                                  else if s.HeadUpdate? then Later(f.lastUs, s.us) else f.lastUs
  {
    hide RefusedCalls, Without, Insert, Taken;
    match s
    case Begin(body, us, scheduled) => RefusedAppend(f.calls, Called(body, us, scheduled));
    case CallUpdateHead(i) =>
      RefusedUpdate(f.calls, i, HeadUpdated(f.calls[i].body, f.calls[i].us));
      RefusedUpdate(f.calls, i, Refused(f.calls[i].body, f.calls[i].us));
    case CallPublish(i) => RefusedWithout(f.calls, i);
    case ReportNotPublished(i) => RefusedWithout(f.calls, i);
    case _ =>
  }

  lemma {:induction false} RunRefuses(f: Flow, steps: seq<Step>)
    requires CanAll(f, steps)
    ensures AllRefused(Run(f, steps)) == AllRefused(f) + NotLater(f.lastUs, Attempts(f, steps))
    ensures Run(f, steps).lastUs == Highest(f.lastUs, Attempts(f, steps))
    decreases |steps|
  {
    if steps != [] {
      hide Apply, Can, AllRefused;
      var s := steps[0];
      var g := Apply(f, s);
      var rest := Attempts(g, steps[1..]);
      StepRefuses(f, s);
      RunRefuses(g, steps[1..]);
      NoneRefused(f.lastUs);
      if s.CallUpdateHead? {
        assert Attempts(f, steps) == [Emission(f.calls[s.i].us, f.calls[s.i].body)] + rest;
        assert Attempts(f, steps)[1..] == rest;
      } else if s.HeadUpdate? {
        assert Attempts(f, steps) == [HeadOnly(s.us)] + rest;
        assert Attempts(f, steps)[1..] == rest;
      }
    }
  }

  lemma NoneRefused(highest: int)
    ensures NotLater(highest, []) == multiset{} && Highest(highest, []) == highest
  {
  }

  /** In every interleaving, the messages refused are exactly those emitted with a time not later than
      any time tried before, and the head is the latest time tried. */
  lemma RefusedExactlyIfNotLater(steps: seq<Step>)
    requires CanAll(START, steps)
    ensures AllRefused(Run(START, steps)) == NotLater(-1, Attempts(START, steps))
    ensures Run(START, steps).lastUs == Highest(-1, Attempts(START, steps))
  {
    RunRefuses(START, steps);
  }

  predicate Due(f: Flow) {
    !f.consumer.Idle? ==> f.queue != [] && f.queue[0].us <= f.lastUs
  }

  lemma {:induction false} RunIsDue(f: Flow, steps: seq<Step>)
    requires CanAll(f, steps) && Due(f)
    ensures Due(Run(f, steps))
    decreases |steps|
  {
    if steps != [] { RunIsDue(Apply(f, steps[0]), steps[1..]); }
  }

  lemma {:induction false} FirstIsEarliest(q: seq<Entry>, i: nat)
    requires Sorted(q) && i < |q|
    ensures q[0].us <= q[i].us
  {
    if i > 0 { FirstIsEarliest(q[1..], i - 1); }
  }

  /** The message handed over next is due, and no queued message is due before it. */
  lemma EarliestDueFirst(steps: seq<Step>)
    requires CanAll(START, steps)
    ensures var f := Run(START, steps);
            Can(f, Deliver) ==> f.queue[0].us <= f.lastUs && forall i :: 0 <= i < |f.queue| ==> f.queue[0].us <= f.queue[i].us
  {
    hide Can, CanAll, Run, Sorted;
    StartIsFine();
    RunKeeps(START, steps);
    RunIsDue(START, steps);
    var f := Run(START, steps);
    forall i | 0 <= i < |f.queue| ensures f.queue[0].us <= f.queue[i].us { FirstIsEarliest(f.queue, i); }
    DeliverNeeds(f);
  }

  lemma DeliverNeeds(f: Flow)
    ensures Can(f, Deliver) ==> f.consumer.Handling?
  {
  }

  /** No message is between its emission and its end. */
  predicate Quiet(f: Flow) {
    f.calls == [] && Waiting(f) == [] && !f.consumer.Delivered?
  }

  lemma CountsTell(f: Flow)
    requires Inv(f)
    ensures ProcessedEverything(f.counters) <==> Quiet(f) && |f.dropped| == 0
  {
    CountsAreSizes(f.calls, Waiting(f));
  }

  lemma {:induction false} CountsAreSizes(calls: seq<Pending>, q: seq<Entry>)
    ensures |InFlight(calls)| == |calls|
    ensures |Bodies(q)| == |q|
    decreases |calls| + |q|
  {
    if calls != [] {
      CountsAreSizes(calls[1..], q);
    } else if q != [] {
      CountsAreSizes(calls, q[1..]);
    }
  }

  /** What the destructor waits for, in every interleaving: if the counters agree, then nothing is on
      its way and every message was handled or refused. */
  lemma WaitEndsOnlyWhenDone(steps: seq<Step>)
    requires CanAll(START, steps)
    ensures var f := Run(START, steps);
      ProcessedEverything(f.counters) ==> Quiet(f) && f.emitted == f.handled + f.refused
  {
    hide Inv, Run, CanAll, Quiet, ProcessedEverything;
    StartIsFine();
    RunKeeps(START, steps);
    var f := Run(START, steps);
    CountsTell(f);
    if ProcessedEverything(f.counters) { QuietIsDone(f); }
  }

  lemma StartIsFine()
    ensures Inv(START)
  {
  }

  lemma QuietIsDone(f: Flow)
    requires Inv(f) && Quiet(f) && |f.dropped| == 0
    ensures f.emitted == f.handled + f.refused
  {
    hide Sorted;
    assert f.dropped == multiset{};
    assert InFlight(f.calls) == multiset{} && Bodies(Waiting(f)) == multiset{};
  }

  /** The counters agree exactly when nothing is on its way, if and only if no message was published
      with the timestamp of one still in the queue. After that they never agree again. */
  lemma CountersTellExactlyWithoutClashes(steps: seq<Step>)
    requires CanAll(START, steps)
    ensures var f := Run(START, steps);
      && (!AnyClash(START, steps) ==> (ProcessedEverything(f.counters) <==> Quiet(f)))
      && (AnyClash(START, steps) ==> !ProcessedEverything(f.counters))
  {
    hide Inv, Run, CanAll, Quiet, ProcessedEverything, AnyClash;
    StartIsFine();
    RunKeeps(START, steps);
    CountsTell(Run(START, steps));
  }

  /** Two messages scheduled for the same time: the second one is lost, everything comes to rest, and
      the destructor waits. */
  lemma TwoForTheSameTime(a: Message, b: Message)
    ensures exists steps :: CanAll(START, steps) && AnyClash(START, steps) && Quiet(Run(START, steps))
                         && Run(START, steps).dropped == multiset{b}
                         && !ProcessedEverything(Run(START, steps).counters)
  {
    var q := [Entry(5, a)];
    var f3 := START.(counters := Counters(2, 0, 0, 0), calls := [Called(b, 5, true)], unreported := 1, queue := q,
                     emitted := multiset{a, b});
    var f4 := f3.(calls := [], unreported := 2, dropped := multiset{b});
    var rest4 := [HeadUpdate(5), Take, Deliver, ReportProcessed];
    var rest3 := [CallPublish(0)] + rest4;
    SecondIsLost(f3, f4, a, b);
    LastIsHandled(f4, a);
    Prepend(f3, CallPublish(0), rest4);
    var f1 := Apply(START, Begin(a, 5, true));
    var f2 := Apply(f1, Begin(b, 5, true));
    assert Without(f2.calls, 0) == [Called(b, 5, true)];
    assert Apply(f2, CallPublish(0)) == f3;
    Prepend(f2, CallPublish(0), rest3);
    Prepend(f1, Begin(b, 5, true), [CallPublish(0)] + rest3);
    var rest1 := [Begin(b, 5, true)] + ([CallPublish(0)] + rest3);
    Prepend(START, Begin(a, 5, true), rest1);
    CountersTellExactlyWithoutClashes([Begin(a, 5, true)] + rest1);
  }

  lemma SecondIsLost(f3: Flow, f4: Flow, a: Message, b: Message)
    requires f3.consumer.Idle? && f3.calls == [Called(b, 5, true)] && f3.queue == [Entry(5, a)]
    requires f4 == f3.(calls := [], unreported := f3.unreported + 1, dropped := f3.dropped + multiset{b})
    ensures Can(f3, CallPublish(0)) && Clashes(f3, CallPublish(0)) && Apply(f3, CallPublish(0)) == f4
  {
    assert Without(f3.calls, 0) == [];
    assert Taken(f3.queue, 5);
  }

  lemma LastIsHandled(f: Flow, a: Message)
    requires f.consumer.Idle? && f.calls == [] && f.queue == [Entry(5, a)] && f.lastUs < 5
    ensures var steps := [HeadUpdate(5), Take, Deliver, ReportProcessed];
      CanAll(f, steps) && Quiet(Run(f, steps)) && Run(f, steps).dropped == f.dropped
  {
    FourSteps(f, HeadUpdate(5), Take, Deliver, ReportProcessed);
  }

  lemma Prepend(f: Flow, s: Step, steps: seq<Step>)
    requires Can(f, s) && CanAll(Apply(f, s), steps)
    ensures CanAll(f, [s] + steps) && Run(f, [s] + steps) == Run(Apply(f, s), steps)
    ensures AnyClash(f, [s] + steps) <==> Clashes(f, s) || AnyClash(Apply(f, s), steps)
  {
    assert ([s] + steps)[1..] == steps;
  }

  lemma FourSteps(f: Flow, a: Step, b: Step, c: Step, d: Step)
    requires Can(f, a) && Can(Apply(f, a), b) && Can(Apply(Apply(f, a), b), c)
          && Can(Apply(Apply(Apply(f, a), b), c), d)
    ensures CanAll(f, [a, b, c, d])
    ensures Run(f, [a, b, c, d]) == Apply(Apply(Apply(Apply(f, a), b), c), d)
  {
    hide Apply, Can;
    var g := Apply(Apply(Apply(f, a), b), c);
    Prepend(g, d, []);
    Prepend(Apply(Apply(f, a), b), c, [d]);
    Prepend(Apply(f, a), b, [c, d]);
    Prepend(f, a, [b, c, d]);
    assert [c] + [d] == [c, d] && [b] + [c, d] == [b, c, d] && [a] + [b, c, d] == [a, b, c, d] && [d] + [] == [d];
  }
}
