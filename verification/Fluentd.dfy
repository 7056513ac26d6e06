/** The IO thread of the fluentd log client: it drains a bounded retry queue and
    then writes live events while it is connected, and queues events while it is
    not. The outside world (connects, writes, wake-ups) is given by scripts; a run
    stops where a script ends, so that every moment of every run is covered. */
module Fluentd {
  import opened Basics

  type Bytes = seq<nat>

  /** A log event, numbered by the order in which the thread received it. */
  datatype Event = Event(no: nat, data: Bytes)

  datatype ConnectOutcome = Connected | ConnectFailed | ConnectTimeout

  datatype WriteOutcome = Written | WriteFailed | WriteTimeout

  /** What ends a wait: an event, the end of the channel, bytes or an error from the
      server, the flush timer (with the result of the flush), the reconnect timer. */
  datatype Wake = Received(data: Bytes) | ChannelClosed | ServerSpoke | FlushTick(ok: bool) | DelayOver

  /** How a phase ended: the channel is closed, the connection is lost or is to be
      tried again, or the script is over. */
  datatype Exit = Finished | Retry | Suspended

  /** What has become of the events: `front` and `back` are on their way to or from
      the queue. */
  datatype Log = Log(received: seq<Event>, written: seq<Event>, queue: seq<Event>, dropped: seq<Event>)

  ghost predicate InOrder(es: seq<Event>) {
    forall i, j :: 0 <= i < j < |es| ==> es[i].no < es[j].no
  }

  ghost predicate Numbered(es: seq<Event>) {
    forall i :: 0 <= i < |es| ==> es[i].no == i
  }

  /** Events are written and queued in receive order, and each received event is
      written, in flight, queued or dropped. */
  ghost predicate Tracked(l: Log, front: seq<Event>, back: seq<Event>) {
    Lined(l.received, l.written + front + l.queue + back, l.dropped)
  }

  ghost predicate Lined(received: seq<Event>, line: seq<Event>, dropped: seq<Event>) {
    && Numbered(received)
    && InOrder(line)
    && multiset(line) + multiset(dropped) == multiset(received)
  }

  lemma TakeOut(received: seq<Event>, a: seq<Event>, e: Event, b: seq<Event>, dropped: seq<Event>)
    requires Lined(received, a + [e] + b, dropped)
    ensures Lined(received, a + b, dropped + [e])
  {
    var all, left := a + [e] + b, a + b;
    assert forall i :: 0 <= i < |left| ==> left[i] == all[if i < |a| then i else i + 1];
    assert multiset(all) == multiset(left) + multiset{e};
    assert multiset(dropped + [e]) == multiset(dropped) + multiset{e};
  }

  lemma Uniquely(es: seq<Event>, e: Event)
    requires Numbered(es)
    ensures multiset(es)[e] <= 1
  {
    if multiset(es)[e] >= 1 {
      assert e in es;
      var i :| 0 <= i < |es| && es[i] == e;
      assert es == es[..i] + [e] + es[i + 1..];
      assert e !in es[..i] && e !in es[i + 1..];
    }
  }

  lemma LineIsReceived(received: seq<Event>, line: seq<Event>, dropped: seq<Event>)
    requires Lined(received, line, dropped)
    ensures forall i :: 0 <= i < |line| ==> line[i].no < |received| && received[line[i].no] == line[i]
  {
    hide InOrder;
    forall i | 0 <= i < |line| ensures line[i].no < |received| && received[line[i].no] == line[i] {
      assert line[i] in multiset(line);
      assert line[i] in multiset(received);
      var k :| 0 <= k < |received| && received[k] == line[i];
    }
  }

  /** The written events are a subsequence of the received ones, without repetition. */
  lemma WrittenIsSubsequence(l: Log)
    requires Tracked(l, [], [])
    ensures InOrder(l.written)
    ensures forall i :: 0 <= i < |l.written| ==> l.written[i].no < |l.received| && l.received[l.written[i].no] == l.written[i]
  {
    var all := l.written + [] + l.queue + [];
    assert forall i :: 0 <= i < |l.written| ==> l.written[i] == all[i];
    LineIsReceived(l.received, all, l.dropped);
  }

  /** Each received event has exactly one fate. */
  lemma OneFate(l: Log, k: nat)
    requires Tracked(l, [], []) && k < |l.received|
    ensures var e := l.received[k];
      multiset(l.written)[e] + multiset(l.queue)[e] + multiset(l.dropped)[e] == 1
  {
    var e := l.received[k];
    Uniquely(l.received, e);
    assert e in multiset(l.received);
    assert l.written + [] + l.queue + [] == l.written + l.queue;
    assert multiset(l.written + l.queue) == multiset(l.written) + multiset(l.queue);
  }

  lemma Arrive(l: Log, data: Bytes)
    requires Tracked(l, [], [])
    ensures Tracked(l.(received := l.received + [Event(|l.received|, data)]), [], [Event(|l.received|, data)])
  {
    var e := Event(|l.received|, data);
    var all := l.written + [] + l.queue + [];
    assert l.written + [] + l.queue + [e] == all + [e];
    assert multiset(all + [e]) == multiset(all) + multiset{e};
    assert multiset(l.received + [e]) == multiset(l.received) + multiset{e};
    LineIsReceived(l.received, all, l.dropped);
  }

  lemma Enqueue(l: Log, e: Event)
    requires Tracked(l, [], [e])
    ensures Tracked(l.(queue := l.queue + [e]), [], [])
  {
    hide Lined;
    assert l.written + [] + l.queue + [e] == l.written + [] + (l.queue + [e]) + [];
  }

  lemma Dequeue(l: Log)
    requires Tracked(l, [], []) && l.queue != []
    ensures Tracked(l.(queue := l.queue[1..]), [l.queue[0]], [])
  {
    hide Lined;
    assert l.written + [] + l.queue + [] == l.written + [l.queue[0]] + l.queue[1..] + [];
  }

  lemma PutBack(l: Log, e: Event)
    requires Tracked(l, [e], [])
    ensures Tracked(l.(queue := [e] + l.queue), [], [])
  {
    hide Lined;
    assert l.written + [e] + l.queue + [] == l.written + [] + ([e] + l.queue) + [];
  }

  lemma WriteOut(l: Log, e: Event)
    requires Tracked(l, [e], []) || (Tracked(l, [], [e]) && l.queue == [])
    ensures Tracked(l.(written := l.written + [e]), [], [])
  {
    hide Lined;
    assert l.written + [e] + l.queue + [] == (l.written + [e]) + [] + l.queue + [];
    if l.queue == [] {
      assert l.written + [] + l.queue + [e] == (l.written + [e]) + [] + l.queue + [];
    }
  }

  lemma DiscardFront(l: Log, e: Event)
    requires Tracked(l, [e], [])
    ensures Tracked(l.(dropped := l.dropped + [e]), [], [])
  {
    hide Lined;
    assert l.written + [e] + l.queue + [] == l.written + [e] + l.queue;
    TakeOut(l.received, l.written, e, l.queue, l.dropped);
    assert l.written + [] + l.queue + [] == l.written + l.queue;
  }

  lemma DiscardBack(l: Log, e: Event)
    requires Tracked(l, [], [e])
    ensures Tracked(l.(dropped := l.dropped + [e]), [], [])
  {
    hide Lined;
    assert l.written + [] + l.queue + [e] == (l.written + l.queue) + [e] + [];
    TakeOut(l.received, l.written + l.queue, e, [], l.dropped);
    assert l.written + [] + l.queue + [] == (l.written + l.queue) + [];
  }

  /** The events among the wake-ups. */
  ghost function Payloads(ws: seq<Wake>): seq<Bytes> {
    if ws == [] then []
    else Payloads(ws[..|ws| - 1]) + match ws[|ws| - 1] { case Received(data) => [data] case _ => [] }
  }

  /** Exactly the events among the wake-ups were received. */
  ghost predicate Heard(received: seq<Event>, ws: seq<Wake>) {
    |received| == |Payloads(ws)| && forall i :: 0 <= i < |received| ==> received[i].data == Payloads(ws)[i]
  }

  lemma HearOne(received: seq<Event>, ws: seq<Wake>, w: Wake)
    requires Heard(received, ws)
    ensures w.Received? ==> Heard(received + [Event(|received|, w.data)], ws + [w])
    ensures !w.Received? ==> Heard(received, ws + [w])
  {
    assert (ws + [w])[..|ws|] == ws;
  }

  /** A write that was tried, and what it came to. */
  datatype Attempt = Attempt(event: Event, outcome: WriteOutcome)

  /** The events whose write came to `o`, in order. */
  ghost function Came(attempts: seq<Attempt>, o: WriteOutcome): seq<Event> {
    if attempts == [] then []
    else
      var last := attempts[|attempts| - 1];
      Came(attempts[..|attempts| - 1], o) + if last.outcome == o then [last.event] else []
  }

  ghost function Outcomes(attempts: seq<Attempt>): seq<WriteOutcome> {
    if attempts == [] then [] else Outcomes(attempts[..|attempts| - 1]) + [attempts[|attempts| - 1].outcome]
  }

  lemma AttemptMore(attempts: seq<Attempt>, a: Attempt)
    ensures forall o :: Came(attempts + [a], o) == Came(attempts, o) + if a.outcome == o then [a.event] else []
    ensures Outcomes(attempts + [a]) == Outcomes(attempts) + [a.outcome]
  {
    assert (attempts + [a])[..|attempts|] == attempts;
  }

  /** The books of the thread: the events, the writes tried, what the queue had no room for,
      and the counters. `passed` counts live writes, `drained` those from the queue. */
  datatype Book = Book(log: Log, attempts: seq<Attempt>, overflowed: seq<Event>, dropCount: nat, passed: nat, drained: nat)

  /** What was written is what writes succeeded for; what was dropped is what writes timed
      out for, and what the queue had no room for. */
  ghost predicate Balanced(b: Book) {
    && b.log.written == Came(b.attempts, Written) && |b.log.written| == b.passed + b.drained
    && multiset(b.log.dropped) == multiset(Came(b.attempts, WriteTimeout)) + multiset(b.overflowed)
    && b.dropCount == |b.log.dropped|
  }

  /** The books after the write of `e`, from the queue or `live` from the channel. */
  ghost function AfterWrite(b: Book, e: Event, w: WriteOutcome, live: bool): Book {
    var tried := b.(attempts := b.attempts + [Attempt(e, w)]);
    match w
    case Written =>
      tried.(log := b.log.(written := b.log.written + [e]),
             passed := b.passed + if live then 1 else 0, drained := b.drained + if live then 0 else 1)
    case WriteFailed => tried
    case WriteTimeout => tried.(log := b.log.(dropped := b.log.dropped + [e]), dropCount := b.dropCount + 1)
  }

  lemma BalancedWrite(b: Book, e: Event, w: WriteOutcome, live: bool)
    requires Balanced(b)
    ensures Balanced(AfterWrite(b, e, w, live))
  {
    hide Came, Outcomes;
    AttemptMore(b.attempts, Attempt(e, w));
    match w
    case Written =>
    case WriteFailed =>
    case WriteTimeout =>
      OneMore(b.log.dropped, Came(b.attempts, WriteTimeout), b.overflowed, e);
  }

  lemma OneMore(all: seq<Event>, some: seq<Event>, others: seq<Event>, e: Event)
    requires multiset(all) == multiset(some) + multiset(others)
    ensures multiset(all + [e]) == multiset(some + [e]) + multiset(others)
  {
  }

  /** The books after `e` was dropped for want of room. */
  ghost function AfterOverflow(b: Book, e: Event): Book {
    b.(log := b.log.(dropped := b.log.dropped + [e]), overflowed := b.overflowed + [e], dropCount := b.dropCount + 1)
  }

  lemma BalancedOverflow(b: Book, e: Event)
    requires Balanced(b)
    ensures Balanced(AfterOverflow(b, e))
  {
    hide Came;
  }

  lemma BalancedMoves(b: Book, queue: seq<Event>, received: seq<Event>)
    requires Balanced(b)
    ensures Balanced(b.(log := b.log.(queue := queue, received := received)))
  {
    hide Came;
  }

  lemma NothingYet(retryQueueLen: nat)
    ensures Tracked(Log([], [], [], []), [], []) && Heard([], []) && Crowded([], retryQueueLen, 0)
    ensures Balanced(Book(Log([], [], [], []), [], [], 0, 0, 0))
  {
    var none: seq<Event> := [];
    assert none + none + none + none == none;
  }

  /** Unless it failed, the written event is off the line. */
  lemma TrackedWrite(b: Book, e: Event, w: WriteOutcome, live: bool)
    requires live ==> b.log.queue == []
    requires Tracked(b.log, if live then [] else [e], if live then [e] else [])
    ensures w == WriteFailed ==>
      Tracked(AfterWrite(b, e, w, live).log, if live then [] else [e], if live then [e] else [])
    ensures w != WriteFailed ==> Tracked(AfterWrite(b, e, w, live).log, [], [])
  {
    hide Tracked;
    match w
    case Written => WriteOut(b.log, e);
    case WriteFailed =>
    case WriteTimeout =>
      if live {
        DiscardBack(b.log, e);
      } else {
        DiscardFront(b.log, e);
      }
  }

  /** An event that the queue had no room for is followed by a queue full of later events. */
  ghost predicate Crowded(overflowed: seq<Event>, retryQueueLen: nat, received: nat) {
    forall e :: e in overflowed ==> e.no + retryQueueLen < received
  }

  lemma CrowdedLater(overflowed: seq<Event>, retryQueueLen: nat, received: nat)
    requires Crowded(overflowed, retryQueueLen, received)
    ensures Crowded(overflowed, retryQueueLen, received + 1)
  {
  }

  lemma {:induction false} Apart(es: seq<Event>)
    requires InOrder(es) && es != []
    ensures es[0].no + |es| - 1 <= es[|es| - 1].no
  {
    if |es| > 1 {
      Apart(es[..|es| - 1]);
    }
  }

  lemma QueueIsReceived(l: Log)
    requires Tracked(l, [], [])
    ensures InOrder(l.queue) && forall i :: 0 <= i < |l.queue| ==> l.queue[i].no < |l.received|
  {
    var all := l.written + [] + l.queue + [];
    assert forall i :: 0 <= i < |l.queue| ==> l.queue[i] == all[|l.written| + i];
    LineIsReceived(l.received, all, l.dropped);
  }

  /** The first of a queue that is too long. */
  lemma FirstIsCrowded(l: Log, overflowed: seq<Event>, retryQueueLen: nat)
    requires Tracked(l, [], []) && |l.queue| > retryQueueLen && Crowded(overflowed, retryQueueLen, |l.received|)
    ensures Crowded(overflowed + [l.queue[0]], retryQueueLen, |l.received|)
  {
    hide Tracked, InOrder;
    QueueIsReceived(l);
    Apart(l.queue);
  }

  /** The time between two connects: with a connection or without one, the writes tried,
      the wake-ups, and how it ended. */
  datatype Phase = Phase(connected: bool, attempts: seq<Attempt>, woken: seq<Wake>, exit: Exit)

  predicate Ends(w: Wake, connected: bool) {
    w == ChannelClosed || if connected then w == ServerSpoke || w == FlushTick(false) else w == DelayOver
  }

  ghost predicate NoEnd(ws: seq<Wake>, connected: bool) {
    forall i :: 0 <= i < |ws| ==> !Ends(ws[i], connected)
  }

  ghost predicate EndsLast(ws: seq<Wake>, connected: bool) {
    ws != [] && NoEnd(ws[..|ws| - 1], connected) && Ends(ws[|ws| - 1], connected)
  }

  ghost predicate NoFailure(attempts: seq<Attempt>) {
    forall i :: 0 <= i < |attempts| ==> attempts[i].outcome != WriteFailed
  }

  ghost predicate FailsLast(attempts: seq<Attempt>) {
    && attempts != [] && NoFailure(attempts[..|attempts| - 1])
    && attempts[|attempts| - 1].outcome == WriteFailed
  }

  /** A phase goes on until the channel is closed, or the connection is lost or to be tried
      again, and no longer; nothing is written without a connection. */
  ghost predicate Lasts(p: Phase) {
    && (!p.connected ==> p.attempts == [])
    && match p.exit
       case Suspended => NoFailure(p.attempts) && NoEnd(p.woken, p.connected)
       case Finished =>
         NoFailure(p.attempts) && EndsLast(p.woken, p.connected) && p.woken[|p.woken| - 1] == ChannelClosed
       case Retry =>
         || (NoFailure(p.attempts) && EndsLast(p.woken, p.connected) && p.woken[|p.woken| - 1] != ChannelClosed)
         || (FailsLast(p.attempts) && NoEnd(p.woken, p.connected))
  }

  /** What ends a phase, and what does not: with a connection the first failed write, word from
      the server, failed flush or end of the channel; without one the end of the delay or of
      the channel. */
  lemma PhaseEnds(p: Phase)
    requires Lasts(p)
    ensures forall i :: 0 <= i < |p.attempts| - 1 ==> p.attempts[i].outcome != WriteFailed
    ensures forall i :: 0 <= i < |p.woken| - 1 ==>
      p.woken[i] != ChannelClosed &&
      if p.connected then p.woken[i] !in {ServerSpoke, FlushTick(false)} else p.woken[i] != DelayOver
    ensures p.exit == Finished <==> p.woken != [] && p.woken[|p.woken| - 1] == ChannelClosed
    ensures p.exit == Retry <==>
      || (p.attempts != [] && p.attempts[|p.attempts| - 1].outcome == WriteFailed)
      || (p.woken != [] &&
          if p.connected then p.woken[|p.woken| - 1] in {ServerSpoke, FlushTick(false)}
          else p.woken[|p.woken| - 1] == DelayOver)
  {
  }

  lemma NoEndYet(connected: bool)
    ensures NoEnd([], connected) && NoFailure([])
  {
  }

  lemma LastsQuietly(p: Phase)
    requires p.connected && NoEnd(p.woken, true)
    requires (p.exit == Suspended && NoFailure(p.attempts)) || (p.exit == Retry && FailsLast(p.attempts))
    ensures Lasts(p)
  {
  }

  lemma AfterWake(tried: seq<Attempt>, ws: seq<Wake>, w: Wake, connected: bool)
    requires NoFailure(tried) && NoEnd(ws, connected) && (!connected ==> tried == [])
    ensures !Ends(w, connected) ==> NoEnd(ws + [w], connected)
    ensures Ends(w, connected) ==> Lasts(Phase(connected, tried, ws + [w], if w == ChannelClosed then Finished else Retry))
  {
    assert (ws + [w])[..|ws|] == ws;
  }

  lemma AfterTry(tried: seq<Attempt>, ws: seq<Wake>, a: Attempt)
    requires NoFailure(tried) && NoEnd(ws, true)
    ensures a.outcome != WriteFailed ==> NoFailure(tried + [a])
    ensures a.outcome == WriteFailed ==> FailsLast(tried + [a]) && Lasts(Phase(true, tried + [a], ws, Retry))
  {
    assert (tried + [a])[..|tried|] == tried;
  }

  ghost function AllAttempts(ps: seq<Phase>): seq<Attempt> {
    if ps == [] then [] else AllAttempts(ps[..|ps| - 1]) + ps[|ps| - 1].attempts
  }

  ghost function AllWoken(ps: seq<Phase>): seq<Wake> {
    if ps == [] then [] else AllWoken(ps[..|ps| - 1]) + ps[|ps| - 1].woken
  }

  /** One phase for each connect, each but the last to be retried. */
  ghost predicate Phases(ps: seq<Phase>, connects: seq<ConnectOutcome>) {
    && |ps| <= |connects|
    && forall i :: 0 <= i < |ps| ==>
         && Lasts(ps[i]) && ps[i].connected == (connects[i] == Connected)
         && (i < |ps| - 1 ==> ps[i].exit == Retry)
  }

  lemma PhaseMore(ps: seq<Phase>, p: Phase, connects: seq<ConnectOutcome>)
    requires Phases(ps, connects) && |ps| < |connects| && (ps == [] || ps[|ps| - 1].exit == Retry)
    requires Lasts(p) && p.connected == (connects[|ps|] == Connected)
    ensures Phases(ps + [p], connects)
  {
    hide Lasts;
  }

  lemma NoPhaseYet(connects: seq<ConnectOutcome>)
    ensures Phases([], connects) && AllAttempts([]) == [] && AllWoken([]) == []
  {
  }

  lemma AllOneMore(ps: seq<Phase>, p: Phase)
    ensures AllAttempts(ps + [p]) == AllAttempts(ps) + p.attempts
    ensures AllWoken(ps + [p]) == AllWoken(ps) + p.woken
  {
    assert (ps + [p])[..|ps|] == ps;
  }

  class IoThread {
    const retryQueueLen: nat
    var queue: seq<Event>
    var nextNo: nat
    /** `stats.drop` and `stats.io` */
    var dropCount: nat
    var passed: nat
    var connects: seq<ConnectOutcome>
    var writes: seq<WriteOutcome>
    var wakes: seq<Wake>
    /** What happened to the events. */
    ghost var woken: seq<Wake>
    ghost var received: seq<Event>
    ghost var written: seq<Event>
    ghost var dropped: seq<Event>
    ghost var attempts: seq<Attempt>
    ghost var overflowed: seq<Event>
    ghost var drained: nat

    constructor (retryQueueLen: nat, connects: seq<ConnectOutcome>, writes: seq<WriteOutcome>, wakes: seq<Wake>)
      ensures Valid() && queue == [] && received == [] && attempts == [] && woken == []
      ensures this.retryQueueLen == retryQueueLen && this.connects == connects && Scripts(writes, wakes)
    {
      hide Tracked, Heard, Balanced, Crowded;
      NothingYet(retryQueueLen);
      this.retryQueueLen := retryQueueLen;
      this.connects, this.writes, this.wakes := connects, writes, wakes;
      queue, nextNo, dropCount, passed := [], 0, 0, 0;
      woken, received, written, dropped, attempts, overflowed, drained := [], [], [], [], [], [], 0;
    }

    ghost function TheBook(): Book
      reads this
    {
      Book(Log(received, written, queue, dropped), attempts, overflowed, dropCount, passed, drained)
    }

    /** With `front` taken off the queue, or `back` off the channel. */
    ghost predicate InOrderBut(front: seq<Event>, back: seq<Event>)
      reads this
    {
      && Tracked(TheBook().log, front, back) && Balanced(TheBook())
      && nextNo == |received| && Heard(received, woken) && Crowded(overflowed, retryQueueLen, |received|)
    }

    ghost predicate Valid()
      reads this
    {
      InOrderBut([], []) && |queue| <= retryQueueLen
    }

    /** The scripts as they were at the start. */
    ghost predicate Scripts(allWrites: seq<WriteOutcome>, allWakes: seq<Wake>)
      reads this
    {
      Outcomes(attempts) + writes == allWrites && woken + wakes == allWakes
    }

    /** There is no more wake-up, or an event to be written and no more outcome for it. */
    ghost predicate ScriptEnded()
      reads this
    {
      wakes == [] || (writes == [] && (queue != [] || wakes[0].Received?))
    }

    /** `push_to_retry`: the oldest event gives way when the queue is full. */
    method PushToRetry(e: Event) returns (lost: Option<Event>)
      requires InOrderBut([], [e]) && |queue| <= retryQueueLen
      modifies this`queue, this`dropCount, this`dropped, this`overflowed
      ensures Valid()
      ensures |old(queue)| < retryQueueLen ==>
        lost == None && queue == old(queue) + [e] && dropped == old(dropped) && overflowed == old(overflowed)
      ensures |old(queue)| == retryQueueLen ==>
        && lost == Some((old(queue) + [e])[0]) && queue == (old(queue) + [e])[1..]
        && dropped == old(dropped) + [lost.value] && overflowed == old(overflowed) + [lost.value]
    {
      hide Tracked, Heard, Balanced, Crowded;
      Enqueue(TheBook().log, e);
      BalancedMoves(TheBook(), queue + [e], received);
      queue := queue + [e];
      if |queue| > retryQueueLen {
        dropCount := dropCount + 1;
        var first := queue[0];
        ghost var b := TheBook().(dropCount := dropCount - 1);
        FirstIsCrowded(b.log, overflowed, retryQueueLen);
        Dequeue(b.log);
        BalancedMoves(b, queue[1..], received);
        queue := queue[1..];
        DiscardFront(b.log.(queue := queue), first);
        BalancedOverflow(b.(log := b.log.(queue := queue)), first);
        dropped, overflowed := dropped + [first], overflowed + [first];
        return Some(first);
      }
      return None;
    }

    /** Takes the next event from the channel. */
    method Receive() returns (e: Event)
      requires InOrderBut([], []) && wakes != [] && wakes[0].Received?
      modifies this`nextNo, this`received, this`wakes, this`woken
      ensures InOrderBut([], [e]) && e.data == old(wakes)[0].data
      ensures wakes == old(wakes)[1..] && woken == old(woken) + [old(wakes)[0]]
      ensures received == old(received) + [e]
    {
      hide Tracked, Heard, Balanced, Crowded;
      var data := wakes[0].data;
      e := Event(nextNo, data);
      Arrive(TheBook().log, data);
      BalancedMoves(TheBook(), queue, received + [e]);
      HearOne(received, woken, wakes[0]);
      CrowdedLater(overflowed, retryQueueLen, |received|);
      nextNo, received := nextNo + 1, received + [e];
      wakes, woken := wakes[1..], woken + [wakes[0]];
    }

    /** Tries to write `e`, from the queue or `live` from the channel. */
    method Write(e: Event, live: bool) returns (w: WriteOutcome)
      requires writes != [] && (live ==> queue == [])
      requires InOrderBut(if live then [] else [e], if live then [e] else [])
      modifies this`writes, this`attempts, this`written, this`dropCount, this`dropped, this`passed, this`drained
      ensures w == old(writes)[0] && writes == old(writes)[1..]
      ensures TheBook() == AfterWrite(old(TheBook()), e, w, live)
      ensures w == WriteFailed ==> InOrderBut(if live then [] else [e], if live then [e] else [])
      ensures w != WriteFailed ==> InOrderBut([], [])
    {
      hide Tracked, Heard, Balanced, Crowded;
      w, writes := writes[0], writes[1..];
      TrackedWrite(TheBook(), e, w, live);
      BalancedWrite(TheBook(), e, w, live);
      attempts := attempts + [Attempt(e, w)];
      match w
      case Written =>
        written := written + [e];
        if live {
          passed := passed + 1;
        } else {
          drained := drained + 1;
        }
      case WriteFailed =>
      case WriteTimeout =>
        dropCount := dropCount + 1;
        dropped := dropped + [e];
    }

    /** One round of the first loop of `run_with_connection`. An event whose write
        fails goes back to where it was. */
    method DrainOne() returns (w: WriteOutcome)
      requires Valid() && queue != [] && writes != []
      modifies this`queue, this`writes, this`attempts, this`written, this`drained, this`passed, this`dropCount, this`dropped
      ensures Valid() && w == old(writes)[0] && writes == old(writes)[1..] && passed == old(passed)
      ensures attempts == old(attempts) + [Attempt(old(queue)[0], w)]
      ensures queue == if w == WriteFailed then old(queue) else old(queue)[1..]
      ensures written == old(written) + (if w == Written then [old(queue)[0]] else [])
      ensures dropped == old(dropped) + (if w == WriteTimeout then [old(queue)[0]] else [])
    {
      hide Tracked, Heard, Balanced, Crowded;
      var e := queue[0];
      Dequeue(TheBook().log);
      BalancedMoves(TheBook(), queue[1..], received);
      queue := queue[1..];
      w := Write(e, false);
      if w == WriteFailed {
        PutBack(TheBook().log, e);
        BalancedMoves(TheBook(), [e] + queue, received);
        queue := [e] + queue;
      }
    }

    /** Drains the queue from the front until it is empty or a write fails. */
    method Drain(ghost allWrites: seq<WriteOutcome>, ghost allWakes: seq<Wake>)
        returns (exit: Option<Exit>, ghost tried: seq<Attempt>)
      requires Valid() && Scripts(allWrites, allWakes)
      modifies this`queue, this`writes, this`attempts, this`written, this`drained, this`passed, this`dropCount, this`dropped
      ensures Valid() && Scripts(allWrites, allWakes) && passed == old(passed)
      ensures attempts == old(attempts) + tried
      ensures exit == None ==> queue == [] && NoFailure(tried)
      ensures exit == Some(Retry) ==> FailsLast(tried)
      ensures exit == Some(Suspended) ==> writes == [] && queue != [] && NoFailure(tried)
      ensures exit != Some(Finished)
    {
      hide Tracked, Heard, Balanced, Crowded, Outcomes;
      tried := [];
      while queue != []
        invariant Valid() && Scripts(allWrites, allWakes) && passed == old(passed)
        invariant attempts == old(attempts) + tried && NoFailure(tried)
        decreases |queue|
      {
        if writes == [] {
          return Some(Suspended), tried;
        }
        ghost var e, before := queue[0], attempts;
        assert Outcomes(attempts) + writes == Outcomes(attempts) + [writes[0]] + writes[1..];
        var w := DrainOne();
        AttemptMore(before, Attempt(e, w));
        AfterTry(tried, [], Attempt(e, w));
        tried := tried + [Attempt(e, w)];
        if w == WriteFailed {
          return Some(Retry), tried;
        }
      }
      return None, tried;
    }

    /** An event that arrives while connected is written, dropped or queued, as its write
        succeeds, times out or fails. */
    method Live(ghost allWrites: seq<WriteOutcome>, ghost allWakes: seq<Wake>) returns (alive: bool, e: Event)
      requires Valid() && queue == [] && writes != [] && wakes != [] && wakes[0].Received?
      requires Scripts(allWrites, allWakes)
      modifies this
      ensures Valid() && Scripts(allWrites, allWakes) && connects == old(connects) && |wakes| < |old(wakes)|
      ensures received == old(received) + [e] && e.data == old(wakes)[0].data && woken == old(woken) + [old(wakes)[0]]
      ensures alive == (old(writes)[0] != WriteFailed) && attempts == old(attempts) + [Attempt(e, old(writes)[0])]
      ensures var w := old(writes)[0];
              && written == old(written) + (if w == Written then [e] else [])
              && passed == old(passed) + (if w == Written then 1 else 0)
              && dropped == old(dropped) + (if w == WriteTimeout || (w == WriteFailed && retryQueueLen == 0) then [e] else [])
              && queue == if w == WriteFailed && retryQueueLen > 0 then [e] else []
    {
      hide Tracked, Heard, Balanced, Crowded, Outcomes;
      e := Receive();
      ghost var before := attempts;
      assert Outcomes(attempts) + writes == Outcomes(attempts) + [writes[0]] + writes[1..];
      var w := Write(e, true);
      AttemptMore(before, Attempt(e, w));
      if w == WriteFailed {
        var _ := PushToRetry(e);
      }
      return w != WriteFailed, e;
    }

    /** A wake-up that is no event. */
    method Waken(ghost allWrites: seq<WriteOutcome>, ghost allWakes: seq<Wake>)
      requires Valid() && Scripts(allWrites, allWakes) && wakes != [] && !wakes[0].Received?
      modifies this`wakes, this`woken
      ensures Valid() && Scripts(allWrites, allWakes)
      ensures |wakes| < |old(wakes)| && woken == old(woken) + [old(wakes)[0]]
    {
      hide Tracked, Heard, Balanced, Crowded, Outcomes;
      HearOne(received, woken, wakes[0]);
      wakes, woken := wakes[1..], woken + [wakes[0]];
    }

    /** An event that arrives without a connection. */
    method Queue(ghost allWrites: seq<WriteOutcome>, ghost allWakes: seq<Wake>) returns (lost: Option<Event>)
      requires Valid() && Scripts(allWrites, allWakes) && wakes != [] && wakes[0].Received?
      modifies this`nextNo, this`received, this`wakes, this`woken, this`queue, this`dropCount, this`dropped, this`overflowed
      ensures Valid() && Scripts(allWrites, allWakes)
      ensures |wakes| < |old(wakes)| && woken == old(woken) + [old(wakes)[0]]
      ensures |received| == |old(received)| + 1
      ensures var line := old(queue) + [received[|old(received)|]];
              && lost == (if |line| > retryQueueLen then Some(line[0]) else None)
              && queue == (if lost.Some? then line[1..] else line)
              && dropped == old(dropped) + if lost.Some? then [line[0]] else []
    {
      hide Tracked, Heard, Balanced, Crowded, Outcomes;
      var e := Receive();
      lost := PushToRetry(e);
    }

    /** `run_with_connection` */
    method RunWithConnection(ghost allWrites: seq<WriteOutcome>, ghost allWakes: seq<Wake>)
        returns (exit: Exit, ghost phase: Phase)
      requires Valid() && Scripts(allWrites, allWakes)
      modifies this
      ensures Valid() && Scripts(allWrites, allWakes) && connects == old(connects)
      ensures phase.connected && phase.exit == exit && Lasts(phase)
      ensures attempts == old(attempts) + phase.attempts && woken == old(woken) + phase.woken
      ensures exit == Suspended ==> ScriptEnded()
      ensures exit == Finished ==> queue == []
    {
      hide Valid, Scripts, Lasts, NoEnd, NoFailure, FailsLast;
      var early, tried := Drain(allWrites, allWakes);
      ghost var heard: seq<Wake> := [];
      NoEndYet(true);
      if early.Some? {
        exit, phase := early.value, Phase(true, tried, heard, early.value);
        LastsQuietly(phase);
        return;
      }
      while true
        invariant Valid() && Scripts(allWrites, allWakes) && queue == [] && connects == old(connects)
        invariant attempts == old(attempts) + tried && woken == old(woken) + heard
        invariant NoFailure(tried) && NoEnd(heard, true)
        decreases |wakes|
      {
        if wakes == [] || (wakes[0].Received? && writes == []) {
          exit, phase := Suspended, Phase(true, tried, heard, Suspended);
          LastsQuietly(phase);
          return;
        }
        var wake := wakes[0];
        AfterWake(tried, heard, wake, true);
        heard := heard + [wake];
        if wake.Received? {
          var alive, e := Live(allWrites, allWakes);
          ghost var a := attempts[|attempts| - 1];
          AfterTry(tried, heard, a);
          tried := tried + [a];
          if !alive {
            return Retry, Phase(true, tried, heard, Retry);
          }
        } else {
          Waken(allWrites, allWakes);
          match wake
          case ChannelClosed => return Finished, Phase(true, tried, heard, Finished);
          case ServerSpoke => return Retry, Phase(true, tried, heard, Retry);
          case FlushTick(ok) =>
            if !ok {
              return Retry, Phase(true, tried, heard, Retry);
            }
          case _ =>
        }
      }
    }

    /** `run_without_connection`: it reports how many events it had to drop. */
    method RunWithoutConnection(ghost allWrites: seq<WriteOutcome>, ghost allWakes: seq<Wake>)
        returns (exit: Exit, dropsHere: nat, ghost phase: Phase)
      requires Valid() && Scripts(allWrites, allWakes)
      modifies this
      ensures Valid() && Scripts(allWrites, allWakes) && connects == old(connects)
      ensures !phase.connected && phase.exit == exit && Lasts(phase)
      ensures attempts == old(attempts) && written == old(written) && woken == old(woken) + phase.woken
      ensures |dropped| == |old(dropped)| + dropsHere
      ensures exit == Suspended ==> ScriptEnded()
    {
      hide Valid, Scripts, NoEnd;
      dropsHere := 0;
      ghost var heard: seq<Wake> := [];
      NoEndYet(false);
      while wakes != []
        invariant Valid() && Scripts(allWrites, allWakes) && connects == old(connects)
        invariant attempts == old(attempts) && written == old(written) && woken == old(woken) + heard
        invariant NoEnd(heard, false)
        invariant |dropped| == |old(dropped)| + dropsHere
        decreases |wakes|
      {
        var wake := wakes[0];
        AfterWake([], heard, wake, false);
        heard := heard + [wake];
        if wake.Received? {
          var lost := Queue(allWrites, allWakes);
          if lost.Some? {
            dropsHere := dropsHere + 1;
          }
        } else {
          Waken(allWrites, allWakes);
          match wake
          case ChannelClosed => return Finished, dropsHere, Phase(false, [], heard, Finished);
          case DelayOver => return Retry, dropsHere, Phase(false, [], heard, Retry);
          case _ =>
        }
      }
      return Suspended, dropsHere, Phase(false, [], heard, Suspended);
    }

    /** One round of `run_to_end`. */
    method RunPhase(ghost allWrites: seq<WriteOutcome>, ghost allWakes: seq<Wake>)
        returns (exit: Exit, ghost phase: Phase)
      requires Valid() && Scripts(allWrites, allWakes) && connects != []
      modifies this
      ensures Valid() && Scripts(allWrites, allWakes) && connects == old(connects)[1..]
      ensures phase.connected == (old(connects)[0] == Connected) && phase.exit == exit && Lasts(phase)
      ensures attempts == old(attempts) + phase.attempts && woken == old(woken) + phase.woken
      ensures exit == Suspended ==> ScriptEnded()
    {
      hide Tracked, Heard, Balanced, Crowded, Outcomes, NoEnd, NoFailure;
      var c := connects[0];
      connects := connects[1..];
      if c == Connected {
        exit, phase := RunWithConnection(allWrites, allWakes);
      } else {
        var drops: nat;
        exit, drops, phase := RunWithoutConnection(allWrites, allWakes);
      }
    }

    /** `run_to_end`: it ends when the channel is closed or a script is over. */
    method RunToEnd(ghost allWrites: seq<WriteOutcome>, ghost allWakes: seq<Wake>) returns (ghost phases: seq<Phase>)
      requires Valid() && Scripts(allWrites, allWakes)
      modifies this
      ensures Valid() && Scripts(allWrites, allWakes)
      ensures attempts == old(attempts) + AllAttempts(phases) && woken == old(woken) + AllWoken(phases)
      ensures Phases(phases, old(connects)) && connects == old(connects)[|phases|..]
      ensures if phases == [] then connects == [] else
                var exit := phases[|phases| - 1].exit;
                (exit == Retry ==> connects == []) && (exit == Suspended ==> ScriptEnded())
    {
      hide Valid, Scripts, Lasts, ScriptEnded, AllAttempts, AllWoken, Phases;
      NoPhaseYet(connects);
      phases := [];
      while connects != []
        invariant Valid() && Scripts(allWrites, allWakes)
        invariant attempts == old(attempts) + AllAttempts(phases) && woken == old(woken) + AllWoken(phases)
        invariant |phases| <= |old(connects)| && connects == old(connects)[|phases|..] && Phases(phases, old(connects))
        invariant phases == [] || phases[|phases| - 1].exit == Retry
        decreases |connects|
      {
        var exit, phase := RunPhase(allWrites, allWakes);
        PhaseMore(phases, phase, old(connects));
        AllOneMore(phases, phase);
        phases := phases + [phase];
        if exit != Retry {
          return;
        }
      }
    }
  }

  /** A whole run with any outside world, up to any point of it. */
  method WholeRun(retryQueueLen: nat, connects: seq<ConnectOutcome>, writes: seq<WriteOutcome>, wakes: seq<Wake>)
      returns (queue: seq<Event>, dropCount: nat, passed: nat, ghost b: Book, ghost phases: seq<Phase>)
    ensures b.log.queue == queue && b.dropCount == dropCount && b.passed == passed && |queue| <= retryQueueLen
    ensures Tracked(b.log, [], []) && Balanced(b) && Crowded(b.overflowed, retryQueueLen, |b.log.received|)
    ensures Phases(phases, connects) && b.attempts == AllAttempts(phases)
    ensures var woken, tried := AllWoken(phases), Outcomes(b.attempts);
            && tried <= writes && woken <= wakes && Heard(b.log.received, woken)
            && if phases == [] then connects == [] else
                 var exit := phases[|phases| - 1].exit;
                 && (exit == Retry ==> |phases| == |connects|)
                 && (exit == Suspended ==>
                       woken == wakes || (tried == writes && (queue != [] || wakes[|woken|].Received?)))
  {
    hide Tracked, Heard, Balanced, Crowded, Outcomes, Lasts;
    var t := new IoThread(retryQueueLen, connects, writes, wakes);
    phases := t.RunToEnd(writes, wakes);
    assert t.woken == AllWoken(phases) && t.attempts == AllAttempts(phases);
    queue, dropCount, passed, b := t.queue, t.dropCount, t.passed, t.TheBook();
  }
}
