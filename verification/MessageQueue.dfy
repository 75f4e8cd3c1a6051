/** The ack, retry and reject loop of storage/mq/consumer.go, for any handler.

    `Consume` is the loop; the handler, the broker's answer to a republish and the moment the
    consumer is stopped are its schedule of turns.  The order in which the broker delivers
    waiting copies is not part of the model. */
module MessageQueue {

  const MAX_RETRY_COUNT := 3

  /** The x-retry-count header as it may come back from the broker. */
  datatype Header = Absent | AnInt(n: int) | AnInt32(n: int) | AnInt64(n: int) | OtherType

  datatype Message = Message(id: nat, header: Header)

  /** getRetryCount: any other type counts as zero. */
  function RetryCount(h: Header): int {
    match h
    case AnInt(n) => n
    case AnInt32(n) => n
    case AnInt64(n) => n
    case _ => 0
  }

  datatype Outcome = Finished | Skipped | Errored

  /** What the handler returns in this turn, and whether a republish would be accepted. */
  datatype Turn = Turn(outcome: Outcome, republishes: bool)

  /** How the loop disposed of one delivered copy. */
  datatype Fate = Acked | Republished | Requeued | Rejected

  datatype LogEntry = LogEntry(id: nat, fate: Fate)

  datatype Queue = Queue(ready: seq<Message>, log: seq<LogEntry>)

  function FateOf(m: Message, turn: Turn, max: int): Fate {
    if turn.outcome != Errored then Acked
    else if RetryCount(m.header) >= max then Rejected
    else if turn.republishes then Republished
    else Requeued
  }

  function Again(m: Message): Message {
    Message(m.id, AnInt(RetryCount(m.header) + 1))
  }

  /** One delivery. */
  function Turned(q: Queue, turn: Turn, max: int): Queue
    requires q.ready != []
  {
    var m := q.ready[0];
    var fate := FateOf(m, turn, max);
    var rest := q.ready[1..];
    Queue(match fate case Republished => rest + [Again(m)] case Requeued => rest + [m] case _ => rest,
          q.log + [LogEntry(m.id, fate)])
  }

  /** As many deliveries as there are turns, unless the queue runs dry. */
  function Run(q: Queue, turns: seq<Turn>, max: int): Queue
    decreases |turns|
  {
    if turns == [] || q.ready == [] then q else Run(Turned(q, turns[0], max), turns[1..], max)
  }

  class Channel {
    var ready: seq<Message>
    var log: seq<LogEntry>

    function Contents(): Queue
      reads this
    {
      Queue(ready, log)
    }

    method Republish(m: Message, retryCount: int, accepted: bool)
      modifies this`ready
      ensures ready == if accepted then old(ready) + [Message(m.id, AnInt(retryCount))] else old(ready)
    {
      if accepted {
        ready := ready + [Message(m.id, AnInt(retryCount))];
      }
    }

    /** One turn of the loop. */
    method Take(maxRetries: int, turn: Turn)
      requires ready != []
      modifies this
      ensures Contents() == Turned(old(Contents()), turn, if maxRetries == 0 then 3 else maxRetries)
    {
      var msg := ready[0];
      ready := ready[1..];
      if turn.outcome != Errored {
        log := log + [LogEntry(msg.id, Acked)];
        return;
      }
      var max := if maxRetries == 0 then MAX_RETRY_COUNT else maxRetries;
      var retryCount := RetryCount(msg.header);
      if retryCount >= max {
        log := log + [LogEntry(msg.id, Rejected)];
        return;
      }
      Republish(msg, retryCount + 1, turn.republishes);
      if turn.republishes {
        log := log + [LogEntry(msg.id, Republished)];
      } else {
        ready := ready + [msg];
        log := log + [LogEntry(msg.id, Requeued)];
      }
    }

    /** Without a limit of its own, a consumer has three. */
    method Consume(maxRetries: int, turns: seq<Turn>)
      modifies this
      ensures Contents() == Run(old(Contents()), turns, if maxRetries == 0 then 3 else maxRetries)
    {
      var i := 0;
      ghost var max := if maxRetries == 0 then MAX_RETRY_COUNT else maxRetries;
      while i < |turns| && ready != []
        invariant 0 <= i <= |turns|
        invariant Run(Contents(), turns[i..], max) == Run(old(Contents()), turns, max)
      {
        Take(maxRetries, turns[i]);
        assert turns[i..][1..] == turns[i + 1..];
        i := i + 1;
      }
    }
  }

  // ----- what one delivery does -----

  /** The copy at the head gets one row, and goes back to the queue only if it is to be tried again. */
  predicate Disposed(q: Queue, z: Queue, fate: Fate, back: seq<Message>)
    requires q.ready != []
  {
    z.log == q.log + [LogEntry(q.ready[0].id, fate)] && z.ready == q.ready[1..] + back
  }

  /** Main result: a copy is acknowledged exactly if the handler returns nil or the skip error.  After an error it
      is rejected at the limit, and below it republished with the next count, or requeued as it is when
      the republish fails. */
  lemma OneDelivery(q: Queue, turn: Turn, max: int)
    requires q.ready != []
    ensures var m := q.ready[0]; var z := Turned(q, turn, max); var count := RetryCount(m.header);
            && (Disposed(q, z, Acked, []) <==> turn.outcome in {Finished, Skipped})
            && (Disposed(q, z, Rejected, []) <==> turn.outcome == Errored && count >= max)
            && (Disposed(q, z, Republished, [Message(m.id, AnInt(count + 1))])
                <==> turn.outcome == Errored && count < max && turn.republishes)
            && (Disposed(q, z, Requeued, [m]) <==> turn.outcome == Errored && count < max && !turn.republishes)
  {
    var row := Turned(q, turn, max).log[|q.log|];
  }

  /** A fresh message has no count, a republished one has it under whatever integer type the broker hands back. */
  lemma CountSurvivesRetyping(n: int)
    ensures RetryCount(Absent) == RetryCount(OtherType) == 0
    ensures forall h :: h in {AnInt(n), AnInt32(n), AnInt64(n)} ==> RetryCount(h) == n
  {
  }

  // ----- the queue drains -----

  /** How many more times a copy can reach the handler. */
  function Budget(m: Message, max: int): nat {
    if RetryCount(m.header) >= max then 1 else max + 1 - RetryCount(m.header)
  }

  function TotalBudget(ready: seq<Message>, max: int): nat {
    if ready == [] then 0 else Budget(ready[0], max) + TotalBudget(ready[1..], max)
  }

  lemma {:induction false} TotalBudgetAppend(ready: seq<Message>, m: Message, max: int)
    ensures TotalBudget(ready + [m], max) == TotalBudget(ready, max) + Budget(m, max)
  {
    if ready == [] {
      assert [] + [m] == [m] && [m][1..] == [];
    } else {
      assert (ready + [m])[1..] == ready[1..] + [m];
      TotalBudgetAppend(ready[1..], m, max);
    }
  }

  lemma TurnSpendsBudget(q: Queue, turn: Turn, max: int)
    requires q.ready != []
    ensures FateOf(q.ready[0], turn, max) == Requeued
            ==> TotalBudget(Turned(q, turn, max).ready, max) == TotalBudget(q.ready, max)
    ensures FateOf(q.ready[0], turn, max) != Requeued
            ==> TotalBudget(Turned(q, turn, max).ready, max) < TotalBudget(q.ready, max)
  {
    var m := q.ready[0];
    TotalBudgetAppend(q.ready[1..], m, max);
    TotalBudgetAppend(q.ready[1..], Again(m), max);
  }

  lemma SomeBudget(ready: seq<Message>, max: int)
    ensures ready == [] || TotalBudget(ready, max) >= 1
  {
    if ready != [] {
      assert Budget(ready[0], max) >= 1;
    }
  }

  predicate AllRepublish(turns: seq<Turn>) {
    forall i :: 0 <= i < |turns| ==> turns[i].republishes
  }

  lemma {:induction false} TurnsAreLimited(q: Queue, turns: seq<Turn>, max: int)
    requires AllRepublish(turns)
    ensures Run(q, turns, max).ready == []
            || TotalBudget(Run(q, turns, max).ready, max) + |turns| <= TotalBudget(q.ready, max)
    decreases |turns|
  {
    if turns != [] && q.ready != [] {
      TurnSpendsBudget(q, turns[0], max);
      TurnsAreLimited(Turned(q, turns[0], max), turns[1..], max);
    }
  }

  /** Main result: while republishing works and nothing new is published, the queue is empty after
      at most the sum of the retry budgets of its copies, whatever the handlers do. */
  lemma QueueDrains(q: Queue, turns: seq<Turn>, max: int)
    requires AllRepublish(turns) && |turns| >= TotalBudget(q.ready, max)
    ensures Run(q, turns, max).ready == []
  {
    TurnsAreLimited(q, turns, max);
    SomeBudget(Run(q, turns, max).ready, max);
  }

  // ----- the fate of one message -----

  function Copies(ready: seq<Message>, x: nat): nat {
    if ready == [] then 0 else (if ready[0].id == x then 1 else 0) + Copies(ready[1..], x)
  }

  function Logged(log: seq<LogEntry>, x: nat, fate: Fate): nat {
    if log == [] then 0
    else Logged(log[..|log| - 1], x, fate) + (if log[|log| - 1] == LogEntry(x, fate) then 1 else 0)
  }

  lemma {:induction false} CopiesAppend(ready: seq<Message>, m: Message, x: nat)
    ensures Copies(ready + [m], x) == Copies(ready, x) + (if m.id == x then 1 else 0)
  {
    if ready == [] {
      assert [] + [m] == [m] && [m][1..] == [];
    } else {
      assert (ready + [m])[1..] == ready[1..] + [m];
      CopiesAppend(ready[1..], m, x);
    }
  }

  lemma LoggedAppend(log: seq<LogEntry>, e: LogEntry, x: nat, fate: Fate)
    ensures Logged(log + [e], x, fate) == Logged(log, x, fate) + (if e == LogEntry(x, fate) then 1 else 0)
  {
    assert (log + [e])[..|log|] == log;
  }

  lemma {:induction false} NoCopies(ready: seq<Message>, x: nat)
    requires Copies(ready, x) == 0
    ensures forall m :: m in ready ==> m.id != x
  {
    if ready != [] {
      NoCopies(ready[1..], x);
    }
  }

  /** A message published once is in exactly one place, and its header counts its republishes. */
  ghost predicate Lineage(q: Queue, x: nat, max: int) {
    && Copies(q.ready, x) + Logged(q.log, x, Acked) + Logged(q.log, x, Rejected) == 1
    && Logged(q.log, x, Republished) <= max
    && (Logged(q.log, x, Rejected) > 0 ==> Logged(q.log, x, Republished) == max)
    && (forall m :: m in q.ready && m.id == x ==> RetryCount(m.header) == Logged(q.log, x, Republished))
  }

  /** One log row and at most one copy later. */
  lemma CountsAfter(q: Queue, turn: Turn, x: nat, max: int, f: Fate)
    requires q.ready != []
    ensures var m := q.ready[0]; var fate := FateOf(m, turn, max);
            && Logged(Turned(q, turn, max).log, x, f) == Logged(q.log, x, f) + (if m.id == x && fate == f then 1 else 0)
            && Copies(Turned(q, turn, max).ready, x)
               == Copies(q.ready, x) - (if m.id == x && (fate == Acked || fate == Rejected) then 1 else 0)
  {
    var m := q.ready[0];
    CopiesAppend(q.ready[1..], m, x);
    CopiesAppend(q.ready[1..], Again(m), x);
    LoggedAppend(q.log, LogEntry(m.id, FateOf(m, turn, max)), x, f);
  }

  lemma HeadersAfter(q: Queue, turn: Turn, x: nat, max: int)
    requires q.ready != [] && Lineage(q, x, max)
    ensures forall m :: m in Turned(q, turn, max).ready && m.id == x ==>
              RetryCount(m.header) == Logged(q.log, x, Republished)
                                      + (if q.ready[0].id == x && FateOf(q.ready[0], turn, max) == Republished then 1
                                         else 0)
  {
    var head := q.ready[0];
    var rest := q.ready[1..];
    assert q.ready == [head] + rest;
    if head.id == x {
      assert head in q.ready;
      NoCopies(rest, x);
    }
    assert forall m :: m in rest ==> m in q.ready;
  }

  lemma LineageKept(q: Queue, turn: Turn, x: nat, max: int)
    requires q.ready != [] && Lineage(q, x, max)
    ensures Lineage(Turned(q, turn, max), x, max)
  {
    assert q.ready[0] in q.ready;
    CountsAfter(q, turn, x, max, Acked);
    CountsAfter(q, turn, x, max, Rejected);
    CountsAfter(q, turn, x, max, Republished);
    HeadersAfter(q, turn, x, max);
  }

  lemma {:induction false} LineageAlways(q: Queue, turns: seq<Turn>, x: nat, max: int)
    requires Lineage(q, x, max)
    ensures Lineage(Run(q, turns, max), x, max)
    decreases |turns|
  {
    if turns != [] && q.ready != [] {
      LineageKept(q, turns[0], x, max);
      LineageAlways(Turned(q, turns[0], max), turns[1..], x, max);
    }
  }

  /** The handler calls a message received. */
  function Deliveries(log: seq<LogEntry>, x: nat): nat {
    Logged(log, x, Acked) + Logged(log, x, Republished) + Logged(log, x, Requeued) + Logged(log, x, Rejected)
  }

  /** Main result: a message published once is, after any run, waiting, acknowledged or rejected, and
      only one of these; it is rejected exactly when it was republished to the limit and failed once
      more; and it reached its handler at most four times, not counting failed republishes. */
  lemma OnePublishedMessage(q: Queue, turns: seq<Turn>, x: nat)
    requires Copies(q.ready, x) == 1 && (forall m :: m in q.ready && m.id == x ==> RetryCount(m.header) == 0)
    requires forall f :: Logged(q.log, x, f) == 0
    ensures var z := Run(q, turns, MAX_RETRY_COUNT);
            && Copies(z.ready, x) + Logged(z.log, x, Acked) + Logged(z.log, x, Rejected) == 1
            && (Logged(z.log, x, Rejected) == 1
                ==> Deliveries(z.log, x) == MAX_RETRY_COUNT + 1 + Logged(z.log, x, Requeued))
            && Deliveries(z.log, x) <= MAX_RETRY_COUNT + 1 + Logged(z.log, x, Requeued)
            && (Deliveries(z.log, x) == MAX_RETRY_COUNT + 1 + Logged(z.log, x, Requeued) ==> Copies(z.ready, x) == 0)
  {
    LineageAlways(q, turns, x, MAX_RETRY_COUNT);
  }

  // ----- which outcomes led there -----

  /** The deliveries of message x in a run in which the handler reported an error, or those in which it did not. */
  function Calls(q: Queue, turns: seq<Turn>, x: nat, max: int, errors: bool): nat
    decreases |turns|
  {
    if turns == [] || q.ready == [] then 0
    else
      (if q.ready[0].id == x && (turns[0].outcome == Errored <==> errors) then 1 else 0)
      + Calls(Turned(q, turns[0], max), turns[1..], x, max, errors)
  }

  lemma {:induction false} CallsAreLogged(q: Queue, turns: seq<Turn>, x: nat, max: int)
    ensures var z := Run(q, turns, max);
            && Logged(z.log, x, Acked) == Logged(q.log, x, Acked) + Calls(q, turns, x, max, false)
            && Logged(z.log, x, Republished) + Logged(z.log, x, Requeued) + Logged(z.log, x, Rejected)
               == Logged(q.log, x, Republished) + Logged(q.log, x, Requeued) + Logged(q.log, x, Rejected)
                  + Calls(q, turns, x, max, true)
    decreases |turns|
  {
    if turns != [] && q.ready != [] {
      CountsAfter(q, turns[0], x, max, Acked);
      CountsAfter(q, turns[0], x, max, Republished);
      CountsAfter(q, turns[0], x, max, Requeued);
      CountsAfter(q, turns[0], x, max, Rejected);
      CallsAreLogged(Turned(q, turns[0], max), turns[1..], x, max);
    }
  }

  /** Main result: a message published once is acknowledged exactly if one of its deliveries ended without an
      error, and then exactly one did; it is rejected exactly at its fourth error, failed republishes
      apart; and it was republished or requeued exactly as often as an error was not its last. */
  lemma OutcomeDecides(q: Queue, turns: seq<Turn>, x: nat)
    requires Copies(q.ready, x) == 1 && (forall m :: m in q.ready && m.id == x ==> RetryCount(m.header) == 0)
    requires forall f :: Logged(q.log, x, f) == 0
    ensures var z := Run(q, turns, MAX_RETRY_COUNT);
            var errors := Calls(q, turns, x, MAX_RETRY_COUNT, true);
            var successes := Calls(q, turns, x, MAX_RETRY_COUNT, false);
            && Logged(z.log, x, Acked) == successes <= 1
            && (Logged(z.log, x, Rejected) == 1 <==> errors == MAX_RETRY_COUNT + 1 + Logged(z.log, x, Requeued))
            && Logged(z.log, x, Republished) + Logged(z.log, x, Requeued) == errors - Logged(z.log, x, Rejected)
  {
    LineageAlways(q, turns, x, MAX_RETRY_COUNT);
    CallsAreLogged(q, turns, x, MAX_RETRY_COUNT);
  }
}
