/**
 * The in-page bootstrap (static/mocha-setup.js): a status object that the
 * test runner's events update, and that the controlling process polls.
 */
module MochaSetup {
  import opened Results

  /** The runner events the bootstrap subscribes to: `test end`, `fail` and `end`. */
  datatype Event = TestEnd | Fail | End

  /** The three fields of `window.mochaStatus`. */
  datatype Status = Status(completed: nat, failed: nat, finished: bool)

  const Initial: Status := Status(0, 0, false)

  /** The effect of one event's handler. */
  function Step(s: Status, e: Event): Status {
    match e
    case TestEnd => s.(completed := s.completed + 1)
    case Fail => s.(failed := s.failed + 1)
    case End => s.(finished := true)
  }

  /** The status after the runner has emitted `events`, starting from the initial status. */
  function Replay(events: seq<Event>): Status {
    if events == [] then Initial else Step(Replay(events[..|events| - 1]), events[|events| - 1])
  }

  /** The status counts events: `completed` and `failed` count their events, `finished` records whether `end` was seen. */
  lemma {:induction false} ReplayCounts(events: seq<Event>)
    ensures Replay(events) == Status(multiset(events)[TestEnd], multiset(events)[Fail], End in events)
  {
    if events != [] {
      var before := events[..|events| - 1];
      ReplayCounts(before);
      assert events == before + [events[|events| - 1]];
    }
  }

  /** Over any continuation of the run the counters never decrease and `finished` stays true. */
  lemma ReplayMonotone(events: seq<Event>, later: seq<Event>)
    ensures Replay(events).completed <= Replay(events + later).completed
    ensures Replay(events).failed <= Replay(events + later).failed
    ensures Replay(events).finished ==> Replay(events + later).finished
  {
    ReplayCounts(events);
    ReplayCounts(events + later);
    assert multiset(events + later) == multiset(events) + multiset(later);
  }

  /** The position of the first `end` event. */
  function FirstEnd(events: seq<Event>): (k: nat)
    requires End in events
    ensures k < |events| && events[k] == End && End !in events[..k]
  {
    if events[0] == End then 0 else 1 + FirstEnd(events[1..])
  }

  /**
   * What the controlling process reads back: it waits for `finished` and then
   * reads `failed`. `None` when `finished` never becomes true (the wait has no
   * time limit, so it never returns).
   */
  function Settle(s: Status, events: seq<Event>): Option<nat>
    decreases |events|
  {
    if s.finished then Some(s.failed)
    else if events == [] then None
    else Settle(Step(s, events[0]), events[1..])
  }

  function ReportedFailures(events: seq<Event>): Option<nat> {
    Settle(Initial, events)
  }

  lemma {:induction false} SettleCounts(s: Status, events: seq<Event>)
    requires !s.finished
    ensures Settle(s, events) == if End in events then Some(s.failed + multiset(events[..FirstEnd(events)])[Fail]) else None
    decreases |events|
  {
    if events != [] && events[0] != End {
      var rest := events[1..];
      SettleCounts(Step(s, events[0]), rest);
      assert events == [events[0]] + rest;
      if End in rest {
        assert events[..FirstEnd(events)] == [events[0]] + rest[..FirstEnd(rest)];
      }
    }
  }

  /** A count is reported exactly when the runner ends, and it is the number of `fail` events before the first `end`. */
  lemma ReportedFailuresCountFails(events: seq<Event>)
    ensures ReportedFailures(events).Some? <==> End in events
    ensures End in events ==> ReportedFailures(events) == Some(multiset(events[..FirstEnd(events)])[Fail])
  {
    SettleCounts(Initial, events);
  }

  /** `window.mochaStatus`, whose fields the event handlers update in place. */
  class MochaStatus {
    var completed: nat
    var failed: nat
    var finished: bool

    /** `{ completed: 0, failed: 0, finished: false }` */
    constructor ()
      ensures completed == 0 && failed == 0 && !finished
    {
      completed, failed, finished := 0, 0, false;
    }

    function Snapshot(): Status
      reads this
    {
      Status(completed, failed, finished)
    }

    /** `on('test end', () => mochaStatus.completed++)` */
    method OnTestEnd()
      modifies this
      ensures completed == old(completed) + 1 && failed == old(failed) && finished == old(finished)
    {
      completed := completed + 1;
    }

    /** `on('fail', () => mochaStatus.failed++)` */
    method OnFail()
      modifies this
      ensures failed == old(failed) + 1 && completed == old(completed) && finished == old(finished)
    {
      failed := failed + 1;
    }

    /** `on('end', () => mochaStatus.finished = true)` */
    method OnEnd()
      modifies this
      ensures finished && completed == old(completed) && failed == old(failed)
    {
      finished := true;
    }

    /** The runner calls the handler subscribed to the event it emits. */
    method Handle(e: Event)
      modifies this
      ensures Snapshot() == Step(old(Snapshot()), e)
    {
      match e
      case TestEnd => OnTestEnd();
      case Fail => OnFail();
      case End => OnEnd();
    }
  }
}
