/** The single-flight dispatch of both daemons (`prompt_agent_async` and the `finally`
    block of `run_agent`), as a sequential state machine. An event that arrives while a
    dispatch is in flight waits at the end of `pending_events`; when a dispatch completes
    the busy flag drops and the oldest waiting event is handed to `prompt_agent_async`
    again. agentic_emerald.py passes every event, including a popped one, through the
    uncertainty gate first; maya_gm.py admits everything. `admit` is that gate. */
module Dispatch {
  import opened Optional

  /** `agent_busy` and `pending_events`. */
  datatype Queue<T> = Queue(busy: bool, pending: seq<T>)

  /** What one call of `prompt_agent_async` did with its event. */
  datatype Step<T> = Skipped(event: T) | Queued | Started(event: T) | Idle

  /** `prompt_agent_async`: a gated-out event is skipped, an event that arrives while
      busy is queued, any other starts a dispatch. */
  function Arrive<T>(q: Queue<T>, e: T, admit: T -> bool): (r: (Queue<T>, Step<T>))
    ensures !admit(e) ==> r == (q, Skipped(e))
    ensures admit(e) && q.busy ==> r == (Queue(true, q.pending + [e]), Queued)
    ensures admit(e) && !q.busy ==> r == (Queue(true, q.pending), Started(e))
  {
    if !admit(e) then (q, Skipped(e))
    else if q.busy then (Queue(true, q.pending + [e]), Queued)
    else (Queue(true, q.pending), Started(e))
  }

  /** The `finally` block of `run_agent`: the flag drops, and the oldest pending event,
      if any, goes through `prompt_agent_async` again. */
  function Complete<T>(q: Queue<T>, admit: T -> bool): (r: (Queue<T>, Step<T>))
    ensures q.pending == [] ==> r == (Queue(false, []), Idle)
    ensures q.pending != [] ==> r == Arrive(Queue(false, q.pending[1..]), q.pending[0], admit)
  {
    if q.pending == [] then (Queue(false, []), Idle)
    else Arrive(Queue(false, q.pending[1..]), q.pending[0], admit)
  }

  /** The state both daemons keep: nothing waits while idle, and only admitted events
      wait. */
  ghost predicate Valid<T>(q: Queue<T>, admit: T -> bool) {
    (!q.busy ==> q.pending == []) && forall k :: 0 <= k < |q.pending| ==> admit(q.pending[k])
  }

  lemma ArriveValid<T>(q: Queue<T>, e: T, admit: T -> bool)
    requires Valid(q, admit)
    ensures Valid(Arrive(q, e, admit).0, admit)
  {
  }

  /** Completion keeps the state valid, and a popped event is always admitted again: the
      gate decides on the event alone, and the event was admitted when it was queued. So
      a completion with waiting events always starts the oldest one. */
  lemma CompleteStartsOldest<T>(q: Queue<T>, admit: T -> bool)
    requires Valid(q, admit)
    ensures Valid(Complete(q, admit).0, admit)
    ensures q.pending != [] ==> Complete(q, admit) == (Queue(true, q.pending[1..]), Started(q.pending[0]))
    ensures q.pending == [] ==> !Complete(q, admit).0.busy
  {
  }

  // ---------------------------------------------------------------------------
  // Runs

  /** The two things that can happen: an event arrives, or the dispatch in flight ends. */
  datatype Op<T> = Arrival(event: T) | Completion

  function StepOf<T>(q: Queue<T>, op: Op<T>, admit: T -> bool): (Queue<T>, Step<T>) {
    match op
    case Arrival(e) => Arrive(q, e, admit)
    case Completion => Complete(q, admit)
  }

  /** The queue after a run, with the events started and the events skipped, in order. */
  datatype RunResult<T> = RunResult(q: Queue<T>, started: seq<T>, skipped: seq<T>)

  function Run<T>(q: Queue<T>, ops: seq<Op<T>>, admit: T -> bool): RunResult<T>
    decreases |ops|
  {
    if ops == [] then RunResult(q, [], [])
    else
      var r := Run(q, ops[..|ops| - 1], admit);
      var (q', step) := StepOf(r.q, ops[|ops| - 1], admit);
      RunResult(q',
                r.started + (if step.Started? then [step.event] else []),
                r.skipped + (if step.Skipped? then [step.event] else []))
  }

  /** The events that arrived during a run, in order. */
  function Arrivals<T>(ops: seq<Op<T>>): seq<T>
    decreases |ops|
  {
    if ops == [] then []
    else Arrivals(ops[..|ops| - 1]) + (if ops[|ops| - 1].Arrival? then [ops[|ops| - 1].event] else [])
  }

  /** The arrived events the gate admits, in order. */
  function Admitted<T>(es: seq<T>, admit: T -> bool): seq<T>
    decreases |es|
  {
    if es == [] then [] else Admitted(es[..|es| - 1], admit) + (if admit(es[|es| - 1]) then [es[|es| - 1]] else [])
  }

  function Rejected<T>(es: seq<T>, admit: T -> bool): seq<T>
    decreases |es|
  {
    if es == [] then [] else Rejected(es[..|es| - 1], admit) + (if admit(es[|es| - 1]) then [] else [es[|es| - 1]])
  }

  /** FIFO and nothing lost: over any run from a valid state, the events started followed
      by the events still waiting are exactly the events that were waiting followed by
      the admitted arrivals, in arrival order; the skipped ones are exactly the arrivals
      the gate rejects; and the state stays valid. */
  lemma {:induction false} RunIsFifo<T>(q: Queue<T>, ops: seq<Op<T>>, admit: T -> bool)
    requires Valid(q, admit)
    ensures var r := Run(q, ops, admit);
      Valid(r.q, admit)
      && r.started + r.q.pending == q.pending + Admitted(Arrivals(ops), admit)
      && r.skipped == Rejected(Arrivals(ops), admit)
    decreases |ops|
  {
    if ops != [] {
      var front := ops[..|ops| - 1];
      var op := ops[|ops| - 1];
      RunIsFifo(q, front, admit);
      var r := Run(q, front, admit);
      var es := Arrivals(front);
      match op
      case Arrival(e) =>
        assert Arrivals(ops) == es + [e];
        FilterSnoc(es, e, admit);
        ArriveValid(r.q, e, admit);
        if admit(e) && r.q.busy {
          var res := Run(q, ops, admit);
          assert res.q == Queue(true, r.q.pending + [e]) && res.started == r.started;
          assert r.started + (r.q.pending + [e]) == (r.started + r.q.pending) + [e];
          assert Admitted(Arrivals(ops), admit) == Admitted(es, admit) + [e];
          assert res.started + res.q.pending == q.pending + (Admitted(es, admit) + [e]);
        } else if admit(e) {
          assert r.q.pending == [];
          var res := Run(q, ops, admit);
          assert res.q == Queue(true, []) && res.started == r.started + [e];
          assert r.started == q.pending + Admitted(es, admit);
          assert res.started + res.q.pending == q.pending + (Admitted(es, admit) + [e]);
          assert Admitted(Arrivals(ops), admit) == Admitted(es, admit) + [e];
        } else {
          var res := Run(q, ops, admit);
          assert res.q == r.q && res.started == r.started;
          assert Admitted(Arrivals(ops), admit) == Admitted(es, admit);
        }
      case Completion =>
        assert Arrivals(ops) == es;
        CompleteStartsOldest(r.q, admit);
        if r.q.pending != [] {
          assert r.started + [r.q.pending[0]] + r.q.pending[1..] == r.started + r.q.pending;
        }
    }
  }

  lemma FilterSnoc<T>(es: seq<T>, e: T, admit: T -> bool)
    ensures Admitted(es + [e], admit) == Admitted(es, admit) + (if admit(e) then [e] else [])
    ensures Rejected(es + [e], admit) == Rejected(es, admit) + (if admit(e) then [] else [e])
  {
    assert (es + [e])[..|es|] == es;
  }

  lemma RunSnoc<T>(q: Queue<T>, ops: seq<Op<T>>, op: Op<T>, admit: T -> bool)
    ensures var r := Run(q, ops, admit);
      var (q', step) := StepOf(r.q, op, admit);
      Run(q, ops + [op], admit)
        == RunResult(q', r.started + (if step.Started? then [step.event] else []),
                     r.skipped + (if step.Skipped? then [step.event] else []))
  {
    assert (ops + [op])[..|ops|] == ops;
  }

  /** Single flight: while a dispatch is in flight an arrival never starts another one. */
  lemma BusyNeverStarts<T>(q: Queue<T>, e: T, admit: T -> bool)
    requires q.busy
    ensures !Arrive(q, e, admit).1.Started?
    ensures Arrive(q, e, admit).0.busy
  {
  }

  /** With the gate admitting everything (maya_gm.py, and agentic_emerald.py at its
      default threshold), every arrival is either started or queued, in order. */
  lemma {:induction false} AdmitAllKeepsEverything<T>(es: seq<T>, admit: T -> bool)
    requires forall e :: admit(e)
    ensures Admitted(es, admit) == es && Rejected(es, admit) == []
    decreases |es|
  {
    if es != [] {
      AdmitAllKeepsEverything(es[..|es| - 1], admit);
    }
  }

  function AdmitAll(x: int): bool { true }

  /** A concrete run: three events arrive back to back and the dispatch in flight
      completes twice; they start in arrival order and nothing is left waiting. */
  lemma ThreeArrivalsStartInOrder(a: int, b: int, c: int)
    ensures var r := Run(Queue(false, []), [Arrival(a), Arrival(b), Arrival(c), Completion, Completion], AdmitAll);
      r.started == [a, b, c] && r.q == Queue(true, [])
  {
    var q0: Queue<int> := Queue(false, []);
    var o3 := [Arrival(a), Arrival(b), Arrival(c)];
    ThreeArrivals(a, b, c);
    RunSnoc(q0, o3, Completion, AdmitAll);
    var o4 := o3 + [Completion];
    assert [b, c][1..] == [c];
    assert Run(q0, o4, AdmitAll) == RunResult(Queue(true, [c]), [a, b], []);
    RunSnoc(q0, o4, Completion, AdmitAll);
    assert [c][1..] == [];
    assert o4 + [Completion] == [Arrival(a), Arrival(b), Arrival(c), Completion, Completion];
  }

  lemma ThreeArrivals(a: int, b: int, c: int)
    ensures Run(Queue(false, []), [Arrival(a), Arrival(b), Arrival(c)], AdmitAll) == RunResult(Queue(true, [b, c]), [a], [])
  {
    var q0: Queue<int> := Queue(false, []);
    var o0: seq<Op<int>> := [];
    RunSnoc(q0, o0, Arrival(a), AdmitAll);
    var o1 := o0 + [Arrival(a)];
    assert Run(q0, o1, AdmitAll) == RunResult(Queue(true, []), [a], []);
    RunSnoc(q0, o1, Arrival(b), AdmitAll);
    var o2 := o1 + [Arrival(b)];
    assert Run(q0, o2, AdmitAll) == RunResult(Queue(true, [b]), [a], []);
    RunSnoc(q0, o2, Arrival(c), AdmitAll);
    assert o2 + [Arrival(c)] == [Arrival(a), Arrival(b), Arrival(c)];
  }
}
