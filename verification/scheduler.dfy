/** The background loop of main.py (lines 98-121): `start_background_task`,
    `stop_background_task`, and the `finally` block of `check_new_videos`
    that schedules the next run.

    The model is at the level of asyncio tasks. The body of a run has no
    `await` before its `finally`, so on the single event loop it executes
    atomically: a task is either `Pending` (created, body not yet started)
    or `Sleeping` (in the `finally`, waiting out the interval before it
    creates its successor). `cancel()` ends a task in either phase: a
    pending task never starts its body, a sleeping task never creates its
    successor. Which ready task the event loop resumes next is the choice
    of whoever supplies the events; a step whose task is not in the right
    phase changes nothing. */
module Scheduler {
  import opened Base

  datatype Phase = Pending | Sleeping

  /** `is_running`, `background_task`, and the tasks alive on the loop by
      number; `next` numbers the next task created. */
  datatype Sched = Sched(running: bool, tracked: Option<nat>, tasks: map<nat, Phase>, next: nat)

  /** `start_background_task()`, `stop_background_task()`, the event loop
      running task `t`'s body, and task `t` waking from its sleep. */
  datatype Event = Start | Stop | RunCycle(t: nat) | Wake(t: nat)

  /** What a step did: the new state, and whether a run of
      `check_new_videos` happened in it and with what `is_running`. */
  datatype Outcome = Outcome(s: Sched, cycled: bool, whileRunning: bool)

  const Init := Sched(false, None, map[], 0)

  /** Task numbers are handed out in order. */
  predicate Fresh(s: Sched) {
    forall t :: t in s.tasks ==> t < s.next
  }

  /** One event. With `trackSuccessor` false this is the code as written:
      the successor a wake-up creates is never stored in `background_task`. With
      it true the successor replaces it, so `stop` always cancels the live
      task. */
  function StepWith(s: Sched, e: Event, trackSuccessor: bool): (r: Outcome)
    requires Fresh(s)
    ensures Fresh(r.s)
    ensures r.cycled <==> e.RunCycle? && e.t in s.tasks && s.tasks[e.t] == Pending
    ensures r.cycled ==> r.whileRunning == s.running
    ensures e.Start? ==>
              if s.running then r.s == s
              else && r.s.running && r.s.tracked == Some(s.next) && r.s.tasks == s.tasks[s.next := Pending]
                   && r.s.next == s.next + 1
    ensures e.Stop? ==>
              if !s.running then r.s == s
              else && !r.s.running && r.s.tracked == s.tracked && r.s.next == s.next
                   && r.s.tasks == if s.tracked.Some? then s.tasks - {s.tracked.value} else s.tasks
    ensures e.RunCycle? ==> r.s.running == s.running && r.s.tracked == s.tracked && r.s.next == s.next
    ensures e.RunCycle? && r.cycled ==>
              r.s.tasks == if s.running then s.tasks[e.t := Sleeping] else s.tasks - {e.t}
    ensures e.Wake? && e.t in s.tasks && s.tasks[e.t] == Sleeping ==>
              && r.s.tasks == (s.tasks - {e.t})[s.next := Pending]
              && r.s.running == s.running
              && r.s.next == s.next + 1
              && r.s.tracked == if trackSuccessor then Some(s.next) else s.tracked
    ensures e.RunCycle? && !r.cycled ==> r.s == s
    ensures e.Wake? && !(e.t in s.tasks && s.tasks[e.t] == Sleeping) ==> r.s == s
    ensures (e.RunCycle? || e.Wake?) && r.s.tasks == s.tasks ==> r.s == s
  {
    match e
    case Start =>
      if s.running then Outcome(s, false, false)
      else Outcome(Sched(true, Some(s.next), s.tasks[s.next := Pending], s.next + 1), false, false)
    case Stop =>
      if !s.running then Outcome(s, false, false)
      else
        var tasks := if s.tracked.Some? then s.tasks - {s.tracked.value} else s.tasks;
        Outcome(s.(running := false, tasks := tasks), false, false)
    case RunCycle(t) =>
      if t in s.tasks && s.tasks[t] == Pending then
        var tasks := if s.running then s.tasks[t := Sleeping] else s.tasks - {t};
        Outcome(s.(tasks := tasks), true, s.running)
      else Outcome(s, false, false)
    case Wake(t) =>
      if t in s.tasks && s.tasks[t] == Sleeping then
        var tracked := if trackSuccessor then Some(s.next) else s.tracked;
        Outcome(Sched(s.running, tracked, (s.tasks - {t})[s.next := Pending], s.next + 1), false, false)
      else Outcome(s, false, false)
  }

  /** The states a sequence of events passes through ends here; `stray`
      counts the runs that happened while `is_running` was false. */
  datatype Trace = Trace(s: Sched, cycles: nat, stray: nat)

  function Replay(s: Sched, es: seq<Event>, trackSuccessor: bool): (r: Trace)
    requires Fresh(s)
    ensures Fresh(r.s)
    ensures r.stray <= r.cycles <= |es|
    decreases |es|
  {
    if es == [] then Trace(s, 0, 0)
    else
      var o := StepWith(s, es[0], trackSuccessor);
      var rest := Replay(o.s, es[1..], trackSuccessor);
      Trace(rest.s, (if o.cycled then 1 else 0) + rest.cycles,
            (if o.cycled && !o.whileRunning then 1 else 0) + rest.stray)
  }

  // ------------------------------------------------------------ properties

  /** Calling `start_background_task` twice is calling it once, whether or
      not the successor is tracked. */
  lemma StartIsIdempotent(s: Sched, trackSuccessor: bool)
    requires Fresh(s)
    ensures var once := StepWith(s, Start, trackSuccessor).s;
            StepWith(once, Start, trackSuccessor).s == once
  {
  }

  /** After `stop_background_task`, `is_running` is false, and stopping
      again changes nothing. */
  lemma StopIsIdempotent(s: Sched, trackSuccessor: bool)
    requires Fresh(s)
    ensures var once := StepWith(s, Stop, trackSuccessor).s;
            !once.running && StepWith(once, Stop, trackSuccessor).s == once
  {
  }

  /** The intended discipline: at most one live task, it is the tracked
      one, and none is alive once the loop is stopped. */
  predicate OneChain(s: Sched) {
    && Fresh(s)
    && (forall t :: t in s.tasks ==> s.tracked == Some(t))
    && (!s.running ==> s.tasks == map[])
  }

  lemma {:induction false} FixedStepKeepsOneChain(s: Sched, e: Event)
    requires OneChain(s)
    ensures OneChain(StepWith(s, e, true).s)
    ensures StepWith(s, e, true).cycled ==> StepWith(s, e, true).whileRunning
  {
    var r := StepWith(s, e, true);
    match e
    case Start =>
    case Stop =>
      if s.running {
        assert forall t :: t in s.tasks ==> t == s.tracked.value;
      }
    case RunCycle(t) =>
    case Wake(t) =>
      if t in s.tasks && s.tasks[t] == Sleeping {
        assert s.tracked == Some(t);
        assert forall u :: u in s.tasks ==> u == t;
        assert r.s.tasks == map[s.next := Pending];
      }
  }

  /** With the successor tracked, every run of `check_new_videos` happens
      while `is_running` is true, whatever the order of events, and the
      one-chain discipline holds at the end. */
  lemma {:induction false} FixedLoopNeverStrays(s: Sched, es: seq<Event>)
    requires OneChain(s)
    ensures OneChain(Replay(s, es, true).s)
    ensures Replay(s, es, true).stray == 0
    decreases |es|
  {
    if es != [] {
      FixedStepKeepsOneChain(s, es[0]);
      FixedLoopNeverStrays(StepWith(s, es[0], true).s, es[1..]);
    }
  }

  /** As written, stopping does not stop the loop: once the first task has
      handed over to its successor, `stop_background_task` cancels the
      finished first task, and the successor still runs the check. */
  lemma CycleAfterStopAsWritten()
    ensures var es := [Start, RunCycle(0), Wake(0), Stop, RunCycle(1)];
            var r := Replay(Init, es, false);
            && r.stray == 1
            && !r.s.running
  {
    var s1 := StepWith(Init, Start, false).s;
    var s2 := StepWith(s1, RunCycle(0), false).s;
    var s3 := StepWith(s2, Wake(0), false).s;
    var s4 := StepWith(s3, Stop, false).s;
    assert s4.tasks == map[1 := Pending];
  }

  /** As written, stop followed by start leaves two chains alive: the
      untracked successor of the first chain and the new task, both of
      which reschedule themselves while `is_running` is true. */
  lemma TwoChainsAsWritten()
    ensures var es := [Start, RunCycle(0), Wake(0), Stop, Start];
            var r := Replay(Init, es, false);
            && r.s.running
            && r.s.tasks == map[1 := Pending, 2 := Pending]
            && !OneChain(r.s)
  {
    var s1 := StepWith(Init, Start, false).s;
    var s2 := StepWith(s1, RunCycle(0), false).s;
    var s3 := StepWith(s2, Wake(0), false).s;
    var s4 := StepWith(s3, Stop, false).s;
    assert s4.tasks == map[1 := Pending];
    var s5 := StepWith(s4, Start, false).s;
    assert 1 in s5.tasks && s5.tracked == Some(2);
  }

  /** The same events with the successor tracked: the stop cancels task 1
      and only the new chain is alive. */
  lemma OneChainWhenFixed()
    ensures var es := [Start, RunCycle(0), Wake(0), Stop, Start];
            var r := Replay(Init, es, true);
            r.s.running && r.s.tasks == map[2 := Pending]
  {
    var s1 := StepWith(Init, Start, true).s;
    var s2 := StepWith(s1, RunCycle(0), true).s;
    var s3 := StepWith(s2, Wake(0), true).s;
    var s4 := StepWith(s3, Stop, true).s;
    assert s4.tasks == map[];
  }
}
