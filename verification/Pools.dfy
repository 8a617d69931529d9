/**
 * The worker pool (pool/pool.go, pool/task.go): Run and its workers as an interleaving of atomic steps over an
 * unbuffered channel and a WaitGroup. MoonshotPool is the same code over another task type.
 */
module Pools {
  import opened Collections
  import opened Outcomes

  /** Where the goroutine that called Run stands. */
  datatype Main = Spawning(started: nat) | Adding | Sending(next: nat) | Closing | Waiting | Returned | Panicked

  /** A worker between two receives holds a task: first it has to run it, then to signal Done. */
  datatype Worker = Unborn | Idle | Running(task: nat) | Stored(task: nat) | Gone {
    predicate Busy() {
      Running? || Stored?
    }
  }

  /** jobs[t] is what the function of task t returns; runs and finished are the history. */
  datatype State<R> = State(
    jobs: seq<R>, main: Main, workers: seq<Worker>, counter: int, closed: bool,
    results: map<nat, R>, runs: seq<nat>, finished: seq<nat>)

  datatype Action =
    | Spawn | SpawnDone | AddAll | Send(w: nat) | SendClosed | SendDone | Close | CloseClosed | Return
    | Exec(w: nat) | Done(w: nat) | Exit(w: nat)

  function Init<R>(jobs: seq<R>, concurrency: nat, closed: bool): State<R> {
    State(jobs, Spawning(0), seq(concurrency, _ => Unborn), 0, closed, map[], seq(|jobs|, _ => 0), [])
  }

  predicate Enabled<R>(s: State<R>, a: Action) {
    match a
    case Spawn => s.main.Spawning? && s.main.started < |s.workers| && s.workers[s.main.started].Unborn?
    case SpawnDone => s.main.Spawning? && s.main.started >= |s.workers|
    case AddAll => s.main.Adding?
    case Send(w) => s.main.Sending? && s.main.next < |s.jobs| && !s.closed && w < |s.workers| && s.workers[w].Idle?
    case SendClosed => s.main.Sending? && s.main.next < |s.jobs| && s.closed
    case SendDone => s.main.Sending? && s.main.next >= |s.jobs|
    case Close => s.main.Closing? && !s.closed
    case CloseClosed => s.main.Closing? && s.closed
    case Return => s.main.Waiting? && s.counter == 0
    case Exec(w) => w < |s.workers| && s.workers[w].Running? && s.workers[w].task < |s.jobs| && s.workers[w].task < |s.runs|
    case Done(w) => w < |s.workers| && s.workers[w].Stored?
    case Exit(w) => w < |s.workers| && s.workers[w].Idle? && s.closed
  }

  function Apply<R>(s: State<R>, a: Action): State<R>
    requires Enabled(s, a)
  {
    match a
    case Spawn => s.(workers := s.workers[s.main.started := Idle], main := Spawning(s.main.started + 1))
    case SpawnDone => s.(main := Adding)
    case AddAll => s.(counter := s.counter + |s.jobs|, main := Sending(0))
    case Send(w) => s.(workers := s.workers[w := Running(s.main.next)], main := Sending(s.main.next + 1))
    case SendClosed => s.(main := Panicked)
    case SendDone => s.(main := Closing)
    case Close => s.(closed := true, main := Waiting)
    case CloseClosed => s.(main := Panicked)
    case Return => s.(main := Returned)
    case Exec(w) =>
      var t := s.workers[w].task;
      s.(workers := s.workers[w := Stored(t)], results := s.results[t := s.jobs[t]], runs := s.runs[t := s.runs[t] + 1])
    case Done(w) =>
      s.(workers := s.workers[w := Idle], counter := s.counter - 1, finished := s.finished + [s.workers[w].task])
    case Exit(w) => s.(workers := s.workers[w := Gone])
  }

  ghost predicate Next<R>(s: State<R>, s': State<R>) {
    exists a :: Enabled(s, a) && s' == Apply(s, a)
  }

  ghost predicate StepAt<R>(run: seq<State<R>>, i: nat)
    requires i < |run| - 1
  {
    Next(run[i], run[i + 1])
  }

  ghost predicate IsRun<R>(run: seq<State<R>>, jobs: seq<R>, concurrency: nat, closed: bool) {
    && run != [] && run[0] == Init(jobs, concurrency, closed)
    && forall i: nat | i < |run| - 1 :: StepAt(run, i)
  }

  // ---------------------------------------------------------------- safety

  /** How many tasks were handed to a worker. */
  function Sent<R>(s: State<R>): nat {
    match s.main
    case Spawning(_) => 0
    case Adding => 0
    case Sending(k) => k
    case _ => |s.jobs|
  }

  ghost predicate InFlight<R>(s: State<R>, t: nat) {
    exists w :: 0 <= w < |s.workers| && s.workers[w].Busy() && s.workers[w].task == t
  }

  ghost predicate LifeInv<R>(s: State<R>) {
    && (s.main.Spawning? ==> s.main.started <= |s.workers|)
    && (forall w :: 0 <= w < |s.workers| ==> (s.workers[w].Unborn? <==> s.main.Spawning? && s.main.started <= w))
    && (forall w :: 0 <= w < |s.workers| && s.workers[w].Gone? ==> s.closed)
  }

  ghost predicate WorkersInv<R>(s: State<R>) {
    && (forall w :: 0 <= w < |s.workers| && s.workers[w].Busy() ==> s.workers[w].task < Sent(s) && s.workers[w].task !in s.finished)
    && (forall v, w :: 0 <= v < w < |s.workers| && s.workers[v].Busy() && s.workers[w].Busy() ==> s.workers[v].task != s.workers[w].task)
  }

  ghost predicate TasksInv<R>(s: State<R>) {
    && Sent(s) <= |s.jobs|
    && (forall i, j :: 0 <= i < j < |s.finished| ==> s.finished[i] != s.finished[j])
    && (forall t :: t in s.finished ==> t < Sent(s))
    && (forall t: nat :: t < Sent(s) ==> t in s.finished || InFlight(s, t))
  }

  /** Each function ran once if its result is stored and not at all otherwise. */
  ghost predicate ResultsInv<R>(s: State<R>) {
    && |s.runs| == |s.jobs|
    && (forall t: nat :: t in s.results ==> t < Sent(s) && t < |s.jobs| && s.results[t] == s.jobs[t])
    && (forall t: nat :: t < |s.runs| ==> s.runs[t] == if t in s.results then 1 else 0)
    && (forall t :: t in s.finished ==> t in s.results)
    && (forall w :: 0 <= w < |s.workers| && s.workers[w].Busy() ==> (s.workers[w].task in s.results <==> s.workers[w].Stored?))
  }

  /** What every reachable state satisfies when the channel was open at the start. */
  ghost predicate Inv<R>(s: State<R>) {
    && LifeInv(s) && WorkersInv(s) && TasksInv(s) && ResultsInv(s)
    && s.counter == (if s.main.Spawning? || s.main.Adding? then 0 else |s.jobs| - |s.finished|)
    && (s.closed <==> s.main.Waiting? || s.main.Returned?)
    && !s.main.Panicked?
    && (s.main.Spawning? || s.main.Adding? ==> s.finished == [])
    && (s.main.Returned? ==> |s.finished| == |s.jobs|)
  }

  lemma InitInv<R>(jobs: seq<R>, concurrency: nat)
    ensures Inv(Init(jobs, concurrency, false))
  {
  }

  lemma LifeStep<R>(s: State<R>, a: Action)
    requires Inv(s) && Enabled(s, a)
    ensures LifeInv(Apply(s, a))
  {
    match a
    case Spawn => case SpawnDone => case AddAll => case SendClosed => case SendDone => case Close => case CloseClosed =>
    case Return => case Exit(w) => case Send(w) => case Exec(w) => case Done(w) =>
  }

  lemma FinishedStep<R>(s: State<R>, a: Action)
    requires Inv(s) && Enabled(s, a)
    ensures var s' := Apply(s, a);
            && Sent(s') <= |s'.jobs| && Sent(s) <= Sent(s')
            && (forall i, j :: 0 <= i < j < |s'.finished| ==> s'.finished[i] != s'.finished[j])
            && (forall t :: t in s'.finished ==> t < Sent(s'))
  {
    if a.Done? {
      var t := s.workers[a.w].task;
      assert t !in s.finished && t < Sent(s);
    }
  }

  /** A worker at a task was at it before the step, unless the step handed it the next task. */
  lemma BusyBefore<R>(s: State<R>, a: Action, w: nat)
    requires Enabled(s, a) && w < |s.workers| && Apply(s, a).workers[w].Busy()
    ensures if a == Send(w) then Apply(s, a).workers[w].task == Sent(s) && Sent(Apply(s, a)) == Sent(s) + 1
            else s.workers[w].Busy() && s.workers[w].task == Apply(s, a).workers[w].task && a != Done(w)
  {
  }

  lemma WorkersStep<R>(s: State<R>, a: Action)
    requires Inv(s) && Enabled(s, a)
    ensures WorkersInv(Apply(s, a))
  {
    var s' := Apply(s, a);
    FinishedStep(s, a);
    forall w | 0 <= w < |s'.workers| && s'.workers[w].Busy() ensures s'.workers[w].task < Sent(s') && s'.workers[w].task !in s'.finished {
      BusyBefore(s, a, w);
    }
    forall v, w | 0 <= v < w < |s'.workers| && s'.workers[v].Busy() && s'.workers[w].Busy() ensures s'.workers[v].task != s'.workers[w].task {
      BusyBefore(s, a, v);
      BusyBefore(s, a, w);
    }
  }

  lemma ResultsExec<R>(s: State<R>, w: nat)
    requires Inv(s) && Enabled(s, Exec(w))
    ensures ResultsInv(Apply(s, Exec(w)))
  {
    var t, s' := s.workers[w].task, Apply(s, Exec(w));
    assert t !in s.results && s.runs[t] == 0;
    forall v | 0 <= v < |s'.workers| && s'.workers[v].Busy() ensures s'.workers[v].task in s'.results <==> s'.workers[v].Stored? {
      if v != w {
        assert s.workers[v].task != t;
      }
    }
  }

  lemma ResultsDone<R>(s: State<R>, w: nat)
    requires Inv(s) && Enabled(s, Done(w))
    ensures ResultsInv(Apply(s, Done(w)))
  {
    assert s.workers[w].task in s.results;
  }

  lemma ResultsSend<R>(s: State<R>, w: nat)
    requires Inv(s) && Enabled(s, Send(w))
    ensures ResultsInv(Apply(s, Send(w)))
  {
  }

  lemma ResultsStep<R>(s: State<R>, a: Action)
    requires Inv(s) && Enabled(s, a)
    ensures ResultsInv(Apply(s, a))
  {
    match a
    case Exec(w) => ResultsExec(s, w);
    case Done(w) => ResultsDone(s, w);
    case Send(w) => ResultsSend(s, w);
    case _ =>
  }

  lemma StaysInFlight<R>(s: State<R>, a: Action, t: nat)
    requires Inv(s) && Enabled(s, a) && InFlight(s, t)
    ensures t in Apply(s, a).finished || InFlight(Apply(s, a), t)
  {
    var s' := Apply(s, a);
    var v :| 0 <= v < |s.workers| && s.workers[v].Busy() && s.workers[v].task == t;
    if a == Done(v) {
      assert s'.finished[|s.finished|] == t;
    } else {
      assert s'.workers[v].Busy() && s'.workers[v].task == t;
    }
  }

  lemma TasksStep<R>(s: State<R>, a: Action)
    requires Inv(s) && Enabled(s, a)
    ensures TasksInv(Apply(s, a))
  {
    var s' := Apply(s, a);
    FinishedStep(s, a);
    forall t: nat | t < Sent(s') ensures t in s'.finished || InFlight(s', t) {
      if t < Sent(s) {
        if t !in s.finished {
          StaysInFlight(s, a, t);
        }
      } else {
        assert a.Send? && s'.workers[a.w] == Running(t) && s'.workers[a.w].Busy();
      }
    }
  }

  function Below(n: nat): (r: set<nat>)
    ensures |r| == n && forall x: nat :: x in r <==> x < n
  {
    if n == 0 then {} else Below(n - 1) + {n - 1}
  }

  /** Distinct numbers below n: at most n of them, and if n, all. */
  lemma DistinctBelow(s: seq<nat>, n: nat)
    requires forall i, j :: 0 <= i < j < |s| ==> s[i] != s[j]
    requires forall x :: x in s ==> x < n
    ensures |s| <= n
    ensures |s| == n ==> forall x: nat :: x < n ==> x in s
  {
    SubsetSize(Elements(s), Below(n));
  }

  lemma {:induction false} SubsetSize<T>(a: set<T>, b: set<T>)
    requires a <= b
    ensures |a| <= |b| && (|a| == |b| ==> a == b)
  {
    assert b == a + (b - a);
  }

  /** A task in flight is a task not yet done, so the counter is positive when Done is signalled. */
  lemma BusyMeansUnfinished<R>(s: State<R>, w: nat)
    requires Inv(s) && w < |s.workers| && s.workers[w].Busy()
    ensures |s.finished| < |s.jobs|
  {
    DistinctBelow(s.finished + [s.workers[w].task], |s.jobs|);
  }

  lemma StepInv<R>(s: State<R>, a: Action)
    requires Inv(s) && Enabled(s, a)
    ensures Inv(Apply(s, a))
  {
    LifeStep(s, a);
    WorkersStep(s, a);
    ResultsStep(s, a);
    TasksStep(s, a);
    if a.Done? {
      BusyMeansUnfinished(s, a.w);
    }
  }

  lemma NextInv<R>(s: State<R>, s': State<R>)
    requires Inv(s) && Next(s, s')
    ensures Inv(s') && s'.jobs == s.jobs && |s'.workers| == |s.workers|
  {
    var a :| Enabled(s, a) && s' == Apply(s, a);
    StepInv(s, a);
    StepFrame(s, a);
  }

  lemma StepFrame<R>(s: State<R>, a: Action)
    requires Enabled(s, a)
    ensures Apply(s, a).jobs == s.jobs && |Apply(s, a).workers| == |s.workers|
  {
  }

  lemma {:induction false} RunInv<R>(run: seq<State<R>>, jobs: seq<R>, concurrency: nat, i: nat)
    requires IsRun(run, jobs, concurrency, false) && i < |run|
    ensures Inv(run[i]) && run[i].jobs == jobs && |run[i].workers| == concurrency
  {
    if i == 0 {
      InitInv(jobs, concurrency);
    } else {
      RunInv(run, jobs, concurrency, i - 1);
      assert StepAt(run, i - 1);
      NextInv(run[i - 1], run[i]);
    }
  }

  function InFlightSet(workers: seq<Worker>): (r: set<nat>)
    ensures forall t :: t in r <==> exists w :: 0 <= w < |workers| && workers[w].Busy() && workers[w].task == t
    ensures |r| <= |workers|
  {
    if workers == [] then {} else
      var rest := InFlightSet(workers[1..]);
      assert forall w :: 0 < w < |workers| ==> workers[w] == workers[1..][w - 1];
      if workers[0].Busy() then {workers[0].task} + rest else rest
  }

  /** Safety over every run, every number of workers and every interleaving. */
  lemma PoolSafety<R>(run: seq<State<R>>, jobs: seq<R>, concurrency: nat, i: nat)
    requires IsRun(run, jobs, concurrency, false) && i < |run|
    ensures var s := run[i];
            var inFlight, done := InFlightSet(s.workers), Elements(s.finished);
            // unsent, in flight and done partition the tasks; at most one task per worker is in flight
            && (forall t: nat :: t < |jobs| <==> t in inFlight || t in done || Sent(s) <= t < |jobs|)
            && inFlight !! done && (forall t :: t in inFlight + done ==> t < Sent(s)) && |inFlight| <= concurrency
            // the counter is the number of tasks not yet done once they were added, and is never negative
            && s.counter == (if s.main.Spawning? || s.main.Adding? then 0 else |jobs| - |done|) && s.counter >= 0
            // nothing is sent on, and nothing closes, a closed channel
            && !s.main.Panicked?
            // each function has run at most once, and a result is stored before Done is signalled
            && |s.runs| == |jobs| && (forall t: nat :: t < |jobs| ==> s.runs[t] == if t in s.results then 1 else 0)
            && (forall t :: t in done ==> t in s.results && s.results[t] == jobs[t])
  {
    RunInv(run, jobs, concurrency, i);
    DistinctBelow(run[i].finished, |jobs|);
  }

  /** When Run returns, every function ran exactly once, its result is stored, and no worker is still at a task. */
  lemma PoolReturns<R>(run: seq<State<R>>, jobs: seq<R>, concurrency: nat, i: nat)
    requires IsRun(run, jobs, concurrency, false) && i < |run| && run[i].main.Returned?
    ensures |run[i].runs| == |jobs|
    ensures forall t: nat :: t < |jobs| ==> run[i].runs[t] == 1 && t in run[i].results && run[i].results[t] == jobs[t]
    ensures InFlightSet(run[i].workers) == {}
    ensures multiset(run[i].finished) == multiset(Below(|jobs|))
  {
    RunInv(run, jobs, concurrency, i);
    AllDone(run[i]);
    var s := run[i];
    assert InFlightSet(s.workers) == {};
    forall t: nat ensures multiset(s.finished)[t] == multiset(Below(|jobs|))[t] {
      OnceInDistinct(s.finished, t);
    }
  }

  lemma {:induction false} OnceInDistinct(s: seq<nat>, t: nat)
    requires forall i, j :: 0 <= i < j < |s| ==> s[i] != s[j]
    ensures multiset(s)[t] == if t in s then 1 else 0
  {
    if s != [] {
      OnceInDistinct(s[1..], t);
      assert s == [s[0]] + s[1..];
    }
  }

  lemma AllDone<R>(s: State<R>)
    requires Inv(s) && |s.finished| == |s.jobs|
    ensures forall t: nat :: t < |s.jobs| ==> t in s.finished
    ensures forall w :: 0 <= w < |s.workers| ==> !s.workers[w].Busy()
  {
    DistinctBelow(s.finished, |s.jobs|);
  }

  // ---------------------------------------------------------------- progress

  function WorkerWeight(w: Worker): nat {
    match w case Unborn => 2 case Idle => 1 case Running(_) => 3 case Stored(_) => 2 case Gone => 0
  }

  function Weights(workers: seq<Worker>): nat {
    if workers == [] then 0 else WorkerWeight(workers[0]) + Weights(workers[1..])
  }

  function MainWeight<R>(s: State<R>): int {
    match s.main
    case Spawning(_) => 3 * |s.jobs| + 5
    case Adding => 3 * |s.jobs| + 4
    case Sending(k) => 3 * (|s.jobs| - k) + 3
    case Closing => 2
    case Waiting => 1
    case _ => 0
  }

  /** How many steps a pool may still take. */
  function Remaining<R>(s: State<R>): int {
    MainWeight(s) + Weights(s.workers)
  }

  lemma {:induction false} WeightsUpdate(workers: seq<Worker>, w: nat, x: Worker)
    requires w < |workers|
    ensures Weights(workers[w := x]) == Weights(workers) - WorkerWeight(workers[w]) + WorkerWeight(x)
  {
    if w == 0 {
      assert workers[w := x][1..] == workers[1..];
    } else {
      assert workers[w := x][1..] == workers[1..][w - 1 := x];
      WeightsUpdate(workers[1..], w - 1, x);
    }
  }

  /** Every step, of any goroutine, uses up some of what remains; hence no run goes on for ever. */
  lemma StepDecreases<R>(s: State<R>, a: Action)
    requires Enabled(s, a) && Sent(s) <= |s.jobs|
    ensures 0 <= Remaining(Apply(s, a)) < Remaining(s)
  {
    match a
    case Spawn => WeightsUpdate(s.workers, s.main.started, Idle);
    case Send(w) => WeightsUpdate(s.workers, w, Running(s.main.next));
    case Exec(w) => WeightsUpdate(s.workers, w, Stored(s.workers[w].task));
    case Done(w) => WeightsUpdate(s.workers, w, Idle);
    case Exit(w) => WeightsUpdate(s.workers, w, Gone);
    case SpawnDone => case AddAll => case SendClosed => case SendDone => case Close => case CloseClosed => case Return =>
  }

  lemma {:induction false} RemainingAfter<R>(run: seq<State<R>>, jobs: seq<R>, concurrency: nat, i: nat)
    requires IsRun(run, jobs, concurrency, false) && i < |run|
    ensures 0 <= Remaining(run[i]) <= 3 * |jobs| + 5 + 2 * concurrency - i
  {
    if i == 0 {
      InitWeights(concurrency);
    } else {
      RemainingAfter(run, jobs, concurrency, i - 1);
      RunInv(run, jobs, concurrency, i - 1);
      assert StepAt(run, i - 1);
      var a :| Enabled(run[i - 1], a) && run[i] == Apply(run[i - 1], a);
      StepDecreases(run[i - 1], a);
    }
  }

  lemma {:induction false} InitWeights(n: nat)
    ensures Weights(seq(n, _ => Unborn)) == 2 * n
  {
    if n > 0 {
      assert seq(n, _ => Unborn)[1..] == seq(n - 1, _ => Unborn);
      InitWeights(n - 1);
    }
  }

  /** No run takes more than this many steps. */
  lemma RunBounded<R>(run: seq<State<R>>, jobs: seq<R>, concurrency: nat)
    requires IsRun(run, jobs, concurrency, false)
    ensures |run| <= 3 * |jobs| + 6 + 2 * concurrency
  {
    RemainingAfter(run, jobs, concurrency, |run| - 1);
  }

  lemma BusyMoves<R>(s: State<R>, w: nat)
    requires Inv(s) && w < |s.workers| && s.workers[w].Busy()
    ensures Enabled(s, Exec(w)) || Enabled(s, Done(w))
  {
  }

  /** Before it returns, a pool is stuck exactly when it has a task to send and no worker at all. */
  lemma StuckExactly<R>(s: State<R>)
    requires Inv(s) && !s.main.Returned?
    ensures (forall a :: !Enabled(s, a)) <==> s.workers == [] && s.main.Sending? && s.main.next < |s.jobs|
  {
    if s.main.Spawning? {
      assert Enabled(s, Spawn) || Enabled(s, SpawnDone);
    } else if s.main.Adding? {
      assert Enabled(s, AddAll);
    } else if s.main.Closing? {
      assert Enabled(s, Close);
    } else if s.main.Sending? && s.main.next >= |s.jobs| {
      assert Enabled(s, SendDone);
    } else if s.main.Sending? && s.workers != [] {
      if s.workers[0].Busy() {
        BusyMoves(s, 0);
      } else {
        assert Enabled(s, Send(0));
      }
    } else if s.main.Waiting? {
      if s.counter == 0 {
        assert Enabled(s, Return);
      } else {
        DistinctBelow(s.finished, |s.jobs|);
        SomeUnfinished(s);
        var w :| 0 <= w < |s.workers| && s.workers[w].Busy();
        BusyMoves(s, w);
      }
    }
  }

  lemma SomeUnfinished<R>(s: State<R>)
    requires Inv(s) && s.main.Waiting? && |s.finished| < |s.jobs|
    ensures exists w :: 0 <= w < |s.workers| && s.workers[w].Busy()
  {
    if forall t: nat :: t < |s.jobs| ==> t in s.finished {
      SubsetSize(Below(|s.jobs|), Elements(s.finished));
      assert false;
    }
    var t: nat :| t < |s.jobs| && t !in s.finished;
    assert InFlight(s, t);
  }

  /** With a worker or without tasks, a run that cannot be extended has returned. */
  lemma MaximalRunReturned<R>(run: seq<State<R>>, jobs: seq<R>, concurrency: nat, last: State<R>)
    requires IsRun(run, jobs, concurrency, false) && last == run[|run| - 1]
    requires concurrency >= 1 || jobs == []
    requires forall a :: !Enabled(last, a)
    ensures last.main.Returned?
  {
    RunInv(run, jobs, concurrency, |run| - 1);
    if !last.main.Returned? {
      StuckExactly(last);
    }
  }

  /** And by then every worker has left its loop: no goroutine of the pool outlives a maximal run. */
  lemma MaximalRunLeavesNoWorker<R>(run: seq<State<R>>, jobs: seq<R>, concurrency: nat, last: State<R>)
    requires IsRun(run, jobs, concurrency, false) && last == run[|run| - 1]
    requires concurrency >= 1 || jobs == []
    requires forall a :: !Enabled(last, a)
    ensures forall w :: 0 <= w < |last.workers| ==> last.workers[w].Gone?
  {
    RunInv(run, jobs, concurrency, |run| - 1);
    MaximalRunReturned(run, jobs, concurrency, last);
    AllDone(last);
    forall w | 0 <= w < |last.workers| ensures last.workers[w].Gone? {
      assert !Enabled(last, Exit(w));
      assert !last.workers[w].Unborn? && !last.workers[w].Busy();
    }
  }

  // ---------------------------------------------------------------- one worker

  /** With one worker the tasks finish in list order. */
  ghost predicate InOrder<R>(s: State<R>) {
    && |s.workers| == 1
    && (forall i :: 0 <= i < |s.finished| ==> s.finished[i] == i)
    && Sent(s) <= |s.jobs|
    && (s.workers[0].Unborn? || s.workers[0].Gone? || s.workers[0].Idle? ==> Sent(s) == |s.finished| || s.main.Panicked?)
    && (s.workers[0].Busy() ==> s.workers[0].task == |s.finished| && Sent(s) == |s.finished| + 1)
  }

  lemma {:induction false} OneWorkerInOrder<R>(run: seq<State<R>>, jobs: seq<R>, i: nat)
    requires IsRun(run, jobs, 1, false) && i < |run|
    ensures InOrder(run[i])
  {
    if i > 0 {
      OneWorkerInOrder(run, jobs, i - 1);
      RunInv(run, jobs, 1, i - 1);
      assert StepAt(run, i - 1);
      var a :| Enabled(run[i - 1], a) && run[i] == Apply(run[i - 1], a);
      InOrderStep(run[i - 1], a);
    }
  }

  lemma InOrderStep<R>(s: State<R>, a: Action)
    requires Inv(s) && InOrder(s) && Enabled(s, a)
    ensures InOrder(Apply(s, a))
  {
  }

  // ---------------------------------------------------------------- a second Run

  /** The channel stays closed: a pool that ran once can only panic, at its first send or at its close. */
  ghost predicate ClosedInv<R>(s: State<R>) {
    && s.closed && Sent(s) <= |s.jobs|
    && (s.main.Sending? ==> s.main.next == 0)
    && !s.main.Waiting? && !s.main.Returned?
    && (s.main.Closing? ==> s.jobs == [])
    && (s.main.Spawning? ==> s.main.started <= |s.workers| && forall w :: s.main.started <= w < |s.workers| ==> s.workers[w].Unborn?)
    && (forall w :: 0 <= w < |s.workers| ==> !s.workers[w].Busy())
  }

  lemma ClosedStep<R>(s: State<R>, a: Action)
    requires ClosedInv(s) && Enabled(s, a)
    ensures ClosedInv(Apply(s, a)) && Apply(s, a).runs == s.runs
  {
  }

  lemma {:induction false} SecondRunNeverReturns<R>(run: seq<State<R>>, jobs: seq<R>, concurrency: nat, i: nat)
    requires IsRun(run, jobs, concurrency, true) && i < |run|
    ensures ClosedInv(run[i]) && !run[i].main.Returned? && run[i].runs == run[0].runs
    ensures (forall a :: !Enabled(run[i], a)) ==> run[i].main.Panicked?
  {
    if i > 0 {
      SecondRunNeverReturns(run, jobs, concurrency, i - 1);
      assert StepAt(run, i - 1);
      var a :| Enabled(run[i - 1], a) && run[i] == Apply(run[i - 1], a);
      ClosedStep(run[i - 1], a);
    }
    if !run[i].main.Panicked? {
      ClosedMoves(run[i]);
    }
  }

  lemma ClosedMoves<R>(s: State<R>)
    requires ClosedInv(s) && !s.main.Panicked?
    ensures exists a :: Enabled(s, a)
  {
    var a := match s.main
      case Spawning(k) => if k < |s.workers| then Spawn else SpawnDone
      case Adding => AddAll
      case Sending(_) => if s.jobs == [] then SendDone else SendClosed
      case _ => CloseClosed;
    assert Enabled(s, a);
  }

  // ---------------------------------------------------------------- the pool object

  /** The invariant of a run, whether the channel was open or closed at its start. */
  ghost predicate Good<R>(s: State<R>, closed: bool) {
    if closed then ClosedInv(s) && s.results == map[] else Inv(s)
  }

  lemma GoodStep<R>(s: State<R>, a: Action, closed: bool)
    requires Good(s, closed) && Enabled(s, a)
    ensures Good(Apply(s, a), closed)
    ensures 0 <= Remaining(Apply(s, a)) < Remaining(s)
  {
    StepDecreases(s, a);
    if closed {
      ClosedStep(s, a);
    } else {
      StepInv(s, a);
    }
  }

  /** A task to send and nobody who will ever receive it. */
  predicate Starved<R>(s: State<R>) {
    s.workers == [] && s.main.Sending? && s.main.next < |s.jobs| && !s.closed
  }

  lemma GoodMoves<R>(s: State<R>, closed: bool)
    requires Good(s, closed) && !s.main.Returned? && !s.main.Panicked? && !Starved(s)
    ensures exists a :: Enabled(s, a)
  {
    if closed {
      ClosedMoves(s);
    } else {
      StuckExactly(s);
    }
  }

  /** A task: its URL, what its function returns, and the result once it ran (Body and Err of the source). */
  datatype Task<R> = Task(url: string, f: R, result: Option<R>)

  function Jobs<R>(tasks: seq<Task<R>>): seq<R> {
    seq(|tasks|, i requires 0 <= i < |tasks| => tasks[i].f)
  }

  function WithResults<R>(tasks: seq<Task<R>>, results: map<nat, R>): seq<Task<R>> {
    seq(|tasks|, i requires 0 <= i < |tasks| => if i in results then tasks[i].(result := Some(results[i])) else tasks[i])
  }

  /** How Run ends; Blocked stands for not ending at all. */
  datatype RunEnd = Finished | Crashed | Blocked

  class Pool<R> {
    var Tasks: seq<Task<R>>
    const concurrency: nat
    var closed: bool

    constructor (tasks: seq<Task<R>>, concurrency: nat)
      ensures Tasks == tasks && this.concurrency == concurrency && !closed
    {
      Tasks := tasks;
      this.concurrency := concurrency;
      closed := false;
    }

    method AddTask(task: Task<R>)
      modifies this
      ensures Tasks == old(Tasks) + [task] && closed == old(closed)
    {
      Tasks := Tasks + [task];
    }

    /**
     * One step of whichever goroutine the scheduler picks. The choice of action is left open: what Run ensures
     * holds under every scheduler.
     */
    static method Schedule(s: State<R>) returns (ghost a: Action, s': State<R>)
      requires exists a :: Enabled(s, a)
      ensures Enabled(s, a) && s' == Apply(s, a)
    {
      var candidates := Candidates(s);
      assert candidates != [] by {
        var x :| Enabled(s, x);
        CandidateListed(s, x);
      }
      var i: nat :| i < |candidates|;
      assert candidates[i] in candidates;
      a := candidates[i];
      s' := Apply(s, candidates[i]);
    }

    /** The goroutines of one Run, until it returns or panics, or until nothing will ever happen again. */
    static method Execute(jobs: seq<R>, concurrency: nat, closed: bool) returns (s: State<R>)
      ensures s.jobs == jobs && |s.workers| == concurrency
      ensures closed ==> s.main.Panicked? && s.results == map[]
      ensures !closed ==> Inv(s) && if concurrency == 0 && jobs != [] then Starved(s) else s.main.Returned?
    {
      s := Init(jobs, concurrency, closed);
      InitInv(jobs, concurrency);
      while !s.main.Returned? && !s.main.Panicked? && !Starved(s)
        invariant |s.workers| == concurrency && s.jobs == jobs
        invariant Good(s, closed) && (s.workers == [] ==> s.finished == [])
        decreases Remaining(s)
      {
        GoodMoves(s, closed);
        ghost var a;
        ghost var before := s;
        a, s := Schedule(s);
        StepFrame(before, a);
        GoodStep(before, a, closed);
      }
    }

    /** Run returns with every result stored, panics if the pool ran before, or blocks if it has tasks but no worker. */
    method Run() returns (end: RunEnd)
      modifies this
      ensures end == if old(closed) then Crashed else if concurrency == 0 && old(Tasks) != [] then Blocked else Finished
      ensures closed == !end.Blocked?
      ensures |Tasks| == |old(Tasks)|
      ensures forall t :: 0 <= t < |Tasks| ==>
                Tasks[t] == if end.Finished? then old(Tasks)[t].(result := Some(old(Tasks)[t].f)) else old(Tasks)[t]
    {
      var s := Execute(Jobs(Tasks), concurrency, closed);
      if s.main.Panicked? {
        return Crashed;
      }
      if Starved(s) {
        return Blocked;
      }
      AllDone(s);
      Tasks := WithResults(Tasks, s.results);
      closed := true;
      return Finished;
    }
  }

  /** The actions open in a state, the scheduler's menu. */
  function Candidates<R>(s: State<R>): (r: seq<Action>)
    ensures forall a :: a in r ==> Enabled(s, a)
  {
    var main := [Spawn, SpawnDone, AddAll, SendClosed, SendDone, Close, CloseClosed, Return];
    OpenAmong(s, main) + WorkerActions(s, |s.workers|)
  }

  function OpenAmong<R>(s: State<R>, actions: seq<Action>): (r: seq<Action>)
    ensures forall a :: a in r <==> a in actions && Enabled(s, a)
  {
    if actions == [] then [] else
      (if Enabled(s, actions[0]) then [actions[0]] else []) + OpenAmong(s, actions[1..])
  }

  function WorkerActions<R>(s: State<R>, n: nat): (r: seq<Action>)
    ensures forall a :: a in r <==> Enabled(s, a) && (a.Send? || a.Exec? || a.Done? || a.Exit?) && a.w < n
  {
    if n == 0 then [] else
      WorkerActions(s, n - 1) + OpenAmong(s, [Send(n - 1), Exec(n - 1), Done(n - 1), Exit(n - 1)])
  }

  lemma CandidateListed<R>(s: State<R>, a: Action)
    requires Enabled(s, a)
    ensures a in Candidates(s)
  {
    var main := [Spawn, SpawnDone, AddAll, SendClosed, SendDone, Close, CloseClosed, Return];
    if !(a.Send? || a.Exec? || a.Done? || a.Exit?) {
      assert a in main;
      assert a in OpenAmong(s, main);
    }
  }
}
