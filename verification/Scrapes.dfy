/** Turning finished tasks into the value of the up gauge, in the two versions of the source. */
module Scrapes {
  import opened Outcomes

  /** A finished task: its error, and for each handler whether it accepts the body. */
  datatype TaskResult = TaskResult(err: Option<Error>, handlers: seq<bool>)

  /** The value of up, and whether the host goes on the ignored list. */
  datatype Verdict = Verdict(up: nat, ignore: bool)

  function FirstFailed(tasks: seq<TaskResult>): (k: nat)
    ensures k <= |tasks|
    ensures forall i :: 0 <= i < k ==> tasks[i].err.None?
    ensures k < |tasks| ==> tasks[k].err.Some?
  {
    if tasks == [] || tasks[0].err.Some? then 0 else 1 + FirstFailed(tasks[1..])
  }

  /** The error of the last handler is the one that counts; without handlers there is none. */
  predicate LastHandlerOk(t: TaskResult) {
    t.handlers == [] || t.handlers[|t.handlers| - 1]
  }

  function VerdictOf(tasks: seq<TaskResult>): Verdict {
    var k := FirstFailed(tasks);
    if k < |tasks| then
      if tasks[k].err.value.InvalidCredential? then Verdict(2, true) else Verdict(0, false)
    else
      Verdict(if forall t :: t in tasks ==> LastHandlerOk(t) then 1 else 0, false)
  }

  /** Which handlers run: (task, handler) pairs, all those of the first k tasks, in order. */
  function HandlerRuns(tasks: seq<TaskResult>, k: nat): seq<(nat, nat)>
    requires k <= |tasks|
  {
    if k == 0 then [] else HandlerRuns(tasks, k - 1) + seq(|tasks[k - 1].handlers|, j => (k - 1, j))
  }

  /** The loop of Exporter.scrape over the tasks of a pool that has run. */
  method Scrape(tasks: seq<TaskResult>) returns (v: Verdict, runs: seq<(nat, nat)>)
    ensures v == VerdictOf(tasks)
    ensures runs == HandlerRuns(tasks, FirstFailed(tasks))
  {
    var state := true;
    runs := [];
    for i := 0 to |tasks|
      invariant forall j :: 0 <= j < i ==> tasks[j].err.None?
      invariant state <==> forall j :: 0 <= j < i ==> LastHandlerOk(tasks[j])
      invariant runs == HandlerRuns(tasks, i)
    {
      if tasks[i].err.Some? {
        FirstFailedIs(tasks, i);
        return if tasks[i].err.value.InvalidCredential? then Verdict(2, true) else Verdict(0, false), runs;
      }
      var ok := true;
      for h := 0 to |tasks[i].handlers|
        invariant runs == HandlerRuns(tasks, i) + seq(h, j => (i, j))
        invariant ok <==> h == 0 || tasks[i].handlers[h - 1]
      {
        ok := tasks[i].handlers[h];
        runs := runs + [(i, h)];
      }
      if !ok {
        state := false;
      }
    }
    FirstFailedIs(tasks, |tasks|);
    assert state <==> forall t :: t in tasks ==> LastHandlerOk(t) by {
      if state {
        forall t | t in tasks ensures LastHandlerOk(t) {
          var j :| 0 <= j < |tasks| && tasks[j] == t;
        }
      } else {
        var j :| 0 <= j < |tasks| && !LastHandlerOk(tasks[j]);
        assert tasks[j] in tasks;
      }
    }
    v := Verdict(if state then 1 else 0, false);
  }

  lemma FirstFailedIs(tasks: seq<TaskResult>, k: nat)
    requires k <= |tasks| && forall i :: 0 <= i < k ==> tasks[i].err.None?
    requires k < |tasks| ==> tasks[k].err.Some?
    ensures FirstFailed(tasks) == k
  {
  }

  /**
   * The verdict from the tasks themselves: the first failed task decides, by whether its error is a refused credential;
   * without one, up is 1 exactly if each task has no handler or its last one accepted the body.
   */
  lemma VerdictExactly(tasks: seq<TaskResult>, k: nat)
    requires k <= |tasks| && forall i :: 0 <= i < k ==> tasks[i].err.None?
    requires k < |tasks| ==> tasks[k].err.Some?
    ensures k < |tasks| && tasks[k].err == Some(InvalidCredential) ==> VerdictOf(tasks) == Verdict(2, true)
    ensures k < |tasks| && tasks[k].err != Some(InvalidCredential) ==> VerdictOf(tasks) == Verdict(0, false)
    ensures k == |tasks| ==>
              VerdictOf(tasks) == Verdict(
                if forall i :: 0 <= i < |tasks| ==> |tasks[i].handlers| == 0 || tasks[i].handlers[|tasks[i].handlers| - 1] then 1 else 0, false)
  {
    FirstFailedIs(tasks, k);
    AllInSeq(tasks);
    assert forall i :: 0 <= i < |tasks| ==>
      (LastHandlerOk(tasks[i]) <==> |tasks[i].handlers| == 0 || tasks[i].handlers[|tasks[i].handlers| - 1]);
  }

  /** What any handler but the last one of its task returns makes no difference. */
  lemma EarlierHandlersIgnored(tasks: seq<TaskResult>, i: nat, h: nat, ok: bool)
    requires i < |tasks| && h + 1 < |tasks[i].handlers|
    ensures VerdictOf(tasks[i := tasks[i].(handlers := tasks[i].handlers[h := ok])]) == VerdictOf(tasks)
  {
    var k, other := FirstFailed(tasks), tasks[i := tasks[i].(handlers := tasks[i].handlers[h := ok])];
    VerdictExactly(tasks, k);
    VerdictExactly(other, k);
    assert forall j :: 0 <= j < |tasks| ==>
      && |other[j].handlers| == |tasks[j].handlers|
      && (|tasks[j].handlers| > 0 ==> other[j].handlers[|tasks[j].handlers| - 1] == tasks[j].handlers[|tasks[j].handlers| - 1]);
  }

  // ---------------------------------------------------------------- the Moonshot version

  /** A buffered channel. Send and Receive may be called only where they do not block. */
  class Channel {
    const capacity: nat
    var buffer: seq<bv8>

    constructor (capacity: nat)
      ensures this.capacity == capacity && buffer == []
    {
      this.capacity := capacity;
      buffer := [];
    }

    method Send(x: bv8)
      requires |buffer| < capacity
      modifies this
      ensures buffer == old(buffer) + [x]
    {
      buffer := buffer + [x];
    }

    method Receive() returns (x: bv8)
      requires buffer != []
      modifies this
      ensures x == old(buffer)[0] && buffer == old(buffer)[1..]
    {
      x := buffer[0];
      buffer := buffer[1..];
    }
  }

  /** A finished Moonshot task: at most one export function runs, chosen by device and metric type. */
  datatype MoonshotResult = MoonshotResult(err: Option<Error>, exported: Option<bool>)

  function AsTask(m: MoonshotResult): TaskResult {
    TaskResult(m.err, if m.exported.Some? then [m.exported.value] else [])
  }

  function AsTasks(ms: seq<MoonshotResult>): seq<TaskResult> {
    seq(|ms|, i requires 0 <= i < |ms| => AsTask(ms[i]))
  }

  function Bit(t: TaskResult): bv8 {
    if LastHandlerOk(t) then 1 else 0
  }

  /**
   * The loop of the Moonshot scrape: results go through a channel with room for one per task and are combined
   * with a bitwise and. It gives the verdict of the other version; no send or receive blocks and, if no task
   * failed, the channel ends empty.
   */
  method ScrapeMoonshot(ms: seq<MoonshotResult>) returns (v: Verdict, left: nat)
    ensures v == VerdictOf(AsTasks(ms))
    ensures FirstFailed(AsTasks(ms)) == |ms| ==> left == 0
  {
    ghost var tasks := AsTasks(ms);
    var scrapes := |ms|;
    var results := new Channel(scrapes);
    for i := 0 to |ms|
      invariant fresh(results) && results.capacity == scrapes && |results.buffer| == i
      invariant forall j :: 0 <= j < i ==> tasks[j].err.None? && results.buffer[j] == Bit(tasks[j])
    {
      if ms[i].err.Some? {
        FirstFailedIs(tasks, i);
        return if ms[i].err.value.InvalidCredential? then Verdict(2, true) else Verdict(0, false), |results.buffer|;
      }
      if ms[i].exported == Some(false) {
        results.Send(0);
      } else {
        results.Send(1);
      }
    }
    FirstFailedIs(tasks, |tasks|);
    var state := ReceiveAll(results, tasks);
    AllInSeq(tasks);
    return Verdict(state as nat, false), |results.buffer|;
  }

  method ReceiveAll(results: Channel, ghost tasks: seq<TaskResult>) returns (state: bv8)
    requires |results.buffer| == |tasks| && forall j :: 0 <= j < |tasks| ==> results.buffer[j] == Bit(tasks[j])
    modifies results
    ensures results.buffer == []
    ensures state == if forall j :: 0 <= j < |tasks| ==> LastHandlerOk(tasks[j]) then 1 else 0
  {
    state := 1;
    ghost var sent := results.buffer;
    var scrapes := |results.buffer|;
    for i := 0 to scrapes
      invariant results.buffer == sent[i..]
      invariant state == if forall j :: 0 <= j < i ==> LastHandlerOk(tasks[j]) then 1 else 0
    {
      var result := results.Receive();
      assert result == sent[i] == Bit(tasks[i]);
      assert sent[i..][1..] == sent[i + 1..];
      AndBits(state, result);
      state := state & result;
    }
  }

  lemma AndBits(a: bv8, b: bv8)
    requires (a == 0 || a == 1) && (b == 0 || b == 1)
    ensures a & b == if a == 1 && b == 1 then 1 else 0
  {
  }

  lemma AllInSeq(tasks: seq<TaskResult>)
    ensures (forall t :: t in tasks ==> LastHandlerOk(t)) <==> forall j :: 0 <= j < |tasks| ==> LastHandlerOk(tasks[j])
  {
  }
}
