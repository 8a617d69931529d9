/**
 * The life of an exporter and the ignored list over any sequence of requests: construction, Collect, RemoveHost
 * (exporter/exporter.go, exporter/partial_exporter.go, common/ignored.go).
 */
module Exporters {
  import opened Outcomes
  import opened Scrapes
  import Pools

  datatype IgnoredDevice = IgnoredDevice(name: string, endpoint: string, model: string, credentialProfile: string)

  type Ignored = map<string, IgnoredDevice>

  datatype Identity = Identity(host: string, model: string, credProfile: string)

  function DeviceOf(id: Identity): IgnoredDevice {
    IgnoredDevice(id.host, "https://" + id.host + "/redfish/v1/Chassis/", id.model, id.credProfile)
  }

  /** How planning ends: a refused credential on the first GET, any other failure, or tasks with their coming results. */
  datatype Probe = Refused | Fails | Plans(tasks: seq<TaskResult>)

  /** The value of an exporter; pool is None for the nil pool, ran says its channel is closed. */
  datatype Exp = Exp(id: Identity, pool: Option<seq<TaskResult>>, ran: bool, up: Option<nat>)

  /** NewExporter and NewPartialExporter; only the full one looks at the ignored list first. */
  function Construct(ignored: Ignored, id: Identity, full: bool, probe: Probe): (Ignored, Option<Exp>) {
    if full && id.host in ignored then (ignored, Some(Exp(id, None, false, Some(2))))
    else match probe
      case Refused => (ignored[id.host := DeviceOf(id)], Some(Exp(id, None, false, Some(2))))
      case Fails => (ignored, None)
      case Plans(tasks) => (ignored, Some(Exp(id, Some(tasks), false, None)))
  }

  /** The result of Collect, or a panic: a nil pool, or one whose channel is closed, cannot run. */
  datatype Collected = Collected(ignored: Ignored, exp: Exp, panicked: bool)

  function Collect(ignored: Ignored, e: Exp): Collected {
    if e.id.host in ignored then Collected(ignored, e.(up := Some(2)), false)
    else if e.pool.None? || e.ran then Collected(ignored, e.(up := None), true)
    else
      var v := VerdictOf(e.pool.value);
      Collected(if v.ignore then ignored[e.id.host := DeviceOf(e.id)] else ignored, e.(up := Some(v.up), ran := true), false)
  }

  // ---------------------------------------------------------------- the objects of the source

  /** The global ignored list. */
  class Registry {
    var devices: Ignored

    constructor ()
      ensures devices == map[]
    {
      devices := map[];
    }

    /** Decoding the request may fail; the source reports that and still deletes, under the empty name. */
    method RemoveHost(request: Option<string>)
      modifies this
      ensures devices == old(devices) - {if request.Some? then request.value else ""}
    {
      var h := if request.Some? then request.value else "";
      devices := devices - {h};
    }
  }

  class Exporter {
    const id: Identity
    var pool: Pools.Pool?<TaskResult>
    var up: Option<nat>

    ghost predicate Valid()
      reads this, pool
    {
      pool != null ==> pool.concurrency == 1
    }

    ghost function Value(): Exp
      reads this, pool
    {
      Exp(id, if pool == null then None else Some(Pools.Jobs(pool.Tasks)), pool != null && pool.closed, up)
    }

    constructor (id: Identity, plan: Option<seq<Pools.Task<TaskResult>>>)
      ensures Valid() && (pool != null ==> fresh(pool))
      ensures Value() == Exp(id, if plan.None? then None else Some(Pools.Jobs(plan.value)), false, if plan.None? then Some(2) else None)
    {
      this.id := id;
      if plan.Some? {
        var p := new Pools.Pool(plan.value, 1);
        pool, up := p, None;
      } else {
        pool, up := null, Some(2);
      }
    }

    /** NewExporter or NewPartialExporter, once planning has ended as the probe says. */
    static method Make(registry: Registry, id: Identity, full: bool, probe: Probe, tasks: seq<Pools.Task<TaskResult>>)
      returns (e: Exporter?)
      requires probe.Plans? ==> probe.tasks == Pools.Jobs(tasks)
      modifies registry
      ensures var (ignored, exp) := Construct(old(registry.devices), id, full, probe);
              && registry.devices == ignored
              && (exp.None? <==> e == null)
              && (e != null ==> e.Valid() && e.Value() == exp.value)
    {
      if full && id.host in registry.devices {
        e := new Exporter(id, None);
        return;
      }
      match probe {
        case Refused =>
          registry.devices := registry.devices[id.host := DeviceOf(id)];
          e := new Exporter(id, None);
        case Fails => e := null;
        case Plans(_) => e := new Exporter(id, Some(tasks));
      }
    }

    method CollectMetrics(registry: Registry) returns (panicked: bool)
      requires Valid()
      modifies this, registry, pool
      ensures Valid()
      ensures var c := Collect(old(registry.devices), old(Value()));
              panicked == c.panicked && registry.devices == c.ignored && Value() == c.exp
    {
      up := None;
      if id.host in registry.devices {
        up := Some(2);
        return false;
      }
      if pool == null {
        return true;
      }
      ghost var jobs := Pools.Jobs(pool.Tasks);
      var end := pool.Run();
      panicked := end.Crashed?;
      assert Pools.Jobs(pool.Tasks) == jobs;
      if panicked {
        return;
      }
      var finished := pool.Tasks;
      var results := seq(|finished|, i requires 0 <= i < |finished| && finished[i].result.Some? => finished[i].result.value);
      assert results == jobs;
      var v, _ := Scrape(results);
      if v.ignore {
        registry.devices := registry.devices[id.host := DeviceOf(id)];
      }
      up := Some(v.up);
    }
  }

  // ---------------------------------------------------------------- every sequence of requests

  datatype Event = New(id: Identity, full: bool, probe: Probe) | CollectAt(i: nat) | Remove(host: string)

  datatype World = World(ignored: Ignored, exps: seq<Exp>, panicked: bool)

  function Step(w: World, e: Event): World {
    match e
    case New(id, full, probe) =>
      var (ignored, exp) := Construct(w.ignored, id, full, probe);
      World(ignored, if exp.Some? then w.exps + [exp.value] else w.exps, false)
    case CollectAt(i) =>
      if i < |w.exps| then
        var c := Collect(w.ignored, w.exps[i]);
        World(c.ignored, w.exps[i := c.exp], c.panicked)
      else w
    case Remove(host) => World(w.ignored - {host}, w.exps, false)
  }

  function After(w: World, events: seq<Event>): World
    decreases |events|
  {
    if events == [] then w else After(Step(w, events[0]), events[1..])
  }

  const START := World(map[], [], false)

  /** After a Collect that does not panic, up is 2 exactly when the host is on the list. */
  lemma UpTwoMeansIgnored(w: World, i: nat)
    requires i < |w.exps|
    ensures var w' := Step(w, CollectAt(i));
            && !w'.panicked ==> (w'.exps[i].up == Some(2) <==> w'.exps[i].id.host in w'.ignored) && w'.exps[i].up.Some? && w'.exps[i].up.value <= 2
  {
  }

  /** A host enters the list on a refused credential only and leaves it by its own removal only. */
  lemma EntersAndLeaves(w: World, e: Event, host: string)
    ensures host !in w.ignored ==>
              (host in Step(w, e).ignored <==> (e.New? && e.id.host == host && e.probe.Refused?) || CollectRefused(w, e, host))
    ensures host in w.ignored ==> (host !in Step(w, e).ignored <==> e == Remove(host))
  {
  }

  /** A Collect of this host that runs its pool and finds a refused credential first. */
  ghost predicate CollectRefused(w: World, e: Event, host: string) {
    && e.CollectAt? && e.i < |w.exps|
    && w.exps[e.i].id.host == host && w.exps[e.i].pool.Some? && !w.exps[e.i].ran
    && VerdictOf(w.exps[e.i].pool.value).ignore
  }

  /** The entry of a refused host says where it was refused and with which profile, and no other entry changes. */
  lemma RefusedIsRecorded(ignored: Ignored, id: Identity, full: bool, probe: Probe, e: Exp)
    ensures var entry := IgnoredDevice(id.host, "https://" + id.host + "/redfish/v1/Chassis/", id.model, id.credProfile);
            && (probe.Refused? && !(full && id.host in ignored) ==> Construct(ignored, id, full, probe).0 == ignored[id.host := entry])
            && (!probe.Refused? || (full && id.host in ignored) ==> Construct(ignored, id, full, probe).0 == ignored)
            && (e.id == id && id.host !in ignored && e.pool.Some? && !e.ran && VerdictOf(e.pool.value).ignore ==>
                  Collect(ignored, e).ignored == ignored[id.host := entry])
  {
  }

  /** A Collect panics exactly when the host is not ignored and the exporter has no pool or ran it before. */
  lemma PanicsExactly(w: World, i: nat)
    requires i < |w.exps|
    ensures Step(w, CollectAt(i)).panicked <==> w.exps[i].id.host !in w.ignored && (w.exps[i].pool.None? || w.exps[i].ran)
    ensures w.exps[i].id.host in w.ignored ==> Step(w, CollectAt(i)).exps[i].ran == w.exps[i].ran
  {
  }

  lemma {:induction false} AfterSnoc(w: World, events: seq<Event>, e: Event)
    ensures After(w, events + [e]) == Step(After(w, events), e)
    decreases |events|
  {
    if events == [] {
      assert ([] + [e])[1..] == [];
    } else {
      assert (events + [e])[1..] == events[1..] + [e];
      AfterSnoc(Step(w, events[0]), events[1..], e);
    }
  }

  lemma {:induction false} AfterConcat(w: World, a: seq<Event>, b: seq<Event>)
    ensures After(w, a + b) == After(After(w, a), b)
    decreases |a|
  {
    if a == [] {
      assert [] + b == b;
    } else {
      assert (a + b)[1..] == a[1..] + b;
      AfterConcat(Step(w, a[0]), a[1..], b);
    }
  }

  /** The world in which event k of a sequence happens. */
  function Before(w: World, events: seq<Event>, k: nat): World
    requires k <= |events|
  {
    After(w, events[..k])
  }

  /** An event that finds the host's credential refused: it puts the host on the list unless it is there. */
  ghost predicate Puts(w: World, e: Event, host: string) {
    (e.New? && e.id.host == host && e.probe.Refused?) || CollectRefused(w, e, host)
  }

  /** Some event k is of the kind, and no later one undoes it. */
  ghost predicate PutForGood(w: World, events: seq<Event>, host: string) {
    exists k :: 0 <= k < |events| && PutAt(w, events, host, k)
  }

  ghost predicate PutAt(w: World, events: seq<Event>, host: string, k: nat)
    requires k < |events|
  {
    Puts(Before(w, events, k), events[k], host) && forall m :: k < m < |events| ==> events[m] != Remove(host)
  }

  ghost predicate RemovedForGood(w: World, events: seq<Event>, host: string) {
    exists k :: 0 <= k < |events| && RemovedAt(w, events, host, k)
  }

  ghost predicate RemovedAt(w: World, events: seq<Event>, host: string, k: nat)
    requires k < |events|
  {
    events[k] == Remove(host) && forall m :: k < m < |events| ==> !Puts(Before(w, events, m), events[m], host)
  }

  /** One more event: a removal settles the matter, a refused credential undoes it, anything else leaves it. */
  lemma RemovedSnoc(w: World, events: seq<Event>, e: Event, host: string)
    ensures RemovedForGood(w, events + [e], host)
            <==> e == Remove(host) || (RemovedForGood(w, events, host) && !Puts(After(w, events), e, host))
  {
    var longer, n := events + [e], |events|;
    assert forall k :: 0 <= k <= n ==> longer[..k] == events[..k];
    assert events[..n] == events;
    if e == Remove(host) {
      assert RemovedAt(w, longer, host, n);
    }
    if RemovedForGood(w, longer, host) && e != Remove(host) {
      var k :| 0 <= k < |longer| && RemovedAt(w, longer, host, k);
      assert !Puts(Before(w, longer, n), longer[n], host);
      assert RemovedAt(w, events, host, k) by {
        forall m | k < m < n ensures !Puts(Before(w, events, m), events[m], host) {
          assert !Puts(Before(w, longer, m), longer[m], host);
        }
      }
    }
    if RemovedForGood(w, events, host) && !Puts(After(w, events), e, host) {
      var k :| 0 <= k < n && RemovedAt(w, events, host, k);
      assert RemovedAt(w, longer, host, k) by {
        forall m | k < m < |longer| ensures !Puts(Before(w, longer, m), longer[m], host) {
          if m < n {
            assert !Puts(Before(w, events, m), events[m], host);
          }
        }
      }
    }
  }

  lemma PutSnoc(w: World, events: seq<Event>, e: Event, host: string)
    ensures PutForGood(w, events + [e], host)
            <==> Puts(After(w, events), e, host) || (PutForGood(w, events, host) && e != Remove(host))
  {
    var longer, n := events + [e], |events|;
    assert forall k :: 0 <= k <= n ==> longer[..k] == events[..k];
    assert events[..n] == events;
    if Puts(After(w, events), e, host) {
      assert PutAt(w, longer, host, n);
    }
    if PutForGood(w, longer, host) && !Puts(After(w, events), e, host) {
      var k :| 0 <= k < |longer| && PutAt(w, longer, host, k);
      assert longer[n] != Remove(host);
      assert PutAt(w, events, host, k) by {
        forall m | k < m < n ensures events[m] != Remove(host) {
          assert longer[m] != Remove(host);
        }
      }
    }
    if PutForGood(w, events, host) && e != Remove(host) {
      var k :| 0 <= k < n && PutAt(w, events, host, k);
      assert PutAt(w, longer, host, k) by {
        forall m | k < m < |longer| ensures longer[m] != Remove(host) {
          if m < n {
            assert events[m] != Remove(host);
          }
        }
      }
    }
  }

  /**
   * Main result, over every sequence of requests: a host that was on the list is off it exactly when some request
   * removed it and none after that found its credential refused; a host that was off it is on it exactly when some
   * request found its credential refused and none after that removed it.
   */
  lemma {:induction false} ListedExactly(w: World, events: seq<Event>, host: string)
    ensures host in w.ignored ==> (host !in After(w, events).ignored <==> RemovedForGood(w, events, host))
    ensures host !in w.ignored ==> (host in After(w, events).ignored <==> PutForGood(w, events, host))
    decreases |events|
  {
    if events != [] {
      var n := |events| - 1;
      var front, e := events[..n], events[n];
      assert events == front + [e];
      ListedExactly(w, front, host);
      AfterSnoc(w, front, e);
      RemovedSnoc(w, front, e, host);
      PutSnoc(w, front, e, host);
      StepListed(After(w, front), e, host);
    }
  }

  lemma StepListed(w: World, e: Event, host: string)
    ensures host in Step(w, e).ignored <==> (host in w.ignored && e != Remove(host)) || Puts(w, e, host)
  {
    EntersAndLeaves(w, e, host);
  }

  // ---------------------------------------------------------------- one exporter, from its construction on

  /** Collect number k of exporter n finds its host off the list. */
  ghost predicate CollectedAt(w: World, events: seq<Event>, n: nat, host: string, k: nat)
    requires k < |events|
  {
    events[k] == CollectAt(n) && host !in Before(w, events, k).ignored
  }

  /** An exporter keeps its identity and pool; the pool has run exactly when some Collect found the host off the list. */
  lemma {:induction false} ExporterAfter(w: World, events: seq<Event>, n: nat)
    requires n < |w.exps| && !w.exps[n].ran
    ensures var w' := After(w, events);
            && n < |w'.exps| && w'.exps[n].id == w.exps[n].id && w'.exps[n].pool == w.exps[n].pool
            && (w'.exps[n].ran <==> w.exps[n].pool.Some? && exists k :: 0 <= k < |events| && CollectedAt(w, events, n, w.exps[n].id.host, k))
    decreases |events|
  {
    if events != [] {
      var m, host := |events| - 1, w.exps[n].id.host;
      var front, e := events[..m], events[m];
      assert events == front + [e];
      ExporterAfter(w, front, n);
      AfterSnoc(w, front, e);
      assert forall k :: 0 <= k <= m ==> events[..k] == front[..k];
      assert front[..m] == front;
      assert forall k :: 0 <= k < m ==> (CollectedAt(w, events, n, host, k) <==> CollectedAt(w, front, n, host, k));
      assert CollectedAt(w, events, n, host, m) <==> e == CollectAt(n) && host !in After(w, front).ignored;
    }
  }

  /**
   * Main result, for the exporter that a request constructs, after any requests before and any requests in between.
   * Without a pool, its Collect panics exactly when its host was removed since and not put back. With a pool, exactly
   * when an earlier Collect ran the pool and the host is off the list, which it is unless some request since found the
   * credential refused and none after that removed the host, or it was there from the start and stayed.
   */
  lemma CollectPanicsExactly(before: seq<Event>, id: Identity, full: bool, probe: Probe, after: seq<Event>)
    requires !probe.Fails? || (full && id.host in After(START, before).ignored)
    ensures var w0 := After(START, before);
            var w1, n := Step(w0, New(id, full, probe)), |w0.exps|;
            var poolless := (full && id.host in w0.ignored) || probe.Refused?;
            var w2 := After(START, before + [New(id, full, probe)] + after);
            && n < |w2.exps| && w2.exps[n].id == id
            && (Step(w2, CollectAt(n)).panicked <==>
                  if poolless then RemovedForGood(w1, after, id.host)
                  else
                    && (exists k :: 0 <= k < |after| && CollectedAt(w1, after, n, id.host, k))
                    && (if id.host in w0.ignored then RemovedForGood(w1, after, id.host) else !PutForGood(w1, after, id.host)))
  {
    var w0, e := After(START, before), New(id, full, probe);
    var w1, n := Step(w0, e), |w0.exps|;
    AfterConcat(START, before + [e], after);
    AfterSnoc(START, before, e);
    ExporterAfter(w1, after, n);
    ListedExactly(w1, after, id.host);
  }

  /** In particular a first Collect panics only for an exporter without a pool, and only if its host was removed since. */
  lemma FirstCollectPanicsOnlyAfterRemoval(before: seq<Event>, id: Identity, full: bool, probe: Probe, after: seq<Event>)
    requires !probe.Fails? || (full && id.host in After(START, before).ignored)
    requires CollectAt(|After(START, before).exps|) !in after
    ensures var w0 := After(START, before);
            var w1, n := Step(w0, New(id, full, probe)), |w0.exps|;
            var w2 := After(START, before + [New(id, full, probe)] + after);
            && n < |w2.exps|
            && (Step(w2, CollectAt(n)).panicked <==>
                  ((full && id.host in w0.ignored) || probe.Refused?) && RemovedForGood(w1, after, id.host))
            && (Step(w2, CollectAt(n)).panicked ==> Remove(id.host) in after)
  {
    CollectPanicsExactly(before, id, full, probe, after);
  }

  /** A Collect directly after construction never panics, in any world. */
  lemma ConstructThenCollect(w: World, id: Identity, full: bool, probe: Probe)
    requires |Step(w, New(id, full, probe)).exps| == |w.exps| + 1
    ensures var w' := Step(w, New(id, full, probe)); !Step(w', CollectAt(|w.exps|)).panicked
  {
  }

  /** A removal between the two does make it panic: the pool of an ignored host is nil. */
  lemma RemovalBetweenPanics(w: World, id: Identity, probe: Probe)
    requires id.host in w.ignored
    ensures Step(Step(Step(w, New(id, true, probe)), Remove(id.host)), CollectAt(|w.exps|)).panicked
  {
  }

  /** Once on the list, a host stays there as long as no request removes it. */
  lemma StaysIgnored(w: World, events: seq<Event>, host: string)
    requires host in w.ignored && Remove(host) !in events
    ensures host in After(w, events).ignored
  {
    ListedExactly(w, events, host);
  }
}
