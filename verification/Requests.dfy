/** What the planners make of each answer, and which tasks they list, told from the answers alone. */
module Requests {
  import opened Outcomes
  import opened Texts
  import opened Urls
  import opened Plans
  import Endpoints
  import Drives

  // ---------------------------------------------------------------- collections and managers

  /** A collection yields its members in order, each with its slash; an empty member is a panic. */
  lemma MembersExactly(api: Api, url: string)
    ensures var got := api.collection(url);
            && (got.Failed? ==> MemberUrls(api, url) == Err(got.error))
            && (got.Got? && "" in got.body ==> MemberUrls(api, url).Panic?)
            && (got.Got? && "" !in got.body ==>
                  && MemberUrls(api, url).Ok? && |MemberUrls(api, url).value| == |got.body|
                  && forall i :: 0 <= i < |got.body| ==> Slashes(got.body[i], MemberUrls(api, url).value[i]))
  {
    var got := api.collection(url);
    if got.Got? && "" !in got.body {
      forall i | 0 <= i < |got.body| ensures Slashes(got.body[i], MemberUrls(api, url).value[i]) {
        assert got.body[i] in got.body;
      }
    }
  }

  /** The only manager; of several, the first whose name lacks CIMC, or none if all names have it. */
  ghost predicate Picks(members: seq<string>, manager: string) {
    && (|members| == 0 ==> manager == "")
    && (|members| == 1 ==> manager == members[0])
    && (|members| > 1 ==>
          || (exists i :: 0 <= i < |members| && PicksAt(members, manager, i))
          || (manager == "" && forall h :: 0 <= h < |members| ==> Contains(members[h], "CIMC")))
  }

  predicate PicksAt(members: seq<string>, manager: string, i: nat)
    requires i < |members|
  {
    && manager == members[i] && !Contains(members[i], "CIMC")
    && forall h :: 0 <= h < i ==> Contains(members[h], "CIMC")
  }

  lemma {:induction false} FirstPicked(members: seq<string>)
    ensures var m := FirstNotCimc(members);
            || (exists i :: 0 <= i < |members| && PicksAt(members, m, i))
            || (m == "" && forall h :: 0 <= h < |members| ==> Contains(members[h], "CIMC"))
  {
    if members != [] {
      if !Contains(members[0], "CIMC") {
        assert PicksAt(members, members[0], 0);
      } else {
        var rest, m := members[1..], FirstNotCimc(members);
        FirstPicked(rest);
        if i :| 0 <= i < |rest| && PicksAt(rest, m, i) {
          assert PicksAt(members, m, i + 1) by {
            forall h | 0 <= h < i + 1 ensures Contains(members[h], "CIMC") {
              if h > 0 {
                assert members[h] == rest[h - 1];
              }
            }
          }
        } else {
          forall h | 0 <= h < |members| ensures Contains(members[h], "CIMC") {
            if h > 0 {
              assert members[h] == rest[h - 1];
            }
          }
        }
      }
    }
  }

  lemma ManagerPicked(members: seq<string>)
    ensures Picks(members, ChosenManager(members))
  {
    if |members| > 1 {
      FirstPicked(members);
    }
  }

  /** The manager of a full plan. */
  lemma FullManager(api: Api, cfg: Config, chassis: seq<string>, f: Facts, virtual: seq<string>)
    requires FullFacts(api, cfg, chassis) == Ok((f, virtual))
    ensures var members := MemberUrls(api, cfg.url + cfg.uri + "/Managers/");
            members.Ok? && members.value != [] && Picks(members.value, f.manager)
  {
    FullFactsParts(api, cfg, chassis, f, virtual);
    FullRestParts(api, cfg, ChosenManager(Managers(api, cfg).value), f.sys, f.resp, f);
    ManagerPicked(Managers(api, cfg).value);
  }

  lemma AssembledManager(q: Queries, c: set<Component>, f: Facts)
    requires Assemble(q, c) == Ok(f)
    ensures NeedsManager(c) ==> q.managers.Ok? && f.manager == ChosenManager(q.managers.value)
    ensures !NeedsManager(c) ==> f.manager == ""
  {
  }

  /** The manager of a partial plan: sought for firmware and system only. */
  lemma PartialManager(api: Api, cfg: Config, chassis: seq<string>, c: set<Component>, f: Facts)
    requires PartialFacts(api, cfg, chassis, c) == Ok(f)
    ensures CFirmware in c || CSystem in c ==>
              var members := MemberUrls(api, cfg.url + cfg.uri + "/Managers/"); members.Ok? && Picks(members.value, f.manager)
    ensures CFirmware !in c && CSystem !in c ==> f.manager == ""
  {
    var q := QueriesOn(api, cfg, if NeedsSystems(c) then Context(api, cfg, chassis) else Ok((Endpoints.NO_ENDPOINTS, NO_SYSTEM)));
    assert q.managers == MemberUrls(api, cfg.url + cfg.uri + "/Managers/");
    AssembledManager(q, c, f);
    if NeedsManager(c) {
      ManagerPicked(q.managers.value);
    }
  }

  /** With one CIMC and one other manager, the other one. */
  lemma OtherThanCimc(members: seq<string>)
    requires members == ["/CIMC/", "/1/"]
    ensures ChosenManager(members) == "/1/"
  {
    var cimc, one := members[0], members[1];
    assert cimc[1..] == "CIMC/" && "CIMC" <= cimc[1..];
    assert !Contains(one, "CIMC");
    assert members[1..] == [one];
    assert FirstNotCimc([one]) == one;
  }

  // ---------------------------------------------------------------- ignored hosts

  /** A plan says that the host is ignored exactly if it was on the list or the first GET was refused. */
  lemma IgnoredExactly(api: Api, cfg: Config, ignored: bool, c: set<Component>)
    ensures var first := api.collection(cfg.url + cfg.uri + "/Chassis/");
            && (FullPlan(api, cfg, ignored) == Ok(IgnoredHost) <==> ignored || first == Failed(InvalidCredential))
            && (PartialPlan(api, cfg, c) == Ok(IgnoredHost) <==> first == Failed(InvalidCredential))
  {
  }

  /** Any other failure of the first GET ends both plans; else each ends as what it learns. */
  lemma PlansEndExactly(api: Api, cfg: Config, c: set<Component>)
    ensures var first := api.collection(cfg.url + cfg.uri + "/Chassis/");
            var full, partial := FullPlan(api, cfg, false), PartialPlan(api, cfg, c);
            && (first == Failed(Other) ==> full == Err(Other) && partial == Err(Other))
            && (first.Got? && "" in first.body ==> full.Panic? && partial.Panic?)
            && (first.Got? && "" !in first.body ==>
                  var facts, some := FullFacts(api, cfg, Slashed(first.body)), PartialFacts(api, cfg, Slashed(first.body), c);
                  && (facts.Ok? ==> full == Ok(Planned(FullTasks(cfg.url, facts.value.0, facts.value.1))))
                  && (!facts.Ok? ==> SameFailure(full, facts))
                  && (some.Ok? ==> partial.Ok? && partial.value.Planned?)
                  && (!some.Ok? ==> SameFailure(partial, some)))
  {
  }

  // ---------------------------------------------------------------- volumes and virtual drives: how the loops end

  /** Step i is the first that does not go well, and it fails with this error. */
  predicate FailsAt(steps: seq<Outcome<bool>>, i: nat, e: Error)
    requires i < |steps|
  {
    steps[i] == Err(e) && forall h :: 0 <= h < i ==> steps[h].Ok?
  }

  ghost predicate FailsWith(steps: seq<Outcome<bool>>, e: Error) {
    exists i :: 0 <= i < |steps| && FailsAt(steps, i, e)
  }

  /** A loop that succeeds exactly if all its steps go well, and fails exactly as the first that does not. */
  ghost predicate EndsAs<T>(r: Outcome<T>, steps: seq<Outcome<bool>>) {
    && (r.Ok? <==> forall h :: 0 <= h < |steps| ==> steps[h].Ok?)
    && (forall e :: FailsWith(steps, e) <==> r == Err(e))
  }

  lemma FailsWithCons(steps: seq<Outcome<bool>>, e: Error)
    requires steps != []
    ensures FailsWith(steps, e) <==> steps[0] == Err(e) || (steps[0].Ok? && FailsWith(steps[1..], e))
  {
    var rest := steps[1..];
    if i :| 0 <= i < |steps| && FailsAt(steps, i, e) {
      if i > 0 {
        assert FailsAt(rest, i - 1, e);
      }
    }
    if steps[0] == Err(e) {
      assert FailsAt(steps, 0, e);
    }
    if steps[0].Ok? && FailsWith(rest, e) {
      var i :| 0 <= i < |rest| && FailsAt(rest, i, e);
      forall h | 0 <= h < i + 1 ensures steps[h].Ok? {
        if h > 0 {
          assert steps[h] == rest[h - 1];
        }
      }
      assert FailsAt(steps, i + 1, e);
    }
  }

  lemma EndsAsCons<T>(r: Outcome<T>, steps: seq<Outcome<bool>>)
    requires steps != []
    requires if steps[0].Ok? then EndsAs(r, steps[1..]) else if steps[0].Err? then r == Err(steps[0].error) else r.Panic?
    ensures EndsAs(r, steps)
  {
    forall e ensures FailsWith(steps, e) <==> r == Err(e) {
      FailsWithCons(steps, e);
    }
    if steps[0].Ok? && r.Ok? {
      forall h | 0 <= h < |steps| ensures steps[h].Ok? {
        if h > 0 {
          assert steps[h] == steps[1..][h - 1];
        }
      }
    }
    if forall h :: 0 <= h < |steps| ==> steps[h].Ok? {
      assert forall h :: 0 <= h < |steps| - 1 ==> steps[1..][h] == steps[h + 1];
      assert steps[0].Ok?;
    }
  }

  /** Reading the volumes of a controller: an empty volume is a panic, with or without a pattern. */
  function ControllerStep(api: Api, cfg: Config, controller: string): Outcome<bool> {
    var got := api.system(cfg.url + controller);
    if got.Failed? then Err(got.error) else if "" in got.body.volumes then Panic else Ok(true)
  }

  function ControllerSteps(api: Api, cfg: Config, controllers: seq<string>): seq<Outcome<bool>> {
    seq(|controllers|, i requires 0 <= i < |controllers| => ControllerStep(api, cfg, controllers[i]))
  }

  lemma {:induction false} VolumesEndExactly(api: Api, cfg: Config, controllers: seq<string>, acc: seq<string>)
    ensures EndsAs(Volumes(api, cfg, controllers, acc), ControllerSteps(api, cfg, controllers))
    decreases |controllers|
  {
    if controllers != [] {
      var steps := ControllerSteps(api, cfg, controllers);
      assert steps[1..] == ControllerSteps(api, cfg, controllers[1..]);
      if steps[0].Ok? {
        var volumes := api.system(cfg.url + controllers[0]).body.volumes;
        VolumesEndExactly(api, cfg, controllers[1..], if cfg.drive.Some? then Endpoints.AddLinks(acc, volumes, cfg.drive).value else acc);
      }
      EndsAsCons(Volumes(api, cfg, controllers, acc), steps);
    }
  }

  function VolumeStep(api: Api, cfg: Config, volume: string): Outcome<bool> {
    var got := api.collection(cfg.url + volume);
    if got.Failed? then Err(got.error) else if "" in got.body then Panic else Ok(true)
  }

  function VolumeSteps(api: Api, cfg: Config, volumes: seq<string>): seq<Outcome<bool>> {
    seq(|volumes|, i requires 0 <= i < |volumes| => VolumeStep(api, cfg, volumes[i]))
  }

  lemma {:induction false} VirtualDrivesEndExactly(api: Api, cfg: Config, volumes: seq<string>, acc: seq<string>)
    ensures EndsAs(VirtualDrives(api, cfg, volumes, acc), VolumeSteps(api, cfg, volumes))
    decreases |volumes|
  {
    if volumes != [] {
      var steps := VolumeSteps(api, cfg, volumes);
      assert steps[1..] == VolumeSteps(api, cfg, volumes[1..]);
      if steps[0].Ok? {
        VirtualDrivesEndExactly(api, cfg, volumes[1..], Merge(acc, VirtualOf(MemberUrls(api, cfg.url + volumes[0]).value)));
      }
      EndsAsCons(VirtualDrives(api, cfg, volumes, acc), steps);
    }
  }

  // ---------------------------------------------------------------- how planning ends

  /** The same failure, whatever the successes would hold. */
  ghost predicate SameFailure<A, B>(a: Outcome<A>, b: Outcome<B>) {
    (a.Err? && b.Err? && a.error == b.error) || (a.Panic? && b.Panic?)
  }

  /**
   * Full planning after the chassis list: every query in turn, and the first that fails ends it. No manager and no
   * system are failures too.
   */
  lemma FullFactsEndExactly(api: Api, cfg: Config, chassis: seq<string>)
    ensures var r, managers, sys := FullFacts(api, cfg, chassis), MemberUrls(api, cfg.url + cfg.uri + "/Managers/"), SystemsOf(api, cfg, chassis);
            && (!managers.Ok? ==> SameFailure(r, managers))
            && (managers == Ok([]) ==> r == Err(Other))
            && (managers.Ok? && managers.value != [] && !sys.Ok? ==> SameFailure(r, sys))
            && (managers.Ok? && managers.value != [] && sys.Ok? ==>
                  var virtual := VirtualUrls(api, cfg, sys.value);
                  && (!virtual.Ok? ==> SameFailure(r, virtual))
                  && (virtual.Ok? && sys.value.systems == [] ==> r == Err(Other))
                  && (virtual.Ok? && sys.value.systems != [] ==>
                        var got := api.system(cfg.url + sys.value.systems[0]);
                        && (got.Failed? ==> r == Err(got.error))
                        && (got.Got? ==>
                              var rest := FullRest(api, cfg, ChosenManager(managers.value), sys.value, got.body);
                              (r.Ok? <==> rest.Ok?) && (!rest.Ok? ==> SameFailure(r, rest)))))
  {
  }

  /** The queries that follow the first system: memory, processors, drives and inventory, each fatal in a full plan. */
  lemma FullRestEndsExactly(api: Api, cfg: Config, manager: string, sys: Endpoints.SystemEndpoints, resp: System)
    requires sys.systems != []
    ensures var r, memory := FullRest(api, cfg, manager, sys, resp), api.collection(cfg.url + MemoryUrl(resp));
            var processors := api.collection(cfg.url + sys.systems[0] + "Processors/");
            var drives, inventory := DrivesOf(api, cfg, sys, resp), FullInventory(api, cfg, resp);
            && (MemoryUrl(resp) != "" && memory.Failed? ==> r == Err(memory.error))
            && (MemoryUrl(resp) == "" || memory.Got? ==>
                  && (processors.Failed? ==> r == Err(processors.error))
                  && (processors.Got? && !drives.Ok? ==> SameFailure(r, drives))
                  && (processors.Got? && drives.Ok? && !inventory.Ok? ==> SameFailure(r, inventory))
                  && (processors.Got? && drives.Ok? && inventory.Ok? ==>
                        && r.Ok? && r.value.dimms == (if MemoryUrl(resp) != "" then memory.body else [])
                        && r.value.processors == processors.body && r.value.drives == drives.value && r.value.inventory == inventory.value))
  {
  }

  /** The endpoints and the first system, or neither when firmware alone is asked for. */
  lemma ContextExactly(api: Api, cfg: Config, chassis: seq<string>)
    ensures var r, sys := Context(api, cfg, chassis), SystemsOf(api, cfg, chassis);
            && (!sys.Ok? ==> SameFailure(r, sys))
            && (sys.Ok? && sys.value.systems == [] ==> r == Ok((sys.value, NO_SYSTEM)))
            && (sys.Ok? && sys.value.systems != [] ==>
                  var got := api.system(cfg.url + sys.value.systems[0]);
                  r == if got.Failed? then Err(got.error) else Ok((sys.value, got.body)))
  {
  }

  function OrEmpty(got: Fetched<seq<string>>): seq<string> {
    if got.Got? then got.body else []
  }

  /** What is learned once the endpoints and the first system are known. */
  ghost predicate LearnsExactly(api: Api, cfg: Config, c: set<Component>, sys: Endpoints.SystemEndpoints, resp: System, r: Outcome<Facts>) {
    var drives, inventory := DrivesOf(api, cfg, sys, resp), PartialInventory(api, cfg, resp);
    var walked := CStorageController in c || CDrives in c;
    && (walked && !drives.Ok? ==> SameFailure(r, drives))
    && ((walked ==> drives.Ok?) && CFirmware in c && !inventory.Ok? ==> SameFailure(r, inventory))
    && ((walked ==> drives.Ok?) && (CFirmware in c ==> inventory.Ok?) ==>
          && r.Ok? && r.value.sys == sys && r.value.resp == resp
          && r.value.drives == (if walked then drives.value else Drives.NO_DRIVES)
          && r.value.inventory == (if CFirmware in c then inventory.value else [])
          && r.value.dimms == (if CMemory in c && sys.systems != [] && MemoryUrl(resp) != ""
                               then OrEmpty(api.collection(cfg.url + MemoryUrl(resp))) else [])
          && r.value.processors == (if CProcessor in c && sys.systems != []
                                    then OrEmpty(api.collection(cfg.url + sys.systems[0] + "Processors/")) else []))
  }

  lemma AssembleLearns(api: Api, cfg: Config, c: set<Component>, sys: Endpoints.SystemEndpoints, resp: System, q: Queries)
    requires q == QueriesOn(api, cfg, Ok((sys, resp))) && (NeedsManager(c) ==> q.managers.Ok?)
    ensures LearnsExactly(api, cfg, c, sys, resp, Assemble(q, c))
  {
    assert q.drives == DrivesOf(api, cfg, sys, resp) && q.inventory == PartialInventory(api, cfg, resp);
    assert CMemory in c && sys.systems != [] && MemoryUrl(resp) != "" ==>
        OrNothing(q.dimms) == OrEmpty(api.collection(cfg.url + MemoryUrl(resp)));
    assert CProcessor in c && sys.systems != [] ==>
        OrNothing(q.processors) == OrEmpty(api.collection(cfg.url + sys.systems[0] + "Processors/"));
    LearnsFrom(q, c);
  }

  /** Assembling, query by query. */
  lemma LearnsFrom(q: Queries, c: set<Component>)
    requires q.context.Ok? && (NeedsManager(c) ==> q.managers.Ok?)
    ensures var r, walked := Assemble(q, c), CStorageController in c || CDrives in c;
            && (walked && !q.drives.Ok? ==> SameFailure(r, q.drives))
            && ((walked ==> q.drives.Ok?) && CFirmware in c && !q.inventory.Ok? ==> SameFailure(r, q.inventory))
            && ((walked ==> q.drives.Ok?) && (CFirmware in c ==> q.inventory.Ok?) ==>
                  && r.Ok? && r.value.sys == q.context.value.0 && r.value.resp == q.context.value.1
                  && r.value.drives == (if walked then q.drives.value else Drives.NO_DRIVES)
                  && r.value.inventory == (if CFirmware in c then q.inventory.value else [])
                  && r.value.dimms == (if CMemory in c then OrNothing(q.dimms) else [])
                  && r.value.processors == (if CProcessor in c then OrNothing(q.processors) else []))
  {
  }

  lemma AssembleFails(q: Queries, c: set<Component>)
    ensures NeedsManager(c) && !q.managers.Ok? ==> SameFailure(Assemble(q, c), q.managers)
    ensures (NeedsManager(c) ==> q.managers.Ok?) && !q.context.Ok? ==> SameFailure(Assemble(q, c), q.context)
  {
  }

  /** The endpoints and the first system if any component but firmware is asked for. */
  function ContextFor(api: Api, cfg: Config, chassis: seq<string>, c: set<Component>): Outcome<(Endpoints.SystemEndpoints, System)> {
    if exists x :: x in c && x != CFirmware then Context(api, cfg, chassis) else Ok((Endpoints.NO_ENDPOINTS, NO_SYSTEM))
  }

  /**
   * Partial planning after the chassis list. Only what the components need is asked for and can end it; a failure to
   * list memory or processors is passed over.
   */
  lemma PartialFactsEndExactly(api: Api, cfg: Config, chassis: seq<string>, c: set<Component>, context: Outcome<(Endpoints.SystemEndpoints, System)>)
    requires context == ContextFor(api, cfg, chassis, c)
    ensures var r, managers := PartialFacts(api, cfg, chassis, c), MemberUrls(api, cfg.url + cfg.uri + "/Managers/");
            var asked := CFirmware in c || CSystem in c;
            && (asked && !managers.Ok? ==> SameFailure(r, managers))
            && ((asked ==> managers.Ok?) && !context.Ok? ==> SameFailure(r, context))
            && ((asked ==> managers.Ok?) && context.Ok? ==> LearnsExactly(api, cfg, c, context.value.0, context.value.1, r))
  {
    var q := QueriesOn(api, cfg, context);
    assert PartialFacts(api, cfg, chassis, c) == Assemble(q, c);
    assert q.managers == MemberUrls(api, cfg.url + cfg.uri + "/Managers/") && q.context == context;
    AssembleFails(q, c);
    if context.Ok? && (NeedsManager(c) ==> q.managers.Ok?) {
      AssembleLearns(api, cfg, c, context.value.0, context.value.1, q);
    }
  }

  /** The firmware tasks of a full plan. The limit of 75 and the pattern decide whether listed members count at all. */
  lemma FullInventoryExactly(api: Api, cfg: Config, resp: System, own: string)
    requires own == FirmwareInventoryUrl(resp)
    ensures var r, root := FullInventory(api, cfg, resp), api.system(cfg.url + cfg.uri);
            && (own != "" ==> r == Ok([Task(cfg.url + own, [FirmwareInventory])]))
            && (own == "" && root.Failed? ==> r == Err(root.error))
            && (own == "" && root.Got? && root.body.updateService == "" ==> r == Ok([]))
            && (own == "" && root.Got? && root.body.updateService != "" ==>
                  var service := api.system(cfg.url + root.body.updateService);
                  && (service.Failed? ==> r == Err(service.error))
                  && (service.Got? ==>
                        var links := LinksOf(api, cfg, service.body);
                        && (!links.Ok? ==> SameFailure(r, links))
                        && (links.Ok? && (|links.value| >= 75 || cfg.firmware.None?) ==> r == Ok([]))
                        && (links.Ok? && |links.value| < 75 && cfg.firmware.Some? ==>
                              r.Ok? && exists kept, at :: Unmatched(links.value, cfg.firmware, kept, at) && AreTasks(r.value, cfg.url, kept))))
  {
    var root := api.system(cfg.url + cfg.uri);
    if own == "" && root.Got? && root.body.updateService != "" {
      var service := api.system(cfg.url + root.body.updateService);
      if service.Got? && LinksOf(api, cfg, service.body).Ok? {
        var links := LinksOf(api, cfg, service.body).value;
        var at := FilteredExactly(links, cfg.firmware);
        assert Unmatched(links, cfg.firmware, Filtered(links, cfg.firmware), at);
      }
    }
  }

  /**
   * The firmware tasks of a partial plan: a failure to read the root or the update service lists nothing, and without a
   * pattern every member counts.
   */
  lemma PartialInventoryExactly(api: Api, cfg: Config, resp: System, own: string)
    requires own == FirmwareInventoryUrl(resp)
    ensures var r, root := PartialInventory(api, cfg, resp), api.system(cfg.url + cfg.uri);
            && (own != "" ==> r == Ok([Task(cfg.url + own, [FirmwareInventory])]))
            && (own == "" && (root.Failed? || root.body.updateService == "") ==> r == Ok([]))
            && (own == "" && root.Got? && root.body.updateService != "" ==>
                  var service := api.system(cfg.url + root.body.updateService);
                  && (service.Failed? ==> r == Ok([]))
                  && (service.Got? ==>
                        var links := LinksOf(api, cfg, service.body);
                        && (!links.Ok? ==> SameFailure(r, links))
                        && (links.Ok? && |links.value| >= 75 ==> r == Ok([]))
                        && (links.Ok? && |links.value| < 75 ==>
                              r.Ok? && exists kept, at :: Unmatched(links.value, cfg.firmware, kept, at) && AreTasks(r.value, cfg.url, kept))))
  {
    var root := api.system(cfg.url + cfg.uri);
    if own == "" && root.Got? && root.body.updateService != "" {
      var service := api.system(cfg.url + root.body.updateService);
      if service.Got? && LinksOf(api, cfg, service.body).Ok? {
        var links := LinksOf(api, cfg, service.body).value;
        var at := FilteredExactly(links, cfg.firmware);
        assert Unmatched(links, cfg.firmware, Filtered(links, cfg.firmware), at);
      }
    }
  }

  /** An update service with one link stands for the members of that collection, with several for the links themselves. */
  function LinksOf(api: Api, cfg: Config, service: System): Outcome<seq<string>> {
    if |service.firmwareInventory| != 1 then Ok(service.firmwareInventory)
    else MemberUrls(api, cfg.url + service.firmwareInventory[0])
  }

  predicate AreTasks(tasks: seq<Task>, url: string, links: seq<string>) {
    |tasks| == |links| && forall i :: 0 <= i < |tasks| ==> tasks[i] == Task(url + links[i], [FirmwareInventory])
  }

  // ---------------------------------------------------------------- the tasks

  /** A task that fetches one of these links with these handlers. */
  predicate Fetches(t: Task, url: string, links: seq<string>, handlers: seq<Metric>) {
    t.handlers == handlers && exists i :: 0 <= i < |links| && t.url == url + links[i]
  }

  lemma TasksForExactly(url: string, links: seq<string>, handlers: seq<Metric>, t: Task)
    ensures t in TasksFor(url, links, handlers) <==> Fetches(t, url, links, handlers)
  {
    var tasks := TasksFor(url, links, handlers);
    if i :| 0 <= i < |links| && t.url == url + links[i] && t.handlers == handlers {
      assert tasks[i] == t;
    }
  }

  /** The tasks that both planners make from the same facts, by component. */
  predicate Gathers(t: Task, url: string, f: Facts, c: Component) {
    match c
    case CSystem => f.sys.systems != [] && t == Task(url + f.sys.systems[0], [MemorySummary, StorageBattery])
    case CPower => Fetches(t, url, f.sys.power, [Power])
    case CThermal => Fetches(t, url, f.sys.thermal, [Thermal])
    case CMemory => Fetches(t, url, f.dimms, [Memory])
    case CProcessor => Fetches(t, url, f.processors, [Processor])
    case CStorageController =>
      Fetches(t, url, f.sys.storageController, [StorageController]) || Fetches(t, url, f.drives.arrayControllers, [StorageController])
    case CDrives =>
      || Fetches(t, url, f.drives.logical, [LogicalDrive])
      || Fetches(t, url, f.sys.drives, [UnknownDrive]) || Fetches(t, url, f.drives.physical, [UnknownDrive])
    case CFirmware => (f.manager != "" && t == Task(url + f.manager, [Firmware, IloSelfTest])) || t in f.inventory
  }

  lemma GroupExactly(url: string, f: Facts, c: Component, t: Task)
    ensures t in Group(url, f, c) <==> Gathers(t, url, f, c)
  {
    match c {
      case CPower => TasksForExactly(url, f.sys.power, [Power], t);
      case CThermal => TasksForExactly(url, f.sys.thermal, [Thermal], t);
      case CMemory => TasksForExactly(url, f.dimms, [Memory], t);
      case CProcessor => TasksForExactly(url, f.processors, [Processor], t);
      case CStorageController =>
        TasksForExactly(url, f.sys.storageController, [StorageController], t);
        TasksForExactly(url, f.drives.arrayControllers, [StorageController], t);
      case CDrives =>
        TasksForExactly(url, f.drives.logical, [LogicalDrive], t);
        TasksForExactly(url, f.sys.drives, [UnknownDrive], t);
        TasksForExactly(url, f.drives.physical, [UnknownDrive], t);
      case CSystem =>
      case CFirmware =>
    }
  }

  lemma {:induction false} GatherExactly(url: string, f: Facts, order: seq<Component>, c: set<Component>, t: Task)
    ensures t in Gather(url, f, order, c) <==> exists x :: x in order && x in c && Gathers(t, url, f, x)
  {
    if order != [] {
      GroupExactly(url, f, order[0], t);
      GatherExactly(url, f, order[1..], c, t);
      assert forall x :: x in order <==> x == order[0] || x in order[1..];
    }
  }

  /** Which tasks a partial plan has: those of the requested components, each with its URL and its handlers. */
  lemma PartialTasksExactly(api: Api, cfg: Config, chassis: seq<string>, c: set<Component>, f: Facts, t: Task)
    requires Chassis(api, cfg) == Ok(Some(chassis)) && PartialFacts(api, cfg, chassis, c) == Ok(f)
    ensures PartialPlan(api, cfg, c).Ok? && PartialPlan(api, cfg, c).value.Planned?
    ensures t in PartialPlan(api, cfg, c).value.tasks <==> exists x :: x in c && Gathers(t, cfg.url, f, x)
  {
    GatherExactly(cfg.url, f, ORDER, c, t);
    forall x: Component ensures x in ORDER {
      InOrder(x, ORDER);
    }
  }

  lemma InOrder(x: Component, order: seq<Component>)
    requires order == ORDER
    ensures x in order
  {
    match x
    case CSystem => assert order[0] == x;
    case CPower => assert order[1] == x;
    case CThermal => assert order[2] == x;
    case CMemory => assert order[3] == x;
    case CProcessor => assert order[4] == x;
    case CStorageController => assert order[5] == x;
    case CDrives => assert order[6] == x;
    case CFirmware => assert order[7] == x;
  }

  /** Which tasks a full plan has: those of all components, the manager's even without a manager, and the virtual drives. */
  lemma FullTasksExactly(url: string, f: Facts, virtual: seq<string>, t: Task)
    requires f.sys.systems != []
    ensures t in FullTasks(url, f, virtual)
            <==> || (exists x: Component :: x != CFirmware && Gathers(t, url, f, x))
                 || t in f.inventory || t == Task(url + f.manager, [Firmware, IloSelfTest])
                 || Fetches(t, url, virtual, [LogicalDrive])
  {
    FullTasksSum(url, f, virtual);
    TasksForExactly(url, virtual, [LogicalDrive], t);
    CommonExactly(url, f, t);
    var full, common := FullTasks(url, f, virtual), CommonTasks(url, f);
    var manager, drives := [Task(url + f.manager, [Firmware, IloSelfTest])], TasksFor(url, virtual, [LogicalDrive]);
    assert t in full <==> t in multiset(full);
    assert t in multiset(full) <==> t in multiset(common) || t in multiset(f.inventory) || t in multiset(manager) || t in multiset(drives);
  }

  lemma CommonExactly(url: string, f: Facts, t: Task)
    ensures t in CommonTasks(url, f) <==> exists x: Component :: x != CFirmware && Gathers(t, url, f, x)
  {
    forall x: Component ensures t in Group(url, f, x) <==> Gathers(t, url, f, x) {
      GroupExactly(url, f, x, t);
    }
    if x: Component :| x != CFirmware && Gathers(t, url, f, x) {
      assert t in Group(url, f, x);
      match x case CSystem => case CPower => case CThermal => case CMemory => case CProcessor =>
        case CStorageController => case CDrives => case CFirmware =>
    }
  }

  // ---------------------------------------------------------------- where each task stands, and how often

  /** One task for each of these links, in order, from this place on. */
  predicate Holds(tasks: seq<Task>, from: nat, url: string, links: seq<string>, handlers: seq<Metric>) {
    from + |links| <= |tasks| && forall i :: 0 <= i < |links| ==> tasks[from + i] == Task(url + links[i], handlers)
  }

  lemma HoldsAfter(p: seq<Task>, url: string, links: seq<string>, handlers: seq<Metric>, full: seq<Task>)
    requires p + TasksFor(url, links, handlers) <= full
    ensures Holds(full, |p|, url, links, handlers) && p <= full
  {
    var tasks := TasksFor(url, links, handlers);
    assert forall i :: 0 <= i < |links| ==> full[|p| + i] == (p + tasks)[|p| + i] == tasks[i];
  }

  /** How many tasks a component makes: one per link. */
  function Size(f: Facts, c: Component): nat {
    match c
    case CSystem => if f.sys.systems != [] then 1 else 0
    case CPower => |f.sys.power|
    case CThermal => |f.sys.thermal|
    case CMemory => |f.dimms|
    case CProcessor => |f.processors|
    case CStorageController => |f.sys.storageController| + |f.drives.arrayControllers|
    case CDrives => |f.drives.logical| + |f.sys.drives| + |f.drives.physical|
    case CFirmware => (if f.manager != "" then 1 else 0) + |f.inventory|
  }

  /** The tasks of a component stand together, in the order of the links. */
  predicate Stands(tasks: seq<Task>, from: nat, url: string, f: Facts, c: Component) {
    && from + Size(f, c) <= |tasks|
    && match c
       case CSystem => f.sys.systems != [] ==> tasks[from] == Task(url + f.sys.systems[0], [MemorySummary, StorageBattery])
       case CPower => Holds(tasks, from, url, f.sys.power, [Power])
       case CThermal => Holds(tasks, from, url, f.sys.thermal, [Thermal])
       case CMemory => Holds(tasks, from, url, f.dimms, [Memory])
       case CProcessor => Holds(tasks, from, url, f.processors, [Processor])
       case CStorageController =>
         && Holds(tasks, from, url, f.sys.storageController, [StorageController])
         && Holds(tasks, from + |f.sys.storageController|, url, f.drives.arrayControllers, [StorageController])
       case CDrives =>
         && Holds(tasks, from, url, f.drives.logical, [LogicalDrive])
         && Holds(tasks, from + |f.drives.logical|, url, f.sys.drives, [UnknownDrive])
         && Holds(tasks, from + |f.drives.logical| + |f.sys.drives|, url, f.drives.physical, [UnknownDrive])
       case CFirmware =>
         var rest := if f.manager != "" then from + 1 else from;
         && (f.manager != "" ==> tasks[from] == Task(url + f.manager, [Firmware, IloSelfTest]))
         && tasks[rest..rest + |f.inventory|] == f.inventory
  }

  lemma GroupStands(url: string, f: Facts, c: Component)
    ensures |Group(url, f, c)| == Size(f, c) && Stands(Group(url, f, c), 0, url, f, c)
  {
  }

  lemma StandsWithin(p: seq<Task>, q: seq<Task>, r: seq<Task>, url: string, f: Facts, c: Component, tasks: seq<Task>, from: nat)
    requires |q| == Size(f, c) && Stands(q, 0, url, f, c)
    requires tasks == p + q + r && from == |p|
    ensures Stands(tasks, from, url, f, c)
  {
    assert tasks[from..from + |q|] == q;
    if c.CFirmware? {
      var n := if f.manager != "" then 1 else 0;
      assert tasks[from + n..from + n + |f.inventory|] == q[n..n + |f.inventory|];
    }
  }

  /** How many tasks the requested ones of these components make. */
  function Sizes(f: Facts, order: seq<Component>, c: set<Component>): nat {
    if order == [] then 0 else (if order[0] in c then Size(f, order[0]) else 0) + Sizes(f, order[1..], c)
  }

  lemma {:induction false} GatherSize(url: string, f: Facts, order: seq<Component>, c: set<Component>)
    ensures |Gather(url, f, order, c)| == Sizes(f, order, c)
  {
    if order != [] {
      GroupStands(url, f, order[0]);
      GatherSize(url, f, order[1..], c);
    }
  }

  /** The place of a component among the eight: system, power, thermal, memory, processor, controllers, drives, firmware. */
  function Place(c: Component): (i: nat)
    ensures i < 8
  {
    match c
    case CSystem => 0
    case CPower => 1
    case CThermal => 2
    case CMemory => 3
    case CProcessor => 4
    case CStorageController => 5
    case CDrives => 6
    case CFirmware => 7
  }

  lemma AtItsPlace(x: Component, order: seq<Component>)
    requires order == ORDER
    ensures |order| == 8 && order[Place(x)] == x
  {
    InOrder(x, order);
  }

  lemma GatherNext(url: string, f: Facts, c: set<Component>, x: Component, after: seq<Component>)
    requires x in c
    ensures Gather(url, f, [x] + after, c) == Group(url, f, x) + Gather(url, f, after, c)
  {
    assert ([x] + after)[1..] == after;
  }

  lemma GatherParts(url: string, f: Facts, c: set<Component>, before: seq<Component>, x: Component, after: seq<Component>)
    requires x in c
    ensures Gather(url, f, before + ([x] + after), c) == Gather(url, f, before, c) + Group(url, f, x) + Gather(url, f, after, c)
  {
    var p, q, r := Gather(url, f, before, c), Group(url, f, x), Gather(url, f, after, c);
    GatherConcat(url, f, before, [x] + after, c);
    GatherNext(url, f, c, x, after);
    assert p + q + r == p + (q + r);
  }

  lemma GatherStands(url: string, f: Facts, c: set<Component>, before: seq<Component>, x: Component, after: seq<Component>,
                     tasks: seq<Task>, from: nat)
    requires x in c && tasks == Gather(url, f, before + ([x] + after), c) && from == Sizes(f, before, c)
    ensures Stands(tasks, from, url, f, x)
  {
    GatherParts(url, f, c, before, x, after);
    GatherSize(url, f, before, c);
    GroupStands(url, f, x);
    StandsWithin(Gather(url, f, before, c), Group(url, f, x), Gather(url, f, after, c), url, f, x, tasks, from);
  }

  lemma Taken(order: seq<Component>, i: nat)
    requires i < |order|
    ensures order == order[..i] + ([order[i]] + order[i + 1..])
  {
  }

  /**
   * Where the tasks of a partial plan stand: those of each requested component together, behind those of the requested
   * components before it, and no others.
   */
  lemma PartialTasksPlaced(url: string, f: Facts, c: set<Component>, x: Component, order: seq<Component>)
    requires order == ORDER && x in c
    ensures |order| == 8 && |Gather(url, f, order, c)| == Sizes(f, order, c)
    ensures Stands(Gather(url, f, order, c), Sizes(f, order[..Place(x)], c), url, f, x)
  {
    AtItsPlace(x, order);
    GatherSize(url, f, order, c);
    StandsAt(url, f, c, x, order, Place(x));
  }

  lemma StandsAt(url: string, f: Facts, c: set<Component>, x: Component, order: seq<Component>, i: nat)
    requires i < |order| && order[i] == x && x in c
    ensures Stands(Gather(url, f, order, c), Sizes(f, order[..i], c), url, f, x)
  {
    Taken(order, i);
    GatherStands(url, f, c, order[..i], x, order[i + 1..], Gather(url, f, order, c), Sizes(f, order[..i], c));
  }

  /** Where the tasks of a full plan stand: one for each link learned, kind by kind, and no others. */
  lemma FullTasksPlaced(url: string, f: Facts, virtual: seq<string>, full: seq<Task>)
    requires f.sys.systems != [] && full == FullTasks(url, f, virtual)
    ensures var arrays := 1 + |f.inventory|;
            var logical := arrays + |f.drives.arrayControllers|;
            var physical := logical + |f.drives.logical|;
            var drives := physical + |f.drives.physical|;
            var controllers := drives + |f.sys.drives|;
            var virtuals := controllers + |f.sys.storageController|;
            var power := virtuals + |virtual|;
            var thermal := power + |f.sys.power|;
            var memory := thermal + |f.sys.thermal|;
            var manager := memory + |f.dimms|;
            && |full| == manager + 1 + |f.processors|
            && full[0] == Task(url + f.sys.systems[0], [MemorySummary, StorageBattery])
            && full[1..arrays] == f.inventory
            && Holds(full, arrays, url, f.drives.arrayControllers, [StorageController])
            && Holds(full, logical, url, f.drives.logical, [LogicalDrive])
            && Holds(full, physical, url, f.drives.physical, [UnknownDrive])
            && Holds(full, drives, url, f.sys.drives, [UnknownDrive])
            && Holds(full, controllers, url, f.sys.storageController, [StorageController])
            && Holds(full, virtuals, url, virtual, [LogicalDrive])
            && Holds(full, power, url, f.sys.power, [Power])
            && Holds(full, thermal, url, f.sys.thermal, [Thermal])
            && Holds(full, memory, url, f.dimms, [Memory])
            && full[manager] == Task(url + f.manager, [Firmware, IloSelfTest])
            && Holds(full, manager + 1, url, f.processors, [Processor])
  {
    var p0 := [Task(url + f.sys.systems[0], [MemorySummary, StorageBattery])];
    var p1 := p0 + f.inventory;
    var p2 := p1 + TasksFor(url, f.drives.arrayControllers, [StorageController]);
    var p3 := p2 + TasksFor(url, f.drives.logical, [LogicalDrive]);
    var p4 := p3 + TasksFor(url, f.drives.physical, [UnknownDrive]);
    var p5 := p4 + TasksFor(url, f.sys.drives, [UnknownDrive]);
    var p6 := p5 + TasksFor(url, f.sys.storageController, [StorageController]);
    var p7 := p6 + TasksFor(url, virtual, [LogicalDrive]);
    var p8 := p7 + TasksFor(url, f.sys.power, [Power]);
    var p9 := p8 + TasksFor(url, f.sys.thermal, [Thermal]);
    var p10 := p9 + TasksFor(url, f.dimms, [Memory]);
    var p11 := p10 + [Task(url + f.manager, [Firmware, IloSelfTest])];
    HoldsAfter(p11, url, f.processors, [Processor], full);
    assert p11[|p10|] == Task(url + f.manager, [Firmware, IloSelfTest]) && p10 <= full;
    HoldsAfter(p9, url, f.dimms, [Memory], full);
    HoldsAfter(p8, url, f.sys.thermal, [Thermal], full);
    HoldsAfter(p7, url, f.sys.power, [Power], full);
    HoldsAfter(p6, url, virtual, [LogicalDrive], full);
    HoldsAfter(p5, url, f.sys.storageController, [StorageController], full);
    HoldsAfter(p4, url, f.sys.drives, [UnknownDrive], full);
    HoldsAfter(p3, url, f.drives.physical, [UnknownDrive], full);
    HoldsAfter(p2, url, f.drives.logical, [LogicalDrive], full);
    HoldsAfter(p1, url, f.drives.arrayControllers, [StorageController], full);
    assert p1[1..] == f.inventory && full[..|p1|] == p1 && full[1..|p1|] == full[..|p1|][1..];
  }
}
