/** The two planners as the source runs them: lists grown in loops, an early return on every failure. */
module Planner {
  import opened Outcomes
  import opened Texts
  import opened Urls
  import opened Plans
  import Oem
  import Endpoints
  import Drives

  method GetMemberUrls(api: Api, url: string) returns (r: Outcome<seq<string>>)
    ensures r == MemberUrls(api, url)
  {
    var got := api.collection(url);
    if got.Failed? {
      return Err(got.error);
    }
    var urls: seq<string> := [];
    for i := 0 to |got.body|
      invariant |urls| == i && forall k :: 0 <= k < i ==> got.body[k] != "" && urls[k] == AppendSlash(got.body[k])
    {
      if got.body[i] == "" {
        assert got.body[i] in got.body;
        return Panic;
      }
      urls := urls + [AppendSlash(got.body[i])];
    }
    assert urls == Slashed(got.body);
    return Ok(urls);
  }

  method ChooseManager(members: seq<string>) returns (manager: string)
    ensures manager == ChosenManager(members)
  {
    manager := "";
    if |members| > 1 {
      for i := 0 to |members|
        invariant FirstNotCimc(members) == FirstNotCimc(members[i..])
      {
        assert members[i..][1..] == members[i + 1..];
        if !Contains(members[i], "CIMC") {
          return members[i];
        }
      }
    } else if |members| > 0 {
      manager := members[0];
    }
  }

  method GetFirstNonEmptyURL(urls: seq<string>) returns (url: string)
    ensures url == FirstNonEmpty(urls)
    ensures url == "" <==> forall u :: u in urls ==> u == ""
    ensures url != "" ==> exists i :: 0 <= i < |urls| && urls[i] == url && forall j :: 0 <= j < i ==> urls[j] == ""
  {
    for i := 0 to |urls|
      invariant forall j :: 0 <= j < i ==> urls[j] == ""
      invariant FirstNonEmpty(urls) == FirstNonEmpty(urls[i..])
    {
      assert urls[i..][1..] == urls[i + 1..];
      if urls[i] != "" {
        assert urls[i] in urls;
        return urls[i];
      }
    }
    return "";
  }

  method GetMemoryURL(resp: System) returns (url: string)
    ensures url == MemoryUrl(resp)
    ensures resp.memory != "" ==> url == resp.memory
    ensures resp.memory == "" && resp.hpeUpper.memory != "" ==> url == resp.hpeUpper.memory
    ensures resp.memory == "" && resp.hpeUpper.memory == "" && resp.hpUpper.memory != "" ==> url == resp.hpUpper.memory
    ensures resp.memory == "" && resp.hpeUpper.memory == "" && resp.hpUpper.memory == "" ==>
              url == if resp.hpeLower.memory != "" then resp.hpeLower.memory else resp.hpLower.memory
  {
    assert [resp.memory, resp.hpeUpper.memory, resp.hpUpper.memory, resp.hpeLower.memory, resp.hpLower.memory][1..]
        == [resp.hpeUpper.memory, resp.hpUpper.memory, resp.hpeLower.memory, resp.hpLower.memory];
    FirstOfFour(resp.hpeUpper.memory, resp.hpUpper.memory, resp.hpeLower.memory, resp.hpLower.memory);
    url := GetFirstNonEmptyURL([resp.memory, resp.hpeUpper.memory, resp.hpUpper.memory, resp.hpeLower.memory, resp.hpLower.memory]);
  }

  method GetSmartStorageURL(resp: System) returns (url: string)
    ensures url == SmartStorageUrl(resp)
    ensures var first := if resp.hpeUpper.smartStorage != "" then resp.hpeUpper.smartStorage
                         else if resp.hpUpper.smartStorage != "" then resp.hpUpper.smartStorage
                         else if resp.hpeLower.smartStorage != "" then resp.hpeLower.smartStorage
                         else resp.hpLower.smartStorage;
            if first == "" then url == "" else exists u :: Slashes(first, u) && url == u + "ArrayControllers/"
  {
    FirstOfFour(resp.hpeUpper.smartStorage, resp.hpUpper.smartStorage, resp.hpeLower.smartStorage, resp.hpLower.smartStorage);
    url := GetFirstNonEmptyURL(
      [resp.hpeUpper.smartStorage, resp.hpUpper.smartStorage, resp.hpeLower.smartStorage, resp.hpLower.smartStorage]);
    if url != "" {
      assert Slashes(url, AppendSlash(url));
      url := AppendSlash(url) + "ArrayControllers/";
    }
  }

  method GetFirmwareInventoryURL(resp: System) returns (url: string)
    ensures url == FirmwareInventoryUrl(resp)
    ensures url == if resp.hpeUpper.firmwareInventory != "" then resp.hpeUpper.firmwareInventory
                   else if resp.hpUpper.firmwareInventory != "" then resp.hpUpper.firmwareInventory
                   else if resp.hpeLower.firmwareInventory != "" then resp.hpeLower.firmwareInventory
                   else resp.hpLower.firmwareInventory
  {
    FirstOfFour(resp.hpeUpper.firmwareInventory, resp.hpUpper.firmwareInventory, resp.hpeLower.firmwareInventory, resp.hpLower.firmwareInventory);
    url := GetFirstNonEmptyURL(
      [resp.hpeUpper.firmwareInventory, resp.hpUpper.firmwareInventory, resp.hpeLower.firmwareInventory, resp.hpLower.firmwareInventory]);
  }

  method AppendTasks(tasks: seq<Task>, base: string, urls: seq<string>, handlers: seq<Metric>) returns (r: seq<Task>)
    ensures r == tasks + TasksFor(base, urls, handlers)
  {
    r := tasks;
    for i := 0 to |urls|
      invariant r == tasks + TasksFor(base, urls[..i], handlers)
    {
      assert TasksFor(base, urls[..i + 1], handlers) == TasksFor(base, urls[..i], handlers) + [Task(base + urls[i], handlers)];
      r := r + [Task(base + urls[i], handlers)];
    }
    assert urls[..|urls|] == urls;
  }

  method CollectVolumes(api: Api, cfg: Config, controllers: seq<string>) returns (r: Outcome<seq<string>>)
    ensures r == Volumes(api, cfg, controllers, [])
  {
    var volumes := [];
    for i := 0 to |controllers|
      invariant Volumes(api, cfg, controllers, []) == Volumes(api, cfg, controllers[i..], volumes)
    {
      assert controllers[i..][1..] == controllers[i + 1..];
      var got := api.system(cfg.url + controllers[i]);
      if got.Failed? {
        return Err(got.error);
      }
      if cfg.drive.Some? {
        volumes :- Endpoints.AppendLinks(volumes, got.body.volumes, cfg.drive);
      } else if "" in got.body.volumes {
        return Panic;
      }
    }
    return Ok(volumes);
  }

  method AppendVirtual(acc: seq<string>, members: seq<string>) returns (r: seq<string>)
    requires forall m :: m in members ==> m != "" && AppendSlash(m) == m
    ensures r == Merge(acc, VirtualOf(members))
  {
    r := acc;
    for i := 0 to |members|
      invariant Merge(acc, VirtualOf(members)) == Merge(r, VirtualOf(members[i..]))
    {
      assert members[i..][1..] == members[i + 1..];
      if Contains(members[i], "Virtual") {
        var url := AppendSlash(members[i]);
        assert members[i] in members;
        assert VirtualOf(members[i..]) == [url] + VirtualOf(members[i + 1..]);
        assert ([url] + VirtualOf(members[i + 1..]))[1..] == VirtualOf(members[i + 1..]);
        assert Merge(r, VirtualOf(members[i..])) == Merge(Insert(r, url), VirtualOf(members[i + 1..]));
        var unique := CheckUnique(r, url);
        if unique {
          r := r + [url];
        }
      } else {
        assert VirtualOf(members[i..]) == VirtualOf(members[i + 1..]);
      }
    }
  }

  method CollectVirtualDrives(api: Api, cfg: Config, volumes: seq<string>) returns (r: Outcome<seq<string>>)
    ensures r == VirtualDrives(api, cfg, volumes, [])
  {
    var drives := [];
    for i := 0 to |volumes|
      invariant VirtualDrives(api, cfg, volumes, []) == VirtualDrives(api, cfg, volumes[i..], drives)
    {
      assert volumes[i..][1..] == volumes[i + 1..];
      var members :- GetMemberUrls(api, cfg.url + volumes[i]);
      drives := AppendVirtual(drives, members);
    }
    return Ok(drives);
  }

  method FindDrives(api: Api, cfg: Config, sys: Endpoints.SystemEndpoints, resp: System) returns (r: Outcome<Drives.DriveEndpoints>)
    ensures r == DrivesOf(api, cfg, sys, resp)
  {
    var ss := GetSmartStorageURL(resp);
    var d := Drives.NO_DRIVES;
    if ss != "" {
      d :- Drives.GetAllDriveEndpoints(api.drive, cfg.url, cfg.url + ss, cfg.drive);
    }
    if (|sys.storageController| == 0 && ss == "") || (|sys.drives| == 0 && |d.physical| == 0) {
      if resp.storage != "" {
        d :- Drives.GetAllDriveEndpoints(api.drive, cfg.url, cfg.url + AppendSlash(resp.storage), cfg.drive);
      }
    }
    return Ok(d);
  }

  method FindInventoryUrls(api: Api, cfg: Config, service: System) returns (r: Outcome<seq<string>>)
    ensures r == InventoryUrls(api, cfg, service)
  {
    if |service.firmwareInventory| == 1 {
      r := GetMemberUrls(api, cfg.url + service.firmwareInventory[0]);
    } else {
      r := Ok(service.firmwareInventory);
    }
  }

  /** The loop over firmware members; without a pattern the full planner (keepAll false) appends none of them. */
  method AppendInventory(tasks: seq<Task>, cfg: Config, urls: seq<string>, keepAll: bool) returns (r: seq<Task>)
    ensures r == tasks + (if cfg.firmware.Some? || keepAll then TasksFor(cfg.url, Filtered(urls, cfg.firmware), INVENTORY) else [])
    ensures tasks == [] ==> r == if cfg.firmware.Some? || keepAll then TasksFor(cfg.url, Filtered(urls, cfg.firmware), INVENTORY) else []
  {
    r := tasks;
    if cfg.firmware.Some? || keepAll {
      for i := 0 to |urls|
        invariant r == tasks + TasksFor(cfg.url, Filtered(urls[..i], cfg.firmware), INVENTORY)
      {
        assert urls[..i + 1] == urls[..i] + [urls[i]];
        FilteredConcat(urls[..i], [urls[i]], cfg.firmware);
        if Kept(cfg.firmware, urls[i]) {
          assert Filtered([urls[i]], cfg.firmware) == [urls[i]];
          assert TasksFor(cfg.url, Filtered(urls[..i], cfg.firmware) + [urls[i]], INVENTORY)
              == TasksFor(cfg.url, Filtered(urls[..i], cfg.firmware), INVENTORY) + [Task(cfg.url + urls[i], INVENTORY)];
          r := r + [Task(cfg.url + urls[i], INVENTORY)];
        }
      }
      assert urls[..|urls|] == urls;
    }
  }

  method PlanFullInventory(api: Api, cfg: Config, resp: System) returns (r: Outcome<seq<Task>>)
    ensures r == FullInventory(api, cfg, resp)
  {
    var fml := GetFirmwareInventoryURL(resp);
    if fml != "" {
      return Ok([Task(cfg.url + fml, INVENTORY)]);
    }
    var root := api.system(cfg.url + cfg.uri);
    if root.Failed? {
      return Err(root.error);
    }
    var tasks := [];
    if root.body.updateService != "" {
      var service := api.system(cfg.url + root.body.updateService);
      if service.Failed? {
        return Err(service.error);
      }
      var urls :- FindInventoryUrls(api, cfg, service.body);
      if |urls| < 75 {
        tasks := AppendInventory([], cfg, urls, false);
      }
    }
    return Ok(tasks);
  }

  method PlanPartialInventory(api: Api, cfg: Config, resp: System) returns (r: Outcome<seq<Task>>)
    ensures r == PartialInventory(api, cfg, resp)
  {
    var fml := GetFirmwareInventoryURL(resp);
    if fml != "" {
      return Ok([Task(cfg.url + fml, INVENTORY)]);
    }
    var root := api.system(cfg.url + cfg.uri);
    var tasks := [];
    if root.Got? && root.body.updateService != "" {
      var service := api.system(cfg.url + root.body.updateService);
      if service.Got? {
        var urls :- FindInventoryUrls(api, cfg, service.body);
        if |urls| < 75 {
          tasks := AppendInventory([], cfg, urls, true);
        }
      }
    }
    return Ok(tasks);
  }

  method GetChassis(api: Api, cfg: Config) returns (r: Outcome<Option<seq<string>>>)
    ensures r == Chassis(api, cfg)
  {
    var urls := GetMemberUrls(api, cfg.url + cfg.uri + "/Chassis/");
    match urls {
      case Ok(u) => r := Ok(Some(u));
      case Err(InvalidCredential) => r := Ok(None);
      case Err(e) => r := Err(e);
      case Panic => r := Panic;
    }
  }

  method FullSystems(api: Api, cfg: Config, chassis: seq<string>) returns (r: Outcome<(Facts, seq<string>)>)
    ensures r == FullFacts(api, cfg, chassis)
  {
    var managers :- GetMemberUrls(api, cfg.url + cfg.uri + "/Managers/");
    if |managers| == 0 {
      return Err(Other);
    }
    var manager := ChooseManager(managers);
    var sys :- Endpoints.GetSystemEndpoints(Prefixed(cfg.url, chassis), api.chassis, cfg.drive);
    var volumes :- CollectVolumes(api, cfg, sys.storageController);
    var virtual :- CollectVirtualDrives(api, cfg, volumes);
    if |sys.systems| == 0 {
      return Err(Other);
    }
    var resp := api.system(cfg.url + sys.systems[0]);
    if resp.Failed? {
      return Err(resp.error);
    }
    var facts :- FullRemainder(api, cfg, manager, sys, resp.body);
    return Ok((facts, virtual));
  }

  method FullRemainder(api: Api, cfg: Config, manager: string, sys: Endpoints.SystemEndpoints, resp: System) returns (r: Outcome<Facts>)
    requires sys.systems != []
    ensures r == FullRest(api, cfg, manager, sys, resp)
  {
    var dimms := [];
    var memory := GetMemoryURL(resp);
    if memory != "" {
      var got := api.collection(cfg.url + memory);
      if got.Failed? {
        return Err(got.error);
      }
      dimms := got.body;
    }
    var processors := api.collection(cfg.url + sys.systems[0] + "Processors/");
    if processors.Failed? {
      return Err(processors.error);
    }
    var drives :- FindDrives(api, cfg, sys, resp);
    var inventory :- PlanFullInventory(api, cfg, resp);
    return Ok(Facts(sys, resp, drives, manager, dimms, processors.body, inventory));
  }

  method ListFullTasks(url: string, f: Facts, virtual: seq<string>) returns (tasks: seq<Task>)
    requires f.sys.systems != []
    ensures tasks == FullTasks(url, f, virtual)
  {
    tasks := [Task(url + f.sys.systems[0], [MemorySummary, StorageBattery])] + f.inventory;
    tasks := AppendTasks(tasks, url, f.drives.arrayControllers, [StorageController]);
    tasks := AppendTasks(tasks, url, f.drives.logical, [LogicalDrive]);
    tasks := AppendTasks(tasks, url, f.drives.physical, [UnknownDrive]);
    tasks := AppendTasks(tasks, url, f.sys.drives, [UnknownDrive]);
    tasks := AppendTasks(tasks, url, f.sys.storageController, [StorageController]);
    tasks := AppendTasks(tasks, url, virtual, [LogicalDrive]);
    tasks := AppendTasks(tasks, url, f.sys.power, [Power]);
    tasks := AppendTasks(tasks, url, f.sys.thermal, [Thermal]);
    tasks := AppendTasks(tasks, url, f.dimms, [Memory]);
    tasks := tasks + [Task(url + f.manager, [Firmware, IloSelfTest])];
    tasks := AppendTasks(tasks, url, f.processors, [Processor]);
  }

  /** NewExporter, up to the pool it fills; ignored says whether the host is on the ignored list. */
  method PlanFullScrape(api: Api, cfg: Config, ignored: bool) returns (r: Outcome<Plan>)
    ensures r == FullPlan(api, cfg, ignored)
  {
    if ignored {
      return Ok(IgnoredHost);
    }
    var chassis :- GetChassis(api, cfg);
    if chassis.None? {
      return Ok(IgnoredHost);
    }
    var facts :- FullSystems(api, cfg, chassis.value);
    var tasks := ListFullTasks(cfg.url, facts.0, facts.1);
    return Ok(Planned(tasks));
  }

  method FindContext(api: Api, cfg: Config, chassis: seq<string>) returns (r: Outcome<(Endpoints.SystemEndpoints, System)>)
    ensures r == Context(api, cfg, chassis)
  {
    var sys :- Endpoints.GetSystemEndpoints(Prefixed(cfg.url, chassis), api.chassis, cfg.drive);
    var resp := NO_SYSTEM;
    if |sys.systems| > 0 {
      var got := api.system(cfg.url + sys.systems[0]);
      if got.Failed? {
        return Err(got.error);
      }
      resp := got.body;
    }
    return Ok((sys, resp));
  }

  /** The queries the requested components call for, in the order in which they are made. */
  method LearnPartial(api: Api, cfg: Config, chassis: seq<string>, c: set<Component>) returns (r: Outcome<Facts>)
    ensures r == PartialFacts(api, cfg, chassis, c)
  {
    var managers := [];
    if CFirmware in c || CSystem in c {
      managers :- GetMemberUrls(api, cfg.url + cfg.uri + "/Managers/");
    }
    var manager := ChooseManager(managers);
    var context := (Endpoints.NO_ENDPOINTS, NO_SYSTEM);
    if CPower in c || CThermal in c || CDrives in c || CStorageController in c || CMemory in c || CProcessor in c || CSystem in c {
      context :- FindContext(api, cfg, chassis);
    } else {
      NeedsNone(c);
    }
    r := LearnRest(api, cfg, manager, context.0, context.1, c);
  }

  method LearnRest(api: Api, cfg: Config, manager: string, sys: Endpoints.SystemEndpoints, resp: System, c: set<Component>)
    returns (r: Outcome<Facts>)
    requires NeedsManager(c) ==> Managers(api, cfg).Ok?
    requires manager == ChosenManager(if NeedsManager(c) then Managers(api, cfg).value else [])
    ensures r == Assemble(QueriesOn(api, cfg, Ok((sys, resp))), c)
  {
    ghost var q := QueriesOn(api, cfg, Ok((sys, resp)));
    var dimms, processors := [], [];
    if CMemory in c && |sys.systems| > 0 {
      var memory := GetMemoryURL(resp);
      if memory != "" {
        var got := api.collection(cfg.url + memory);
        dimms := if got.Got? then got.body else [];
      }
    }
    assert dimms == if CMemory in c then OrNothing(q.dimms) else [];
    if CProcessor in c && |sys.systems| > 0 {
      var got := api.collection(cfg.url + sys.systems[0] + "Processors/");
      processors := if got.Got? then got.body else [];
    }
    assert processors == if CProcessor in c then OrNothing(q.processors) else [];
    var drives := Drives.NO_DRIVES;
    if CStorageController in c || CDrives in c {
      var found := FindDrives(api, cfg, sys, resp);
      assert found == q.drives;
      drives :- found;
    }
    var inventory := [];
    if CFirmware in c {
      var planned := PlanPartialInventory(api, cfg, resp);
      assert planned == q.inventory;
      inventory :- planned;
    }
    return Ok(Facts(sys, resp, drives, manager, dimms, processors, inventory));
  }

  lemma NeedsNone(c: set<Component>)
    requires !(CPower in c || CThermal in c || CDrives in c || CStorageController in c || CMemory in c || CProcessor in c || CSystem in c)
    ensures !NeedsSystems(c)
  {
    forall x | x in c ensures x == CFirmware {
      match x case CSystem => case CPower => case CThermal => case CMemory => case CProcessor =>
        case CStorageController => case CDrives => case CFirmware =>
    }
  }

  method ListControllers(tasks: seq<Task>, url: string, f: Facts) returns (r: seq<Task>)
    ensures r == tasks + Group(url, f, CStorageController)
  {
    r := AppendTasks(tasks, url, f.sys.storageController, [StorageController]);
    r := AppendTasks(r, url, f.drives.arrayControllers, [StorageController]);
  }

  method ListDrives(tasks: seq<Task>, url: string, f: Facts) returns (r: seq<Task>)
    ensures r == tasks + Group(url, f, CDrives)
  {
    r := AppendTasks(tasks, url, f.drives.logical, [LogicalDrive]);
    r := AppendTasks(r, url, f.sys.drives, [UnknownDrive]);
    r := AppendTasks(r, url, f.drives.physical, [UnknownDrive]);
  }

  method ListGroup(tasks: seq<Task>, url: string, f: Facts, c: Component) returns (r: seq<Task>)
    ensures r == tasks + Group(url, f, c)
  {
    r := tasks;
    match c {
      case CSystem =>
        if |f.sys.systems| > 0 {
          r := r + [Task(url + f.sys.systems[0], [MemorySummary, StorageBattery])];
        }
      case CPower => r := AppendTasks(r, url, f.sys.power, [Power]);
      case CThermal => r := AppendTasks(r, url, f.sys.thermal, [Thermal]);
      case CMemory => r := AppendTasks(r, url, f.dimms, [Memory]);
      case CProcessor => r := AppendTasks(r, url, f.processors, [Processor]);
      case CStorageController => r := ListControllers(r, url, f);
      case CDrives => r := ListDrives(r, url, f);
      case CFirmware =>
        if f.manager != "" {
          r := r + [Task(url + f.manager, [Firmware, IloSelfTest])];
        }
        r := r + f.inventory;
    }
  }

  method ListIf(tasks: seq<Task>, url: string, f: Facts, x: Component, requested: set<Component>) returns (r: seq<Task>)
    ensures r == tasks + Chosen(url, f, x, requested)
  {
    r := tasks;
    if x in requested {
      r := ListGroup(r, url, f, x);
    }
  }

  method GatherTasks(url: string, facts: Facts, requested: set<Component>, ghost order: seq<Component>) returns (tasks: seq<Task>)
    requires order == ORDER
    ensures tasks == Gather(url, facts, order, requested)
  {
    tasks := ListIf([], url, facts, CSystem, requested);
    assert tasks == Chosen(url, facts, CSystem, requested);
    tasks := ListIf(tasks, url, facts, CPower, requested);
    tasks := ListIf(tasks, url, facts, CThermal, requested);
    tasks := ListIf(tasks, url, facts, CMemory, requested);
    tasks := ListIf(tasks, url, facts, CProcessor, requested);
    tasks := ListIf(tasks, url, facts, CStorageController, requested);
    tasks := ListIf(tasks, url, facts, CDrives, requested);
    tasks := ListIf(tasks, url, facts, CFirmware, requested);
    GatherEight(url, facts, order, requested, Chosen(url, facts, CSystem, requested), Chosen(url, facts, CPower, requested),
                Chosen(url, facts, CThermal, requested), Chosen(url, facts, CMemory, requested),
                Chosen(url, facts, CProcessor, requested), Chosen(url, facts, CStorageController, requested),
                Chosen(url, facts, CDrives, requested), Chosen(url, facts, CFirmware, requested));
  }

  /** NewPartialExporter, up to the pool it fills: only the set of the requested components matters. */
  method PlanPartialScrape(api: Api, cfg: Config, components: seq<Component>) returns (r: Outcome<Plan>)
    ensures r == PartialPlan(api, cfg, set c | c in components)
  {
    var requested: set<Component> := {};
    for i := 0 to |components|
      invariant requested == set c | c in components[..i]
    {
      requested := requested + {components[i]};
    }
    assert components[..|components|] == components;
    var chassis :- GetChassis(api, cfg);
    if chassis.None? {
      return Ok(IgnoredHost);
    }
    var facts :- LearnPartial(api, cfg, chassis.value, requested);
    var tasks := GatherTasks(cfg.url, facts, requested, ORDER);
    return Ok(Planned(tasks));
  }
}
