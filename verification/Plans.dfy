/**
 * The two planners: NewExporter plans a full scrape, NewPartialExporter a scrape of chosen components.
 * Every GET is a query of one oracle, asked for the body decoded as the caller decodes it.
 */
module Plans {
  import opened Outcomes
  import opened Texts
  import opened Urls
  import Oem
  import Endpoints
  import Drives

  /** The resource links of a decoded system body; an absent link is the empty string. */
  datatype OemLinks = OemLinks(smartStorage: string, firmwareInventory: string, memory: string)

  datatype System = System(
    memory: string, hpeUpper: OemLinks, hpUpper: OemLinks, hpeLower: OemLinks, hpLower: OemLinks,
    storage: string, updateService: string, volumes: seq<string>, firmwareInventory: seq<string>)

  const NO_OEM := OemLinks("", "", "")
  const NO_SYSTEM := System("", NO_OEM, NO_OEM, NO_OEM, NO_OEM, "", "", [], [])

  datatype Api = Api(
    collection: string -> Fetched<seq<string>>, chassis: string -> Fetched<Oem.Body>,
    system: string -> Fetched<System>, drive: Drives.Api)

  datatype Config = Config(url: string, uri: string, drive: Exclude, firmware: Exclude)

  datatype Metric =
    | Thermal | Power | MemorySummary | StorageBattery | Memory | Processor | Firmware | IloSelfTest
    | FirmwareInventory | StorageController | LogicalDrive | UnknownDrive

  datatype Task = Task(url: string, handlers: seq<Metric>)

  datatype Plan = IgnoredHost | Planned(tasks: seq<Task>)

  datatype Component =
    | CSystem | CPower | CThermal | CMemory | CProcessor | CStorageController | CDrives | CFirmware

  /** The order in which the partial planner adds tasks. */
  const ORDER := [CSystem, CPower, CThermal, CMemory, CProcessor, CStorageController, CDrives, CFirmware]
  const ALL := {CSystem, CPower, CThermal, CMemory, CProcessor, CStorageController, CDrives, CFirmware}

  // ---------------------------------------------------------------- pieces both planners use

  function MemberUrls(api: Api, url: string): Outcome<seq<string>> {
    var members :- api.collection(url).ToOutcome();
    if "" in members then Panic else Ok(Slashed(members))
  }

  function FirstNotCimc(members: seq<string>): string {
    if members == [] then ""
    else if !Contains(members[0], "CIMC") then members[0]
    else FirstNotCimc(members[1..])
  }

  /** Empty when there is no manager, or several and all of them CIMC. */
  function ChosenManager(members: seq<string>): string {
    if |members| > 1 then FirstNotCimc(members) else if |members| > 0 then members[0] else ""
  }

  function Prefixed(base: string, urls: seq<string>): seq<string> {
    seq(|urls|, i requires 0 <= i < |urls| => base + urls[i])
  }

  function SystemsOf(api: Api, cfg: Config, chassis: seq<string>): Outcome<Endpoints.SystemEndpoints> {
    Endpoints.Walk(true, Endpoints.Bodies(Prefixed(cfg.url, chassis), api.chassis), Oem.EMPTY, Endpoints.NO_ENDPOINTS, cfg.drive)
  }

  function FirstNonEmpty(urls: seq<string>): string {
    if urls == [] then "" else if urls[0] != "" then urls[0] else FirstNonEmpty(urls[1..])
  }

  lemma FirstOfFour(a: string, b: string, c: string, d: string)
    ensures FirstNonEmpty([a, b, c, d]) == if a != "" then a else if b != "" then b else if c != "" then c else d
  {
    assert [a, b, c, d][1..] == [b, c, d] && [b, c, d][1..] == [c, d] && [c, d][1..] == [d] && [d][1..] == [];
    assert FirstNonEmpty([d]) == d;
    assert FirstNonEmpty([c, d]) == if c != "" then c else d;
    assert FirstNonEmpty([b, c, d]) == if b != "" then b else if c != "" then c else d;
  }

  function MemoryUrl(s: System): string {
    FirstNonEmpty([s.memory, s.hpeUpper.memory, s.hpUpper.memory, s.hpeLower.memory, s.hpLower.memory])
  }

  function SmartStorageUrl(s: System): string {
    var ss := FirstNonEmpty([s.hpeUpper.smartStorage, s.hpUpper.smartStorage, s.hpeLower.smartStorage, s.hpLower.smartStorage]);
    if ss != "" then AppendSlash(ss) + "ArrayControllers/" else ""
  }

  function FirmwareInventoryUrl(s: System): string {
    FirstNonEmpty([s.hpeUpper.firmwareInventory, s.hpUpper.firmwareInventory, s.hpeLower.firmwareInventory, s.hpLower.firmwareInventory])
  }

  /** SmartStorage first; Storage replaces it when nothing was found there. */
  function DrivesOf(api: Api, cfg: Config, sys: Endpoints.SystemEndpoints, resp: System): Outcome<Drives.DriveEndpoints> {
    var ss := SmartStorageUrl(resp);
    var d :- if ss != "" then Drives.AllDriveEndpoints(api.drive, cfg.url, cfg.url + ss, cfg.drive) else Ok(Drives.NO_DRIVES);
    if ((sys.storageController == [] && ss == "") || (sys.drives == [] && d.physical == [])) && resp.storage != ""
    then Drives.AllDriveEndpoints(api.drive, cfg.url, cfg.url + AppendSlash(resp.storage), cfg.drive)
    else Ok(d)
  }

  function TasksFor(base: string, urls: seq<string>, handlers: seq<Metric>): seq<Task> {
    seq(|urls|, i requires 0 <= i < |urls| => Task(base + urls[i], handlers))
  }

  const INVENTORY := [FirmwareInventory]

  /** The firmware links an update service names: the members of its single link, or its several links. */
  function InventoryUrls(api: Api, cfg: Config, service: System): Outcome<seq<string>> {
    if |service.firmwareInventory| == 1 then MemberUrls(api, cfg.url + service.firmwareInventory[0])
    else Ok(service.firmwareInventory)
  }

  // ---------------------------------------------------------------- the full planner

  function Volumes(api: Api, cfg: Config, controllers: seq<string>, acc: seq<string>): Outcome<seq<string>>
    decreases |controllers|
  {
    if controllers == [] then Ok(acc)
    else
      var out :- api.system(cfg.url + controllers[0]).ToOutcome();
      var acc' :- if cfg.drive.Some? then Endpoints.AddLinks(acc, out.volumes, cfg.drive)
                  else if "" in out.volumes then Panic else Ok(acc);
      Volumes(api, cfg, controllers[1..], acc')
  }

  function VirtualOf(members: seq<string>): (r: seq<string>)
    ensures forall m :: m in r ==> m in members
  {
    if members == [] then []
    else (if Contains(members[0], "Virtual") then [members[0]] else []) + VirtualOf(members[1..])
  }

  function VirtualDrives(api: Api, cfg: Config, volumes: seq<string>, acc: seq<string>): Outcome<seq<string>>
    decreases |volumes|
  {
    if volumes == [] then Ok(acc)
    else
      var members :- MemberUrls(api, cfg.url + volumes[0]);
      VirtualDrives(api, cfg, volumes[1..], Merge(acc, VirtualOf(members)))
  }

  /** Without a firmware exclude pattern the full planner lists no inventory members at all. */
  function FullInventory(api: Api, cfg: Config, resp: System): Outcome<seq<Task>> {
    var fml := FirmwareInventoryUrl(resp);
    if fml != "" then Ok([Task(cfg.url + fml, INVENTORY)])
    else
      var root :- api.system(cfg.url + cfg.uri).ToOutcome();
      if root.updateService == "" then Ok([])
      else
        var service :- api.system(cfg.url + root.updateService).ToOutcome();
        var urls :- InventoryUrls(api, cfg, service);
        Ok(if |urls| < 75 && cfg.firmware.Some? then TasksFor(cfg.url, Filtered(urls, cfg.firmware), INVENTORY) else [])
  }

  /** What the full planner learns before it lists tasks. */
  datatype Facts = Facts(
    sys: Endpoints.SystemEndpoints, resp: System, drives: Drives.DriveEndpoints, manager: string,
    dimms: seq<string>, processors: seq<string>, inventory: seq<Task>)

  function Managers(api: Api, cfg: Config): Outcome<seq<string>> {
    MemberUrls(api, cfg.url + cfg.uri + "/Managers/")
  }

  function VirtualUrls(api: Api, cfg: Config, sys: Endpoints.SystemEndpoints): Outcome<seq<string>> {
    var volumes :- Volumes(api, cfg, sys.storageController, []);
    VirtualDrives(api, cfg, volumes, [])
  }

  function DimmsOf(api: Api, cfg: Config, resp: System): Outcome<seq<string>> {
    if MemoryUrl(resp) == "" then Ok([]) else api.collection(cfg.url + MemoryUrl(resp)).ToOutcome()
  }

  function ProcessorsOf(api: Api, cfg: Config, system: string): Outcome<seq<string>> {
    api.collection(cfg.url + system + "Processors/").ToOutcome()
  }

  /** The part of full planning that follows the first system body. */
  function FullRest(api: Api, cfg: Config, manager: string, sys: Endpoints.SystemEndpoints, resp: System): (r: Outcome<Facts>)
    requires sys.systems != []
    ensures r.Ok? ==> r.value.sys == sys
  {
    var dimms :- DimmsOf(api, cfg, resp);
    var processors :- ProcessorsOf(api, cfg, sys.systems[0]);
    var drives :- DrivesOf(api, cfg, sys, resp);
    var inventory :- FullInventory(api, cfg, resp);
    Ok(Facts(sys, resp, drives, manager, dimms, processors, inventory))
  }

  /** The facts of a full plan and its virtual drives. */
  function FullFacts(api: Api, cfg: Config, chassis: seq<string>): (r: Outcome<(Facts, seq<string>)>)
    ensures r.Ok? ==> r.value.0.sys.systems != []
  {
    var managers :- Managers(api, cfg);
    if managers == [] then Err(Other)
    else
      var sys :- SystemsOf(api, cfg, chassis);
      var virtual :- VirtualUrls(api, cfg, sys);
      if sys.systems == [] then Err(Other)
      else
        var resp :- api.system(cfg.url + sys.systems[0]).ToOutcome();
        var facts :- FullRest(api, cfg, ChosenManager(managers), sys, resp);
        Ok((facts, virtual))
  }

  function FullTasks(url: string, f: Facts, virtual: seq<string>): seq<Task>
    requires f.sys.systems != []
  {
    [Task(url + f.sys.systems[0], [MemorySummary, StorageBattery])]
    + f.inventory
    + TasksFor(url, f.drives.arrayControllers, [StorageController])
    + TasksFor(url, f.drives.logical, [LogicalDrive])
    + TasksFor(url, f.drives.physical, [UnknownDrive])
    + TasksFor(url, f.sys.drives, [UnknownDrive])
    + TasksFor(url, f.sys.storageController, [StorageController])
    + TasksFor(url, virtual, [LogicalDrive])
    + TasksFor(url, f.sys.power, [Power])
    + TasksFor(url, f.sys.thermal, [Thermal])
    + TasksFor(url, f.dimms, [Memory])
    + [Task(url + f.manager, [Firmware, IloSelfTest])]
    + TasksFor(url, f.processors, [Processor])
  }

  /** A bad credential on the first GET puts the host on the ignored list instead of failing. */
  function Chassis(api: Api, cfg: Config): Outcome<Option<seq<string>>> {
    var r := MemberUrls(api, cfg.url + cfg.uri + "/Chassis/");
    match r
    case Ok(urls) => Ok(Some(urls))
    case Err(InvalidCredential) => Ok(None)
    case Err(e) => Err(e)
    case Panic => Panic
  }

  function FullPlan(api: Api, cfg: Config, ignored: bool): Outcome<Plan> {
    if ignored then Ok(IgnoredHost)
    else
      var chassis :- Chassis(api, cfg);
      if chassis.None? then Ok(IgnoredHost)
      else
        var facts :- FullFacts(api, cfg, chassis.value);
        Ok(Planned(FullTasks(cfg.url, facts.0, facts.1)))
  }

  // ---------------------------------------------------------------- the partial planner

  predicate NeedsManager(c: set<Component>) {
    CFirmware in c || CSystem in c
  }

  /** Every component but firmware needs the endpoints. */
  predicate NeedsSystems(c: set<Component>) {
    exists x :: x in c && x != CFirmware
  }

  predicate NeedsDrives(c: set<Component>) {
    CStorageController in c || CDrives in c
  }

  /** Errors on the way to the update service are swallowed here, and a missing exclude pattern keeps every member. */
  function PartialInventory(api: Api, cfg: Config, resp: System): Outcome<seq<Task>> {
    var fml := FirmwareInventoryUrl(resp);
    if fml != "" then Ok([Task(cfg.url + fml, INVENTORY)])
    else
      var root := api.system(cfg.url + cfg.uri);
      if root.Failed? || root.body.updateService == "" then Ok([])
      else
        var service := api.system(cfg.url + root.body.updateService);
        if service.Failed? then Ok([])
        else
          var urls :- InventoryUrls(api, cfg, service.body);
          Ok(if |urls| < 75 then TasksFor(cfg.url, Filtered(urls, cfg.firmware), INVENTORY) else [])
  }

  function OrNothing(r: Outcome<seq<string>>): seq<string> {
    if r.Ok? then r.value else []
  }

  /** The queries a partial plan may make; which of them count depends on the components requested. */
  datatype Queries = Queries(
    managers: Outcome<seq<string>>, context: Outcome<(Endpoints.SystemEndpoints, System)>,
    dimms: Outcome<seq<string>>, processors: Outcome<seq<string>>,
    drives: Outcome<Drives.DriveEndpoints>, inventory: Outcome<seq<Task>>)

  function Context(api: Api, cfg: Config, chassis: seq<string>): Outcome<(Endpoints.SystemEndpoints, System)> {
    var sys :- SystemsOf(api, cfg, chassis);
    if sys.systems == [] then Ok((sys, NO_SYSTEM))
    else
      var resp :- api.system(cfg.url + sys.systems[0]).ToOutcome();
      Ok((sys, resp))
  }

  function QueriesOn(api: Api, cfg: Config, context: Outcome<(Endpoints.SystemEndpoints, System)>): Queries {
    if !context.Ok? then Queries(Managers(api, cfg), context, Ok([]), Ok([]), Ok(Drives.NO_DRIVES), Ok([]))
    else
      var sys, resp := context.value.0, context.value.1;
      Queries(Managers(api, cfg), context,
              if sys.systems != [] then DimmsOf(api, cfg, resp) else Ok([]),
              if sys.systems != [] then ProcessorsOf(api, cfg, sys.systems[0]) else Ok([]),
              DrivesOf(api, cfg, sys, resp), PartialInventory(api, cfg, resp))
  }

  /** Errors of the memory and processor collections are logged and dropped; the others end the planning. */
  function Assemble(q: Queries, c: set<Component>): Outcome<Facts> {
    var managers :- if NeedsManager(c) then q.managers else Ok([]);
    var context :- q.context;
    var drives :- if NeedsDrives(c) then q.drives else Ok(Drives.NO_DRIVES);
    var inventory :- if CFirmware in c then q.inventory else Ok([]);
    Ok(Facts(context.0, context.1, drives, ChosenManager(managers),
             if CMemory in c then OrNothing(q.dimms) else [],
             if CProcessor in c then OrNothing(q.processors) else [], inventory))
  }

  function PartialFacts(api: Api, cfg: Config, chassis: seq<string>, c: set<Component>): Outcome<Facts> {
    Assemble(QueriesOn(api, cfg, if NeedsSystems(c) then Context(api, cfg, chassis) else Ok((Endpoints.NO_ENDPOINTS, NO_SYSTEM))), c)
  }

  /** The tasks of one component. */
  function Group(url: string, f: Facts, c: Component): seq<Task> {
    match c
    case CSystem => if f.sys.systems != [] then [Task(url + f.sys.systems[0], [MemorySummary, StorageBattery])] else []
    case CPower => TasksFor(url, f.sys.power, [Power])
    case CThermal => TasksFor(url, f.sys.thermal, [Thermal])
    case CMemory => TasksFor(url, f.dimms, [Memory])
    case CProcessor => TasksFor(url, f.processors, [Processor])
    case CStorageController => TasksFor(url, f.sys.storageController, [StorageController]) + TasksFor(url, f.drives.arrayControllers, [StorageController])
    case CDrives => TasksFor(url, f.drives.logical, [LogicalDrive]) + TasksFor(url, f.sys.drives, [UnknownDrive]) + TasksFor(url, f.drives.physical, [UnknownDrive])
    case CFirmware => (if f.manager != "" then [Task(url + f.manager, [Firmware, IloSelfTest])] else []) + f.inventory
  }

  function Chosen(url: string, f: Facts, x: Component, c: set<Component>): seq<Task> {
    if x in c then Group(url, f, x) else []
  }

  function Gather(url: string, f: Facts, order: seq<Component>, c: set<Component>): seq<Task> {
    if order == [] then [] else Chosen(url, f, order[0], c) + Gather(url, f, order[1..], c)
  }

  /** The ignored list is not consulted. */
  function PartialPlan(api: Api, cfg: Config, c: set<Component>): Outcome<Plan> {
    var chassis :- Chassis(api, cfg);
    if chassis.None? then Ok(IgnoredHost)
    else
      var facts :- PartialFacts(api, cfg, chassis.value, c);
      Ok(Planned(Gather(cfg.url, facts, ORDER, c)))
  }

  // ---------------------------------------------------------------- relating plans

  /** Two sets of facts agree on all that the given components use. */
  ghost predicate Agree(url: string, f: Facts, g: Facts, c: set<Component>) {
    forall x :: x in c ==> Group(url, f, x) == Group(url, g, x)
  }

  lemma {:induction false} GatherUnion(url: string, order: seq<Component>, a: set<Component>, b: set<Component>, f: Facts, fa: Facts, fb: Facts)
    requires a !! b && Agree(url, f, fa, a) && Agree(url, f, fb, b)
    ensures multiset(Gather(url, f, order, a + b)) == multiset(Gather(url, fa, order, a)) + multiset(Gather(url, fb, order, b))
  {
    if order != [] {
      GatherUnion(url, order[1..], a, b, f, fa, fb);
    }
  }

  lemma AssembleSucceeds(q: Queries, c: set<Component>)
    ensures Assemble(q, c).Ok? <==>
              && q.context.Ok? && (NeedsManager(c) ==> q.managers.Ok?)
              && (NeedsDrives(c) ==> q.drives.Ok?) && (CFirmware in c ==> q.inventory.Ok?)
  {
  }

  lemma AssembleAgrees(url: string, q: Queries, c: set<Component>, wider: set<Component>)
    requires c <= wider && Assemble(q, c).Ok? && Assemble(q, wider).Ok?
    ensures Agree(url, Assemble(q, wider).value, Assemble(q, c).value, c)
  {
    forall x | x in c ensures Group(url, Assemble(q, wider).value, x) == Group(url, Assemble(q, c).value, x) {
      match x case CSystem => case CPower => case CThermal => case CMemory => case CProcessor =>
        case CStorageController => case CDrives => case CFirmware =>
    }
  }

  lemma AssembleUnion(url: string, q: Queries, a: set<Component>, b: set<Component>)
    ensures var f, fa, fb := Assemble(q, a + b), Assemble(q, a), Assemble(q, b);
            && (f.Ok? <==> fa.Ok? && fb.Ok?)
            && (f.Ok? ==> Agree(url, f.value, fa.value, a) && Agree(url, f.value, fb.value, b))
  {
    AssembleSucceeds(q, a);
    AssembleSucceeds(q, b);
    AssembleSucceeds(q, a + b);
    if Assemble(q, a + b).Ok? {
      AssembleAgrees(url, q, a, a + b);
      AssembleAgrees(url, q, b, a + b);
    }
  }

  lemma FactsOfUnion(api: Api, cfg: Config, chassis: seq<string>, a: set<Component>, b: set<Component>)
    requires NeedsSystems(a) && NeedsSystems(b)
    ensures var f, fa, fb := PartialFacts(api, cfg, chassis, a + b), PartialFacts(api, cfg, chassis, a), PartialFacts(api, cfg, chassis, b);
            && (f.Ok? <==> fa.Ok? && fb.Ok?)
            && (f.Ok? ==> Agree(cfg.url, f.value, fa.value, a) && Agree(cfg.url, f.value, fb.value, b))
  {
    var x :| x in a && x != CFirmware;
    assert x in a + b && NeedsSystems(a + b);
    AssembleUnion(cfg.url, QueriesOn(api, cfg, Context(api, cfg, chassis)), a, b);
  }

  /**
   * Partial planning decomposes: a request for the union of two disjoint component sets succeeds exactly when
   * both requests do, and its tasks are then the tasks of both.
   */
  lemma PartialDecomposes(api: Api, cfg: Config, a: set<Component>, b: set<Component>)
    requires a !! b && NeedsSystems(a) && NeedsSystems(b)
    ensures var p, pa, pb := PartialPlan(api, cfg, a + b), PartialPlan(api, cfg, a), PartialPlan(api, cfg, b);
            && (p.Ok? <==> pa.Ok? && pb.Ok?)
            && (p.Ok? ==> (p.value.Planned? <==> pa.value.Planned?) && (p.value.Planned? <==> pb.value.Planned?))
            && (p.Ok? && p.value.Planned? ==> multiset(p.value.tasks) == multiset(pa.value.tasks) + multiset(pb.value.tasks))
  {
    var chassis := Chassis(api, cfg);
    if chassis.Ok? && chassis.value.Some? {
      var ch := chassis.value.value;
      FactsOfUnion(api, cfg, ch, a, b);
      var f := PartialFacts(api, cfg, ch, a + b);
      if f.Ok? {
        GatherUnion(cfg.url, ORDER, a, b, f.value, PartialFacts(api, cfg, ch, a).value, PartialFacts(api, cfg, ch, b).value);
      }
    }
  }

  lemma FullRestParts(api: Api, cfg: Config, manager: string, sys: Endpoints.SystemEndpoints, resp: System, f: Facts)
    requires sys.systems != [] && FullRest(api, cfg, manager, sys, resp) == Ok(f)
    ensures f.sys == sys && f.resp == resp && f.manager == manager
    ensures DimmsOf(api, cfg, resp) == Ok(f.dimms) && ProcessorsOf(api, cfg, sys.systems[0]) == Ok(f.processors)
    ensures DrivesOf(api, cfg, sys, resp) == Ok(f.drives) && FullInventory(api, cfg, resp) == Ok(f.inventory)
  {
  }

  /** What full planning has established, once it succeeded. */
  lemma FullFactsParts(api: Api, cfg: Config, chassis: seq<string>, f: Facts, virtual: seq<string>)
    requires FullFacts(api, cfg, chassis) == Ok((f, virtual))
    ensures SystemsOf(api, cfg, chassis) == Ok(f.sys) && f.sys.systems != []
    ensures VirtualUrls(api, cfg, f.sys) == Ok(virtual)
    ensures api.system(cfg.url + f.sys.systems[0]) == Got(f.resp)
    ensures Managers(api, cfg).Ok? && FullRest(api, cfg, ChosenManager(Managers(api, cfg).value), f.sys, f.resp) == Ok(f)
  {
    var managers, sys := Managers(api, cfg), SystemsOf(api, cfg, chassis);
    assert managers.Ok? && sys.Ok?;
    var virt, resp := VirtualUrls(api, cfg, sys.value), api.system(cfg.url + sys.value.systems[0]);
    assert virt.Ok? && resp.Got?;
    FullRestParts(api, cfg, ChosenManager(managers.value), sys.value, resp.body, f);
  }

  /** The inventory tasks of the two planners: the full one drops the listed members when no pattern is configured. */
  lemma InventoriesCompared(api: Api, cfg: Config, resp: System)
    requires FullInventory(api, cfg, resp).Ok?
    ensures PartialInventory(api, cfg, resp).Ok?
    ensures var f, p := FullInventory(api, cfg, resp).value, PartialInventory(api, cfg, resp).value;
            && (forall t :: t in p ==> t.handlers == INVENTORY)
            && f == if cfg.firmware.Some? || FirmwareInventoryUrl(resp) != "" then p else []
  {
  }

  /** The facts of a full plan, with the inventory the partial planner would list. */
  function AsPartial(api: Api, cfg: Config, f: Facts): Facts {
    var inventory := PartialInventory(api, cfg, f.resp);
    if inventory.Ok? then f.(inventory := inventory.value) else f
  }

  lemma QueriesOfFull(api: Api, cfg: Config, chassis: seq<string>, f: Facts, virtual: seq<string>, q: Queries)
    requires FullFacts(api, cfg, chassis) == Ok((f, virtual))
    requires q == QueriesOn(api, cfg, Context(api, cfg, chassis))
    ensures q.context == Ok((f.sys, f.resp)) && f.sys.systems != []
    ensures q.managers.Ok? && ChosenManager(q.managers.value) == f.manager
    ensures q.dimms == Ok(f.dimms) && q.processors == Ok(f.processors) && q.drives == Ok(f.drives)
    ensures q.inventory == Ok(AsPartial(api, cfg, f).inventory)
    ensures FullInventory(api, cfg, f.resp) == Ok(f.inventory)
  {
    FullFactsParts(api, cfg, chassis, f, virtual);
    FullRestParts(api, cfg, ChosenManager(Managers(api, cfg).value), f.sys, f.resp, f);
    InventoriesCompared(api, cfg, f.resp);
    assert Context(api, cfg, chassis) == Ok((f.sys, f.resp));
  }

  /** Whenever the full planner succeeds, so does every partial request but firmware alone, on the same facts. */
  lemma FullImpliesPartial(api: Api, cfg: Config, chassis: seq<string>, c: set<Component>, f: Facts, virtual: seq<string>)
    requires FullFacts(api, cfg, chassis) == Ok((f, virtual)) && NeedsSystems(c)
    ensures PartialFacts(api, cfg, chassis, c).Ok?
    ensures Agree(cfg.url, AsPartial(api, cfg, f), PartialFacts(api, cfg, chassis, c).value, c)
  {
    var q := QueriesOn(api, cfg, Context(api, cfg, chassis));
    QueriesOfFull(api, cfg, chassis, f, virtual, q);
    AssembleSucceeds(q, c);
    AssembleFrom(cfg.url, q, c, AsPartial(api, cfg, f));
  }

  lemma AssembleFrom(url: string, q: Queries, c: set<Component>, g: Facts)
    requires q.context == Ok((g.sys, g.resp)) && q.managers.Ok? && ChosenManager(q.managers.value) == g.manager
    requires q.dimms == Ok(g.dimms) && q.processors == Ok(g.processors) && q.drives == Ok(g.drives) && q.inventory == Ok(g.inventory)
    ensures Assemble(q, c).Ok? && Agree(url, g, Assemble(q, c).value, c)
  {
    forall x | x in c ensures Group(url, g, x) == Group(url, Assemble(q, c).value, x) {
      match x case CSystem => case CPower => case CThermal => case CMemory => case CProcessor =>
        case CStorageController => case CDrives => case CFirmware =>
    }
  }

  lemma {:induction false} GatherMono(url: string, order: seq<Component>, c: set<Component>, wider: set<Component>, f: Facts, g: Facts)
    requires c <= wider && Agree(url, g, f, c)
    ensures multiset(Gather(url, f, order, c)) <= multiset(Gather(url, g, order, wider))
  {
    if order != [] {
      GatherMono(url, order[1..], c, wider, f, g);
    }
  }

  lemma {:induction false} GatherAgrees(url: string, order: seq<Component>, c: set<Component>, f: Facts, g: Facts)
    requires Agree(url, g, f, c)
    ensures Gather(url, f, order, c) == Gather(url, g, order, c)
  {
    if order != [] {
      GatherAgrees(url, order[1..], c, f, g);
    }
  }

  lemma InAll(x: Component)
    ensures x in ALL
  {
    match x case CSystem => case CPower => case CThermal => case CMemory => case CProcessor =>
      case CStorageController => case CDrives => case CFirmware =>
  }

  lemma {:induction false} GatherConcat(url: string, f: Facts, a: seq<Component>, b: seq<Component>, c: set<Component>)
    ensures Gather(url, f, a + b, c) == Gather(url, f, a, c) + Gather(url, f, b, c)
  {
    if a == [] {
      assert a + b == b;
    } else {
      assert (a + b)[1..] == a[1..] + b;
      GatherConcat(url, f, a[1..], b, c);
    }
  }

  lemma GatherFour(url: string, f: Facts, w: Component, x: Component, y: Component, z: Component, c: set<Component>)
    ensures Gather(url, f, [w, x, y, z], c) == Chosen(url, f, w, c) + Chosen(url, f, x, c) + Chosen(url, f, y, c) + Chosen(url, f, z, c)
  {
    assert [w, x, y, z][1..] == [x, y, z] && [x, y, z][1..] == [y, z] && [y, z][1..] == [z] && [z][1..] == [];
    var a, b, d, e := Chosen(url, f, w, c), Chosen(url, f, x, c), Chosen(url, f, y, c), Chosen(url, f, z, c);
    assert Gather(url, f, [z], c) == e + Gather(url, f, [], c) == e;
    assert Gather(url, f, [y, z], c) == d + e;
    assert a + (b + (d + e)) == a + b + d + e;
  }

  /** All eight components, written out. */
  lemma GatherEight(url: string, f: Facts, order: seq<Component>, c: set<Component>, sy: seq<Task>, pw: seq<Task>, th: seq<Task>,
                    me: seq<Task>, pr: seq<Task>, sc: seq<Task>, dr: seq<Task>, fw: seq<Task>)
    requires order == ORDER
    requires sy == Chosen(url, f, CSystem, c) && pw == Chosen(url, f, CPower, c) && th == Chosen(url, f, CThermal, c)
    requires me == Chosen(url, f, CMemory, c) && pr == Chosen(url, f, CProcessor, c)
    requires sc == Chosen(url, f, CStorageController, c) && dr == Chosen(url, f, CDrives, c) && fw == Chosen(url, f, CFirmware, c)
    ensures Gather(url, f, order, c) == sy + pw + th + me + pr + sc + dr + fw
  {
    GatherFour(url, f, CSystem, CPower, CThermal, CMemory, c);
    GatherFour(url, f, CProcessor, CStorageController, CDrives, CFirmware, c);
    var first, last := [CSystem, CPower, CThermal, CMemory], [CProcessor, CStorageController, CDrives, CFirmware];
    assert order == first + last;
    GatherConcat(url, f, first, last, c);
    Regroup(sy + pw + th + me, pr, sc, dr, fw);
  }

  lemma Regroup<T>(a: seq<T>, b: seq<T>, c: seq<T>, d: seq<T>, e: seq<T>)
    ensures a + (b + c + d + e) == a + b + c + d + e
  {
  }

  /** The tasks both planners list in the same way. */
  function CommonTasks(url: string, f: Facts): seq<Task> {
    Group(url, f, CSystem) + Group(url, f, CPower) + Group(url, f, CThermal) + Group(url, f, CMemory)
    + Group(url, f, CProcessor) + Group(url, f, CStorageController) + Group(url, f, CDrives)
  }

  lemma GatherAll(url: string, f: Facts, order: seq<Component>, all: set<Component>)
    requires order == ORDER && all == ALL
    ensures Gather(url, f, order, all) == CommonTasks(url, f) + Group(url, f, CFirmware)
  {
    GatherEight(url, f, order, all, Group(url, f, CSystem), Group(url, f, CPower), Group(url, f, CThermal), Group(url, f, CMemory),
                Group(url, f, CProcessor), Group(url, f, CStorageController), Group(url, f, CDrives), Group(url, f, CFirmware));
  }

  lemma Shuffled<T>(s: seq<T>, i: seq<T>, a: seq<T>, l: seq<T>, p: seq<T>, d: seq<T>, c: seq<T>, v: seq<T>, pw: seq<T>,
                    th: seq<T>, m: seq<T>, mg: seq<T>, pr: seq<T>, full: seq<T>, common: seq<T>)
    requires full == s + i + a + l + p + d + c + v + pw + th + m + mg + pr
    requires common == s + pw + th + m + pr + (c + a) + (l + d + p)
    ensures multiset(full) == multiset(common) + (multiset(i) + multiset(mg)) + multiset(v)
  {
  }

  lemma FullTasksSum(url: string, f: Facts, virtual: seq<string>)
    requires f.sys.systems != []
    ensures multiset(FullTasks(url, f, virtual))
         == multiset(CommonTasks(url, f)) + (multiset(f.inventory) + multiset([Task(url + f.manager, [Firmware, IloSelfTest])]))
            + multiset(TasksFor(url, virtual, [LogicalDrive]))
  {
    var sc, arrays := TasksFor(url, f.sys.storageController, [StorageController]), TasksFor(url, f.drives.arrayControllers, [StorageController]);
    var logical, drives := TasksFor(url, f.drives.logical, [LogicalDrive]), TasksFor(url, f.sys.drives, [UnknownDrive]);
    var physical, v := TasksFor(url, f.drives.physical, [UnknownDrive]), TasksFor(url, virtual, [LogicalDrive]);
    var system, manager := [Task(url + f.sys.systems[0], [MemorySummary, StorageBattery])], [Task(url + f.manager, [Firmware, IloSelfTest])];
    Shuffled(system, f.inventory, arrays, logical, physical, drives, sc, v, Group(url, f, CPower), Group(url, f, CThermal),
             Group(url, f, CMemory), manager, Group(url, f, CProcessor), FullTasks(url, f, virtual), CommonTasks(url, f));
  }

  lemma PlansFromFacts(api: Api, cfg: Config, chassis: seq<string>, c: set<Component>, f: Facts, virtual: seq<string>)
    requires Chassis(api, cfg) == Ok(Some(chassis)) && FullFacts(api, cfg, chassis) == Ok((f, virtual))
    requires PartialFacts(api, cfg, chassis, c).Ok?
    ensures FullPlan(api, cfg, false) == Ok(Planned(FullTasks(cfg.url, f, virtual)))
    ensures PartialPlan(api, cfg, c) == Ok(Planned(Gather(cfg.url, PartialFacts(api, cfg, chassis, c).value, ORDER, c)))
  {
  }

  lemma GatheredAll(url: string, p: Facts, f: Facts, g: Facts, order: seq<Component>, all: set<Component>)
    requires order == ORDER && all == ALL
    requires Agree(url, g, p, all) && g == f.(inventory := g.inventory)
    ensures Gather(url, p, order, all) == CommonTasks(url, f) + Group(url, g, CFirmware)
  {
    GatherAgrees(url, order, all, p, g);
    GatherAll(url, g, order, all);
    assert CommonTasks(url, f) == CommonTasks(url, g);
  }

  lemma PartialAll(api: Api, cfg: Config, chassis: seq<string>, f: Facts, virtual: seq<string>)
    requires Chassis(api, cfg) == Ok(Some(chassis)) && FullFacts(api, cfg, chassis) == Ok((f, virtual))
    ensures FullPlan(api, cfg, false) == Ok(Planned(FullTasks(cfg.url, f, virtual)))
    ensures PartialPlan(api, cfg, ALL)
         == Ok(Planned(CommonTasks(cfg.url, f) + Group(cfg.url, AsPartial(api, cfg, f), CFirmware)))
  {
    InAll(CPower);
    FullImpliesPartial(api, cfg, chassis, ALL, f, virtual);
    PlansFromFacts(api, cfg, chassis, ALL, f, virtual);
    GatheredAll(cfg.url, PartialFacts(api, cfg, chassis, ALL).value, f, AsPartial(api, cfg, f), ORDER, ALL);
  }

  /**
   * Main result: whenever the full planner succeeds, its tasks are those of the partial plan for all components plus
   * the virtual drives exactly when a manager was chosen and no listed firmware member was dropped for want of a pattern.
   */
  lemma FullIsAllPartsAndVirtual(api: Api, cfg: Config, chassis: seq<string>, f: Facts, virtual: seq<string>)
    requires Chassis(api, cfg) == Ok(Some(chassis)) && FullFacts(api, cfg, chassis) == Ok((f, virtual))
    ensures FullPlan(api, cfg, false) == Ok(Planned(FullTasks(cfg.url, f, virtual)))
    ensures PartialPlan(api, cfg, ALL).Ok? && PartialPlan(api, cfg, ALL).value.Planned?
    ensures multiset(FullTasks(cfg.url, f, virtual))
              == multiset(PartialPlan(api, cfg, ALL).value.tasks) + multiset(TasksFor(cfg.url, virtual, [LogicalDrive]))
            <==> f.manager != "" && (cfg.firmware.Some? || FirmwareInventoryUrl(f.resp) != "" || PartialInventory(api, cfg, f.resp) == Ok([]))
  {
    PartialAll(api, cfg, chassis, f, virtual);
    InventoryKept(api, cfg, chassis, f, virtual);
    SumsBalance(cfg.url, f, AsPartial(api, cfg, f), virtual, multiset(PartialPlan(api, cfg, ALL).value.tasks));
  }

  lemma InventoryKept(api: Api, cfg: Config, chassis: seq<string>, f: Facts, virtual: seq<string>)
    requires FullFacts(api, cfg, chassis) == Ok((f, virtual))
    ensures f.sys.systems != []
    ensures var partial := AsPartial(api, cfg, f).inventory;
            && (f.inventory == partial || f.inventory == [])
            && (forall t :: t in partial ==> t.handlers == INVENTORY)
            && (f.inventory == partial <==>
                  cfg.firmware.Some? || FirmwareInventoryUrl(f.resp) != "" || PartialInventory(api, cfg, f.resp) == Ok([]))
  {
    QueriesOfFull(api, cfg, chassis, f, virtual, QueriesOn(api, cfg, Context(api, cfg, chassis)));
    InventoriesCompared(api, cfg, f.resp);
  }

  lemma SumsBalance(url: string, f: Facts, g: Facts, virtual: seq<string>, partial: multiset<Task>)
    requires f.sys.systems != [] && g == f.(inventory := g.inventory)
    requires f.inventory == g.inventory || f.inventory == []
    requires forall t :: t in g.inventory ==> t.handlers == INVENTORY
    requires partial == multiset(CommonTasks(url, f)) + multiset(Group(url, g, CFirmware))
    ensures multiset(FullTasks(url, f, virtual)) == partial + multiset(TasksFor(url, virtual, [LogicalDrive]))
            <==> f.manager != "" && f.inventory == g.inventory
  {
    FullTasksSum(url, f, virtual);
    FirmwareBalance(multiset(CommonTasks(url, f)), multiset(TasksFor(url, virtual, [LogicalDrive])), f.inventory, g.inventory,
                    [Task(url + f.manager, [Firmware, IloSelfTest])], Group(url, g, CFirmware), f.manager != "");
  }

  lemma Cancel<T>(a: multiset<T>, x: multiset<T>, y: multiset<T>, b: multiset<T>)
    requires a + x + b == a + y + b
    ensures x == y
  {
    forall t ensures x[t] == y[t] {
      assert (a + x + b)[t] == a[t] + x[t] + b[t];
      assert (a + y + b)[t] == a[t] + y[t] + b[t];
    }
  }

  /** The arithmetic of the comparison: the manager task cannot make up for missing inventory tasks. */
  lemma FirmwareBalance(common: multiset<Task>, virtual: multiset<Task>, full: seq<Task>, partial: seq<Task>,
                        manager: seq<Task>, group: seq<Task>, chosen: bool)
    requires full == partial || full == []
    requires |manager| == 1 && manager[0] !in partial
    requires group == (if chosen then manager else []) + partial
    ensures common + (multiset(full) + multiset(manager)) + virtual == common + multiset(group) + virtual
            <==> chosen && full == partial
  {
    var left, right := multiset(full) + multiset(manager), multiset(group);
    if chosen {
      assert right == multiset(manager) + multiset(partial);
    } else {
      assert group == partial;
    }
    if common + left + virtual == common + right + virtual {
      Cancel(common, left, right, virtual);
      assert manager[0] in multiset(manager);
      assert left[manager[0]] >= 1 && multiset(partial)[manager[0]] == 0;
      assert |left| == |full| + 1 && |right| == |group|;
    }
  }

  lemma AllWithinFull(url: string, f: Facts, virtual: seq<string>, order: seq<Component>, all: set<Component>)
    requires f.sys.systems != [] && order == ORDER && all == ALL
    ensures multiset(Gather(url, f, order, all)) <= multiset(FullTasks(url, f, virtual))
  {
    GatherAll(url, f, order, all);
    FullTasksSum(url, f, virtual);
    var manager := [Task(url + f.manager, [Firmware, IloSelfTest])];
    Within(Gather(url, f, order, all), CommonTasks(url, f), Group(url, f, CFirmware), manager, f.inventory,
           multiset(FullTasks(url, f, virtual)), multiset(TasksFor(url, virtual, [LogicalDrive])));
  }

  lemma Within<T>(gathered: seq<T>, common: seq<T>, firmware: seq<T>, manager: seq<T>, inventory: seq<T>, full: multiset<T>, v: multiset<T>)
    requires gathered == common + firmware
    requires firmware == manager + inventory || firmware == [] + inventory
    requires full == multiset(common) + (multiset(inventory) + multiset(manager)) + v
    ensures multiset(gathered) <= full
  {
    assert multiset(manager + inventory) == multiset(manager) + multiset(inventory);
    assert [] + inventory == inventory;
  }

  lemma GatherWithinFull(url: string, c: set<Component>, p: Facts, g: Facts, f: Facts, virtual: seq<string>)
    requires Agree(url, g, p, c) && f.sys.systems != []
    requires g == f.(inventory := g.inventory) && (CFirmware in c ==> g == f)
    ensures multiset(Gather(url, p, ORDER, c)) <= multiset(FullTasks(url, f, virtual))
  {
    forall x | x in c ensures x in ALL && Group(url, f, x) == Group(url, p, x) {
      InAll(x);
      assert Group(url, f, x) == Group(url, g, x);
    }
    GatherMono(url, ORDER, c, ALL, p, f);
    AllWithinFull(url, f, virtual, ORDER, ALL);
  }

  // ---------------------------------------------------------------- firmware alone

  lemma InventoryHandlers(api: Api, cfg: Config, resp: System)
    requires PartialInventory(api, cfg, resp).Ok?
    ensures forall t :: t in PartialInventory(api, cfg, resp).value ==> t.handlers == INVENTORY
  {
  }

  function ManagerTask(url: string, manager: string): seq<Task> {
    if manager != "" then [Task(url + manager, [Firmware, IloSelfTest])] else []
  }

  lemma GatherFirmware(url: string, f: Facts, order: seq<Component>, c: set<Component>, tasks: seq<Task>)
    requires order == ORDER && c == {CFirmware} && tasks == Group(url, f, CFirmware)
    ensures Gather(url, f, order, c) == tasks
  {
    GatherEight(url, f, order, c, [], [], [], [], [], [], [], tasks);
    assert [] + [] + [] + [] + [] + [] + [] + tasks == tasks;
  }

  lemma FirmwareFacts(api: Api, cfg: Config, chassis: seq<string>, f: Facts, virtual: seq<string>, inventory: seq<Task>, c: set<Component>)
    returns (p: Facts)
    requires FullFacts(api, cfg, chassis) == Ok((f, virtual))
    requires PartialInventory(api, cfg, NO_SYSTEM) == Ok(inventory) && c == {CFirmware}
    ensures PartialFacts(api, cfg, chassis, c) == Ok(p) && p.manager == f.manager && p.inventory == inventory
  {
    p := PartialFacts(api, cfg, chassis, c).value;
    QueriesOfFull(api, cfg, chassis, f, virtual, QueriesOn(api, cfg, Context(api, cfg, chassis)));
  }

  lemma FirmwareAlonePlan(api: Api, cfg: Config, chassis: seq<string>, c: set<Component>, p: Facts, tasks: seq<Task>)
    requires Chassis(api, cfg) == Ok(Some(chassis)) && PartialFacts(api, cfg, chassis, c) == Ok(p) && c == {CFirmware}
    requires tasks == ManagerTask(cfg.url, p.manager) + p.inventory
    ensures PartialPlan(api, cfg, c) == Ok(Planned(tasks))
  {
    GatherFirmware(cfg.url, p, ORDER, c, tasks);
  }

  lemma CommonHandlers(url: string, f: Facts, t: Task)
    requires t.handlers == INVENTORY
    ensures t !in CommonTasks(url, f)
  {
    assert [Firmware, IloSelfTest] != INVENTORY;
    forall x: Component | x != CFirmware ensures t !in Group(url, f, x) {
      match x case CSystem => case CPower => case CThermal => case CMemory => case CProcessor =>
        case CStorageController => case CDrives => case _ =>
    }
  }

  lemma OnlyInventory(url: string, f: Facts, virtual: seq<string>, t: Task)
    requires f.sys.systems != [] && t.handlers == INVENTORY
    ensures multiset(FullTasks(url, f, virtual))[t] == multiset(f.inventory)[t]
  {
    FullTasksSum(url, f, virtual);
    CommonHandlers(url, f, t);
    Elsewhere(multiset(FullTasks(url, f, virtual)), CommonTasks(url, f), f.inventory, [Task(url + f.manager, [Firmware, IloSelfTest])],
              TasksFor(url, virtual, [LogicalDrive]), t);
  }

  lemma Elsewhere(full: multiset<Task>, common: seq<Task>, inventory: seq<Task>, manager: seq<Task>, virtual: seq<Task>, t: Task)
    requires full == multiset(common) + (multiset(inventory) + multiset(manager)) + multiset(virtual)
    requires t !in common && t !in manager && t !in virtual
    ensures full[t] == multiset(inventory)[t]
  {
    assert multiset(common)[t] == 0 && multiset(manager)[t] == 0 && multiset(virtual)[t] == 0;
  }

  lemma FirmwareTasks(api: Api, cfg: Config, chassis: seq<string>, f: Facts, virtual: seq<string>, inventory: seq<Task>, c: set<Component>)
    requires Chassis(api, cfg) == Ok(Some(chassis)) && FullFacts(api, cfg, chassis) == Ok((f, virtual))
    requires PartialInventory(api, cfg, NO_SYSTEM) == Ok(inventory) && c == {CFirmware}
    ensures PartialPlan(api, cfg, c).Ok? && PartialPlan(api, cfg, c).value.Planned?
    ensures multiset(PartialPlan(api, cfg, c).value.tasks) <= multiset(FullTasks(cfg.url, f, virtual))
            <==> multiset(inventory) <= multiset(f.inventory)
  {
    var manager := ManagerTask(cfg.url, f.manager);
    var tasks := manager + inventory;
    var p := FirmwareFacts(api, cfg, chassis, f, virtual, inventory, c);
    FirmwareAlonePlan(api, cfg, chassis, c, p, tasks);
    InventoryHandlers(api, cfg, NO_SYSTEM);
    InventoryWithin(cfg.url, f, virtual, inventory, manager, tasks);
  }

  /** The inventory seen without a system, against that of the full plan, by the guards of the two planners. */
  lemma InventoryGuards(api: Api, cfg: Config, f: Facts, inventory: seq<Task>)
    requires PartialInventory(api, cfg, NO_SYSTEM) == Ok(inventory) && FullInventory(api, cfg, f.resp) == Ok(f.inventory)
    ensures var own := FirmwareInventoryUrl(f.resp);
            multiset(inventory) <= multiset(f.inventory)
            <==> inventory == [] || (if own == "" then cfg.firmware.Some? else inventory == [Task(cfg.url + own, INVENTORY)])
  {
    InventoriesCompared(api, cfg, f.resp);
    var own := FirmwareInventoryUrl(f.resp);
    if own == "" {
      assert PartialInventory(api, cfg, f.resp) == PartialInventory(api, cfg, NO_SYSTEM);
      NoneWithin(inventory, f.inventory);
    } else {
      OneWithin(inventory, Task(cfg.url + own, INVENTORY));
    }
  }

  lemma NoneWithin<T>(a: seq<T>, b: seq<T>)
    ensures b == [] && multiset(a) <= multiset(b) ==> a == []
  {
    if a != [] {
      assert a[0] in multiset(a);
    }
  }

  lemma OneWithin<T>(a: seq<T>, x: T)
    ensures multiset(a) <= multiset([x]) <==> a == [] || a == [x]
  {
    if multiset(a) <= multiset([x]) {
      assert multiset([x]) == multiset(a) + (multiset([x]) - multiset(a));
      assert |a| <= 1;
      if |a| == 1 {
        assert a[0] in multiset(a);
      }
    }
  }

  /**
   * The exception: a plan for firmware alone does not look at the systems. It is part of the full plan exactly when
   * it lists no inventory, or no system has an inventory link of its own and a pattern is set, or its only inventory
   * task is that of the system's link.
   */
  lemma FirmwareAlone(api: Api, cfg: Config, chassis: seq<string>, f: Facts, virtual: seq<string>, inventory: seq<Task>, c: set<Component>)
    requires Chassis(api, cfg) == Ok(Some(chassis)) && FullFacts(api, cfg, chassis) == Ok((f, virtual))
    requires PartialInventory(api, cfg, NO_SYSTEM) == Ok(inventory) && c == {CFirmware}
    ensures PartialPlan(api, cfg, c).Ok? && PartialPlan(api, cfg, c).value.Planned?
    ensures var own := FirmwareInventoryUrl(f.resp);
            multiset(PartialPlan(api, cfg, c).value.tasks) <= multiset(FullTasks(cfg.url, f, virtual))
            <==> inventory == [] || (if own == "" then cfg.firmware.Some? else inventory == [Task(cfg.url + own, INVENTORY)])
  {
    FirmwareTasks(api, cfg, chassis, f, virtual, inventory, c);
    QueriesOfFull(api, cfg, chassis, f, virtual, QueriesOn(api, cfg, Context(api, cfg, chassis)));
    InventoryGuards(api, cfg, f, inventory);
  }

  lemma InventoryWithin(url: string, f: Facts, virtual: seq<string>, inventory: seq<Task>, manager: seq<Task>, tasks: seq<Task>)
    requires f.sys.systems != [] && manager == ManagerTask(url, f.manager) && tasks == manager + inventory
    requires forall t :: t in inventory ==> t.handlers == INVENTORY
    ensures multiset(tasks) <= multiset(FullTasks(url, f, virtual)) <==> multiset(inventory) <= multiset(f.inventory)
  {
    var full := multiset(FullTasks(url, f, virtual));
    assert multiset(tasks) == multiset(manager) + multiset(inventory);
    if multiset(tasks) <= full {
      forall t ensures multiset(inventory)[t] <= multiset(f.inventory)[t] {
        if t in inventory {
          OnlyInventory(url, f, virtual, t);
        }
      }
    }
    if multiset(inventory) <= multiset(f.inventory) {
      FullTasksSum(url, f, virtual);
    }
  }

  // ---------------------------------------------------------------- any other request

  lemma {:induction false} GatherContains(url: string, f: Facts, order: seq<Component>, c: set<Component>, x: Component, t: Task)
    requires x in order && x in c && t in Group(url, f, x)
    ensures t in Gather(url, f, order, c)
  {
    if order[0] != x {
      GatherContains(url, f, order[1..], c, x, t);
    }
  }

  lemma DroppedNotWithin(url: string, f: Facts, virtual: seq<string>, p: Facts, t: Task, c: set<Component>, order: seq<Component>)
    requires f.sys.systems != [] && f.inventory == [] && order == ORDER && CFirmware in c
    requires t in p.inventory && t.handlers == INVENTORY
    ensures !(multiset(Gather(url, p, order, c)) <= multiset(FullTasks(url, f, virtual)))
  {
    assert order[7] == CFirmware;
    GatherContains(url, p, order, c, CFirmware, t);
    OnlyInventory(url, f, virtual, t);
    assert t in multiset(Gather(url, p, order, c)) && t !in multiset(FullTasks(url, f, virtual));
  }

  /**
   * Every partial plan but firmware alone is part of the full plan, exactly when firmware is not asked for or no
   * listed firmware member was dropped from the full plan for want of a pattern.
   */
  lemma PartialWithinFull(api: Api, cfg: Config, chassis: seq<string>, c: set<Component>, f: Facts, virtual: seq<string>)
    requires Chassis(api, cfg) == Ok(Some(chassis)) && FullFacts(api, cfg, chassis) == Ok((f, virtual))
    requires NeedsSystems(c)
    ensures PartialPlan(api, cfg, c).Ok? && PartialPlan(api, cfg, c).value.Planned?
    ensures multiset(PartialPlan(api, cfg, c).value.tasks) <= multiset(FullTasks(cfg.url, f, virtual))
            <==> (CFirmware in c ==>
                    cfg.firmware.Some? || FirmwareInventoryUrl(f.resp) != "" || PartialInventory(api, cfg, f.resp) == Ok([]))
  {
    var g := AsPartial(api, cfg, f);
    FullImpliesPartial(api, cfg, chassis, c, f, virtual);
    PlansFromFacts(api, cfg, chassis, c, f, virtual);
    InventoryKept(api, cfg, chassis, f, virtual);
    var p := PartialFacts(api, cfg, chassis, c).value;
    if CFirmware in c && f.inventory != g.inventory {
      FirmwareOf(api, cfg, chassis, c, f, virtual);
      DroppedNotWithin(cfg.url, f, virtual, p, g.inventory[0], c, ORDER);
    } else {
      GatherWithinFull(cfg.url, c, p, g, f, virtual);
    }
  }

  lemma FirmwareOf(api: Api, cfg: Config, chassis: seq<string>, c: set<Component>, f: Facts, virtual: seq<string>)
    requires FullFacts(api, cfg, chassis) == Ok((f, virtual)) && NeedsSystems(c) && CFirmware in c
    ensures PartialFacts(api, cfg, chassis, c).Ok?
    ensures PartialFacts(api, cfg, chassis, c).value.inventory == AsPartial(api, cfg, f).inventory
  {
    var q := QueriesOn(api, cfg, Context(api, cfg, chassis));
    QueriesOfFull(api, cfg, chassis, f, virtual, q);
    AssembleSucceeds(q, c);
  }

  // ---------------------------------------------------------------- a server on which the plans differ

  const ONE_SYSTEM := Oem.Body(Oem.LinksJson(Some(Oem.ObjLinks("/s/", "")), None, None, None, None),
                               Oem.LinksJson(None, None, None, None, None), None, None)
  const TWO_FIRMWARES := NO_SYSTEM.(updateService := "/u/", firmwareInventory := ["/f/1", "/f/2"])
  const OWN_LINK := TWO_FIRMWARES.(hpeUpper := NO_OEM.(firmwareInventory := "/own/"))

  /** One chassis, manager and processor, one system, and an update service with two links. */
  function SmallServer(members: seq<string>, system: System): Api {
    Api(_ => Got(members), _ => Got(ONE_SYSTEM), _ => Got(system), _ => Failed(Other))
  }

  lemma SmallSystems(cfg: Config, members: seq<string>, system: System, sys: Endpoints.SystemEndpoints)
    requires members == ["/m/"] && cfg.drive == None
    requires sys == Endpoints.NO_ENDPOINTS.(systems := ["/s/"])
    ensures SystemsOf(SmallServer(members, system), cfg, members) == Ok(sys)
  {
    var c := Oem.EMPTY.(upper := Oem.NO_LINKS.(system := Oem.Slice(["/s/"], [])));
    assert Oem.Decode(Oem.EMPTY, ONE_SYSTEM) == Some(c) by {
      assert [] + ["/s/"] == ["/s/"];
    }
    Endpoints.ContributeSystems([], Oem.Slice(["/s/"], []));
    assert Endpoints.AddLinks([], ["/s/"], None) == Endpoints.AddLinks(["/s/"], [], None) == Ok(["/s/"]);
    Endpoints.WalkCons(true, ONE_SYSTEM, [], Oem.EMPTY, Endpoints.NO_ENDPOINTS, None, c);
    assert Endpoints.Bodies(Prefixed(cfg.url, members), SmallServer(members, system).chassis) == [Got(ONE_SYSTEM)] + [];
  }

  lemma SmallFacts(cfg: Config, members: seq<string>, system: System, f: Facts)
    requires members == ["/m/"] && cfg.drive == None && cfg.firmware == None
    requires system == TWO_FIRMWARES || system == OWN_LINK
    requires f == Facts(Endpoints.NO_ENDPOINTS.(systems := ["/s/"]), system, Drives.NO_DRIVES, "/m/", [], members,
                        if system == OWN_LINK then [Task(cfg.url + "/own/", INVENTORY)] else [])
    ensures Chassis(SmallServer(members, system), cfg) == Ok(Some(members))
    ensures FullFacts(SmallServer(members, system), cfg, members) == Ok((f, []))
  {
    assert members[0] == "/m/" && Slashed(members) == members;
    SmallSystems(cfg, members, system, f.sys);
    assert VirtualUrls(SmallServer(members, system), cfg, f.sys) == Ok([]);
    assert FullRest(SmallServer(members, system), cfg, "/m/", f.sys, system) == Ok(f);
  }

  lemma SmallInventory(cfg: Config, members: seq<string>, system: System, resp: System)
    requires cfg.firmware == None && (system == TWO_FIRMWARES || system == OWN_LINK) && FirmwareInventoryUrl(resp) == ""
    ensures PartialInventory(SmallServer(members, system), cfg, resp) == Ok(TasksFor(cfg.url, ["/f/1", "/f/2"], INVENTORY))
  {
    Endpoints.FilteredNone(["/f/1", "/f/2"]);
  }

  /**
   * Without a firmware pattern the plans do differ on this server: the partial plan lists two firmware members
   * that the full one lacks.
   */
  lemma MembersDropped(cfg: Config, members: seq<string>, f: Facts)
    requires cfg.drive == None && cfg.firmware == None && members == ["/m/"]
    requires f == Facts(Endpoints.NO_ENDPOINTS.(systems := ["/s/"]), TWO_FIRMWARES, Drives.NO_DRIVES, "/m/", [], members, [])
    ensures var api := SmallServer(members, TWO_FIRMWARES);
            && FullPlan(api, cfg, false) == Ok(Planned(FullTasks(cfg.url, f, [])))
            && PartialPlan(api, cfg, ALL).Ok? && PartialPlan(api, cfg, ALL).value.Planned?
            && multiset(FullTasks(cfg.url, f, [])) != multiset(PartialPlan(api, cfg, ALL).value.tasks)
  {
    var api := SmallServer(members, TWO_FIRMWARES);
    SmallFacts(cfg, members, TWO_FIRMWARES, f);
    SmallInventory(cfg, members, TWO_FIRMWARES, f.resp);
    FullIsAllPartsAndVirtual(api, cfg, members, f, []);
    assert TasksFor(cfg.url, [], [LogicalDrive]) == [];
    assert multiset(TasksFor(cfg.url, [], [LogicalDrive])) == multiset{};
  }

  /**
   * And where the system has an inventory link of its own, a plan for firmware alone, which does not see it, lists the
   * two members of the update service, which the full plan lacks.
   */
  lemma FirmwareAloneExceeds(cfg: Config, members: seq<string>, f: Facts, c: set<Component>, inventory: seq<Task>)
    requires cfg.drive == None && cfg.firmware == None && members == ["/m/"] && c == {CFirmware}
    requires f == Facts(Endpoints.NO_ENDPOINTS.(systems := ["/s/"]), OWN_LINK, Drives.NO_DRIVES, "/m/", [], members,
                        [Task(cfg.url + "/own/", INVENTORY)])
    requires inventory == TasksFor(cfg.url, ["/f/1", "/f/2"], INVENTORY)
    ensures var api := SmallServer(members, OWN_LINK);
            && FullPlan(api, cfg, false) == Ok(Planned(FullTasks(cfg.url, f, [])))
            && PartialPlan(api, cfg, c).Ok? && PartialPlan(api, cfg, c).value.Planned?
            && !(multiset(PartialPlan(api, cfg, c).value.tasks) <= multiset(FullTasks(cfg.url, f, [])))
  {
    var api := SmallServer(members, OWN_LINK);
    SmallFacts(cfg, members, OWN_LINK, f);
    SmallInventory(cfg, members, OWN_LINK, NO_SYSTEM);
    assert |inventory| == 2;
    FirmwareAlone(api, cfg, members, f, [], inventory, c);
  }
}
