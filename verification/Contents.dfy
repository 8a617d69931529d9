/** What the lists of the planners hold: volumes, virtual drives, and the drives of SmartStorage or Storage. */
module Contents {
  import opened Outcomes
  import opened Texts
  import opened Urls
  import opened Plans
  import Endpoints
  import Drives

  // ---------------------------------------------------------------- volumes and virtual drives

  /** All volume links of all controllers, in controller order. */
  function AllVolumes(api: Api, cfg: Config, controllers: seq<string>): seq<string> {
    if controllers == [] then []
    else
      var got := api.system(cfg.url + controllers[0]);
      (if got.Got? then got.body.volumes else []) + AllVolumes(api, cfg, controllers[1..])
  }

  lemma {:induction false} VolumesCollected(api: Api, cfg: Config, controllers: seq<string>, acc: seq<string>)
    requires Volumes(api, cfg, controllers, acc).Ok?
    ensures "" !in AllVolumes(api, cfg, controllers)
    ensures Volumes(api, cfg, controllers, acc)
         == if cfg.drive.Some? then Endpoints.AddLinks(acc, AllVolumes(api, cfg, controllers), cfg.drive) else Ok(acc)
    decreases |controllers|
  {
    if controllers != [] {
      var here, rest := api.system(cfg.url + controllers[0]).body.volumes, AllVolumes(api, cfg, controllers[1..]);
      if cfg.drive.Some? {
        VolumesCollected(api, cfg, controllers[1..], Endpoints.AddLinks(acc, here, cfg.drive).value);
        Endpoints.AddLinksConcat(acc, here, rest, cfg.drive);
      } else {
        VolumesCollected(api, cfg, controllers[1..], acc);
      }
    }
  }

  /** The volumes looked at: none without a drive pattern, else the first occurrences of all that the pattern leaves. */
  lemma VolumesCanonical(api: Api, cfg: Config, controllers: seq<string>, volumes: seq<string>)
    requires Volumes(api, cfg, controllers, []) == Ok(volumes)
    ensures "" !in AllVolumes(api, cfg, controllers)
    ensures cfg.drive.None? ==> volumes == []
    ensures cfg.drive.Some? ==>
              && volumes == FirstOccurrences(Filtered(Slashed(AllVolumes(api, cfg, controllers)), cfg.drive))
              && NoDuplicates(volumes)
  {
    VolumesCollected(api, cfg, controllers, []);
    if cfg.drive.Some? {
      Endpoints.AddedToNothing(AllVolumes(api, cfg, controllers), cfg.drive, volumes);
    }
  }

  function VirtualIn(api: Api, cfg: Config, volume: string): seq<string> {
    var members := MemberUrls(api, cfg.url + volume);
    if members.Ok? then VirtualOf(members.value) else []
  }

  /** All members of all volumes that have Virtual in their name, in order. */
  function AllVirtual(api: Api, cfg: Config, volumes: seq<string>): seq<string> {
    if volumes == [] then [] else VirtualIn(api, cfg, volumes[0]) + AllVirtual(api, cfg, volumes[1..])
  }

  lemma {:induction false} VirtualCollected(api: Api, cfg: Config, volumes: seq<string>, acc: seq<string>)
    requires VirtualDrives(api, cfg, volumes, acc).Ok?
    ensures VirtualDrives(api, cfg, volumes, acc) == Ok(Merge(acc, AllVirtual(api, cfg, volumes)))
    decreases |volumes|
  {
    if volumes != [] {
      var here := VirtualIn(api, cfg, volumes[0]);
      VirtualCollected(api, cfg, volumes[1..], Merge(acc, here));
      MergeConcat(acc, here, AllVirtual(api, cfg, volumes[1..]));
    }
  }

  lemma {:induction false} VirtualOfMembers(members: seq<string>, u: string)
    ensures u in VirtualOf(members) <==> u in members && Contains(u, "Virtual")
  {
    if members != [] {
      VirtualOfMembers(members[1..], u);
    }
  }

  /** A volume of the list has this member, and it is a virtual drive. */
  predicate HasVirtual(api: Api, cfg: Config, volume: string, u: string) {
    var members := MemberUrls(api, cfg.url + volume);
    members.Ok? && u in members.value && Contains(u, "Virtual")
  }

  lemma VirtualInMembers(api: Api, cfg: Config, volume: string, u: string)
    ensures u in VirtualIn(api, cfg, volume) <==> HasVirtual(api, cfg, volume, u)
  {
    var members := MemberUrls(api, cfg.url + volume);
    if members.Ok? {
      VirtualOfMembers(members.value, u);
    }
  }

  lemma {:induction false} AllVirtualFrom(api: Api, cfg: Config, volumes: seq<string>, u: string) returns (v: string)
    requires u in AllVirtual(api, cfg, volumes)
    ensures v in volumes && HasVirtual(api, cfg, v, u)
  {
    VirtualInMembers(api, cfg, volumes[0], u);
    if u in VirtualIn(api, cfg, volumes[0]) {
      v := volumes[0];
    } else {
      v := AllVirtualFrom(api, cfg, volumes[1..], u);
    }
  }

  lemma {:induction false} AllVirtualHolds(api: Api, cfg: Config, volumes: seq<string>, u: string, v: string)
    requires v in volumes && HasVirtual(api, cfg, v, u)
    ensures u in AllVirtual(api, cfg, volumes)
  {
    if v == volumes[0] {
      VirtualInMembers(api, cfg, v, u);
    } else {
      AllVirtualHolds(api, cfg, volumes[1..], u, v);
    }
  }

  lemma AllVirtualMembers(api: Api, cfg: Config, volumes: seq<string>, u: string)
    ensures u in AllVirtual(api, cfg, volumes) <==> exists v :: v in volumes && HasVirtual(api, cfg, v, u)
  {
    if u in AllVirtual(api, cfg, volumes) {
      var v := AllVirtualFrom(api, cfg, volumes, u);
    }
    if v :| v in volumes && HasVirtual(api, cfg, v, u) {
      AllVirtualHolds(api, cfg, volumes, u, v);
    }
  }

  /** The virtual drives: the first occurrences of those members, exactly the virtual members of the volumes. */
  lemma VirtualCanonical(api: Api, cfg: Config, volumes: seq<string>, drives: seq<string>)
    requires VirtualDrives(api, cfg, volumes, []) == Ok(drives)
    ensures drives == FirstOccurrences(AllVirtual(api, cfg, volumes)) && NoDuplicates(drives)
    ensures forall u :: u in drives <==> exists v :: v in volumes && HasVirtual(api, cfg, v, u)
  {
    VirtualCollected(api, cfg, volumes, []);
    MergeIsFirstOccurrences(AllVirtual(api, cfg, volumes));
    MergeMembers([], AllVirtual(api, cfg, volumes));
    forall u ensures u in drives <==> exists v :: v in volumes && HasVirtual(api, cfg, v, u) {
      AllVirtualMembers(api, cfg, volumes, u);
    }
  }

  lemma VirtualUrlsCanonical(api: Api, cfg: Config, sys: Endpoints.SystemEndpoints, virtual: seq<string>)
    requires VirtualUrls(api, cfg, sys) == Ok(virtual)
    ensures "" !in AllVolumes(api, cfg, sys.storageController)
    ensures cfg.drive.None? ==> virtual == []
    ensures cfg.drive.Some? ==>
              var volumes := FirstOccurrences(Filtered(Slashed(AllVolumes(api, cfg, sys.storageController)), cfg.drive));
              && virtual == FirstOccurrences(AllVirtual(api, cfg, volumes)) && NoDuplicates(virtual)
              && forall u :: u in virtual <==> exists v :: v in volumes && HasVirtual(api, cfg, v, u)
  {
    var volumes := Volumes(api, cfg, sys.storageController, []).value;
    VolumesCanonical(api, cfg, sys.storageController, volumes);
    VirtualCanonical(api, cfg, volumes, virtual);
  }

  /** The virtual drives of a full plan, from the responses: none at all when no drive pattern is configured. */
  lemma FullVirtualDrives(api: Api, cfg: Config, chassis: seq<string>, f: Facts, virtual: seq<string>)
    requires FullFacts(api, cfg, chassis) == Ok((f, virtual))
    ensures "" !in AllVolumes(api, cfg, f.sys.storageController)
    ensures cfg.drive.None? ==> virtual == []
    ensures cfg.drive.Some? ==>
              var volumes := FirstOccurrences(Filtered(Slashed(AllVolumes(api, cfg, f.sys.storageController)), cfg.drive));
              && virtual == FirstOccurrences(AllVirtual(api, cfg, volumes)) && NoDuplicates(virtual)
              && forall u :: u in virtual <==> exists v :: v in volumes && HasVirtual(api, cfg, v, u)
  {
    FullFactsParts(api, cfg, chassis, f, virtual);
    VirtualUrlsCanonical(api, cfg, f.sys, virtual);
  }

  /** Without a drive pattern the full plan has no virtual drives, so the two plans differ in the firmware part only. */
  lemma PlansWithoutPattern(api: Api, cfg: Config, chassis: seq<string>, f: Facts, virtual: seq<string>)
    requires Chassis(api, cfg) == Ok(Some(chassis)) && FullFacts(api, cfg, chassis) == Ok((f, virtual)) && cfg.drive.None?
    ensures PartialPlan(api, cfg, ALL).Ok? && PartialPlan(api, cfg, ALL).value.Planned?
    ensures multiset(FullTasks(cfg.url, f, virtual)) == multiset(PartialPlan(api, cfg, ALL).value.tasks)
            <==> f.manager != "" && (cfg.firmware.Some? || FirmwareInventoryUrl(f.resp) != "" || PartialInventory(api, cfg, f.resp) == Ok([]))
  {
    FullVirtualDrives(api, cfg, chassis, f, virtual);
    FullIsAllPartsAndVirtual(api, cfg, chassis, f, virtual);
    assert TasksFor(cfg.url, virtual, [LogicalDrive]) == [];
  }

  // ---------------------------------------------------------------- SmartStorage or Storage

  function SmartWalk(api: Api, cfg: Config, resp: System): Outcome<Drives.DriveEndpoints> {
    Drives.AllDriveEndpoints(api.drive, cfg.url, cfg.url + SmartStorageUrl(resp), cfg.drive)
  }

  function StorageWalk(api: Api, cfg: Config, resp: System): Outcome<Drives.DriveEndpoints>
    requires resp.storage != ""
  {
    Drives.AllDriveEndpoints(api.drive, cfg.url, cfg.url + AppendSlash(resp.storage), cfg.drive)
  }

  /**
   * Storage decides when the system names it and either there is no SmartStorage and the chassis lack controllers or
   * drives, or SmartStorage was walked and, like the chassis, has no physical drive.
   */
  predicate StorageDecides(api: Api, cfg: Config, sys: Endpoints.SystemEndpoints, resp: System) {
    && resp.storage != ""
    && if SmartStorageUrl(resp) == "" then sys.storageController == [] || sys.drives == []
       else SmartWalk(api, cfg, resp).Ok? && SmartWalk(api, cfg, resp).value.physical == [] && sys.drives == []
  }

  /** The result is that of one walk, never a mixture of both, and which one it is. */
  lemma DrivesExactly(api: Api, cfg: Config, sys: Endpoints.SystemEndpoints, resp: System)
    ensures StorageDecides(api, cfg, sys, resp) ==> DrivesOf(api, cfg, sys, resp) == StorageWalk(api, cfg, resp)
    ensures !StorageDecides(api, cfg, sys, resp) ==>
              DrivesOf(api, cfg, sys, resp) == if SmartStorageUrl(resp) == "" then Ok(Drives.NO_DRIVES) else SmartWalk(api, cfg, resp)
  {
  }

  /** The same system without its SmartStorage links. */
  function WithoutSmart(resp: System): System {
    resp.(hpeUpper := resp.hpeUpper.(smartStorage := ""), hpUpper := resp.hpUpper.(smartStorage := ""),
          hpeLower := resp.hpeLower.(smartStorage := ""), hpLower := resp.hpLower.(smartStorage := ""))
  }

  /**
   * So whatever SmartStorage lists besides physical drives is dropped: if it has none, nor has the chassis, and the
   * system names Storage, then the result is that of a system without SmartStorage.
   */
  lemma SmartStorageDropped(api: Api, cfg: Config, sys: Endpoints.SystemEndpoints, resp: System)
    requires resp.storage != "" && sys.drives == []
    requires SmartStorageUrl(resp) != "" ==> SmartWalk(api, cfg, resp).Ok? && SmartWalk(api, cfg, resp).value.physical == []
    ensures DrivesOf(api, cfg, sys, resp) == DrivesOf(api, cfg, sys, WithoutSmart(resp))
  {
    DrivesExactly(api, cfg, sys, resp);
    DrivesExactly(api, cfg, sys, WithoutSmart(resp));
    assert FirstNonEmpty(["", "", "", ""]) == "" by {
      assert ["", "", "", ""][1..] == ["", "", ""] && ["", "", ""][1..] == ["", ""] && ["", ""][1..] == [""] && [""][1..] == [];
    }
  }

  /** A Storage link is left unread only where a physical drive is known; and each list is what one walk lists. */
  lemma DrivesFound(api: Api, cfg: Config, sys: Endpoints.SystemEndpoints, resp: System, r: Drives.DriveEndpoints, w: Drives.Which)
    requires DrivesOf(api, cfg, sys, resp) == Ok(r)
    ensures resp.storage != "" && !StorageDecides(api, cfg, sys, resp) ==> sys.drives != [] || r.physical != []
    ensures r == Drives.NO_DRIVES
            || exists start :: start in {SmartStorageUrl(resp), resp.storage + "/", resp.storage} && ListedFrom(api, cfg, cfg.url + start, r, w)
  {
    DrivesExactly(api, cfg, sys, resp);
    if StorageDecides(api, cfg, sys, resp) {
      Drives.DriveLists(api.drive, cfg.url, cfg.url + AppendSlash(resp.storage), cfg.drive, w);
      assert ListedFrom(api, cfg, cfg.url + AppendSlash(resp.storage), r, w);
    } else if SmartStorageUrl(resp) != "" {
      Drives.DriveLists(api.drive, cfg.url, cfg.url + SmartStorageUrl(resp), cfg.drive, w);
      assert ListedFrom(api, cfg, cfg.url + SmartStorageUrl(resp), r, w);
    }
  }

  /** The list holds what the controllers under this URL list, in their order. */
  predicate ListedFrom(api: Api, cfg: Config, start: string, r: Drives.DriveEndpoints, w: Drives.Which) {
    Drives.Run([], Drives.AllListed(api.drive, cfg.url, Drives.MembersAt(api.drive, start), w), cfg.drive) == Ok(Drives.ListOf(r, w))
  }
}
