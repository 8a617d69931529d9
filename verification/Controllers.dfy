/** How the drive walk ends, and what its lists hold, told from the responses alone. */
module Controllers {
  import opened Outcomes
  import opened Urls
  import opened Drives

  // ---------------------------------------------------------------- the walk as a list of operations

  /** A GET, or an addition to a list. */
  datatype Op = Get(url: string) | Put(a: Addition)

  /** What an operation, or a list of them, ends with. */
  datatype Fault = Fine | Fails(error: Error) | Crashes

  /** A GET fails with its error; adding an empty link that no pattern leaves out is a panic. */
  function FaultOf(api: Api, exclude: Exclude, op: Op): Fault {
    match op
    case Get(url) => if api(url).Failed? then Fails(api(url).error) else Fine
    case Put(a) => if a.raw == "" && (a.Plain? || exclude.None? || !exclude.value("")) then Crashes else Fine
  }

  function FirstFault(api: Api, exclude: Exclude, ops: seq<Op>): Fault {
    if ops == [] then Fine
    else if FaultOf(api, exclude, ops[0]) != Fine then FaultOf(api, exclude, ops[0])
    else FirstFault(api, exclude, ops[1..])
  }

  function Puts(adds: seq<Addition>): (ops: seq<Op>)
    ensures |ops| == |adds| && forall i :: 0 <= i < |ops| ==> ops[i] == Put(adds[i])
  {
    seq(|adds|, i requires 0 <= i < |adds| => Put(adds[i]))
  }

  /** Following a link, if there is one. */
  function LinkOps(api: Api, fqdn: string, url: string): seq<Op> {
    if url == "" then [] else [Get(fqdn + url)] + Puts(Plains(MembersAt(api, fqdn + url)))
  }

  function VolumeOps(api: Api, fqdn: string, volumes: seq<string>): seq<Op> {
    if volumes == [] then []
    else if volumes[0] == "" then [Put(Plain(""))]
    else
      var url := fqdn + AppendSlash(volumes[0]);
      [Get(url)] + Puts(Checks(MembersAt(api, url))) + VolumeOps(api, fqdn, volumes[1..])
  }

  function StorageOps(api: Api, fqdn: string, url: string, c: GenericDrive): seq<Op> {
    if c.storageDrives != [] then
      Puts(Checks(c.storageDrives)) + VolumeOps(api, fqdn, c.volumes) + LinkOps(api, fqdn, c.controllers)
    else if c.upperPhysical != "" || c.lowerPhysical != "" then [Put(Plain(url))]
    else []
  }

  /** The four drive links of a controller. */
  function DriveLinkOps(api: Api, fqdn: string, c: GenericDrive): seq<Op> {
    LinkOps(api, fqdn, c.upperLogical) + LinkOps(api, fqdn, c.upperPhysical) + LinkOps(api, fqdn, c.lowerLogical) + LinkOps(api, fqdn, c.lowerPhysical)
  }

  function ControllerOps(api: Api, fqdn: string, url: string): seq<Op> {
    [Get(fqdn + url)]
    + if api(fqdn + url).Failed? then []
      else StorageOps(api, fqdn, url, api(fqdn + url).body) + DriveLinkOps(api, fqdn, api(fqdn + url).body)
  }

  function AllControllerOps(api: Api, fqdn: string, urls: seq<string>): seq<Op> {
    if urls == [] then [] else ControllerOps(api, fqdn, urls[0]) + AllControllerOps(api, fqdn, urls[1..])
  }

  function WalkOps(api: Api, fqdn: string, initialUrl: string): seq<Op> {
    [Get(initialUrl)] + AllControllerOps(api, fqdn, MembersAt(api, initialUrl))
  }

  /** An outcome that is what the first fault says. */
  ghost predicate Matches<T>(r: Outcome<T>, f: Fault) {
    match f
    case Fine => r.Ok?
    case Fails(e) => r == Err(e)
    case Crashes => r.Panic?
  }

  lemma {:induction false} FaultConcat(api: Api, exclude: Exclude, a: seq<Op>, b: seq<Op>)
    ensures FirstFault(api, exclude, a + b)
         == if FirstFault(api, exclude, a) != Fine then FirstFault(api, exclude, a) else FirstFault(api, exclude, b)
  {
    if a == [] {
      assert a + b == b;
    } else {
      assert (a + b)[1..] == a[1..] + b;
      FaultConcat(api, exclude, a[1..], b);
    }
  }

  lemma FaultCons(api: Api, exclude: Exclude, op: Op, rest: seq<Op>)
    ensures FirstFault(api, exclude, [op] + rest)
         == if FaultOf(api, exclude, op) != Fine then FaultOf(api, exclude, op) else FirstFault(api, exclude, rest)
  {
    assert ([op] + rest)[1..] == rest;
  }

  lemma {:induction false} RunFaults(api: Api, acc: seq<string>, adds: seq<Addition>, exclude: Exclude)
    requires "" !in acc
    ensures Matches(Run(acc, adds, exclude), FirstFault(api, exclude, Puts(adds)))
    ensures Run(acc, adds, exclude).Ok? ==> "" !in Run(acc, adds, exclude).value
    decreases |adds|
  {
    if adds != [] {
      assert Puts(adds)[1..] == Puts(adds[1..]);
      var acc' := Add(acc, adds[0], exclude);
      if acc'.Ok? {
        RunFaults(api, acc'.value, adds[1..], exclude);
      }
    }
  }

  lemma FollowFaults(api: Api, fqdn: string, url: string, acc: seq<string>, exclude: Exclude)
    requires "" !in acc
    ensures Matches(Follow(api, fqdn, url, acc, exclude), FirstFault(api, exclude, LinkOps(api, fqdn, url)))
    ensures Follow(api, fqdn, url, acc, exclude).Ok? ==> "" !in Follow(api, fqdn, url, acc, exclude).value
  {
    if url != "" {
      FaultCons(api, exclude, Get(fqdn + url), Puts(Plains(MembersAt(api, fqdn + url))));
      RunFaults(api, acc, Plains(MembersAt(api, fqdn + url)), exclude);
    }
  }

  lemma {:induction false} VolumesFault(api: Api, fqdn: string, volumes: seq<string>, acc: seq<string>, exclude: Exclude)
    requires "" !in acc
    ensures Matches(AddVolumes(api, fqdn, volumes, acc, exclude), FirstFault(api, exclude, VolumeOps(api, fqdn, volumes)))
    ensures AddVolumes(api, fqdn, volumes, acc, exclude).Ok? ==> "" !in AddVolumes(api, fqdn, volumes, acc, exclude).value
    decreases |volumes|
  {
    if volumes != [] && volumes[0] != "" {
      var url := fqdn + AppendSlash(volumes[0]);
      var adds, rest := Checks(MembersAt(api, url)), VolumeOps(api, fqdn, volumes[1..]);
      FaultConcat(api, exclude, [Get(url)] + Puts(adds), rest);
      FaultCons(api, exclude, Get(url), Puts(adds));
      RunFaults(api, acc, adds, exclude);
      var acc' := Run(acc, adds, exclude);
      if acc'.Ok? {
        VolumesFault(api, fqdn, volumes[1..], acc'.value, exclude);
      }
    }
  }

  ghost predicate NoEmpty(d: DriveEndpoints) {
    "" !in d.arrayControllers && "" !in d.logical && "" !in d.physical
  }

  lemma StorageFaults(api: Api, fqdn: string, url: string, c: GenericDrive, d: DriveEndpoints, exclude: Exclude)
    requires NoEmpty(d)
    ensures Matches(AddStorage(api, fqdn, url, c, d, exclude), FirstFault(api, exclude, StorageOps(api, fqdn, url, c)))
    ensures AddStorage(api, fqdn, url, c, d, exclude).Ok? ==> NoEmpty(AddStorage(api, fqdn, url, c, d, exclude).value)
  {
    if c.storageDrives != [] {
      var drives, volumes, controllers := Puts(Checks(c.storageDrives)), VolumeOps(api, fqdn, c.volumes), LinkOps(api, fqdn, c.controllers);
      FaultConcat(api, exclude, drives + volumes, controllers);
      FaultConcat(api, exclude, drives, volumes);
      RunFaults(api, d.physical, Checks(c.storageDrives), exclude);
      VolumesFault(api, fqdn, c.volumes, d.logical, exclude);
      FollowFaults(api, fqdn, c.controllers, d.arrayControllers, exclude);
    } else if c.upperPhysical != "" || c.lowerPhysical != "" {
      assert FirstFault(api, exclude, [Put(Plain(url))]) == FaultOf(api, exclude, Put(Plain(url))) by {
        FaultCons(api, exclude, Put(Plain(url)), []);
        assert [Put(Plain(url))] + [] == [Put(Plain(url))];
      }
    }
  }

  lemma LinksFault(api: Api, exclude: Exclude, a: seq<Op>, b: seq<Op>, c: seq<Op>, d: seq<Op>)
    ensures FirstFault(api, exclude, a + b + c + d)
         == (if FirstFault(api, exclude, a) != Fine then FirstFault(api, exclude, a)
             else if FirstFault(api, exclude, b) != Fine then FirstFault(api, exclude, b)
             else if FirstFault(api, exclude, c) != Fine then FirstFault(api, exclude, c)
             else FirstFault(api, exclude, d))
  {
    FaultConcat(api, exclude, a + b + c, d);
    FaultConcat(api, exclude, a + b, c);
    FaultConcat(api, exclude, a, b);
  }

  /** The four links followed over lists without empty URLs. */
  function FollowFour(api: Api, fqdn: string, c: GenericDrive, d: DriveEndpoints, exclude: Exclude): Outcome<DriveEndpoints> {
    var l1 :- Follow(api, fqdn, c.upperLogical, d.logical, exclude);
    var p1 :- Follow(api, fqdn, c.upperPhysical, d.physical, exclude);
    var l2 :- Follow(api, fqdn, c.lowerLogical, l1, exclude);
    var p2 :- Follow(api, fqdn, c.lowerPhysical, p1, exclude);
    Ok(DriveEndpoints(d.arrayControllers, l2, p2))
  }

  lemma FourFaults(api: Api, fqdn: string, c: GenericDrive, d: DriveEndpoints, exclude: Exclude)
    requires NoEmpty(d)
    ensures Matches(FollowFour(api, fqdn, c, d, exclude), FirstFault(api, exclude, DriveLinkOps(api, fqdn, c)))
    ensures FollowFour(api, fqdn, c, d, exclude).Ok? ==> NoEmpty(FollowFour(api, fqdn, c, d, exclude).value)
  {
    LinksFault(api, exclude, LinkOps(api, fqdn, c.upperLogical), LinkOps(api, fqdn, c.upperPhysical),
               LinkOps(api, fqdn, c.lowerLogical), LinkOps(api, fqdn, c.lowerPhysical));
    FollowFaults(api, fqdn, c.upperLogical, d.logical, exclude);
    FollowFaults(api, fqdn, c.upperPhysical, d.physical, exclude);
    var l1, p1 := Follow(api, fqdn, c.upperLogical, d.logical, exclude), Follow(api, fqdn, c.upperPhysical, d.physical, exclude);
    if l1.Ok? && p1.Ok? {
      FollowFaults(api, fqdn, c.lowerLogical, l1.value, exclude);
      FollowFaults(api, fqdn, c.lowerPhysical, p1.value, exclude);
    }
  }

  lemma VisitIsFour(api: Api, fqdn: string, url: string, d: DriveEndpoints, exclude: Exclude)
    requires api(fqdn + url).Got?
    ensures var s := AddStorage(api, fqdn, url, api(fqdn + url).body, d, exclude);
            Visit(api, fqdn, url, d, exclude) == if s.Ok? then FollowFour(api, fqdn, api(fqdn + url).body, s.value, exclude) else s
  {
  }

  lemma VisitFaults(api: Api, fqdn: string, url: string, d: DriveEndpoints, exclude: Exclude)
    requires NoEmpty(d)
    ensures Matches(Visit(api, fqdn, url, d, exclude), FirstFault(api, exclude, ControllerOps(api, fqdn, url)))
    ensures Visit(api, fqdn, url, d, exclude).Ok? ==> NoEmpty(Visit(api, fqdn, url, d, exclude).value)
  {
    if api(fqdn + url).Got? {
      var c := api(fqdn + url).body;
      VisitIsFour(api, fqdn, url, d, exclude);
      FaultCons(api, exclude, Get(fqdn + url), StorageOps(api, fqdn, url, c) + DriveLinkOps(api, fqdn, c));
      FaultConcat(api, exclude, StorageOps(api, fqdn, url, c), DriveLinkOps(api, fqdn, c));
      StorageFaults(api, fqdn, url, c, d, exclude);
      var s := AddStorage(api, fqdn, url, c, d, exclude);
      if s.Ok? {
        FourFaults(api, fqdn, c, s.value, exclude);
      }
    } else {
      FaultCons(api, exclude, Get(fqdn + url), []);
    }
  }

  lemma {:induction false} AllFaults(api: Api, fqdn: string, urls: seq<string>, d: DriveEndpoints, exclude: Exclude)
    requires NoEmpty(d)
    ensures Matches(VisitAll(api, fqdn, urls, d, exclude), FirstFault(api, exclude, AllControllerOps(api, fqdn, urls)))
    decreases |urls|
  {
    if urls != [] {
      VisitFaults(api, fqdn, urls[0], d, exclude);
      FaultConcat(api, exclude, ControllerOps(api, fqdn, urls[0]), AllControllerOps(api, fqdn, urls[1..]));
      var d' := Visit(api, fqdn, urls[0], d, exclude);
      if d'.Ok? {
        AllFaults(api, fqdn, urls[1..], d'.value, exclude);
      }
    }
  }

  /**
   * Main result: the walk ends as the first faulty operation says. It returns an error exactly if the first GET that
   * fails does so with that error and nothing before it panics; no failed GET is ever passed over.
   */
  lemma WalkEndsExactly(api: Api, fqdn: string, initialUrl: string, exclude: Exclude)
    ensures Matches(AllDriveEndpoints(api, fqdn, initialUrl, exclude), FirstFault(api, exclude, WalkOps(api, fqdn, initialUrl)))
  {
    FaultCons(api, exclude, Get(initialUrl), AllControllerOps(api, fqdn, MembersAt(api, initialUrl)));
    if api(initialUrl).Got? {
      AllFaults(api, fqdn, api(initialUrl).body.members, NO_DRIVES, exclude);
    }
  }

  // ---------------------------------------------------------------- success, GET by GET

  ghost predicate AllFine(api: Api, exclude: Exclude, ops: seq<Op>) {
    forall op :: op in ops ==> FaultOf(api, exclude, op) == Fine
  }

  lemma {:induction false} FineExactly(api: Api, exclude: Exclude, ops: seq<Op>)
    ensures FirstFault(api, exclude, ops) == Fine <==> AllFine(api, exclude, ops)
  {
    if ops != [] {
      assert ops[0] in ops;
      assert forall op :: op in ops <==> op == ops[0] || op in ops[1..];
      FineExactly(api, exclude, ops[1..]);
    }
  }

  lemma FineConcat(api: Api, exclude: Exclude, a: seq<Op>, b: seq<Op>)
    ensures AllFine(api, exclude, a + b) <==> AllFine(api, exclude, a) && AllFine(api, exclude, b)
  {
  }

  predicate LeftOut(exclude: Exclude, url: string) {
    exclude.Some? && exclude.value(url)
  }

  /** A link that is absent, or was fetched and lists no empty member. */
  predicate LinkFine(api: Api, fqdn: string, url: string) {
    url != "" ==> api(fqdn + url).Got? && "" !in api(fqdn + url).body.members
  }

  /** A filtered list may hold an empty link only if the pattern leaves it out. */
  predicate RawsFine(raws: seq<string>, exclude: Exclude) {
    "" in raws ==> LeftOut(exclude, "")
  }

  predicate VolumeFine(api: Api, fqdn: string, v: string, exclude: Exclude) {
    && v != ""
    && var got := api(fqdn + if v[|v| - 1] == '/' then v else v + "/");
       got.Got? && RawsFine(got.body.members, exclude)
  }

  /** Everything that is fetched for one controller was got, and no empty link is added. */
  predicate ControllerFine(api: Api, fqdn: string, url: string, exclude: Exclude) {
    && api(fqdn + url).Got?
    && var c := api(fqdn + url).body;
       && (c.storageDrives != [] ==>
             && RawsFine(c.storageDrives, exclude) && (forall v :: v in c.volumes ==> VolumeFine(api, fqdn, v, exclude))
             && LinkFine(api, fqdn, c.controllers))
       && (c.storageDrives == [] && (c.upperPhysical != "" || c.lowerPhysical != "") ==> url != "")
       && LinkFine(api, fqdn, c.upperLogical) && LinkFine(api, fqdn, c.upperPhysical)
       && LinkFine(api, fqdn, c.lowerLogical) && LinkFine(api, fqdn, c.lowerPhysical)
  }

  lemma ChecksFine(api: Api, exclude: Exclude, raws: seq<string>)
    ensures AllFine(api, exclude, Puts(Checks(raws))) <==> RawsFine(raws, exclude)
  {
    var ops := Puts(Checks(raws));
    if "" in raws {
      var i :| 0 <= i < |raws| && raws[i] == "";
      assert ops[i] == Put(Checked("")) && ops[i] in ops;
    }
  }

  lemma PlainsFine(api: Api, exclude: Exclude, raws: seq<string>)
    ensures AllFine(api, exclude, Puts(Plains(raws))) <==> "" !in raws
  {
    var ops := Puts(Plains(raws));
    if "" in raws {
      var i :| 0 <= i < |raws| && raws[i] == "";
      assert ops[i] == Put(Plain("")) && ops[i] in ops;
    }
  }

  lemma GetFine(api: Api, exclude: Exclude, url: string)
    ensures AllFine(api, exclude, [Get(url)]) <==> api(url).Got?
  {
    assert Get(url) in [Get(url)];
  }

  lemma LinkOpsFine(api: Api, fqdn: string, url: string, exclude: Exclude)
    ensures AllFine(api, exclude, LinkOps(api, fqdn, url)) <==> LinkFine(api, fqdn, url)
  {
    if url != "" {
      var members := MembersAt(api, fqdn + url);
      FineConcat(api, exclude, [Get(fqdn + url)], Puts(Plains(members)));
      GetFine(api, exclude, fqdn + url);
      PlainsFine(api, exclude, members);
    }
  }

  lemma {:induction false} VolumeOpsFine(api: Api, fqdn: string, volumes: seq<string>, exclude: Exclude)
    ensures AllFine(api, exclude, VolumeOps(api, fqdn, volumes)) <==> forall v :: v in volumes ==> VolumeFine(api, fqdn, v, exclude)
  {
    if volumes != [] {
      var v := volumes[0];
      AnyCons(volumes, x => !VolumeFine(api, fqdn, x, exclude));
      if v == "" {
        assert Put(Plain("")) in VolumeOps(api, fqdn, volumes);
      } else {
        var url := fqdn + AppendSlash(v);
        var members, rest := MembersAt(api, url), VolumeOps(api, fqdn, volumes[1..]);
        FineConcat(api, exclude, [Get(url)] + Puts(Checks(members)), rest);
        FineConcat(api, exclude, [Get(url)], Puts(Checks(members)));
        GetFine(api, exclude, url);
        ChecksFine(api, exclude, members);
        VolumeOpsFine(api, fqdn, volumes[1..], exclude);
      }
    }
  }

  lemma StorageOpsFine(api: Api, fqdn: string, url: string, c: GenericDrive, exclude: Exclude)
    ensures AllFine(api, exclude, StorageOps(api, fqdn, url, c))
            <==> if c.storageDrives != [] then
                   && RawsFine(c.storageDrives, exclude) && (forall v :: v in c.volumes ==> VolumeFine(api, fqdn, v, exclude))
                   && LinkFine(api, fqdn, c.controllers)
                 else (c.upperPhysical != "" || c.lowerPhysical != "") ==> url != ""
  {
    if c.storageDrives != [] {
      FineConcat(api, exclude, Puts(Checks(c.storageDrives)) + VolumeOps(api, fqdn, c.volumes), LinkOps(api, fqdn, c.controllers));
      FineConcat(api, exclude, Puts(Checks(c.storageDrives)), VolumeOps(api, fqdn, c.volumes));
      ChecksFine(api, exclude, c.storageDrives);
      VolumeOpsFine(api, fqdn, c.volumes, exclude);
      LinkOpsFine(api, fqdn, c.controllers, exclude);
    } else {
      assert Put(Plain(url)) in [Put(Plain(url))];
    }
  }

  lemma DriveLinkOpsFine(api: Api, fqdn: string, c: GenericDrive, exclude: Exclude)
    ensures AllFine(api, exclude, DriveLinkOps(api, fqdn, c))
            <==> && LinkFine(api, fqdn, c.upperLogical) && LinkFine(api, fqdn, c.upperPhysical)
                 && LinkFine(api, fqdn, c.lowerLogical) && LinkFine(api, fqdn, c.lowerPhysical)
  {
    var a, b, e, f := LinkOps(api, fqdn, c.upperLogical), LinkOps(api, fqdn, c.upperPhysical),
                      LinkOps(api, fqdn, c.lowerLogical), LinkOps(api, fqdn, c.lowerPhysical);
    FineConcat(api, exclude, a + b + e, f);
    FineConcat(api, exclude, a + b, e);
    FineConcat(api, exclude, a, b);
    LinkOpsFine(api, fqdn, c.upperLogical, exclude);
    LinkOpsFine(api, fqdn, c.upperPhysical, exclude);
    LinkOpsFine(api, fqdn, c.lowerLogical, exclude);
    LinkOpsFine(api, fqdn, c.lowerPhysical, exclude);
  }

  lemma ControllerOpsFine(api: Api, fqdn: string, url: string, exclude: Exclude)
    ensures AllFine(api, exclude, ControllerOps(api, fqdn, url)) <==> ControllerFine(api, fqdn, url, exclude)
  {
    GetFine(api, exclude, fqdn + url);
    if api(fqdn + url).Got? {
      var c := api(fqdn + url).body;
      FineConcat(api, exclude, [Get(fqdn + url)], StorageOps(api, fqdn, url, c) + DriveLinkOps(api, fqdn, c));
      FineConcat(api, exclude, StorageOps(api, fqdn, url, c), DriveLinkOps(api, fqdn, c));
      StorageOpsFine(api, fqdn, url, c, exclude);
      DriveLinkOpsFine(api, fqdn, c, exclude);
    } else {
      FineConcat(api, exclude, [Get(fqdn + url)], []);
    }
  }

  lemma {:induction false} AllOpsFine(api: Api, fqdn: string, urls: seq<string>, exclude: Exclude)
    ensures AllFine(api, exclude, AllControllerOps(api, fqdn, urls)) <==> forall m :: m in urls ==> ControllerFine(api, fqdn, m, exclude)
  {
    if urls != [] {
      assert urls[0] in urls && forall x :: x in urls <==> x == urls[0] || x in urls[1..];
      ControllerOpsFine(api, fqdn, urls[0], exclude);
      FineConcat(api, exclude, ControllerOps(api, fqdn, urls[0]), AllControllerOps(api, fqdn, urls[1..]));
      AllOpsFine(api, fqdn, urls[1..], exclude);
    }
  }

  /** Main result: the walk succeeds exactly if every GET it makes is answered and no empty link is added. */
  lemma WalkSucceedsExactly(api: Api, fqdn: string, initialUrl: string, exclude: Exclude)
    ensures AllDriveEndpoints(api, fqdn, initialUrl, exclude).Ok?
            <==> api(initialUrl).Got? && forall m :: m in api(initialUrl).body.members ==> ControllerFine(api, fqdn, m, exclude)
  {
    WalkEndsExactly(api, fqdn, initialUrl, exclude);
    var urls := MembersAt(api, initialUrl);
    FaultCons(api, exclude, Get(initialUrl), AllControllerOps(api, fqdn, urls));
    FineExactly(api, exclude, AllControllerOps(api, fqdn, urls));
    AllOpsFine(api, fqdn, urls, exclude);
  }

  /** A refused controller is not passed over. */
  lemma RefusedControllerFails(refused: Error)
    ensures AllDriveEndpoints(url => if url == "/c/" then Failed(refused) else Got(NO_DRIVE.(members := ["/c/"])), "", "/storage/", None)
         == Err(refused)
  {
    var api: Api := url => if url == "/c/" then Failed(refused) else Got(NO_DRIVE.(members := ["/c/"]));
    assert "" + "/c/" == "/c/" && "/storage/" != "/c/";
    WalkEndsExactly(api, "", "/storage/", None);
    FaultCons(api, None, Get("/storage/"), AllControllerOps(api, "", ["/c/"]));
    FaultCons(api, None, Get("/c/"), []);
    FaultConcat(api, None, ControllerOps(api, "", "/c/"), []);
    assert AllControllerOps(api, "", ["/c/"]) == ControllerOps(api, "", "/c/") + [];
  }

  // ---------------------------------------------------------------- the lists, link by link

  /** The members behind a link that is there. */
  predicate Behind(api: Api, fqdn: string, url: string, raw: string) {
    url != "" && api(fqdn + url).Got? && raw in api(fqdn + url).body.members
  }

  predicate InVolume(api: Api, fqdn: string, v: string, raw: string) {
    && v != ""
    && var got := api(fqdn + if v[|v| - 1] == '/' then v else v + "/");
       got.Got? && raw in got.body.members
  }

  /** The physical drives of a controller: those of Storage that the pattern leaves, and all behind the two links. */
  predicate NamesPhysical(api: Api, fqdn: string, url: string, exclude: Exclude, raw: string) {
    && api(fqdn + url).Got?
    && var c := api(fqdn + url).body;
       || (raw in c.storageDrives && !LeftOut(exclude, raw))
       || Behind(api, fqdn, c.upperPhysical, raw) || Behind(api, fqdn, c.lowerPhysical, raw)
  }

  /** The logical drives: the volume members that the pattern leaves, and all behind the two links. */
  ghost predicate NamesLogical(api: Api, fqdn: string, url: string, exclude: Exclude, raw: string) {
    && api(fqdn + url).Got?
    && var c := api(fqdn + url).body;
       || (c.storageDrives != [] && !LeftOut(exclude, raw) && exists v :: v in c.volumes && InVolume(api, fqdn, v, raw))
       || Behind(api, fqdn, c.upperLogical, raw) || Behind(api, fqdn, c.lowerLogical, raw)
  }

  /** The array controllers: those of a Storage resource with drives, or the controller itself if it links physical drives. */
  predicate NamesArray(api: Api, fqdn: string, url: string, raw: string) {
    && api(fqdn + url).Got?
    && var c := api(fqdn + url).body;
       if c.storageDrives != [] then Behind(api, fqdn, c.controllers, raw)
       else (c.upperPhysical != "" || c.lowerPhysical != "") && raw == url
  }

  ghost predicate NamesIn(api: Api, fqdn: string, url: string, exclude: Exclude, w: Which, raw: string) {
    match w
    case Arrays => NamesArray(api, fqdn, url, raw)
    case Logical => NamesLogical(api, fqdn, url, exclude, raw)
    case Physical => NamesPhysical(api, fqdn, url, exclude, raw)
  }

  /** Some counted addition carries this link. */
  ghost predicate Carries(adds: seq<Addition>, exclude: Exclude, raw: string) {
    exists a :: a in adds && Counted(a, exclude) && a.raw == raw
  }

  lemma CarriesConcat(a: seq<Addition>, b: seq<Addition>, exclude: Exclude, raw: string)
    ensures Carries(a + b, exclude, raw) <==> Carries(a, exclude, raw) || Carries(b, exclude, raw)
  {
  }

  lemma CarriesChecks(raws: seq<string>, exclude: Exclude, raw: string)
    ensures Carries(Checks(raws), exclude, raw) <==> raw in raws && !LeftOut(exclude, raw)
  {
    if raw in raws && !LeftOut(exclude, raw) {
      var i :| 0 <= i < |raws| && raws[i] == raw;
      assert Checks(raws)[i] in Checks(raws);
    }
  }

  lemma CarriesLinked(api: Api, fqdn: string, url: string, exclude: Exclude, raw: string)
    ensures Carries(Plains(LinkedMembers(api, fqdn, url)), exclude, raw) <==> Behind(api, fqdn, url, raw)
  {
    var raws := LinkedMembers(api, fqdn, url);
    if raw in raws {
      var i :| 0 <= i < |raws| && raws[i] == raw;
      assert Plains(raws)[i] in Plains(raws);
    }
  }

  /** The members of the first volume, or none if it has no link. */
  lemma FirstVolume(api: Api, fqdn: string, volumes: seq<string>, raw: string)
    requires volumes != []
    ensures raw in VolumeMembers(api, fqdn, volumes) <==> InVolume(api, fqdn, volumes[0], raw) || raw in VolumeMembers(api, fqdn, volumes[1..])
  {
  }

  lemma {:induction false} VolumeMembersExactly(api: Api, fqdn: string, volumes: seq<string>, raw: string)
    ensures raw in VolumeMembers(api, fqdn, volumes) <==> exists v :: v in volumes && InVolume(api, fqdn, v, raw)
  {
    if volumes != [] {
      FirstVolume(api, fqdn, volumes, raw);
      VolumeMembersExactly(api, fqdn, volumes[1..], raw);
      AnyCons(volumes, v => InVolume(api, fqdn, v, raw));
    }
  }

  /** Whether some element has a property, taken apart at the first. */
  lemma AnyCons(s: seq<string>, p: string -> bool)
    requires s != []
    ensures (exists x :: x in s && p(x)) <==> p(s[0]) || exists x :: x in s[1..] && p(x)
  {
    assert s[0] in s;
    assert forall x :: x in s <==> x == s[0] || x in s[1..];
  }

  lemma ListedNames(api: Api, fqdn: string, url: string, exclude: Exclude, w: Which, raw: string)
    ensures Carries(Listed(api, fqdn, url, w), exclude, raw) <==> NamesIn(api, fqdn, url, exclude, w, raw)
  {
    if api(fqdn + url).Got? {
      var c := api(fqdn + url).body;
      match w {
        case Arrays =>
          CarriesLinked(api, fqdn, c.controllers, exclude, raw);
          assert Plain(url) in [Plain(url)];
        case Logical =>
          var volumes := if c.storageDrives != [] then Checks(VolumeMembers(api, fqdn, c.volumes)) else [];
          CarriesThree(api, fqdn, volumes, c.upperLogical, c.lowerLogical, exclude, raw);
          CarriesChecks(VolumeMembers(api, fqdn, c.volumes), exclude, raw);
          VolumeMembersExactly(api, fqdn, c.volumes, raw);
        case Physical =>
          CarriesThree(api, fqdn, Checks(c.storageDrives), c.upperPhysical, c.lowerPhysical, exclude, raw);
          CarriesChecks(c.storageDrives, exclude, raw);
      }
    }
  }

  lemma CarriesThree(api: Api, fqdn: string, first: seq<Addition>, upper: string, lower: string, exclude: Exclude, raw: string)
    ensures Carries(first + Plains(LinkedMembers(api, fqdn, upper)) + Plains(LinkedMembers(api, fqdn, lower)), exclude, raw)
            <==> Carries(first, exclude, raw) || Behind(api, fqdn, upper, raw) || Behind(api, fqdn, lower, raw)
  {
    var u, l := Plains(LinkedMembers(api, fqdn, upper)), Plains(LinkedMembers(api, fqdn, lower));
    CarriesConcat(first + u, l, exclude, raw);
    CarriesConcat(first, u, exclude, raw);
    CarriesLinked(api, fqdn, upper, exclude, raw);
    CarriesLinked(api, fqdn, lower, exclude, raw);
  }

  lemma {:induction false} AllListedNames(api: Api, fqdn: string, urls: seq<string>, exclude: Exclude, w: Which, raw: string)
    ensures Carries(AllListed(api, fqdn, urls, w), exclude, raw) <==> exists m :: m in urls && NamesIn(api, fqdn, m, exclude, w, raw)
  {
    if urls != [] {
      assert forall x :: x in urls <==> x == urls[0] || x in urls[1..];
      ListedNames(api, fqdn, urls[0], exclude, w, raw);
      AllListedNames(api, fqdn, urls[1..], exclude, w, raw);
      CarriesConcat(Listed(api, fqdn, urls[0], w), AllListed(api, fqdn, urls[1..], w), exclude, raw);
    }
  }

  lemma CarriedTargets(adds: seq<Addition>, exclude: Exclude, u: string)
    requires u != ""
    ensures (exists a :: a in adds && Counted(a, exclude) && Target(a) == u) <==> exists raw :: Carries(adds, exclude, raw) && Slashes(raw, u)
  {
    if a :| a in adds && Counted(a, exclude) && Target(a) == u {
      assert Carries(adds, exclude, a.raw) && Slashes(a.raw, u);
    }
    if raw :| Carries(adds, exclude, raw) && Slashes(raw, u) {
      var a :| a in adds && Counted(a, exclude) && a.raw == raw;
      assert Target(a) == u;
    }
  }

  /** Main result, link by link: each list of a successful walk holds exactly what the controllers name for it, with its slash. */
  lemma DriveListsExactly(api: Api, fqdn: string, initialUrl: string, exclude: Exclude, w: Which, r: DriveEndpoints, u: string)
    requires AllDriveEndpoints(api, fqdn, initialUrl, exclude) == Ok(r)
    ensures api(initialUrl).Got?
    ensures u in (match w case Arrays => r.arrayControllers case Logical => r.logical case Physical => r.physical)
            <==> exists m, raw :: m in api(initialUrl).body.members && NamesIn(api, fqdn, m, exclude, w, raw) && Slashes(raw, u)
  {
    DriveLists(api, fqdn, initialUrl, exclude, w);
    var members := MembersAt(api, initialUrl);
    var adds := AllListed(api, fqdn, members, w);
    if u != "" {
      CarriedTargets(adds, exclude, u);
    }
    if u in ListOf(r, w) {
      var raw :| Carries(adds, exclude, raw) && Slashes(raw, u);
      AllListedNames(api, fqdn, members, exclude, w, raw);
    }
    if m, raw :| m in members && NamesIn(api, fqdn, m, exclude, w, raw) && Slashes(raw, u) {
      AllListedNames(api, fqdn, members, exclude, w, raw);
    }
  }
}
