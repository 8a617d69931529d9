/** The recursive walk that finds array controllers, logical and physical drives (exporter/helpers.go). */
module Drives {
  import opened Outcomes
  import opened Urls

  /** The links of a decoded drive body; an absent link is the empty string. */
  datatype GenericDrive = GenericDrive(
    members: seq<string>, storageDrives: seq<string>, volumes: seq<string>, controllers: string,
    upperLogical: string, upperPhysical: string, lowerLogical: string, lowerPhysical: string)

  datatype DriveEndpoints = DriveEndpoints(arrayControllers: seq<string>, logical: seq<string>, physical: seq<string>)

  const NO_DRIVES := DriveEndpoints([], [], [])

  type Api = string -> Fetched<GenericDrive>

  // ---------------------------------------------------------------- lists as runs of additions

  /** How a link reaches a list: filtered and compared as it was received, or appended unconditionally. */
  datatype Addition = Checked(raw: string) | Plain(raw: string)

  function Checks(raws: seq<string>): seq<Addition> {
    seq(|raws|, i requires 0 <= i < |raws| => Checked(raws[i]))
  }

  function Plains(raws: seq<string>): seq<Addition> {
    seq(|raws|, i requires 0 <= i < |raws| => Plain(raws[i]))
  }

  /** The uniqueness test looks for the raw link, the list receives the link with its slash. */
  function Add(acc: seq<string>, a: Addition, exclude: Exclude): Outcome<seq<string>> {
    if a.Checked? && (!Kept(exclude, a.raw) || a.raw in acc) then Ok(acc)
    else if a.raw == "" then Panic
    else Ok(acc + [AppendSlash(a.raw)])
  }

  function Run(acc: seq<string>, adds: seq<Addition>, exclude: Exclude): Outcome<seq<string>>
    decreases |adds|
  {
    if adds == [] then Ok(acc)
    else
      var acc' :- Add(acc, adds[0], exclude);
      Run(acc', adds[1..], exclude)
  }

  // ---------------------------------------------------------------- the walk

  /** Fetches the collection behind a link, if there is one, and appends its members. */
  function Follow(api: Api, fqdn: string, url: string, acc: seq<string>, exclude: Exclude): Outcome<seq<string>> {
    if url == "" then Ok(acc)
    else
      var out :- api(fqdn + url).ToOutcome();
      Run(acc, Plains(out.members), exclude)
  }

  function AddVolumes(api: Api, fqdn: string, volumes: seq<string>, acc: seq<string>, exclude: Exclude): Outcome<seq<string>>
    decreases |volumes|
  {
    if volumes == [] then Ok(acc)
    else if volumes[0] == "" then Panic
    else
      var out :- api(fqdn + AppendSlash(volumes[0])).ToOutcome();
      var acc' :- Run(acc, Checks(out.members), exclude);
      AddVolumes(api, fqdn, volumes[1..], acc', exclude)
  }

  /** The branch on what kind of controller this is. */
  function AddStorage(api: Api, fqdn: string, url: string, resp: GenericDrive, d: DriveEndpoints, exclude: Exclude): Outcome<DriveEndpoints> {
    if resp.storageDrives != [] then
      var physical :- Run(d.physical, Checks(resp.storageDrives), exclude);
      var logical :- AddVolumes(api, fqdn, resp.volumes, d.logical, exclude);
      var arrays :- Follow(api, fqdn, resp.controllers, d.arrayControllers, exclude);
      Ok(DriveEndpoints(arrays, logical, physical))
    else if resp.upperPhysical != "" || resp.lowerPhysical != "" then
      var arrays :- Add(d.arrayControllers, Plain(url), exclude);
      Ok(d.(arrayControllers := arrays))
    else Ok(d)
  }

  function Visit(api: Api, fqdn: string, url: string, d: DriveEndpoints, exclude: Exclude): Outcome<DriveEndpoints> {
    var resp :- api(fqdn + url).ToOutcome();
    var d1 :- AddStorage(api, fqdn, url, resp, d, exclude);
    var l1 :- Follow(api, fqdn, resp.upperLogical, d1.logical, exclude);
    var p1 :- Follow(api, fqdn, resp.upperPhysical, d1.physical, exclude);
    var l2 :- Follow(api, fqdn, resp.lowerLogical, l1, exclude);
    var p2 :- Follow(api, fqdn, resp.lowerPhysical, p1, exclude);
    Ok(DriveEndpoints(d1.arrayControllers, l2, p2))
  }

  function VisitAll(api: Api, fqdn: string, urls: seq<string>, d: DriveEndpoints, exclude: Exclude): Outcome<DriveEndpoints>
    decreases |urls|
  {
    if urls == [] then Ok(d)
    else
      var d' :- Visit(api, fqdn, urls[0], d, exclude);
      VisitAll(api, fqdn, urls[1..], d', exclude)
  }

  function AllDriveEndpoints(api: Api, fqdn: string, initialUrl: string, exclude: Exclude): Outcome<DriveEndpoints> {
    var resp :- api(initialUrl).ToOutcome();
    VisitAll(api, fqdn, resp.members, NO_DRIVES, exclude)
  }

  // ---------------------------------------------------------------- the loops of the source

  method AppendChecked(acc: seq<string>, raws: seq<string>, exclude: Exclude) returns (r: Outcome<seq<string>>)
    ensures r == Run(acc, Checks(raws), exclude)
  {
    var list := acc;
    ghost var adds := Checks(raws);
    for i := 0 to |raws|
      invariant Run(acc, adds, exclude) == Run(list, adds[i..], exclude)
    {
      assert adds[i..][1..] == adds[i + 1..];
      if Kept(exclude, raws[i]) {
        var unique := CheckUnique(list, raws[i]);
        if unique {
          if raws[i] == "" {
            return Panic;
          }
          list := list + [AppendSlash(raws[i])];
        }
      }
    }
    return Ok(list);
  }

  method AppendPlain(acc: seq<string>, raws: seq<string>, exclude: Exclude) returns (r: Outcome<seq<string>>)
    ensures r == Run(acc, Plains(raws), exclude)
  {
    var list := acc;
    ghost var adds := Plains(raws);
    for i := 0 to |raws|
      invariant Run(acc, adds, exclude) == Run(list, adds[i..], exclude)
    {
      assert adds[i..][1..] == adds[i + 1..];
      if raws[i] == "" {
        return Panic;
      }
      list := list + [AppendSlash(raws[i])];
    }
    return Ok(list);
  }

  method FollowLink(api: Api, fqdn: string, url: string, acc: seq<string>, exclude: Exclude) returns (r: Outcome<seq<string>>)
    ensures r == Follow(api, fqdn, url, acc, exclude)
  {
    if url == "" {
      return Ok(acc);
    }
    var out := api(fqdn + url);
    if out.Failed? {
      return Err(out.error);
    }
    r := AppendPlain(acc, out.body.members, exclude);
  }

  method AppendVolumes(api: Api, fqdn: string, volumes: seq<string>, acc: seq<string>, exclude: Exclude) returns (r: Outcome<seq<string>>)
    ensures r == AddVolumes(api, fqdn, volumes, acc, exclude)
  {
    var list := acc;
    for i := 0 to |volumes|
      invariant AddVolumes(api, fqdn, volumes, acc, exclude) == AddVolumes(api, fqdn, volumes[i..], list, exclude)
    {
      assert volumes[i..][1..] == volumes[i + 1..];
      if volumes[i] == "" {
        return Panic;
      }
      var out := api(fqdn + AppendSlash(volumes[i]));
      if out.Failed? {
        return Err(out.error);
      }
      var added := AppendChecked(list, out.body.members, exclude);
      if !added.Ok? {
        return added;
      }
      list := added.value;
    }
    return Ok(list);
  }

  method VisitController(api: Api, fqdn: string, url: string, d: DriveEndpoints, exclude: Exclude) returns (r: Outcome<DriveEndpoints>)
    ensures r == Visit(api, fqdn, url, d, exclude)
  {
    var got := api(fqdn + url);
    if got.Failed? {
      return Err(got.error);
    }
    var resp := got.body;
    var arrays, logical, physical := d.arrayControllers, d.logical, d.physical;
    if |resp.storageDrives| > 0 {
      physical :- AppendChecked(physical, resp.storageDrives, exclude);
      logical :- AppendVolumes(api, fqdn, resp.volumes, logical, exclude);
      arrays :- FollowLink(api, fqdn, resp.controllers, arrays, exclude);
    } else if resp.upperPhysical != "" || resp.lowerPhysical != "" {
      if url == "" {
        return Panic;
      }
      arrays := arrays + [AppendSlash(url)];
    }
    logical :- FollowLink(api, fqdn, resp.upperLogical, logical, exclude);
    physical :- FollowLink(api, fqdn, resp.upperPhysical, physical, exclude);
    logical :- FollowLink(api, fqdn, resp.lowerLogical, logical, exclude);
    physical :- FollowLink(api, fqdn, resp.lowerPhysical, physical, exclude);
    return Ok(DriveEndpoints(arrays, logical, physical));
  }

  /** getAllDriveEndpoints. */
  method GetAllDriveEndpoints(api: Api, fqdn: string, initialUrl: string, exclude: Exclude) returns (r: Outcome<DriveEndpoints>)
    ensures r == AllDriveEndpoints(api, fqdn, initialUrl, exclude)
  {
    var got := api(initialUrl);
    if got.Failed? {
      return Err(got.error);
    }
    var urls, d := got.body.members, NO_DRIVES;
    for i := 0 to |urls|
      invariant VisitAll(api, fqdn, urls, NO_DRIVES, exclude) == VisitAll(api, fqdn, urls[i..], d, exclude)
    {
      assert urls[i..][1..] == urls[i + 1..];
      d :- VisitController(api, fqdn, urls[i], d, exclude);
    }
    return Ok(d);
  }

  // ---------------------------------------------------------------- the lists named outright

  function MembersAt(api: Api, url: string): seq<string> {
    if api(url).Got? then api(url).body.members else []
  }

  function LinkedMembers(api: Api, fqdn: string, url: string): seq<string> {
    if url == "" then [] else MembersAt(api, fqdn + url)
  }

  function VolumeMembers(api: Api, fqdn: string, volumes: seq<string>): seq<string> {
    if volumes == [] then []
    else (if volumes[0] == "" then [] else MembersAt(api, fqdn + AppendSlash(volumes[0]))) + VolumeMembers(api, fqdn, volumes[1..])
  }

  /** What one controller lists: checked Drives and Volumes members, then upper and lower Links members. */
  function ListedPhysical(api: Api, fqdn: string, c: GenericDrive): seq<Addition> {
    Checks(c.storageDrives) + Plains(LinkedMembers(api, fqdn, c.upperPhysical)) + Plains(LinkedMembers(api, fqdn, c.lowerPhysical))
  }

  function ListedLogical(api: Api, fqdn: string, c: GenericDrive): seq<Addition> {
    (if c.storageDrives != [] then Checks(VolumeMembers(api, fqdn, c.volumes)) else [])
    + Plains(LinkedMembers(api, fqdn, c.upperLogical)) + Plains(LinkedMembers(api, fqdn, c.lowerLogical))
  }

  function ListedArrays(api: Api, fqdn: string, url: string, c: GenericDrive): seq<Addition> {
    if c.storageDrives != [] then Plains(LinkedMembers(api, fqdn, c.controllers))
    else if c.upperPhysical != "" || c.lowerPhysical != "" then [Plain(url)]
    else []
  }

  datatype Which = Arrays | Logical | Physical

  function Listed(api: Api, fqdn: string, url: string, w: Which): seq<Addition> {
    if api(fqdn + url).Failed? then []
    else
      var c := api(fqdn + url).body;
      match w
      case Arrays => ListedArrays(api, fqdn, url, c)
      case Logical => ListedLogical(api, fqdn, c)
      case Physical => ListedPhysical(api, fqdn, c)
  }

  /** The listings of the controllers, in order. */
  function AllListed(api: Api, fqdn: string, urls: seq<string>, w: Which): seq<Addition> {
    if urls == [] then [] else Listed(api, fqdn, urls[0], w) + AllListed(api, fqdn, urls[1..], w)
  }

  function ListOf(d: DriveEndpoints, w: Which): seq<string> {
    match w case Arrays => d.arrayControllers case Logical => d.logical case Physical => d.physical
  }

  lemma {:induction false} RunConcat(acc: seq<string>, a: seq<Addition>, b: seq<Addition>, exclude: Exclude)
    ensures Run(acc, a + b, exclude) == var r := Run(acc, a, exclude); if r.Ok? then Run(r.value, b, exclude) else r
    decreases |a|
  {
    if a == [] {
      assert a + b == b;
    } else {
      assert (a + b)[1..] == a[1..] + b;
      var r := Add(acc, a[0], exclude);
      if r.Ok? {
        RunConcat(r.value, a[1..], b, exclude);
      }
    }
  }

  lemma {:induction false} VolumesRun(api: Api, fqdn: string, volumes: seq<string>, acc: seq<string>, exclude: Exclude)
    requires AddVolumes(api, fqdn, volumes, acc, exclude).Ok?
    ensures Run(acc, Checks(VolumeMembers(api, fqdn, volumes)), exclude) == AddVolumes(api, fqdn, volumes, acc, exclude)
    decreases |volumes|
  {
    if volumes != [] {
      var here, rest := MembersAt(api, fqdn + AppendSlash(volumes[0])), VolumeMembers(api, fqdn, volumes[1..]);
      assert Checks(here + rest) == Checks(here) + Checks(rest);
      RunConcat(acc, Checks(here), Checks(rest), exclude);
      VolumesRun(api, fqdn, volumes[1..], Run(acc, Checks(here), exclude).value, exclude);
    }
  }

  lemma RunThree(acc: seq<string>, a: seq<Addition>, b: seq<Addition>, c: seq<Addition>, exclude: Exclude, r: seq<string>, s: seq<string>)
    requires Run(acc, a, exclude) == Ok(r) && Run(r, b, exclude) == Ok(s)
    ensures Run(acc, a + b + c, exclude) == Run(s, c, exclude)
  {
    RunConcat(acc, a, b, exclude);
    RunConcat(acc, a + b, c, exclude);
  }

  lemma FollowRuns(api: Api, fqdn: string, url: string, acc: seq<string>, exclude: Exclude)
    requires Follow(api, fqdn, url, acc, exclude).Ok?
    ensures Run(acc, Plains(LinkedMembers(api, fqdn, url)), exclude) == Follow(api, fqdn, url, acc, exclude)
  {
  }

  lemma StorageRuns(api: Api, fqdn: string, url: string, c: GenericDrive, d: DriveEndpoints, d1: DriveEndpoints, exclude: Exclude)
    requires AddStorage(api, fqdn, url, c, d, exclude) == Ok(d1)
    ensures Run(d.arrayControllers, ListedArrays(api, fqdn, url, c), exclude) == Ok(d1.arrayControllers)
    ensures Run(d.logical, if c.storageDrives != [] then Checks(VolumeMembers(api, fqdn, c.volumes)) else [], exclude) == Ok(d1.logical)
    ensures Run(d.physical, Checks(c.storageDrives), exclude) == Ok(d1.physical)
  {
    if c.storageDrives != [] {
      VolumesRun(api, fqdn, c.volumes, d.logical, exclude);
      FollowRuns(api, fqdn, c.controllers, d.arrayControllers, exclude);
    }
  }

  lemma VisitRuns(api: Api, fqdn: string, url: string, d: DriveEndpoints, exclude: Exclude, r: DriveEndpoints)
    requires Visit(api, fqdn, url, d, exclude) == Ok(r)
    ensures forall w :: Run(ListOf(d, w), Listed(api, fqdn, url, w), exclude) == Ok(ListOf(r, w))
  {
    var c := api(fqdn + url).body;
    var d1 := AddStorage(api, fqdn, url, c, d, exclude).value;
    StorageRuns(api, fqdn, url, c, d, d1, exclude);
    var volumes := if c.storageDrives != [] then Checks(VolumeMembers(api, fqdn, c.volumes)) else [];
    TwoFollow(api, fqdn, c.upperLogical, c.lowerLogical, d.logical, volumes, d1.logical, exclude, r.logical);
    TwoFollow(api, fqdn, c.upperPhysical, c.lowerPhysical, d.physical, Checks(c.storageDrives), d1.physical, exclude, r.physical);
    forall w ensures Run(ListOf(d, w), Listed(api, fqdn, url, w), exclude) == Ok(ListOf(r, w)) {
      match w case Arrays => case Logical => case Physical =>
    }
  }

  lemma TwoFollow(api: Api, fqdn: string, upper: string, lower: string, acc: seq<string>, first: seq<Addition>, mid: seq<string>, exclude: Exclude, r: seq<string>)
    requires Run(acc, first, exclude) == Ok(mid)
    requires Follow(api, fqdn, upper, mid, exclude).Ok?
    requires Follow(api, fqdn, lower, Follow(api, fqdn, upper, mid, exclude).value, exclude) == Ok(r)
    ensures Run(acc, first + Plains(LinkedMembers(api, fqdn, upper)) + Plains(LinkedMembers(api, fqdn, lower)), exclude) == Ok(r)
  {
    var up := Follow(api, fqdn, upper, mid, exclude).value;
    FollowRuns(api, fqdn, upper, mid, exclude);
    FollowRuns(api, fqdn, lower, up, exclude);
    RunThree(acc, first, Plains(LinkedMembers(api, fqdn, upper)), Plains(LinkedMembers(api, fqdn, lower)), exclude, mid, up);
  }

  /** Main result: each list is the run of everything the controllers list, in controller order. */
  lemma {:induction false} WalkIsRun(api: Api, fqdn: string, urls: seq<string>, d: DriveEndpoints, exclude: Exclude, w: Which)
    requires VisitAll(api, fqdn, urls, d, exclude).Ok?
    ensures Run(ListOf(d, w), AllListed(api, fqdn, urls, w), exclude) == Ok(ListOf(VisitAll(api, fqdn, urls, d, exclude).value, w))
    decreases |urls|
  {
    if urls != [] {
      var d' := Visit(api, fqdn, urls[0], d, exclude).value;
      VisitRuns(api, fqdn, urls[0], d, exclude, d');
      WalkIsRun(api, fqdn, urls[1..], d', exclude, w);
      RunConcat(ListOf(d, w), Listed(api, fqdn, urls[0], w), AllListed(api, fqdn, urls[1..], w), exclude);
    }
  }

  // ---------------------------------------------------------------- what a run contains

  predicate EndsInSlash(url: string) {
    url != "" && url[|url| - 1] == '/'
  }

  predicate Counted(a: Addition, exclude: Exclude) {
    a.Plain? || Kept(exclude, a.raw)
  }

  /** An addition the uniqueness test cannot stop. */
  predicate Blind(a: Addition) {
    a.Plain? || !EndsInSlash(a.raw)
  }

  /** The URL an addition stands for ("" stands for itself: adding it is a panic). */
  function Target(a: Addition): string {
    if a.raw == "" then "" else AppendSlash(a.raw)
  }

  /** Every URL ends in a slash; the list holds the counted links, all of them and nothing else. */
  lemma {:induction false} RunMembers(acc: seq<string>, adds: seq<Addition>, exclude: Exclude)
    requires forall u :: u in acc ==> EndsInSlash(u)
    requires Run(acc, adds, exclude).Ok?
    ensures var r := Run(acc, adds, exclude).value;
            && acc <= r
            && (forall u :: u in r ==> EndsInSlash(u))
            && (forall u :: u in r <==> u in acc || exists a :: a in adds && Counted(a, exclude) && Target(a) == u)
    decreases |adds|
  {
    if adds != [] {
      var acc' := Add(acc, adds[0], exclude).value;
      RunMembers(acc', adds[1..], exclude);
      var r := Run(acc, adds, exclude).value;
      forall u ensures u in r <==> u in acc || exists a :: a in adds && Counted(a, exclude) && Target(a) == u {
        assert u in acc' <==> u in acc || (Counted(adds[0], exclude) && Target(adds[0]) == u);
        assert forall a :: a in adds <==> a == adds[0] || a in adds[1..];
      }
    }
  }

  /** No blind addition repeats a URL of acc or of an earlier counted addition. */
  ghost predicate NoBlindRepeat(acc: seq<string>, adds: seq<Addition>, exclude: Exclude) {
    forall j :: 0 <= j < |adds| && Counted(adds[j], exclude) && Blind(adds[j]) ==>
      && Target(adds[j]) !in acc
      && forall i :: 0 <= i < j && Counted(adds[i], exclude) ==> Target(adds[i]) != Target(adds[j])
  }

  /** Exactly when a list has no duplicates. */
  lemma {:induction false} RunNoDuplicates(acc: seq<string>, adds: seq<Addition>, exclude: Exclude)
    requires forall u :: u in acc ==> EndsInSlash(u)
    requires NoDuplicates(acc)
    requires Run(acc, adds, exclude).Ok?
    ensures NoDuplicates(Run(acc, adds, exclude).value) <==> NoBlindRepeat(acc, adds, exclude)
    decreases |adds|
  {
    if adds != [] {
      var a, rest := adds[0], adds[1..];
      var acc' := Add(acc, a, exclude).value;
      if Counted(a, exclude) && Blind(a) && Target(a) in acc {
        RunMembers(acc', rest, exclude);
        var r := Run(acc, adds, exclude).value;
        assert acc' <= r && acc'[|acc|] == Target(a);
        var i :| 0 <= i < |acc| && acc[i] == Target(a);
        assert r[i] == r[|acc|];
        assert !NoBlindRepeat(acc, adds, exclude);
      } else {
        RunNoDuplicates(acc', rest, exclude);
        NoBlindRepeatStep(acc, acc', adds, exclude);
      }
    }
  }

  lemma NoBlindRepeatStep(acc: seq<string>, acc': seq<string>, adds: seq<Addition>, exclude: Exclude)
    requires adds != [] && Add(acc, adds[0], exclude) == Ok(acc')
    requires forall u :: u in acc ==> EndsInSlash(u)
    requires !(Counted(adds[0], exclude) && Blind(adds[0]) && Target(adds[0]) in acc)
    ensures NoBlindRepeat(acc, adds, exclude) <==> NoBlindRepeat(acc', adds[1..], exclude)
  {
    var rest := adds[1..];
    assert forall u :: u in acc' <==> u in acc || (Counted(adds[0], exclude) && u == Target(adds[0]));
    if NoBlindRepeat(acc, adds, exclude) {
      forall j | 0 <= j < |rest| && Counted(rest[j], exclude) && Blind(rest[j])
        ensures Target(rest[j]) !in acc'
        ensures forall i :: 0 <= i < j && Counted(rest[i], exclude) ==> Target(rest[i]) != Target(rest[j])
      {
        assert rest[j] == adds[j + 1];
        forall i | 0 <= i < j && Counted(rest[i], exclude) ensures Target(rest[i]) != Target(rest[j]) {
          assert rest[i] == adds[i + 1];
        }
      }
    }
    if NoBlindRepeat(acc', rest, exclude) {
      forall j | 0 <= j < |adds| && Counted(adds[j], exclude) && Blind(adds[j])
        ensures Target(adds[j]) !in acc
        ensures forall i :: 0 <= i < j && Counted(adds[i], exclude) ==> Target(adds[i]) != Target(adds[j])
      {
        if j > 0 {
          assert adds[j] == rest[j - 1];
          forall i | 0 <= i < j && Counted(adds[i], exclude) ensures Target(adds[i]) != Target(adds[j]) {
            if i > 0 {
              assert adds[i] == rest[i - 1];
            }
          }
        }
      }
    }
  }

  /** The three lists of a successful walk, and exactly when each is free of duplicates. */
  lemma DriveLists(api: Api, fqdn: string, initialUrl: string, exclude: Exclude, w: Which)
    requires AllDriveEndpoints(api, fqdn, initialUrl, exclude).Ok?
    ensures var adds := AllListed(api, fqdn, MembersAt(api, initialUrl), w);
            var list := ListOf(AllDriveEndpoints(api, fqdn, initialUrl, exclude).value, w);
            && Run([], adds, exclude) == Ok(list)
            && (forall u :: u in list ==> EndsInSlash(u))
            && (forall u :: u in list <==> exists a :: a in adds && Counted(a, exclude) && Target(a) == u)
            && (NoDuplicates(list) <==> NoBlindRepeat([], adds, exclude))
  {
    var adds := AllListed(api, fqdn, MembersAt(api, initialUrl), w);
    WalkIsRun(api, fqdn, MembersAt(api, initialUrl), NO_DRIVES, exclude, w);
    RunMembers([], adds, exclude);
    RunNoDuplicates([], adds, exclude);
  }

  /** In particular: when every link comes from Storage resources and ends in a slash, nothing is listed twice. */
  lemma StorageListsNoDuplicates(adds: seq<Addition>, exclude: Exclude)
    requires forall a :: a in adds ==> a.Checked? && EndsInSlash(a.raw)
    ensures Run([], adds, exclude).Ok? && NoDuplicates(Run([], adds, exclude).value)
  {
    SlashedNeverPanics([], adds, exclude);
    RunNoDuplicates([], adds, exclude);
    assert NoBlindRepeat([], adds, exclude) by {
      forall j | 0 <= j < |adds| ensures !Blind(adds[j]) {
        assert adds[j] in adds;
      }
    }
  }

  lemma {:induction false} SlashedNeverPanics(acc: seq<string>, adds: seq<Addition>, exclude: Exclude)
    requires forall a :: a in adds ==> EndsInSlash(a.raw)
    ensures Run(acc, adds, exclude).Ok?
    decreases |adds|
  {
    if adds != [] {
      assert adds[0] in adds;
      SlashedNeverPanics(Add(acc, adds[0], exclude).value, adds[1..], exclude);
    }
  }

  // ---------------------------------------------------------------- a drive listed twice

  const NO_DRIVE := GenericDrive([], [], [], "", "", "", "", "")

  /** A Storage resource with one controller, which lists one link without its slash twice. */
  function TwiceServer(): Api {
    url => Got(if url == "/c/" then NO_DRIVE.(storageDrives := ["/d", "/d"]) else NO_DRIVE.(members := ["/c/"]))
  }

  lemma TwiceRun(raws: seq<string>)
    requires raws == ["/d", "/d"]
    ensures Run([], Checks(raws), None) == Ok(["/d/", "/d/"])
  {
    var adds := Checks(raws);
    assert adds[1..][1..] == [];
    assert "/d" + "/" == "/d/" && AppendSlash("/d") == "/d/";
    assert [] + ["/d/"] == ["/d/"] && ["/d/"] + ["/d/"] == ["/d/", "/d/"];
    assert Add([], adds[0], None) == Ok(["/d/"]);
    assert Add(["/d/"], adds[1], None) == Ok(["/d/", "/d/"]);
    assert Run(["/d/"], adds[1..], None) == Run(["/d/", "/d/"], [], None);
  }

  /** The walk does list a drive twice: the test looks for the link without the slash it has in the list. */
  lemma ListedTwice()
    ensures AllDriveEndpoints(TwiceServer(), "", "/storage/", None) == Ok(NO_DRIVES.(physical := ["/d/", "/d/"]))
    ensures !NoDuplicates(NO_DRIVES.(physical := ["/d/", "/d/"]).physical)
  {
    TwiceRun(["/d", "/d"]);
    var list := ["/d/", "/d/"];
    assert list[0] == list[1];
    assert "" + "/c/" == "/c/" && "/storage/" != "/c/";
    assert TwiceServer()("/c/") == Got(NO_DRIVE.(storageDrives := ["/d", "/d"]));
    assert Visit(TwiceServer(), "", "/c/", NO_DRIVES, None) == Ok(NO_DRIVES.(physical := list));
    assert ["/c/"][1..] == [];
    assert VisitAll(TwiceServer(), "", ["/c/"], NO_DRIVES, None) == VisitAll(TwiceServer(), "", [], NO_DRIVES.(physical := list), None);
  }
}
