/** The walk over chassis bodies that collects endpoint URLs (exporter/helpers.go). */
module Endpoints {
  import opened Outcomes
  import opened Urls
  import opened Oem

  datatype SystemEndpoints = SystemEndpoints(
    storageController: seq<string>, drives: seq<string>, systems: seq<string>, power: seq<string>, thermal: seq<string>)

  const NO_ENDPOINTS := SystemEndpoints([], [], [], [], [])

  /** One link of a slice: slashed, filtered, and added unless it is there. */
  function AddLink(acc: seq<string>, link: string, exclude: Exclude): seq<string>
    requires link != ""
  {
    if Kept(exclude, AppendSlash(link)) then Insert(acc, AppendSlash(link)) else acc
  }

  /** One loop over a slice of links. */
  function AddLinks(acc: seq<string>, links: seq<string>, exclude: Exclude): (r: Outcome<seq<string>>)
    ensures r.Ok? <==> "" !in links
    ensures !r.Ok? ==> r.Panic?
    decreases |links|
  {
    if links == [] then Ok(acc)
    else if links[0] == "" then Panic
    else
      assert links == [links[0]] + links[1..];
      AddLinks(AddLink(acc, links[0], exclude), links[1..], exclude)
  }

  /** The loop over Links followed by the loop over links. */
  function AddBoth(acc: seq<string>, upper: seq<string>, lower: seq<string>, exclude: Exclude): Outcome<seq<string>> {
    var a :- AddLinks(acc, upper, exclude);
    AddLinks(a, lower, exclude)
  }

  function AddAlt(acc: seq<string>, url: string): seq<string> {
    if url == "" then acc else Insert(acc, AppendSlash(url))
  }

  /** Power and thermal: the nested links count only while the list is empty. */
  function AddAltOrNested(acc: seq<string>, alt: string, upper: seq<string>, lower: seq<string>): Outcome<seq<string>> {
    var a := AddAlt(acc, alt);
    if a == [] then AddBoth(a, upper, lower, None) else Ok(a)
  }

  function Assemble(systems: Outcome<seq<string>>, power: Outcome<seq<string>>, thermal: Outcome<seq<string>>,
                    storage: Outcome<seq<string>>, drives: Outcome<seq<string>>): Outcome<SystemEndpoints> {
    if systems.Ok? && power.Ok? && thermal.Ok? && storage.Ok? && drives.Ok?
    then Ok(SystemEndpoints(storage.value, drives.value, systems.value, power.value, thermal.value))
    else Panic
  }

  /** What the loop body does once a chassis is decoded. */
  function Contribute(sys: SystemEndpoints, c: View, exclude: Exclude): Outcome<SystemEndpoints> {
    Assemble(AddBoth(sys.systems, c.upper.system.live, c.lower.system.live, None),
             AddAltOrNested(sys.power, c.powerAlt, c.upper.power.live, c.lower.power.live),
             AddAltOrNested(sys.thermal, c.thermalAlt, c.upper.thermal.live, c.lower.thermal.live),
             AddBoth(sys.storageController, c.upper.storage.live, c.lower.storage.live, None),
             AddBoth(sys.drives, c.upper.drives.live, c.lower.drives.live, exclude))
  }

  /** reuse says whether each body is decoded over the previous struct, as the source does, or into a fresh one. */
  function Walk(reuse: bool, bodies: seq<Fetched<Body>>, chas: View, sys: SystemEndpoints, exclude: Exclude): Outcome<SystemEndpoints> {
    if bodies == [] then Ok(sys)
    else
      var body :- bodies[0].ToOutcome();
      var c := Decode(if reuse then chas else EMPTY, body);
      if c.None? then Err(Other)
      else
        var sys' :- Contribute(sys, c.value, exclude);
        Walk(reuse, bodies[1..], c.value, sys', exclude)
  }

  function Bodies(urls: seq<string>, fetch: string -> Fetched<Body>): seq<Fetched<Body>> {
    seq(|urls|, i requires 0 <= i < |urls| => fetch(urls[i]))
  }

  // ---------------------------------------------------------------- the loops of the source

  /** One of the loops over a LinksURLSlice; appendSlash panics on an empty string. */
  method AppendLinks(acc: seq<string>, links: seq<string>, exclude: Exclude) returns (r: Outcome<seq<string>>)
    ensures r == AddLinks(acc, links, exclude)
  {
    var list := acc;
    for i := 0 to |links|
      invariant AddLinks(acc, links, exclude) == AddLinks(list, links[i..], exclude)
    {
      assert links[i..][1..] == links[i + 1..];
      if links[i] == "" {
        return Panic;
      }
      var url := AppendSlash(links[i]);
      if Kept(exclude, url) {
        var unique := CheckUnique(list, url);
        if unique {
          list := list + [url];
        }
      }
    }
    return Ok(list);
  }

  method AppendBoth(acc: seq<string>, upper: seq<string>, lower: seq<string>, exclude: Exclude) returns (r: Outcome<seq<string>>)
    ensures r == AddBoth(acc, upper, lower, exclude)
  {
    r := AppendLinks(acc, upper, exclude);
    if r.Ok? {
      r := AppendLinks(r.value, lower, exclude);
    }
  }

  method AppendAltOrNested(acc: seq<string>, alt: string, upper: seq<string>, lower: seq<string>) returns (r: Outcome<seq<string>>)
    ensures r == AddAltOrNested(acc, alt, upper, lower)
  {
    var list := acc;
    if alt != "" {
      var url := AppendSlash(alt);
      var unique := CheckUnique(list, url);
      if unique {
        list := list + [url];
      }
    }
    if |list| == 0 {
      r := AppendBoth(list, upper, lower, None);
    } else {
      r := Ok(list);
    }
  }

  /** The part of the loop body that follows the decoding. */
  method Scan(chas: Chassis, sys: SystemEndpoints, exclude: Exclude) returns (r: Outcome<SystemEndpoints>)
    ensures r == Contribute(sys, chas.Value(), exclude)
  {
    var upper, lower := chas.Links, chas.LinksLower;
    var systems := AppendBoth(sys.systems, upper.System.LinksURLSlice.live, lower.System.LinksURLSlice.live, None);
    var power := AppendAltOrNested(sys.power, chas.PowerAlt, upper.Power.LinksURLSlice.live, lower.Power.LinksURLSlice.live);
    var thermal := AppendAltOrNested(sys.thermal, chas.ThermalAlt, upper.Thermal.LinksURLSlice.live, lower.Thermal.LinksURLSlice.live);
    var storage := AppendBoth(sys.storageController, upper.Storage.LinksURLSlice.live, lower.Storage.LinksURLSlice.live, None);
    var drives := AppendBoth(sys.drives, upper.Drives.LinksURLSlice.live, lower.Drives.LinksURLSlice.live, exclude);
    return Assemble(systems, power, thermal, storage, drives);
  }

  /** getSystemEndpoints: one Chassis object is decoded over and over. */
  method GetSystemEndpoints(urls: seq<string>, fetch: string -> Fetched<Body>, exclude: Exclude)
    returns (r: Outcome<SystemEndpoints>)
    ensures r == Walk(true, Bodies(urls, fetch), EMPTY, NO_ENDPOINTS, exclude)
  {
    var chas := new Chassis();
    var sys := NO_ENDPOINTS;
    ghost var bodies := Bodies(urls, fetch);
    for i := 0 to |urls|
      invariant chas.Valid() && fresh(chas.Repr())
      invariant Walk(true, bodies, EMPTY, NO_ENDPOINTS, exclude) == Walk(true, bodies[i..], chas.Value(), sys, exclude)
    {
      assert bodies[i..][1..] == bodies[i + 1..];
      var body := fetch(urls[i]);
      if body.Failed? {
        return Err(body.error);
      }
      var ok := chas.Unmarshal(body.body);
      if !ok {
        return Err(Other);
      }
      var scanned := Scan(chas, sys, exclude);
      if !scanned.Ok? {
        return scanned;
      }
      sys := scanned.value;
    }
    return Ok(sys);
  }

  // ---------------------------------------------------------------- what a body itself names

  /** The strings of an array; nulls are passed over. */
  function OwnStrings(elems: seq<LinkElem>): seq<string> {
    if elems == [] then [] else (if elems[0].StrElem? then [elems[0].s] else []) + OwnStrings(elems[1..])
  }

  /** The links in the JSON of one key, whatever the struct held before. */
  function OwnLinks(j: Option<LinkJson>): seq<string> {
    match j
    case None => []
    case Some(NullLinks) => []
    case Some(ObjLinks(url, href)) => Picked(url, href)
    case Some(ArrLinks(elems)) => if AllObjects(elems) then ObjectLinks(elems) else OwnStrings(elems)
    case Some(BadLinks) => []
  }

  function OwnAlt(alt: Option<string>): string {
    if alt.Some? then alt.value else ""
  }

  /** What a body adds to the lists when only its own links count. */
  function ContributeOwn(sys: SystemEndpoints, b: Body, exclude: Exclude): Outcome<SystemEndpoints>
    requires b.Body?
  {
    Assemble(AddBoth(sys.systems, OwnLinks(b.upper.system), OwnLinks(b.lower.system), None),
             AddAltOrNested(sys.power, OwnAlt(b.powerAlt), OwnLinks(b.upper.power), OwnLinks(b.lower.power)),
             AddAltOrNested(sys.thermal, OwnAlt(b.thermalAlt), OwnLinks(b.upper.thermal), OwnLinks(b.lower.thermal)),
             AddBoth(sys.storageController, OwnLinks(b.upper.storage), OwnLinks(b.lower.storage), None),
             AddBoth(sys.drives, OwnLinks(b.upper.drives), OwnLinks(b.lower.drives), exclude))
  }

  /** A walk without any struct. */
  function WalkOwn(bodies: seq<Fetched<Body>>, sys: SystemEndpoints, exclude: Exclude): Outcome<SystemEndpoints> {
    if bodies == [] then Ok(sys)
    else
      var b :- bodies[0].ToOutcome();
      if Decode(EMPTY, b).None? then Err(Other)
      else
        var sys' :- ContributeOwn(sys, b, exclude);
        WalkOwn(bodies[1..], sys', exclude)
  }

  // ---------------------------------------------------------------- one slice

  /** Every link was processed before: excluded, or in the list. */
  ghost predicate Handled(acc: seq<string>, links: seq<string>, exclude: Exclude) {
    && "" !in links
    && forall l :: l in links ==> Kept(exclude, AppendSlash(l)) ==> AppendSlash(l) in acc
  }

  lemma HandledLonger(acc: seq<string>, longer: seq<string>, links: seq<string>, exclude: Exclude)
    requires Handled(acc, links, exclude) && forall u :: u in acc ==> u in longer
    ensures Handled(longer, links, exclude)
  {
  }

  lemma {:induction false} AddLinksMembers(acc: seq<string>, links: seq<string>, exclude: Exclude)
    requires "" !in links
    ensures var r := AddLinks(acc, links, exclude).value;
            && Handled(r, links, exclude)
            && (forall u :: u in acc ==> u in r)
            && (r == [] ==> acc == [] && forall l :: l in links ==> !Kept(exclude, AppendSlash(l)))
    ensures Handled(acc, links, exclude) ==> AddLinks(acc, links, exclude) == Ok(acc)
    decreases |links|
  {
    if links != [] {
      assert links == [links[0]] + links[1..];
      AddLinksMembers(AddLink(acc, links[0], exclude), links[1..], exclude);
    }
  }

  lemma {:induction false} AddLinksConcat(acc: seq<string>, a: seq<string>, b: seq<string>, exclude: Exclude)
    requires "" !in a
    ensures AddLinks(acc, a + b, exclude) == AddBoth(acc, a, b, exclude)
    decreases |a|
  {
    if a == [] {
      assert a + b == b;
    } else {
      assert (a + b)[1..] == a[1..] + b;
      AddLinksConcat(AddLink(acc, a[0], exclude), a[1..], b, exclude);
    }
  }

  /** The loop merges the slashed and filtered links into the list. */
  lemma {:induction false} AddLinksIsMerge(acc: seq<string>, links: seq<string>, exclude: Exclude)
    requires "" !in links
    ensures AddLinks(acc, links, exclude) == Ok(Merge(acc, Filtered(Slashed(links), exclude)))
    decreases |links|
  {
    if links != [] {
      assert links == [links[0]] + links[1..];
      AddLinksIsMerge(AddLink(acc, links[0], exclude), links[1..], exclude);
      MergeOne(acc, AppendSlash(links[0]), Slashed(links[1..]), exclude);
      assert Slashed(links) == [AppendSlash(links[0])] + Slashed(links[1..]);
    }
  }

  lemma MergeOne(acc: seq<string>, url: string, urls: seq<string>, exclude: Exclude)
    ensures Merge(acc, Filtered([url] + urls, exclude))
         == Merge(if Kept(exclude, url) then Insert(acc, url) else acc, Filtered(urls, exclude))
  {
    assert ([url] + urls)[1..] == urls;
    if Kept(exclude, url) {
      assert ([url] + Filtered(urls, exclude))[1..] == Filtered(urls, exclude);
    } else {
      assert [] + Filtered(urls, exclude) == Filtered(urls, exclude);
    }
  }

  /** Stale strings that fill the slots of nulls were handled before, so only the array's own strings count. */
  lemma {:induction false} NullsAddNothing(acc: seq<string>, stored: seq<string>, elems: seq<LinkElem>, memory: seq<string>, exclude: Exclude)
    requires |stored| == |elems| && "" !in stored && AllStrings(elems) && Handled(acc, memory, exclude)
    requires forall i :: 0 <= i < |elems| ==> if elems[i].StrElem? then stored[i] == elems[i].s else stored[i] in memory
    ensures AddLinks(acc, stored, exclude) == AddLinks(acc, OwnStrings(elems), exclude)
    ensures "" !in OwnStrings(elems)
    decreases |elems|
  {
    if elems != [] {
      assert stored[0] in stored && elems[0] in elems;
      assert forall x :: x in stored[1..] ==> x in stored;
      if elems[0].StrElem? {
        var acc' := AddLink(acc, stored[0], exclude);
        HandledLonger(acc, acc', memory, exclude);
        NullsAddNothing(acc', stored[1..], elems[1..], memory, exclude);
        var own := OwnStrings(elems);
        assert own[0] == stored[0] && own[1..] == OwnStrings(elems[1..]);
      } else {
        NullsAddNothing(acc, stored[1..], elems[1..], memory, exclude);
        assert OwnStrings(elems) == OwnStrings(elems[1..]);
      }
    }
  }

  lemma FilledFromMemory(prior: Slice, elems: seq<LinkElem>)
    requires AllStrings(elems) && "" !in StoreStrings(prior, elems).live
    ensures var stored := StoreStrings(prior, elems).live;
            forall i :: 0 <= i < |elems| ==> if elems[i].StrElem? then stored[i] == elems[i].s else stored[i] in prior.Memory()
  {
    var stored := StoreStrings(prior, elems).live;
    forall i | 0 <= i < |elems| && !elems[i].StrElem? ensures stored[i] in prior.Memory() {
      assert stored[i] in stored && stored[i] == prior.At(i);
      assert stored[i] == prior.Memory()[i];
    }
  }

  /** An array of strings over handled memory. */
  lemma StringsOwn(acc: seq<string>, prior: Slice, elems: seq<LinkElem>, exclude: Exclude)
    requires Handled(acc, prior.Memory(), exclude) && AllStrings(elems) && "" !in StoreStrings(prior, elems).live
    ensures AddLinks(acc, StoreStrings(prior, elems).live, exclude) == AddLinks(acc, OwnStrings(elems), exclude)
    ensures "" !in OwnStrings(elems)
    ensures forall l :: l in StoreStrings(prior, elems).spare ==> l in prior.Memory()
  {
    FilledFromMemory(prior, elems);
    NullsAddNothing(acc, StoreStrings(prior, elems).live, elems, prior.Memory(), exclude);
  }

  /** Links appended to handled memory. */
  lemma AppendOwn(acc: seq<string>, prior: Slice, own: seq<string>, exclude: Exclude)
    requires Handled(acc, prior.Memory(), exclude) && "" !in prior.Append(own).live
    ensures AddLinks(acc, prior.Append(own).live, exclude) == AddLinks(acc, own, exclude)
    ensures "" !in own
    ensures forall l :: l in prior.Append(own).spare ==> l in prior.Memory()
  {
    assert prior.Append(own).live == prior.live + own;
    assert forall l :: l in own ==> l in prior.live + own;
    assert Handled(acc, prior.live, exclude);
    AddLinksConcat(acc, prior.live, own, exclude);
    AddLinksMembers(acc, prior.live, exclude);
  }

  /** One key: over a slice whose memory was handled, the loop does what the key's own links alone would do. */
  lemma FieldAdds(acc: seq<string>, prior: Slice, j: Option<LinkJson>, c: Slice, exclude: Exclude)
    requires Handled(acc, prior.Memory(), exclude)
    requires DecodeField(prior, j) == Some(c) && "" !in c.live
    ensures AddLinks(acc, c.live, exclude) == AddLinks(acc, OwnLinks(j), exclude) && "" !in OwnLinks(j)
    ensures forall l :: l in c.spare ==> l in prior.Memory()
  {
    if j.Some? && j.value.ArrLinks? && !AllObjects(j.value.elems) {
      StringsOwn(acc, prior, j.value.elems, exclude);
    } else {
      AppendNothing(prior);
      AppendOwn(acc, prior, OwnLinks(j), exclude);
    }
  }

  lemma FieldOwn(acc: seq<string>, prior: Slice, j: Option<LinkJson>, c: Slice, exclude: Exclude)
    requires Handled(acc, prior.Memory(), exclude)
    requires DecodeField(prior, j) == Some(c) && "" !in c.live
    ensures AddLinks(acc, c.live, exclude) == AddLinks(acc, OwnLinks(j), exclude) && "" !in OwnLinks(j)
    ensures var r := AddLinks(acc, c.live, exclude).value;
            Handled(r, c.Memory(), exclude) && forall u :: u in acc ==> u in r
  {
    FieldAdds(acc, prior, j, c, exclude);
    AddLinksMembers(acc, c.live, exclude);
    HandledLonger(acc, AddLinks(acc, c.live, exclude).value, prior.Memory(), exclude);
  }

  lemma BothOwn(acc: seq<string>, upper: Slice, ju: Option<LinkJson>, lower: Slice, jl: Option<LinkJson>, cu: Slice, cl: Slice, exclude: Exclude)
    requires Handled(acc, upper.Memory(), exclude) && Handled(acc, lower.Memory(), exclude)
    requires DecodeField(upper, ju) == Some(cu) && DecodeField(lower, jl) == Some(cl)
    requires AddBoth(acc, cu.live, cl.live, exclude).Ok?
    ensures AddBoth(acc, cu.live, cl.live, exclude) == AddBoth(acc, OwnLinks(ju), OwnLinks(jl), exclude)
    ensures var r := AddBoth(acc, cu.live, cl.live, exclude).value;
            Handled(r, cu.Memory(), exclude) && Handled(r, cl.Memory(), exclude)
  {
    FieldOwn(acc, upper, ju, cu, exclude);
    var mid := AddLinks(acc, cu.live, exclude).value;
    HandledLonger(acc, mid, lower.Memory(), exclude);
    FieldOwn(mid, lower, jl, cl, exclude);
    HandledLonger(mid, AddLinks(mid, cl.live, exclude).value, cu.Memory(), exclude);
  }

  /** The stale state for power or thermal: while nothing was found, nothing was ever stored. */
  ghost predicate AltHandled(acc: seq<string>, alt: string, upper: Slice, lower: Slice) {
    && (alt != "" ==> AppendSlash(alt) in acc)
    && (acc == [] ==> upper == NIL && lower == NIL)
  }

  lemma NilDecodes(j: Option<LinkJson>, c: Slice)
    requires DecodeField(NIL, j) == Some(c) && "" !in c.live
    ensures c.live == OwnLinks(j) && (c.live == [] ==> c == NIL)
  {
    if j.Some? && j.value.ArrLinks? && !AllObjects(j.value.elems) {
      FreshStrings(c.live, j.value.elems);
    }
  }

  lemma {:induction false} FreshStrings(stored: seq<string>, elems: seq<LinkElem>)
    requires |stored| == |elems| && "" !in stored && AllStrings(elems)
    requires forall i :: 0 <= i < |elems| ==> stored[i] == if elems[i].StrElem? then elems[i].s else ""
    ensures stored == OwnStrings(elems)
  {
    if elems != [] {
      assert stored[0] in stored && elems[0] in elems;
      FreshStrings(stored[1..], elems[1..]);
    }
  }

  lemma NonEmptyGrows(acc: seq<string>, links: seq<string>)
    requires "" !in links
    ensures AddLinks(acc, links, None).value == [] <==> acc == [] && links == []
  {
    AddLinksMembers(acc, links, None);
    if links != [] {
      assert links[0] in links;
    }
  }

  lemma AltOwn(acc: seq<string>, alt: string, jalt: Option<string>, upper: Slice, ju: Option<LinkJson>, lower: Slice, jl: Option<LinkJson>,
               calt: string, cu: Slice, cl: Slice)
    requires AltHandled(acc, alt, upper, lower)
    requires DecodeField(upper, ju) == Some(cu) && DecodeField(lower, jl) == Some(cl)
    requires calt == if jalt.Some? then jalt.value else alt
    requires AddAltOrNested(acc, calt, cu.live, cl.live).Ok?
    ensures AddAltOrNested(acc, calt, cu.live, cl.live) == AddAltOrNested(acc, OwnAlt(jalt), OwnLinks(ju), OwnLinks(jl))
    ensures AltHandled(AddAltOrNested(acc, calt, cu.live, cl.live).value, calt, cu, cl)
  {
    var a := AddAlt(acc, calt);
    assert a == AddAlt(acc, OwnAlt(jalt));
    if a == [] {
      NilDecodes(ju, cu);
      NilDecodes(jl, cl);
      NonEmptyGrows(a, cu.live);
      NonEmptyGrows(AddLinks(a, cu.live, None).value, cl.live);
    }
  }

  // ---------------------------------------------------------------- reusing the struct is harmless

  /** What the stale struct and the lists always satisfy between iterations. */
  ghost predicate Settled(chas: View, sys: SystemEndpoints, exclude: Exclude) {
    && Handled(sys.systems, chas.upper.system.Memory(), None) && Handled(sys.systems, chas.lower.system.Memory(), None)
    && Handled(sys.storageController, chas.upper.storage.Memory(), None)
    && Handled(sys.storageController, chas.lower.storage.Memory(), None)
    && Handled(sys.drives, chas.upper.drives.Memory(), exclude) && Handled(sys.drives, chas.lower.drives.Memory(), exclude)
    && AltHandled(sys.power, chas.powerAlt, chas.upper.power, chas.lower.power)
    && AltHandled(sys.thermal, chas.thermalAlt, chas.upper.thermal, chas.lower.thermal)
  }

  lemma EmptySettled(sys: SystemEndpoints, exclude: Exclude)
    ensures Settled(EMPTY, sys, exclude)
  {
  }

  lemma DecodeFailsAlike(prior: View, b: Body)
    ensures Decode(prior, b).Some? <==> Decode(EMPTY, b).Some?
  {
  }

  ghost predicate LinksDecoded(prior: Links, j: LinksJson, c: Links) {
    && DecodeField(prior.system, j.system) == Some(c.system)
    && DecodeField(prior.storage, j.storage) == Some(c.storage)
    && DecodeField(prior.drives, j.drives) == Some(c.drives)
    && DecodeField(prior.power, j.power) == Some(c.power)
    && DecodeField(prior.thermal, j.thermal) == Some(c.thermal)
  }

  lemma DecodeParts(prior: View, b: Body)
    requires Decode(prior, b).Some?
    ensures b.Body? && LinksDecoded(prior.upper, b.upper, Decode(prior, b).value.upper)
    ensures LinksDecoded(prior.lower, b.lower, Decode(prior, b).value.lower)
    ensures Decode(prior, b).value.powerAlt == if b.powerAlt.Some? then b.powerAlt.value else prior.powerAlt
    ensures Decode(prior, b).value.thermalAlt == if b.thermalAlt.Some? then b.thermalAlt.value else prior.thermalAlt
  {
  }

  /** One iteration, over any settled struct, adds exactly what the body's own links add. */
  lemma StepOwn(chas: View, sys: SystemEndpoints, b: Body, c: View, exclude: Exclude)
    requires Settled(chas, sys, exclude) && Decode(chas, b) == Some(c) && Contribute(sys, c, exclude).Ok?
    ensures b.Body? && Contribute(sys, c, exclude) == ContributeOwn(sys, b, exclude)
    ensures Settled(c, Contribute(sys, c, exclude).value, exclude)
  {
    DecodeParts(chas, b);
    BothOwn(sys.systems, chas.upper.system, b.upper.system, chas.lower.system, b.lower.system, c.upper.system, c.lower.system, None);
    BothOwn(sys.storageController, chas.upper.storage, b.upper.storage, chas.lower.storage, b.lower.storage,
            c.upper.storage, c.lower.storage, None);
    BothOwn(sys.drives, chas.upper.drives, b.upper.drives, chas.lower.drives, b.lower.drives, c.upper.drives, c.lower.drives, exclude);
    AltOwn(sys.power, chas.powerAlt, b.powerAlt, chas.upper.power, b.upper.power, chas.lower.power, b.lower.power,
           c.powerAlt, c.upper.power, c.lower.power);
    AltOwn(sys.thermal, chas.thermalAlt, b.thermalAlt, chas.upper.thermal, b.upper.thermal, chas.lower.thermal, b.lower.thermal,
           c.thermalAlt, c.upper.thermal, c.lower.thermal);
  }

  /**
   * Main result: from any settled struct, over one struct or over fresh ones, a walk that does not panic has the
   * outcome of the walk without any struct. Neither stale strings, nor those past the length of a slice, matter.
   */
  lemma {:induction false} WalkIsOwn(reuse: bool, bodies: seq<Fetched<Body>>, chas: View, sys: SystemEndpoints, exclude: Exclude)
    requires Settled(chas, sys, exclude)
    ensures var r := Walk(reuse, bodies, chas, sys, exclude);
            !r.Panic? ==> r == WalkOwn(bodies, sys, exclude)
  {
    if bodies != [] && bodies[0].Got? && !Walk(reuse, bodies, chas, sys, exclude).Panic? {
      var b, prior := bodies[0].body, if reuse then chas else EMPTY;
      DecodeFailsAlike(prior, b);
      var c := Decode(prior, b);
      if c.Some? {
        EmptySettled(sys, exclude);
        assert Contribute(sys, c.value, exclude).Ok?;
        StepOwn(prior, sys, b, c.value, exclude);
        WalkIsOwn(reuse, bodies[1..], c.value, Contribute(sys, c.value, exclude).value, exclude);
      }
    }
  }

  lemma WalkIgnoresPrior(bodies: seq<Fetched<Body>>, a: View, b: View, sys: SystemEndpoints, exclude: Exclude)
    ensures Walk(false, bodies, a, sys, exclude) == Walk(false, bodies, b, sys, exclude)
  {
  }

  // ---------------------------------------------------------------- exactly when a walk panics

  /** The body was fetched and decodes; whether it does depends on the body alone. */
  predicate Readable(b: Fetched<Body>) {
    b.Got? && Decode(EMPTY, b.body).Some?
  }

  /** The struct after the first n bodies, decoded one over the other. */
  function Struct(bodies: seq<Fetched<Body>>, n: nat): View
    requires n <= |bodies|
  {
    if n == 0 then EMPTY
    else
      var prior := Struct(bodies, n - 1);
      var c := if bodies[n - 1].Got? then Decode(prior, bodies[n - 1].body) else None;
      if c.Some? then c.value else prior
  }

  /** What the body after the first n is decoded over. */
  function Under(reuse: bool, bodies: seq<Fetched<Body>>, n: nat): View
    requires n <= |bodies|
  {
    if reuse then Struct(bodies, n) else EMPTY
  }

  /** An array of strings with a hole: an empty string, or a null on a slot whose memory holds none. */
  ghost predicate Hole(prior: Slice, j: Option<LinkJson>) {
    && j.Some? && j.value.ArrLinks? && !AllObjects(j.value.elems)
    && exists m :: 0 <= m < |j.value.elems| && HoleAt(prior, j.value.elems, m)
  }

  predicate HoleAt(prior: Slice, elems: seq<LinkElem>, m: nat)
    requires m < |elems|
  {
    elems[m] == StrElem("") || (elems[m].NullElem? && prior.At(m) == "")
  }

  /** Power and thermal follow one rule on different fields. */
  datatype AltKind = Power | Thermal

  function AltOf(b: Body, k: AltKind): string
    requires b.Body?
  {
    OwnAlt(if k.Power? then b.powerAlt else b.thermalAlt)
  }

  function NestedOf(j: LinksJson, k: AltKind): Option<LinkJson> {
    if k.Power? then j.power else j.thermal
  }

  function AltListOf(sys: SystemEndpoints, k: AltKind): seq<string> {
    if k.Power? then sys.power else sys.thermal
  }

  /** The body names a link of this kind, at the top or nested. */
  predicate Names(b: Body, k: AltKind)
    requires b.Body?
  {
    AltOf(b, k) != "" || OwnLinks(NestedOf(b.upper, k)) != [] || OwnLinks(NestedOf(b.lower, k)) != []
  }

  ghost predicate Named(bodies: seq<Fetched<Body>>, n: nat, k: AltKind)
    requires n <= |bodies|
  {
    exists i :: 0 <= i < n && Readable(bodies[i]) && Names(bodies[i].body, k)
  }

  /** The nested arrays are looked at while no link of their kind was named; then nothing stale is there. */
  ghost predicate AltHole(named: bool, b: Body, k: AltKind)
    requires b.Body?
  {
    !named && AltOf(b, k) == "" && (Hole(NIL, NestedOf(b.upper, k)) || Hole(NIL, NestedOf(b.lower, k)))
  }

  ghost predicate LinkHole(prior: View, b: Body)
    requires b.Body?
  {
    || Hole(prior.upper.system, b.upper.system) || Hole(prior.lower.system, b.lower.system)
    || Hole(prior.upper.storage, b.upper.storage) || Hole(prior.lower.storage, b.lower.storage)
    || Hole(prior.upper.drives, b.upper.drives) || Hole(prior.lower.drives, b.lower.drives)
  }

  /** A consulted array of body i has a hole. */
  ghost predicate HoleIn(reuse: bool, bodies: seq<Fetched<Body>>, i: nat)
    requires i < |bodies| && Readable(bodies[i])
  {
    var b := bodies[i].body;
    LinkHole(Under(reuse, bodies, i), b) || AltHole(Named(bodies, i, Power), b, Power) || AltHole(Named(bodies, i, Thermal), b, Thermal)
  }

  /** All bodies up to this one are readable, and it has a hole. */
  ghost predicate BreaksAt(reuse: bool, bodies: seq<Fetched<Body>>, i: nat)
    requires i < |bodies|
  {
    (forall h :: 0 <= h <= i ==> Readable(bodies[h])) && HoleIn(reuse, bodies, i)
  }

  lemma HoleExactly(prior: Slice, j: Option<LinkJson>, c: Slice)
    requires "" !in prior.live && DecodeField(prior, j) == Some(c)
    ensures "" in c.live <==> Hole(prior, j)
  {
    if j.Some? && j.value.ArrLinks? && !AllObjects(j.value.elems) {
      var elems := j.value.elems;
      forall m | 0 <= m < |elems| ensures c.live[m] == "" <==> HoleAt(prior, elems, m) {
        assert elems[m] in elems;
      }
      if Hole(prior, j) {
        var m :| 0 <= m < |elems| && HoleAt(prior, elems, m);
        assert c.live[m] in c.live;
      }
    } else if j.Some? && j.value.ArrLinks? {
      ObjectLinksNonEmpty(j.value.elems);
    }
  }

  lemma ObjectLinksNonEmpty(elems: seq<LinkElem>)
    ensures "" !in ObjectLinks(elems)
  {
  }

  lemma BothExactly(acc: seq<string>, upper: Slice, ju: Option<LinkJson>, lower: Slice, jl: Option<LinkJson>, cu: Slice, cl: Slice, exclude: Exclude)
    requires "" !in upper.live && "" !in lower.live
    requires DecodeField(upper, ju) == Some(cu) && DecodeField(lower, jl) == Some(cl)
    ensures AddBoth(acc, cu.live, cl.live, exclude).Ok? <==> !Hole(upper, ju) && !Hole(lower, jl)
  {
    HoleExactly(upper, ju, cu);
    HoleExactly(lower, jl, cl);
  }

  lemma AltExactly(acc: seq<string>, named: bool, alt: string, jalt: Option<string>, upper: Slice, ju: Option<LinkJson>, lower: Slice,
                   jl: Option<LinkJson>, calt: string, cu: Slice, cl: Slice)
    requires AltHandled(acc, alt, upper, lower) && (acc != [] <==> named)
    requires DecodeField(upper, ju) == Some(cu) && DecodeField(lower, jl) == Some(cl)
    requires calt == if jalt.Some? then jalt.value else alt
    ensures AddAltOrNested(acc, calt, cu.live, cl.live).Ok?
            <==> !(!named && OwnAlt(jalt) == "" && (Hole(NIL, ju) || Hole(NIL, jl)))
  {
    if acc == [] && OwnAlt(jalt) == "" {
      HoleExactly(NIL, ju, cu);
      HoleExactly(NIL, jl, cl);
    }
  }

  /** The lists of a kind are empty exactly while no body named a link. */
  ghost predicate Tracked(bodies: seq<Fetched<Body>>, n: nat, sys: SystemEndpoints)
    requires n <= |bodies|
  {
    (sys.power != [] <==> Named(bodies, n, Power)) && (sys.thermal != [] <==> Named(bodies, n, Thermal))
  }

  lemma LinksExactly(p: View, b: Body, c: View, sys: SystemEndpoints, exclude: Exclude)
    requires Settled(p, sys, exclude) && Decode(p, b) == Some(c)
    ensures b.Body?
    ensures (AddBoth(sys.systems, c.upper.system.live, c.lower.system.live, None).Ok?
             && AddBoth(sys.storageController, c.upper.storage.live, c.lower.storage.live, None).Ok?
             && AddBoth(sys.drives, c.upper.drives.live, c.lower.drives.live, exclude).Ok?)
            <==> !LinkHole(p, b)
  {
    DecodeParts(p, b);
    BothExactly(sys.systems, p.upper.system, b.upper.system, p.lower.system, b.lower.system, c.upper.system, c.lower.system, None);
    BothExactly(sys.storageController, p.upper.storage, b.upper.storage, p.lower.storage, b.lower.storage, c.upper.storage, c.lower.storage, None);
    BothExactly(sys.drives, p.upper.drives, b.upper.drives, p.lower.drives, b.lower.drives, c.upper.drives, c.lower.drives, exclude);
  }

  lemma AltsExactly(p: View, b: Body, c: View, sys: SystemEndpoints, exclude: Exclude)
    requires Settled(p, sys, exclude) && Decode(p, b) == Some(c)
    ensures b.Body?
    ensures AddAltOrNested(sys.power, c.powerAlt, c.upper.power.live, c.lower.power.live).Ok? <==> !AltHole(sys.power != [], b, Power)
    ensures AddAltOrNested(sys.thermal, c.thermalAlt, c.upper.thermal.live, c.lower.thermal.live).Ok? <==> !AltHole(sys.thermal != [], b, Thermal)
  {
    DecodeParts(p, b);
    AltExactly(sys.power, sys.power != [], p.powerAlt, b.powerAlt, p.upper.power, b.upper.power, p.lower.power, b.lower.power,
               c.powerAlt, c.upper.power, c.lower.power);
    AltExactly(sys.thermal, sys.thermal != [], p.thermalAlt, b.thermalAlt, p.upper.thermal, b.upper.thermal, p.lower.thermal, b.lower.thermal,
               c.thermalAlt, c.upper.thermal, c.lower.thermal);
  }

  lemma StepExactly(p: View, b: Body, c: View, sys: SystemEndpoints, exclude: Exclude)
    requires Settled(p, sys, exclude) && Decode(p, b) == Some(c)
    ensures b.Body?
    ensures Contribute(sys, c, exclude).Ok?
            <==> !LinkHole(p, b) && !AltHole(sys.power != [], b, Power) && !AltHole(sys.thermal != [], b, Thermal)
    ensures !Contribute(sys, c, exclude).Ok? ==> Contribute(sys, c, exclude).Panic?
  {
    LinksExactly(p, b, c, sys, exclude);
    AltsExactly(p, b, c, sys, exclude);
  }

  lemma AltGrows(acc: seq<string>, alt: string, upper: seq<string>, lower: seq<string>)
    requires AddAltOrNested(acc, alt, upper, lower).Ok?
    ensures AddAltOrNested(acc, alt, upper, lower).value == [] <==> acc == [] && alt == "" && upper == [] && lower == []
  {
    var a := AddAlt(acc, alt);
    if a == [] {
      NonEmptyGrows(a, upper);
      NonEmptyGrows(AddLinks(a, upper, None).value, lower);
    }
  }

  lemma NamedNext(bodies: seq<Fetched<Body>>, n: nat, k: AltKind)
    requires n < |bodies| && Readable(bodies[n])
    ensures Named(bodies, n + 1, k) <==> Named(bodies, n, k) || Names(bodies[n].body, k)
  {
  }

  lemma TrackedNext(bodies: seq<Fetched<Body>>, n: nat, sys: SystemEndpoints, sys': SystemEndpoints, exclude: Exclude)
    requires n < |bodies| && Readable(bodies[n]) && Tracked(bodies, n, sys)
    requires ContributeOwn(sys, bodies[n].body, exclude) == Ok(sys')
    ensures Tracked(bodies, n + 1, sys')
  {
    var b := bodies[n].body;
    NamedNext(bodies, n, Power);
    NamedNext(bodies, n, Thermal);
    AltGrows(sys.power, OwnAlt(b.powerAlt), OwnLinks(b.upper.power), OwnLinks(b.lower.power));
    AltGrows(sys.thermal, OwnAlt(b.thermalAlt), OwnLinks(b.upper.thermal), OwnLinks(b.lower.thermal));
  }

  ghost predicate BreaksFrom(reuse: bool, bodies: seq<Fetched<Body>>, n: nat) {
    exists i :: n <= i < |bodies| && BreaksAt(reuse, bodies, i)
  }

  lemma BreaksNext(reuse: bool, bodies: seq<Fetched<Body>>, n: nat)
    requires n < |bodies| && (forall h :: 0 <= h < n ==> Readable(bodies[h]))
    ensures BreaksFrom(reuse, bodies, n)
            <==> Readable(bodies[n]) && (HoleIn(reuse, bodies, n) || BreaksFrom(reuse, bodies, n + 1))
  {
    assert BreaksAt(reuse, bodies, n) <==> Readable(bodies[n]) && HoleIn(reuse, bodies, n);
  }

  lemma WalkNext(reuse: bool, bodies: seq<Fetched<Body>>, n: nat, sys: SystemEndpoints, exclude: Exclude, c: View)
    requires n < |bodies| && Readable(bodies[n]) && Decode(Under(reuse, bodies, n), bodies[n].body) == Some(c)
    ensures var r := Contribute(sys, c, exclude);
            Walk(reuse, bodies[n..], Under(reuse, bodies, n), sys, exclude)
            == if r.Ok? then Walk(reuse, bodies[n + 1..], Under(reuse, bodies, n + 1), r.value, exclude) else r
  {
    assert bodies[n..][1..] == bodies[n + 1..];
    var r := Contribute(sys, c, exclude);
    if r.Ok? && !reuse {
      WalkIgnoresPrior(bodies[n + 1..], c, EMPTY, r.value, exclude);
    }
  }

  lemma SettledNext(reuse: bool, bodies: seq<Fetched<Body>>, n: nat, sys: SystemEndpoints, exclude: Exclude, c: View)
    requires n < |bodies| && Readable(bodies[n]) && Decode(Under(reuse, bodies, n), bodies[n].body) == Some(c)
    requires Settled(Under(reuse, bodies, n), sys, exclude) && Tracked(bodies, n, sys)
    requires Contribute(sys, c, exclude).Ok?
    ensures var r := Contribute(sys, c, exclude).value;
            Settled(Under(reuse, bodies, n + 1), r, exclude) && Tracked(bodies, n + 1, r)
  {
    var r := Contribute(sys, c, exclude).value;
    StepOwn(Under(reuse, bodies, n), sys, bodies[n].body, c, exclude);
    TrackedNext(bodies, n, sys, r, exclude);
    EmptySettled(r, exclude);
  }

  lemma {:induction false} PanicsFrom(reuse: bool, bodies: seq<Fetched<Body>>, n: nat, sys: SystemEndpoints, exclude: Exclude)
    requires n <= |bodies| && (forall h :: 0 <= h < n ==> Readable(bodies[h]))
    requires Settled(Under(reuse, bodies, n), sys, exclude) && Tracked(bodies, n, sys)
    ensures Walk(reuse, bodies[n..], Under(reuse, bodies, n), sys, exclude).Panic? <==> BreaksFrom(reuse, bodies, n)
    decreases |bodies| - n
  {
    if n < |bodies| {
      BreaksNext(reuse, bodies, n);
      if bodies[n].Got? {
        DecodeFailsAlike(Under(reuse, bodies, n), bodies[n].body);
      }
      if Readable(bodies[n]) {
        var c := Decode(Under(reuse, bodies, n), bodies[n].body).value;
        StepExactly(Under(reuse, bodies, n), bodies[n].body, c, sys, exclude);
        WalkNext(reuse, bodies, n, sys, exclude, c);
        if Contribute(sys, c, exclude).Ok? {
          SettledNext(reuse, bodies, n, sys, exclude, c);
          PanicsFrom(reuse, bodies, n + 1, Contribute(sys, c, exclude).value, exclude);
        }
      }
    }
  }

  /** Main result: a walk panics exactly when some body, all before it being readable, has a hole. */
  lemma PanicsExactly(reuse: bool, bodies: seq<Fetched<Body>>, exclude: Exclude)
    ensures Walk(reuse, bodies, EMPTY, NO_ENDPOINTS, exclude).Panic? <==> BreaksFrom(reuse, bodies, 0)
  {
    EmptySettled(NO_ENDPOINTS, exclude);
    PanicsFrom(reuse, bodies, 0, NO_ENDPOINTS, exclude);
    assert bodies[0..] == bodies;
  }

  /** A hole under some memory is a hole without any. */
  lemma HoleWithout(prior: Slice, j: Option<LinkJson>)
    ensures Hole(prior, j) ==> Hole(NIL, j)
  {
    if Hole(prior, j) {
      var m :| 0 <= m < |j.value.elems| && HoleAt(prior, j.value.elems, m);
      assert HoleAt(NIL, j.value.elems, m);
    }
  }

  lemma LinkHoleWithout(prior: View, b: Body)
    requires b.Body?
    ensures LinkHole(prior, b) ==> LinkHole(EMPTY, b)
  {
    HoleWithout(prior.upper.system, b.upper.system);
    HoleWithout(prior.lower.system, b.lower.system);
    HoleWithout(prior.upper.storage, b.upper.storage);
    HoleWithout(prior.lower.storage, b.lower.storage);
    HoleWithout(prior.upper.drives, b.upper.drives);
    HoleWithout(prior.lower.drives, b.lower.drives);
  }

  lemma FreshBreaksToo(bodies: seq<Fetched<Body>>)
    ensures BreaksFrom(true, bodies, 0) ==> BreaksFrom(false, bodies, 0)
  {
    if BreaksFrom(true, bodies, 0) {
      var i :| 0 <= i < |bodies| && BreaksAt(true, bodies, i);
      LinkHoleWithout(Struct(bodies, i), bodies[i].body);
      assert BreaksAt(false, bodies, i);
    }
  }

  /**
   * Main result: reusing the struct changes the outcome exactly on the lists of bodies where the fresh walk meets a
   * hole and the reused one meets none, every null of a consulted array then falling on remembered strings.
   */
  lemma ReuseDiffersExactly(bodies: seq<Fetched<Body>>, exclude: Exclude)
    ensures Walk(true, bodies, EMPTY, NO_ENDPOINTS, exclude) != Walk(false, bodies, EMPTY, NO_ENDPOINTS, exclude)
            <==> BreaksFrom(false, bodies, 0) && !BreaksFrom(true, bodies, 0)
  {
    PanicsExactly(true, bodies, exclude);
    PanicsExactly(false, bodies, exclude);
    FreshBreaksToo(bodies);
    EmptySettled(NO_ENDPOINTS, exclude);
    WalkIsOwn(true, bodies, EMPTY, NO_ENDPOINTS, exclude);
    WalkIsOwn(false, bodies, EMPTY, NO_ENDPOINTS, exclude);
  }

  /** From any settled struct: unless decoding into fresh structs panics, decoding over one struct gives the same outcome. */
  lemma {:induction false} ReuseHarmless(bodies: seq<Fetched<Body>>, chas: View, sys: SystemEndpoints, exclude: Exclude)
    requires Settled(chas, sys, exclude)
    ensures var unshared := Walk(false, bodies, EMPTY, sys, exclude);
            !unshared.Panic? ==> Walk(true, bodies, chas, sys, exclude) == unshared
  {
    if bodies != [] && bodies[0].Got? && !Walk(false, bodies, EMPTY, sys, exclude).Panic? {
      var b := bodies[0].body;
      DecodeFailsAlike(chas, b);
      var f, c := Decode(EMPTY, b), Decode(chas, b);
      if f.Some? {
        var s := Contribute(sys, f.value, exclude);
        assert s.Ok? && Walk(false, bodies, EMPTY, sys, exclude) == Walk(false, bodies[1..], f.value, s.value, exclude);
        StepReuse(chas, sys, b, c.value, f.value, exclude);
        WalkIgnoresPrior(bodies[1..], f.value, EMPTY, s.value, exclude);
        ReuseHarmless(bodies[1..], c.value, s.value, exclude);
      }
    }
  }

  lemma StepReuse(chas: View, sys: SystemEndpoints, b: Body, c: View, f: View, exclude: Exclude)
    requires Settled(chas, sys, exclude)
    requires Decode(EMPTY, b) == Some(f) && Decode(chas, b) == Some(c) && Contribute(sys, f, exclude).Ok?
    ensures Contribute(sys, c, exclude) == Contribute(sys, f, exclude)
    ensures Settled(c, Contribute(sys, f, exclude).value, exclude)
  {
    EmptySettled(sys, exclude);
    StepExactly(EMPTY, b, f, sys, exclude);
    StepExactly(chas, b, c, sys, exclude);
    LinkHoleWithout(chas, b);
    StepOwn(EMPTY, sys, b, f, exclude);
    StepOwn(chas, sys, b, c, exclude);
  }

  /** A link field that can yield no empty string: if it is decoded as strings, none is null or empty. */
  ghost predicate CleanField(j: Option<LinkJson>) {
    j.Some? && j.value.ArrLinks? && !AllObjects(j.value.elems) ==>
      forall e :: e in j.value.elems ==> !e.NullElem? && (e.StrElem? ==> e.s != "")
  }

  ghost predicate CleanLinks(j: LinksJson) {
    CleanField(j.system) && CleanField(j.storage) && CleanField(j.drives) && CleanField(j.power) && CleanField(j.thermal)
  }

  ghost predicate CleanBody(b: Fetched<Body>) {
    b.Got? && b.body.Body? ==> CleanLinks(b.body.upper) && CleanLinks(b.body.lower)
  }

  lemma CleanHasNoHole(j: Option<LinkJson>)
    requires CleanField(j)
    ensures !Hole(NIL, j)
  {
  }

  lemma CleanContributes(b: Body, f: View, sys: SystemEndpoints, exclude: Exclude)
    requires CleanBody(Got(b)) && Decode(EMPTY, b) == Some(f)
    ensures Contribute(sys, f, exclude).Ok?
  {
    EmptySettled(sys, exclude);
    StepExactly(EMPTY, b, f, sys, exclude);
    forall j | CleanField(j) ensures !Hole(NIL, j) {
      CleanHasNoHole(j);
    }
  }

  /** No panic, whatever mix of shapes and absent keys, when string arrays hold no null and no empty string. */
  lemma {:induction false} CleanNeverPanics(bodies: seq<Fetched<Body>>, chas: View, sys: SystemEndpoints, exclude: Exclude)
    requires forall b :: b in bodies ==> CleanBody(b)
    ensures !Walk(false, bodies, chas, sys, exclude).Panic?
  {
    if bodies != [] && bodies[0].Got? {
      var f := Decode(EMPTY, bodies[0].body);
      if f.Some? {
        assert CleanBody(bodies[0]);
        CleanContributes(bodies[0].body, f.value, sys, exclude);
        CleanNeverPanics(bodies[1..], f.value, Contribute(sys, f.value, exclude).value, exclude);
      }
    }
  }

  /** The property as GetSystemEndpoints has it, on every list of clean bodies. */
  lemma ReuseHarmlessOnClean(bodies: seq<Fetched<Body>>, exclude: Exclude)
    requires forall b :: b in bodies ==> CleanBody(b)
    ensures Walk(true, bodies, EMPTY, NO_ENDPOINTS, exclude) == Walk(false, bodies, EMPTY, NO_ENDPOINTS, exclude)
    ensures !Walk(true, bodies, EMPTY, NO_ENDPOINTS, exclude).Panic?
  {
    CleanNeverPanics(bodies, EMPTY, NO_ENDPOINTS, exclude);
    EmptySettled(NO_ENDPOINTS, exclude);
    ReuseHarmless(bodies, EMPTY, NO_ENDPOINTS, exclude);
  }

  // ---------------------------------------------------------------- where reuse does make a difference

  function OnlySystems(elems: seq<LinkElem>): Fetched<Body> {
    Got(Body(LinksJson(Some(ArrLinks(elems)), None, None, None, None), LinksJson(None, None, None, None, None), None, None))
  }

  lemma WalkCons(reuse: bool, b: Body, rest: seq<Fetched<Body>>, chas: View, sys: SystemEndpoints, exclude: Exclude, c: View)
    requires Decode(if reuse then chas else EMPTY, b) == Some(c)
    ensures var r := Contribute(sys, c, exclude);
            Walk(reuse, [Got(b)] + rest, chas, sys, exclude) == if r.Ok? then Walk(reuse, rest, c, r.value, exclude) else r
  {
    assert ([Got(b)] + rest)[1..] == rest;
  }

  /** Contribute on a struct that holds system links only. */
  lemma ContributeSystems(acc: seq<string>, links: Slice)
    ensures Contribute(NO_ENDPOINTS.(systems := acc), EMPTY.(upper := NO_LINKS.(system := links)), None)
         == if "" in links.live then Panic else Ok(NO_ENDPOINTS.(systems := AddLinks(acc, links.live, None).value))
  {
  }

  lemma SystemsOnlyStruct(prior: Slice, elems: seq<LinkElem>)
    requires AllStrings(elems) && !AllObjects(elems)
    ensures Decode(EMPTY.(upper := NO_LINKS.(system := prior)), OnlySystems(elems).body)
         == Some(EMPTY.(upper := NO_LINKS.(system := StoreStrings(prior, elems))))
  {
  }

  lemma {:induction false} FilteredNone(urls: seq<string>)
    ensures Filtered(urls, None) == urls
  {
    if urls != [] {
      FilteredNone(urls[1..]);
    }
  }

  const TWO := [StrElem("a/"), StrElem("b/")]
  const ONE := [StrElem("a/")]
  const NULLED := [StrElem("a/"), NullElem]

  /** What the three arrays leave in a slice, one after the other: past the length of the second, b/ is still there. */
  lemma StaleStrings()
    ensures AllStrings(TWO) && !AllObjects(TWO) && AllStrings(ONE) && !AllObjects(ONE) && AllStrings(NULLED) && !AllObjects(NULLED)
    ensures StoreStrings(NIL, TWO) == Slice(["a/", "b/"], [])
    ensures StoreStrings(Slice(["a/", "b/"], []), ONE) == Slice(["a/"], ["b/"])
    ensures StoreStrings(Slice(["a/"], ["b/"]), NULLED) == Slice(["a/", "b/"], []) == StoreStrings(Slice(["a/", "b/"], []), NULLED)
    ensures StoreStrings(NIL, NULLED).live == ["a/", ""]
  {
    assert TWO[0] in TWO && ONE[0] in ONE && NULLED[0] in NULLED;
  }

  lemma TwoLinks(acc: seq<string>)
    requires acc == [] || acc == ["a/", "b/"]
    ensures AddLinks(acc, ["a/", "b/"], None) == Ok(["a/", "b/"])
    ensures acc != [] ==> AddLinks(acc, ["a/"], None) == Ok(acc)
  {
    var a, links := AddLink(acc, "a/", None), ["a/", "b/"];
    var b := AddLink(a, "b/", None);
    assert b == links;
    assert links[1..] == ["b/"] && ["b/"][1..] == [] && ["a/"][1..] == [];
    assert AddLinks(a, ["b/"], None) == AddLinks(b, [], None) == Ok(links);
    if acc != [] {
      assert a == acc;
      assert AddLinks(acc, ["a/"], None) == AddLinks(a, [], None);
    }
  }

  /** One step of a reused walk over bodies with system links only. */
  lemma SystemsNext(elems: seq<LinkElem>, rest: seq<Fetched<Body>>, prior: Slice, next: Slice, acc: seq<string>, acc': seq<string>)
    requires AllStrings(elems) && !AllObjects(elems) && StoreStrings(prior, elems) == next
    requires AddLinks(acc, next.live, None) == Ok(acc')
    ensures Walk(true, [OnlySystems(elems)] + rest, EMPTY.(upper := NO_LINKS.(system := prior)), NO_ENDPOINTS.(systems := acc), None)
         == Walk(true, rest, EMPTY.(upper := NO_LINKS.(system := next)), NO_ENDPOINTS.(systems := acc'), None)
  {
    SystemsOnlyStruct(prior, elems);
    ContributeSystems(acc, next);
    WalkCons(true, OnlySystems(elems).body, rest, EMPTY.(upper := NO_LINKS.(system := prior)), NO_ENDPOINTS.(systems := acc), None,
             EMPTY.(upper := NO_LINKS.(system := next)));
  }

  lemma ReusedWalk(middle: seq<Fetched<Body>>)
    requires middle == [] || middle == [OnlySystems(ONE)]
    ensures Walk(true, [OnlySystems(TWO)] + (middle + [OnlySystems(NULLED)]), EMPTY, NO_ENDPOINTS, None)
         == Ok(NO_ENDPOINTS.(systems := ["a/", "b/"]))
  {
    StaleStrings();
    var full, last := ["a/", "b/"], [OnlySystems(NULLED)];
    TwoLinks([]);
    TwoLinks(full);
    SystemsNext(TWO, middle + last, NIL, Slice(full, []), [], full);
    assert EMPTY.(upper := NO_LINKS.(system := NIL)) == EMPTY && NO_ENDPOINTS.(systems := []) == NO_ENDPOINTS;
    assert last + [] == last && [] + last == last;
    if middle == [] {
      SystemsNext(NULLED, [], Slice(full, []), Slice(full, []), full, full);
    } else {
      SystemsNext(ONE, last, Slice(full, []), Slice(["a/"], ["b/"]), full, full);
      SystemsNext(NULLED, [], Slice(["a/"], ["b/"]), Slice(full, []), full, full);
    }
  }

  lemma SystemsReadable(elems: seq<LinkElem>)
    requires AllStrings(elems) && !AllObjects(elems)
    ensures Readable(OnlySystems(elems))
  {
    assert EMPTY.(upper := NO_LINKS.(system := NIL)) == EMPTY;
    SystemsOnlyStruct(NIL, elems);
  }

  lemma FreshWalkPanics(middle: seq<Fetched<Body>>, bodies: seq<Fetched<Body>>)
    requires middle == [] || middle == [OnlySystems(ONE)]
    requires bodies == [OnlySystems(TWO)] + (middle + [OnlySystems(NULLED)])
    ensures Walk(false, bodies, EMPTY, NO_ENDPOINTS, None).Panic?
  {
    StaleStrings();
    SystemsReadable(TWO);
    SystemsReadable(ONE);
    SystemsReadable(NULLED);
    assert HoleAt(NIL, NULLED, 1);
    assert bodies[1 + |middle|] == OnlySystems(NULLED);
    assert BreaksAt(false, bodies, 1 + |middle|);
    PanicsExactly(false, bodies, None);
  }

  /**
   * It does make a difference: a null keeps the string of an earlier chassis, directly before it or, past the length
   * of a shorter array in between, still in the memory of the slice. A fresh struct panics.
   */
  lemma NullKeepsStaleLink(middle: seq<Fetched<Body>>)
    requires middle == [] || middle == [OnlySystems(ONE)]
    ensures var bodies := [OnlySystems(TWO)] + (middle + [OnlySystems(NULLED)]);
            && Walk(false, bodies, EMPTY, NO_ENDPOINTS, None).Panic?
            && Walk(true, bodies, EMPTY, NO_ENDPOINTS, None) == Ok(NO_ENDPOINTS.(systems := ["a/", "b/"]))
  {
    ReusedWalk(middle);
    FreshWalkPanics(middle, [OnlySystems(TWO)] + (middle + [OnlySystems(NULLED)]));
  }

  // ---------------------------------------------------------------- the lists are canonical

  datatype Kind = Systems | Storages | Drives

  function Select(j: LinksJson, k: Kind): Option<LinkJson> {
    match k case Systems => j.system case Storages => j.storage case Drives => j.drives
  }

  function ListOf(sys: SystemEndpoints, k: Kind): seq<string> {
    match k case Systems => sys.systems case Storages => sys.storageController case Drives => sys.drives
  }

  function ExcludeOf(k: Kind, exclude: Exclude): Exclude {
    if k.Drives? then exclude else None
  }

  /** Every link of one kind, chassis by chassis, those under Links before those under links; nulls name nothing. */
  function AllLinks(bodies: seq<Fetched<Body>>, k: Kind): seq<string> {
    if bodies == [] then []
    else
      (if Readable(bodies[0]) then OwnLinks(Select(bodies[0].body.upper, k)) + OwnLinks(Select(bodies[0].body.lower, k)) else [])
      + AllLinks(bodies[1..], k)
  }

  lemma {:induction false} OwnLists(bodies: seq<Fetched<Body>>, sys: SystemEndpoints, exclude: Exclude, k: Kind)
    requires WalkOwn(bodies, sys, exclude).Ok?
    ensures AddLinks(ListOf(sys, k), AllLinks(bodies, k), ExcludeOf(k, exclude)) == Ok(ListOf(WalkOwn(bodies, sys, exclude).value, k))
  {
    if bodies != [] {
      var b := bodies[0].body;
      var sys' := ContributeOwn(sys, b, exclude).value;
      OwnLists(bodies[1..], sys', exclude, k);
      var u, l, rest := OwnLinks(Select(b.upper, k)), OwnLinks(Select(b.lower, k)), AllLinks(bodies[1..], k);
      assert AddBoth(ListOf(sys, k), u, l, ExcludeOf(k, exclude)) == Ok(ListOf(sys', k));
      AddLinksConcat(ListOf(sys, k), u, l, ExcludeOf(k, exclude));
      AddLinksConcat(ListOf(sys, k), u + l, rest, ExcludeOf(k, exclude));
    }
  }

  /**
   * Whenever getSystemEndpoints succeeds, its systems, storage-controller and drive lists are all links the bodies
   * name, normalised, filtered, first occurrences kept in order.
   */
  lemma CanonicalLists(bodies: seq<Fetched<Body>>, exclude: Exclude, k: Kind, r: SystemEndpoints)
    requires Walk(true, bodies, EMPTY, NO_ENDPOINTS, exclude) == Ok(r)
    ensures "" !in AllLinks(bodies, k)
    ensures var urls := Filtered(Slashed(AllLinks(bodies, k)), ExcludeOf(k, exclude));
            && ListOf(r, k) == FirstOccurrences(urls)
            && NoDuplicates(ListOf(r, k))
            && (forall u :: u in ListOf(r, k) <==> u in urls)
  {
    EmptySettled(NO_ENDPOINTS, exclude);
    WalkIsOwn(true, bodies, EMPTY, NO_ENDPOINTS, exclude);
    OwnLists(bodies, NO_ENDPOINTS, exclude, k);
    AddedToNothing(AllLinks(bodies, k), ExcludeOf(k, exclude), ListOf(r, k));
  }

  lemma AddedToNothing(links: seq<string>, exclude: Exclude, list: seq<string>)
    requires AddLinks([], links, exclude) == Ok(list)
    ensures "" !in links
    ensures var urls := Filtered(Slashed(links), exclude);
            list == FirstOccurrences(urls) && NoDuplicates(list) && (forall u :: u in list <==> u in urls)
  {
    AddLinksIsMerge([], links, exclude);
    var urls := Filtered(Slashed(links), exclude);
    MergeIsFirstOccurrences(urls);
    MergeMembers([], urls);
  }

  /**
   * The links in the order they count: nothing until the first chassis that names any; that one gives its
   * top-level link or, lacking it, its nested links; later ones give top-level links only.
   */
  function AltLinks(bodies: seq<Fetched<Body>>, k: AltKind, found: bool): seq<string> {
    if bodies == [] then []
    else
      var here := if Readable(bodies[0]) then LinksHere(bodies[0].body, k, found) else [];
      here + AltLinks(bodies[1..], k, found || here != [])
  }

  function LinksHere(b: Body, k: AltKind, found: bool): seq<string>
    requires b.Body?
  {
    if AltOf(b, k) != "" then [AltOf(b, k)]
    else if !found then OwnLinks(NestedOf(b.upper, k)) + OwnLinks(NestedOf(b.lower, k))
    else []
  }

  lemma {:induction false} OwnAlts(bodies: seq<Fetched<Body>>, sys: SystemEndpoints, exclude: Exclude, k: AltKind)
    requires WalkOwn(bodies, sys, exclude).Ok?
    ensures AddLinks(AltListOf(sys, k), AltLinks(bodies, k, AltListOf(sys, k) != []), None)
         == Ok(AltListOf(WalkOwn(bodies, sys, exclude).value, k))
  {
    var acc := AltListOf(sys, k);
    if bodies != [] {
      var b := bodies[0].body;
      var sys' := ContributeOwn(sys, b, exclude).value;
      OwnAlts(bodies[1..], sys', exclude, k);
      AltStep(acc, AltOf(b, k), OwnLinks(NestedOf(b.upper, k)), OwnLinks(NestedOf(b.lower, k)), LinksHere(b, k, acc != []));
      AddLinksConcat(acc, LinksHere(b, k, acc != []), AltLinks(bodies[1..], k, AltListOf(sys', k) != []), None);
    }
  }

  lemma AltStep(acc: seq<string>, alt: string, upper: seq<string>, lower: seq<string>, here: seq<string>)
    requires here == if alt != "" then [alt] else if acc == [] then upper + lower else []
    requires AddAltOrNested(acc, alt, upper, lower).Ok?
    ensures AddLinks(acc, here, None) == AddAltOrNested(acc, alt, upper, lower)
    ensures "" !in here && (AddLinks(acc, here, None).value != [] <==> acc != [] || here != [])
  {
    if alt != "" {
      assert here[1..] == [];
      assert AddLinks(acc, here, None) == AddLinks(AddLink(acc, alt, None), [], None);
    } else if acc == [] {
      AddLinksConcat(acc, upper, lower, None);
      NonEmptyGrows(acc, here);
    }
  }

  /** Its power and thermal lists are the first occurrences of the links that count. */
  lemma CanonicalAlt(bodies: seq<Fetched<Body>>, exclude: Exclude, k: AltKind, r: SystemEndpoints)
    requires Walk(true, bodies, EMPTY, NO_ENDPOINTS, exclude) == Ok(r)
    ensures "" !in AltLinks(bodies, k, false)
    ensures AltListOf(r, k) == FirstOccurrences(Slashed(AltLinks(bodies, k, false)))
    ensures NoDuplicates(AltListOf(r, k))
  {
    EmptySettled(NO_ENDPOINTS, exclude);
    WalkIsOwn(true, bodies, EMPTY, NO_ENDPOINTS, exclude);
    OwnAlts(bodies, NO_ENDPOINTS, exclude, k);
    AddedToNothing(AltLinks(bodies, k, false), None, AltListOf(r, k));
    FilteredNone(Slashed(AltLinks(bodies, k, false)));
  }
}
