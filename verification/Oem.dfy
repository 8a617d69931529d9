/**
 * Decoding of chassis bodies (oem/chassis.go). A LinksWrapper is decoded in place: objects are
 * appended to what it already holds, an array of strings is stored over it, an absent key leaves it alone.
 */
module Oem {
  import opened Outcomes

  /** BadElem is an element of any other type, or an object whose link is not a string. */
  datatype LinkElem = ObjElem(url: string, href: string) | StrElem(s: string) | NullElem | BadElem

  datatype LinkJson = NullLinks | ObjLinks(url: string, href: string) | ArrLinks(elems: seq<LinkElem>) | BadLinks

  /**
   * A slice of strings: its elements, and the strings its backing array still holds past them. Array slots never
   * written hold the empty string, so they need not be listed.
   */
  datatype Slice = Slice(live: seq<string>, spare: seq<string>) {
    function Memory(): seq<string> {
      live + spare
    }

    /** The string in a slot, within the length or past it. */
    function At(i: nat): string {
      if i < |live| then live[i] else if i - |live| < |spare| then spare[i - |live|] else ""
    }

    /** append: writes into the spare slots first. A larger array, when one is needed, holds nothing past the new length. */
    function Append(xs: seq<string>): Slice {
      Slice(live + xs, if |xs| <= |spare| then spare[|xs|..] else [])
    }
  }

  const NIL := Slice([], [])

  function Picked(url: string, href: string): seq<string> {
    if url != "" then [url] else if href != "" then [href] else []
  }

  predicate AllObjects(elems: seq<LinkElem>) {
    forall e :: e in elems ==> e.ObjElem? || e.NullElem?
  }

  predicate AllStrings(elems: seq<LinkElem>) {
    forall e :: e in elems ==> e.StrElem? || e.NullElem?
  }

  function ObjectLinks(elems: seq<LinkElem>): seq<string> {
    if elems == [] then []
    else (if elems[0].ObjElem? then Picked(elems[0].url, elems[0].href) else []) + ObjectLinks(elems[1..])
  }

  lemma {:induction false} ObjectLinksSnoc(elems: seq<LinkElem>, e: LinkElem)
    ensures ObjectLinks(elems + [e]) == ObjectLinks(elems) + (if e.ObjElem? then Picked(e.url, e.href) else [])
  {
    if elems == [] {
      assert [e][1..] == [];
    } else {
      assert (elems + [e])[1..] == elems[1..] + [e];
      ObjectLinksSnoc(elems[1..], e);
    }
  }

  /** What a slot ends as: a null or mistyped element leaves the string that was there. */
  function Slot(prior: Slice, elems: seq<LinkElem>, i: nat): string
    requires i < |elems|
  {
    if elems[i].StrElem? then elems[i].s else prior.At(i)
  }

  /** Decoding an array of strings: slot by slot over the old memory, of which a shorter array leaves the rest behind. */
  function StoreStrings(prior: Slice, elems: seq<LinkElem>): (r: Slice)
    ensures |r.live| == |elems|
    ensures forall i :: 0 <= i < |elems| ==> r.live[i] == Slot(prior, elems, i)
    ensures forall i: nat :: i >= |elems| ==> r.At(i) == prior.At(i)
  {
    Slice(seq(|elems|, i requires 0 <= i < |elems| => Slot(prior, elems, i)),
          if |elems| <= |prior.Memory()| then prior.Memory()[|elems|..] else [])
  }

  /** The three decoding attempts, in order; None is a decoding error. */
  function DecodeLinks(prior: Slice, j: LinkJson): Option<Slice> {
    match j
    case NullLinks => Some(prior)
    case ObjLinks(url, href) => Some(prior.Append(Picked(url, href)))
    case ArrLinks(elems) =>
      if AllObjects(elems) then Some(prior.Append(ObjectLinks(elems)))
      else if AllStrings(elems) then Some(StoreStrings(prior, elems))
      else None
    case BadLinks => None
  }

  lemma AppendTwice(s: Slice, a: seq<string>, b: seq<string>)
    ensures s.Append(a).Append(b) == s.Append(a + b)
  {
    assert (s.live + a) + b == s.live + (a + b);
    if |a + b| <= |s.spare| {
      assert s.spare[|a|..][|b|..] == s.spare[|a + b|..];
    }
  }

  lemma AppendNothing(s: Slice)
    ensures s.Append([]) == s
  {
    assert s.live + [] == s.live;
    assert s.spare[0..] == s.spare;
  }

  // ---------------------------------------------------------------- which links, and in which order

  /** The objects that name a link, in order: at lists their positions. */
  ghost predicate LinkPositions(elems: seq<LinkElem>, at: seq<nat>) {
    OnLinks(elems, at) && Rising(at) && forall i :: 0 <= i < |elems| && NamesAt(elems, i) ==> i in at
  }

  ghost predicate OnLinks(elems: seq<LinkElem>, at: seq<nat>) {
    forall k :: 0 <= k < |at| ==> at[k] < |elems| && NamesAt(elems, at[k])
  }

  ghost predicate Rising(at: seq<nat>) {
    forall j, k :: 0 <= j < k < |at| ==> at[j] < at[k]
  }

  predicate NamesAt(elems: seq<LinkElem>, i: nat)
    requires i < |elems|
  {
    elems[i].ObjElem? && (elems[i].url != "" || elems[i].href != "")
  }

  lemma OnLinksSnoc(elems: seq<LinkElem>, e: LinkElem, at: seq<nat>)
    requires OnLinks(elems, at)
    ensures OnLinks(elems + [e], at)
    ensures NamesAt(elems + [e], |elems|) ==> OnLinks(elems + [e], at + [|elems|])
  {
  }

  lemma RisingSnoc(elems: seq<LinkElem>, at: seq<nat>)
    requires OnLinks(elems, at) && Rising(at)
    ensures Rising(at + [|elems|])
  {
  }

  lemma PositionsSnoc(elems: seq<LinkElem>, e: LinkElem, at: seq<nat>)
    requires LinkPositions(elems, at)
    ensures LinkPositions(elems + [e], if NamesAt(elems + [e], |elems|) then at + [|elems|] else at)
  {
    OnLinksSnoc(elems, e, at);
    RisingSnoc(elems, at);
    var longer, n := elems + [e], |elems|;
    forall i | 0 <= i < |longer| && NamesAt(longer, i) ensures i in at + [n] && (i < n ==> i in at) {
      if i < n {
        assert NamesAt(elems, i);
      } else {
        assert (at + [n])[|at|] == n;
      }
    }
  }

  /** The list holds the URL, else the href, of each of those objects. */
  ghost predicate LinksAt(links: seq<string>, elems: seq<LinkElem>, at: seq<nat>) {
    && |links| == |at|
    && forall k :: 0 <= k < |at| ==>
         at[k] < |elems| && elems[at[k]].ObjElem? && links[k] == if elems[at[k]].url != "" then elems[at[k]].url else elems[at[k]].href
  }

  lemma LinksSnoc(links: seq<string>, elems: seq<LinkElem>, e: LinkElem, at: seq<nat>)
    requires LinksAt(links, elems, at)
    ensures LinksAt(links, elems + [e], at)
    ensures e.ObjElem? ==> LinksAt(links + [if e.url != "" then e.url else e.href], elems + [e], at + [|elems|])
  {
    assert forall i :: 0 <= i < |elems| ==> (elems + [e])[i] == elems[i];
  }

  /** An array of objects contributes, in order, exactly one link for each object that names any: its URL, else its href. */
  lemma {:induction false} ObjectLinksExactly(elems: seq<LinkElem>) returns (at: seq<nat>)
    ensures LinkPositions(elems, at) && LinksAt(ObjectLinks(elems), elems, at)
  {
    at := [];
    if elems != [] {
      var n := |elems| - 1;
      var front, e := elems[..n], elems[n];
      assert elems == front + [e];
      at := ObjectLinksExactly(front);
      PositionsSnoc(front, e, at);
      LinksSnoc(ObjectLinks(front), front, e, at);
      ObjectLinksSnoc(front, e);
      at := if NamesAt(elems, n) then at + [n] else at;
    }
  }

  /** A single object contributes its URL, else its href, behind what the slice held. */
  lemma ObjectExactly(prior: Slice, url: string, href: string)
    ensures DecodeLinks(prior, ObjLinks(url, href)).Some?
    ensures DecodeLinks(prior, ObjLinks(url, href)).value.live
         == prior.live + if url != "" then [url] else if href != "" then [href] else []
  {
  }

  class LinksWrapper {
    var LinksURLSlice: Slice

    constructor ()
      ensures LinksURLSlice == NIL
    {
      LinksURLSlice := NIL;
    }

    method AppendLink(url: string, href: string)
      modifies this
      ensures LinksURLSlice == old(LinksURLSlice).Append(Picked(url, href))
      ensures url != "" ==> LinksURLSlice.live == old(LinksURLSlice.live) + [url]
      ensures url == "" && href != "" ==> LinksURLSlice.live == old(LinksURLSlice.live) + [href]
      ensures url == "" && href == "" ==> LinksURLSlice == old(LinksURLSlice)
    {
      AppendNothing(LinksURLSlice);
      if url != "" {
        LinksURLSlice := LinksURLSlice.Append([url]);
      } else if href != "" {
        LinksURLSlice := LinksURLSlice.Append([href]);
      }
    }

    method UnmarshalLinks(j: LinkJson) returns (ok: bool)
      modifies this
      ensures ok <==> j.NullLinks? || (j.ArrLinks? && AllObjects(j.elems))
      ensures LinksURLSlice == old(LinksURLSlice).Append(if ok && j.ArrLinks? then ObjectLinks(j.elems) else [])
    {
      AppendNothing(LinksURLSlice);
      if j.ArrLinks? && AllObjects(j.elems) {
        for i := 0 to |j.elems|
          invariant LinksURLSlice == old(LinksURLSlice).Append(ObjectLinks(j.elems[..i]))
        {
          var e := j.elems[i];
          AppendTwice(old(LinksURLSlice), ObjectLinks(j.elems[..i]), if e.ObjElem? then Picked(e.url, e.href) else []);
          ObjectLinksSnoc(j.elems[..i], j.elems[i]);
          assert j.elems[..i + 1] == j.elems[..i] + [j.elems[i]];
          if j.elems[i].ObjElem? {
            AppendLink(j.elems[i].url, j.elems[i].href);
          }
        }
        assert j.elems[..|j.elems|] == j.elems;
        return true;
      }
      return j.NullLinks?;
    }

    method UnmarshalObject(j: LinkJson) returns (ok: bool)
      modifies this
      ensures ok <==> j.NullLinks? || j.ObjLinks?
      ensures LinksURLSlice == old(LinksURLSlice).Append(if j.ObjLinks? then Picked(j.url, j.href) else [])
    {
      AppendNothing(LinksURLSlice);
      if j.ObjLinks? {
        AppendLink(j.url, j.href);
        return true;
      }
      return j.NullLinks?;
    }

    /** The final state is stated for failures too: a mixed array stores the strings it holds. */
    method UnmarshalJSON(j: LinkJson) returns (ok: bool)
      modifies this
      ensures ok <==> DecodeLinks(old(LinksURLSlice), j).Some?
      ensures ok ==> LinksURLSlice == DecodeLinks(old(LinksURLSlice), j).value
      ensures !ok ==> LinksURLSlice == if j.ArrLinks? then StoreStrings(old(LinksURLSlice), j.elems) else old(LinksURLSlice)
    {
      AppendNothing(LinksURLSlice);
      var done := UnmarshalLinks(j);
      if done {
        return true;
      }
      done := UnmarshalObject(j);
      if done {
        return true;
      }
      if j.ArrLinks? {
        LinksURLSlice := StoreStrings(LinksURLSlice, j.elems);
        return AllStrings(j.elems);
      }
      return false;
    }
  }

  /** The value of a ChassisLinks struct. */
  datatype Links = Links(system: Slice, storage: Slice, drives: Slice, power: Slice, thermal: Slice)

  /** The JSON under "Links" or "links"; None is an absent key. */
  datatype LinksJson = LinksJson(system: Option<LinkJson>, storage: Option<LinkJson>, drives: Option<LinkJson>, power: Option<LinkJson>, thermal: Option<LinkJson>)

  /** The value of a Chassis struct. */
  datatype View = View(upper: Links, lower: Links, powerAlt: string, thermalAlt: string)

  /** Malformed is a body that is not such an object at all. The Alt fields are None when the body sets no link. */
  datatype Body =
    | Malformed
    | Body(upper: LinksJson, lower: LinksJson, powerAlt: Option<string>, thermalAlt: Option<string>)

  const NO_LINKS := Links(NIL, NIL, NIL, NIL, NIL)
  const EMPTY := View(NO_LINKS, NO_LINKS, "", "")

  function DecodeField(prior: Slice, j: Option<LinkJson>): Option<Slice> {
    if j.None? then Some(prior) else DecodeLinks(prior, j.value)
  }

  /** Decoding a struct; whether it fails depends on the body alone. */
  function DecodeAll(prior: Links, j: LinksJson): Option<Links> {
    var system, storage, drives := DecodeField(prior.system, j.system), DecodeField(prior.storage, j.storage), DecodeField(prior.drives, j.drives);
    var power, thermal := DecodeField(prior.power, j.power), DecodeField(prior.thermal, j.thermal);
    if system.None? || storage.None? || drives.None? || power.None? || thermal.None? then None
    else Some(Links(system.value, storage.value, drives.value, power.value, thermal.value))
  }

  function Decode(prior: View, b: Body): Option<View> {
    if b.Malformed? then None
    else
      var upper, lower := DecodeAll(prior.upper, b.upper), DecodeAll(prior.lower, b.lower);
      if upper.None? || lower.None? then None
      else Some(View(upper.value, lower.value,
                     if b.powerAlt.Some? then b.powerAlt.value else prior.powerAlt,
                     if b.thermalAlt.Some? then b.thermalAlt.value else prior.thermalAlt))
  }

  class ChassisLinks {
    const System: LinksWrapper
    const Storage: LinksWrapper
    const Drives: LinksWrapper
    const Power: LinksWrapper
    const Thermal: LinksWrapper

    ghost function Repr(): set<object> {
      {System, Storage, Drives, Power, Thermal}
    }

    ghost predicate Valid() {
      && System != Storage && System != Drives && System != Power && System != Thermal
      && Storage != Drives && Storage != Power && Storage != Thermal
      && Drives != Power && Drives != Thermal && Power != Thermal
    }

    ghost function Value(): Links
      reads Repr()
    {
      Links(System.LinksURLSlice, Storage.LinksURLSlice, Drives.LinksURLSlice, Power.LinksURLSlice, Thermal.LinksURLSlice)
    }

    constructor ()
      ensures Valid() && fresh(this) && fresh(Repr()) && Value() == NO_LINKS
    {
      System := new LinksWrapper();
      Storage := new LinksWrapper();
      Drives := new LinksWrapper();
      Power := new LinksWrapper();
      Thermal := new LinksWrapper();
    }

    static method UnmarshalField(w: LinksWrapper, j: Option<LinkJson>) returns (ok: bool)
      modifies w
      ensures ok <==> DecodeField(old(w.LinksURLSlice), j).Some?
      ensures ok ==> w.LinksURLSlice == DecodeField(old(w.LinksURLSlice), j).value
    {
      ok := true;
      if j.Some? {
        ok := w.UnmarshalJSON(j.value);
      }
    }

    /** The error of a field ends the decoding; the fields stand in the order of their declaration here. */
    method Unmarshal(j: LinksJson) returns (ok: bool)
      requires Valid()
      modifies Repr()
      ensures ok <==> DecodeAll(old(Value()), j).Some?
      ensures ok ==> Value() == DecodeAll(old(Value()), j).value
    {
      ok := UnmarshalField(System, j.system);
      if !ok {
        return;
      }
      ok := UnmarshalField(Storage, j.storage);
      if !ok {
        return;
      }
      ok := UnmarshalField(Drives, j.drives);
      if !ok {
        return;
      }
      ok := UnmarshalField(Power, j.power);
      if !ok {
        return;
      }
      ok := UnmarshalField(Thermal, j.thermal);
    }
  }

  class Chassis {
    const Links: ChassisLinks
    const LinksLower: ChassisLinks
    var PowerAlt: string
    var ThermalAlt: string

    ghost function Repr(): set<object> {
      {this} + Links.Repr() + LinksLower.Repr()
    }

    ghost predicate Valid() {
      && Links.Valid() && LinksLower.Valid()
      && this !in Links.Repr() && this !in LinksLower.Repr() && Links.Repr() !! LinksLower.Repr()
    }

    ghost function Value(): View
      reads Repr()
    {
      View(Links.Value(), LinksLower.Value(), PowerAlt, ThermalAlt)
    }

    constructor ()
      ensures Valid() && fresh(Repr()) && Value() == EMPTY
    {
      Links := new ChassisLinks();
      LinksLower := new ChassisLinks();
      PowerAlt, ThermalAlt := "", "";
    }

    method Unmarshal(b: Body) returns (ok: bool)
      requires Valid()
      modifies Repr()
      ensures ok <==> Decode(old(Value()), b).Some?
      ensures ok ==> Value() == Decode(old(Value()), b).value
    {
      if b.Malformed? {
        return false;
      }
      ok := Links.Unmarshal(b.upper);
      if !ok {
        return;
      }
      ok := LinksLower.Unmarshal(b.lower);
      if !ok {
        return;
      }
      if b.powerAlt.Some? {
        PowerAlt := b.powerAlt.value;
      }
      if b.thermalAlt.Some? {
        ThermalAlt := b.thermalAlt.value;
      }
    }
  }
}
