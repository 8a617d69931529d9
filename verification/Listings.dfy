/** How the chassis walk ends, and what its lists hold, told from the bodies alone. */
module Listings {
  import opened Outcomes
  import opened Urls
  import opened Oem
  import opened Endpoints

  // ---------------------------------------------------------------- how a walk ends

  /** Body i is the first that was not fetched or does not decode, and none before it has a hole. */
  ghost predicate StopsAt(reuse: bool, bodies: seq<Fetched<Body>>, i: nat, e: Error)
    requires i < |bodies|
  {
    && (forall h :: 0 <= h < i ==> Readable(bodies[h]) && !HoleIn(reuse, bodies, h))
    && !Readable(bodies[i]) && e == if bodies[i].Failed? then bodies[i].error else Other
  }

  ghost predicate Smooth(reuse: bool, bodies: seq<Fetched<Body>>, n: nat)
    requires n <= |bodies|
  {
    forall h :: 0 <= h < n ==> Readable(bodies[h]) && !HoleIn(reuse, bodies, h)
  }

  ghost predicate StopsFrom(reuse: bool, bodies: seq<Fetched<Body>>, n: nat, e: Error) {
    exists i :: n <= i < |bodies| && StopsAt(reuse, bodies, i, e)
  }

  lemma SmoothNext(reuse: bool, bodies: seq<Fetched<Body>>, n: nat)
    requires n < |bodies| && Smooth(reuse, bodies, n)
    ensures Smooth(reuse, bodies, n + 1) <==> Readable(bodies[n]) && !HoleIn(reuse, bodies, n)
  {
  }

  lemma StopsHere(reuse: bool, bodies: seq<Fetched<Body>>, n: nat)
    requires n < |bodies| && Smooth(reuse, bodies, n) && !Readable(bodies[n])
    ensures StopsFrom(reuse, bodies, n, if bodies[n].Failed? then bodies[n].error else Other)
  {
    assert StopsAt(reuse, bodies, n, if bodies[n].Failed? then bodies[n].error else Other);
  }

  lemma StopsLater(reuse: bool, bodies: seq<Fetched<Body>>, n: nat, e: Error)
    requires StopsFrom(reuse, bodies, n + 1, e)
    ensures StopsFrom(reuse, bodies, n, e)
  {
    var i :| n + 1 <= i < |bodies| && StopsAt(reuse, bodies, i, e);
  }

  ghost predicate EndsWell(reuse: bool, bodies: seq<Fetched<Body>>, n: nat, r: Outcome<SystemEndpoints>) {
    && (r.Ok? ==> ReadableFrom(bodies, n))
    && (r.Err? ==> StopsFrom(reuse, bodies, n, r.error))
  }

  ghost predicate ReadableFrom(bodies: seq<Fetched<Body>>, n: nat) {
    forall h :: n <= h < |bodies| ==> Readable(bodies[h])
  }

  lemma EndsNext(reuse: bool, bodies: seq<Fetched<Body>>, n: nat, r: Outcome<SystemEndpoints>)
    requires n < |bodies| && Readable(bodies[n]) && EndsWell(reuse, bodies, n + 1, r)
    ensures EndsWell(reuse, bodies, n, r)
  {
    if r.Err? {
      StopsLater(reuse, bodies, n, r.error);
    }
  }

  lemma EndsHere(reuse: bool, bodies: seq<Fetched<Body>>, n: nat, prior: View, sys: SystemEndpoints, exclude: Exclude)
    requires n < |bodies| && Smooth(reuse, bodies, n) && !Readable(bodies[n])
    ensures EndsWell(reuse, bodies, n, Walk(reuse, bodies[n..], prior, sys, exclude))
  {
    if bodies[n].Got? {
      DecodeFailsAlike(prior, bodies[n].body);
    }
    StopsHere(reuse, bodies, n);
  }

  lemma {:induction false} EndsFrom(reuse: bool, bodies: seq<Fetched<Body>>, n: nat, sys: SystemEndpoints, exclude: Exclude)
    requires n <= |bodies| && Smooth(reuse, bodies, n)
    requires Settled(Under(reuse, bodies, n), sys, exclude) && Tracked(bodies, n, sys)
    ensures EndsWell(reuse, bodies, n, Walk(reuse, bodies[n..], Under(reuse, bodies, n), sys, exclude))
    decreases |bodies| - n
  {
    if n < |bodies| {
      var prior := Under(reuse, bodies, n);
      if Readable(bodies[n]) {
        DecodeFailsAlike(prior, bodies[n].body);
        EndsOver(reuse, bodies, n, sys, exclude, Decode(prior, bodies[n].body).value);
      } else {
        EndsHere(reuse, bodies, n, prior, sys, exclude);
      }
    }
  }

  /** A readable body contributes exactly if it has no hole; else the walk panics. */
  lemma ContributesExactly(reuse: bool, bodies: seq<Fetched<Body>>, n: nat, sys: SystemEndpoints, exclude: Exclude, c: View)
    requires n < |bodies| && Readable(bodies[n])
    requires Decode(Under(reuse, bodies, n), bodies[n].body) == Some(c)
    requires Settled(Under(reuse, bodies, n), sys, exclude) && Tracked(bodies, n, sys)
    ensures Contribute(sys, c, exclude).Ok? <==> !HoleIn(reuse, bodies, n)
    ensures !Contribute(sys, c, exclude).Ok? ==> Contribute(sys, c, exclude).Panic?
  {
    StepExactly(Under(reuse, bodies, n), bodies[n].body, c, sys, exclude);
  }

  lemma {:induction false} EndsOver(reuse: bool, bodies: seq<Fetched<Body>>, n: nat, sys: SystemEndpoints, exclude: Exclude, c: View)
    requires n < |bodies| && Smooth(reuse, bodies, n) && Readable(bodies[n])
    requires Decode(Under(reuse, bodies, n), bodies[n].body) == Some(c)
    requires Settled(Under(reuse, bodies, n), sys, exclude) && Tracked(bodies, n, sys)
    ensures EndsWell(reuse, bodies, n, Walk(reuse, bodies[n..], Under(reuse, bodies, n), sys, exclude))
    decreases |bodies| - n, 0
  {
    var r := Contribute(sys, c, exclude);
    assert r.Ok? <==> !HoleIn(reuse, bodies, n) by {
      ContributesExactly(reuse, bodies, n, sys, exclude, c);
    }
    assert r.Ok? || r.Panic? by {
      ContributesExactly(reuse, bodies, n, sys, exclude, c);
    }
    if r.Ok? {
      assert Settled(Under(reuse, bodies, n + 1), r.value, exclude) && Tracked(bodies, n + 1, r.value) by {
        SettledNext(reuse, bodies, n, sys, exclude, c);
      }
      assert Smooth(reuse, bodies, n + 1) by {
        SmoothNext(reuse, bodies, n);
      }
      EndsFrom(reuse, bodies, n + 1, r.value, exclude);
      EndsNext(reuse, bodies, n, Walk(reuse, bodies[n + 1..], Under(reuse, bodies, n + 1), r.value, exclude));
    }
    WalkNext(reuse, bodies, n, sys, exclude, c);
  }

  /**
   * A walk succeeds exactly if every body was fetched and decodes and none has a hole; it ends with an error exactly if
   * some body was not fetched or does not decode and all before it are free of that, and then with the error of that body.
   */
  lemma EndsExactly(reuse: bool, bodies: seq<Fetched<Body>>, exclude: Exclude, e: Error)
    ensures var r := Walk(reuse, bodies, EMPTY, NO_ENDPOINTS, exclude);
            && (r.Ok? <==> forall h :: 0 <= h < |bodies| ==> Readable(bodies[h]) && !HoleIn(reuse, bodies, h))
            && (r == Err(e) <==> exists i :: 0 <= i < |bodies| && StopsAt(reuse, bodies, i, e))
  {
    var r := Walk(reuse, bodies, EMPTY, NO_ENDPOINTS, exclude);
    EmptySettled(NO_ENDPOINTS, exclude);
    EndsFrom(reuse, bodies, 0, NO_ENDPOINTS, exclude);
    PanicsExactly(reuse, bodies, exclude);
    assert bodies[0..] == bodies;
    if r.Ok? {
      NoHolesLeft(reuse, bodies);
    }
    if Smooth(reuse, bodies, |bodies|) {
      SmoothEnds(reuse, bodies);
    }
    if i :| 0 <= i < |bodies| && StopsAt(reuse, bodies, i, e) {
      StopsOnce(reuse, bodies, i, e);
      if r.Err? {
        var j :| 0 <= j < |bodies| && StopsAt(reuse, bodies, j, r.error);
      }
    }
  }

  lemma NoHolesLeft(reuse: bool, bodies: seq<Fetched<Body>>)
    requires (forall h :: 0 <= h < |bodies| ==> Readable(bodies[h])) && !BreaksFrom(reuse, bodies, 0)
    ensures Smooth(reuse, bodies, |bodies|)
  {
    forall h | 0 <= h < |bodies| ensures !HoleIn(reuse, bodies, h) {
      assert !BreaksAt(reuse, bodies, h);
    }
  }

  lemma SmoothEnds(reuse: bool, bodies: seq<Fetched<Body>>)
    requires Smooth(reuse, bodies, |bodies|)
    ensures !BreaksFrom(reuse, bodies, 0) && forall e :: !StopsFrom(reuse, bodies, 0, e)
  {
  }

  lemma StopsOnce(reuse: bool, bodies: seq<Fetched<Body>>, i: nat, e: Error)
    requires i < |bodies| && StopsAt(reuse, bodies, i, e)
    ensures !Smooth(reuse, bodies, |bodies|) && !BreaksFrom(reuse, bodies, 0)
    ensures forall j, f :: 0 <= j < |bodies| && StopsAt(reuse, bodies, j, f) ==> j == i
  {
    forall j | 0 <= j < |bodies| ensures !BreaksAt(reuse, bodies, j) {
      if j < i {
        assert !HoleIn(reuse, bodies, j);
      }
    }
  }

  // ---------------------------------------------------------------- the lists, link by link

  /** The JSON under a key names this link: as an object's URL, or its href if it has no URL, or as a string. */
  ghost predicate NamesLink(j: Option<LinkJson>, l: string) {
    && l != "" && j.Some?
    && match j.value
       case ObjLinks(url, href) => l == url || (url == "" && l == href)
       case ArrLinks(elems) => exists e :: e in elems && ElemNames(e, l)
       case _ => false
  }

  predicate ElemNames(e: LinkElem, l: string) {
    (e.ObjElem? && (l == e.url || (e.url == "" && l == e.href))) || (e.StrElem? && l == e.s)
  }

  lemma {:induction false} ObjectLinksMembers(elems: seq<LinkElem>, l: string)
    requires l != "" && AllObjects(elems)
    ensures l in ObjectLinks(elems) <==> exists e :: e in elems && ElemNames(e, l)
  {
    if elems != [] {
      assert elems[0] in elems;
      assert forall e :: e in elems <==> e == elems[0] || e in elems[1..];
      ObjectLinksMembers(elems[1..], l);
    }
  }

  lemma {:induction false} OwnStringsMembers(elems: seq<LinkElem>, l: string)
    requires l != "" && AllStrings(elems)
    ensures l in OwnStrings(elems) <==> exists e :: e in elems && ElemNames(e, l)
  {
    if elems != [] {
      assert elems[0] in elems;
      assert forall e :: e in elems <==> e == elems[0] || e in elems[1..];
      OwnStringsMembers(elems[1..], l);
    }
  }

  lemma OwnLinksMembers(j: Option<LinkJson>, l: string)
    requires l != "" && DecodeField(NIL, j).Some?
    ensures l in OwnLinks(j) <==> NamesLink(j, l)
  {
    if j.Some? && j.value.ArrLinks? {
      if AllObjects(j.value.elems) {
        ObjectLinksMembers(j.value.elems, l);
      } else {
        OwnStringsMembers(j.value.elems, l);
      }
    }
  }

  /** The body names this link for the kind, under Links or under links. */
  ghost predicate BodyNames(b: Fetched<Body>, k: Kind, l: string) {
    && b.Got? && b.body.Body?
    && match k
       case Systems => NamesLink(b.body.upper.system, l) || NamesLink(b.body.lower.system, l)
       case Storages => NamesLink(b.body.upper.storage, l) || NamesLink(b.body.lower.storage, l)
       case Drives => NamesLink(b.body.upper.drives, l) || NamesLink(b.body.lower.drives, l)
  }

  lemma BodyOwns(b: Fetched<Body>, k: Kind, l: string)
    requires Readable(b) && l != ""
    ensures l in OwnLinks(Select(b.body.upper, k)) + OwnLinks(Select(b.body.lower, k)) <==> BodyNames(b, k, l)
  {
    DecodeParts(EMPTY, b.body);
    OwnLinksMembers(Select(b.body.upper, k), l);
    OwnLinksMembers(Select(b.body.lower, k), l);
  }

  lemma {:induction false} AllLinksMembers(bodies: seq<Fetched<Body>>, k: Kind, l: string)
    requires l != "" && forall h :: 0 <= h < |bodies| ==> Readable(bodies[h])
    ensures l in AllLinks(bodies, k) <==> exists i :: 0 <= i < |bodies| && BodyNames(bodies[i], k, l)
  {
    if bodies != [] {
      var rest := bodies[1..];
      BodyOwns(bodies[0], k, l);
      AllLinksMembers(rest, k, l);
      if i :| 0 <= i < |rest| && BodyNames(rest[i], k, l) {
        assert BodyNames(bodies[i + 1], k, l);
      }
      if i :| 0 <= i < |bodies| && BodyNames(bodies[i], k, l) && i > 0 {
        assert BodyNames(rest[i - 1], k, l);
      }
    }
  }

  lemma {:induction false} SlashedMembers(links: seq<string>, u: string)
    requires "" !in links
    ensures u in Slashed(links) <==> exists l :: l in links && Slashes(l, u)
  {
    if links != [] {
      assert links[0] in links;
      assert forall l :: l in links <==> l == links[0] || l in links[1..];
      SlashedMembers(links[1..], u);
      assert Slashes(links[0], u) <==> u == AppendSlash(links[0]);
    }
  }

  /** Some body names a link for the kind that this URL is with its slash. */
  ghost predicate NamedSomewhere(bodies: seq<Fetched<Body>>, k: Kind, u: string) {
    exists i, l :: 0 <= i < |bodies| && BodyNames(bodies[i], k, l) && Slashes(l, u)
  }

  lemma WalkListsExactly(bodies: seq<Fetched<Body>>, exclude: Exclude, k: Kind, r: SystemEndpoints, u: string)
    requires Walk(true, bodies, EMPTY, NO_ENDPOINTS, exclude) == Ok(r)
    ensures u in ListOf(r, k) <==> NamedSomewhere(bodies, k, u) && Kept(ExcludeOf(k, exclude), u)
  {
    EndsExactly(true, bodies, exclude, Other);
    CanonicalLists(bodies, exclude, k, r);
    SlashedMembers(AllLinks(bodies, k), u);
    if l :| l in AllLinks(bodies, k) && Slashes(l, u) {
      AllLinksMembers(bodies, k, l);
      var i :| 0 <= i < |bodies| && BodyNames(bodies[i], k, l);
    }
    if i, l :| 0 <= i < |bodies| && BodyNames(bodies[i], k, l) && Slashes(l, u) {
      AllLinksMembers(bodies, k, l);
    }
  }

  /**
   * Main result, link by link: the systems and storage controllers of a successful walk are exactly the links named for
   * them, and its drives those that the pattern, if any, does not match. Nothing else is listed, and nothing is lost.
   */
  lemma ListsExactly(bodies: seq<Fetched<Body>>, exclude: Exclude, r: SystemEndpoints, u: string)
    requires Walk(true, bodies, EMPTY, NO_ENDPOINTS, exclude) == Ok(r)
    ensures u in r.systems <==> NamedSomewhere(bodies, Systems, u)
    ensures u in r.storageController <==> NamedSomewhere(bodies, Storages, u)
    ensures exclude.None? ==> (u in r.drives <==> NamedSomewhere(bodies, Drives, u))
    ensures exclude.Some? ==> (u in r.drives <==> NamedSomewhere(bodies, Drives, u) && !exclude.value(u))
  {
    WalkListsExactly(bodies, exclude, Systems, r, u);
    WalkListsExactly(bodies, exclude, Storages, r, u);
    WalkListsExactly(bodies, exclude, Drives, r, u);
  }

  /** The top-level link of the body for power or thermal; "" if it has none. */
  function TopOf(b: Fetched<Body>, k: AltKind): string {
    if b.Failed? || b.body.Malformed? then ""
    else match k
      case Power => if b.body.powerAlt.Some? then b.body.powerAlt.value else ""
      case Thermal => if b.body.thermalAlt.Some? then b.body.thermalAlt.value else ""
  }

  ghost predicate NestedNames(b: Fetched<Body>, k: AltKind, l: string) {
    && b.Got? && b.body.Body?
    && match k
       case Power => NamesLink(b.body.upper.power, l) || NamesLink(b.body.lower.power, l)
       case Thermal => NamesLink(b.body.upper.thermal, l) || NamesLink(b.body.lower.thermal, l)
  }

  ghost predicate AltNamed(b: Fetched<Body>, k: AltKind) {
    TopOf(b, k) != "" || exists l :: NestedNames(b, k, l)
  }

  /** Body i counts this link: it is its top-level link, or a nested one and nothing was named up to here otherwise. */
  ghost predicate AltCounts(bodies: seq<Fetched<Body>>, i: nat, k: AltKind, l: string)
    requires i < |bodies|
  {
    || (l != "" && TopOf(bodies[i], k) == l)
    || (TopOf(bodies[i], k) == "" && NestedNames(bodies[i], k, l) && forall h :: 0 <= h < i ==> !AltNamed(bodies[h], k))
  }

  /** The same on a suffix, where found says that a link was named before it. */
  ghost predicate CountsFrom(bodies: seq<Fetched<Body>>, i: nat, k: AltKind, found: bool, l: string)
    requires i < |bodies|
  {
    || (l != "" && TopOf(bodies[i], k) == l)
    || (TopOf(bodies[i], k) == "" && !found && NestedNames(bodies[i], k, l) && forall h :: 0 <= h < i ==> !AltNamed(bodies[h], k))
  }

  lemma HereMembers(b: Fetched<Body>, k: AltKind, found: bool, l: string)
    requires Readable(b) && l != "" && "" !in LinksHere(b.body, k, found)
    ensures l in LinksHere(b.body, k, found) <==> TopOf(b, k) == l || (TopOf(b, k) == "" && !found && NestedNames(b, k, l))
    ensures !found ==> (LinksHere(b.body, k, found) != [] <==> AltNamed(b, k))
  {
    DecodeParts(EMPTY, b.body);
    var upper, lower := NestedOf(b.body.upper, k), NestedOf(b.body.lower, k);
    OwnLinksMembers(upper, l);
    OwnLinksMembers(lower, l);
    if !found && TopOf(b, k) == "" {
      var here := OwnLinks(upper) + OwnLinks(lower);
      if here != [] {
        assert here[0] in here;
        OwnLinksMembers(upper, here[0]);
        OwnLinksMembers(lower, here[0]);
        assert NestedNames(b, k, here[0]);
      }
      if m :| NestedNames(b, k, m) {
        OwnLinksMembers(upper, m);
        OwnLinksMembers(lower, m);
      }
    }
  }

  lemma CountsCons(bodies: seq<Fetched<Body>>, k: AltKind, found: bool, next: bool, l: string)
    requires bodies != [] && next == (found || AltNamed(bodies[0], k))
    ensures (exists i :: 0 <= i < |bodies| && CountsFrom(bodies, i, k, found, l))
            <==> CountsFrom(bodies, 0, k, found, l) || exists i :: 0 <= i < |bodies[1..]| && CountsFrom(bodies[1..], i, k, next, l)
  {
    var rest := bodies[1..];
    forall i | 0 <= i < |rest| ensures CountsFrom(rest, i, k, next, l) <==> CountsFrom(bodies, i + 1, k, found, l) {
      assert forall h :: 0 <= h < i ==> rest[h] == bodies[h + 1];
      assert (forall h :: 0 <= h < i + 1 ==> !AltNamed(bodies[h], k)) <==>
             !AltNamed(bodies[0], k) && forall h :: 0 <= h < i ==> !AltNamed(rest[h], k) by {
        if !AltNamed(bodies[0], k) && forall h :: 0 <= h < i ==> !AltNamed(rest[h], k) {
          forall h | 0 <= h < i + 1 ensures !AltNamed(bodies[h], k) {
            if h > 0 {
              assert bodies[h] == rest[h - 1];
            }
          }
        }
      }
    }
    if i :| 0 <= i < |bodies| && CountsFrom(bodies, i, k, found, l) && i > 0 {
      assert CountsFrom(rest, i - 1, k, next, l);
    }
    if i :| 0 <= i < |rest| && CountsFrom(rest, i, k, next, l) {
      assert CountsFrom(bodies, i + 1, k, found, l);
    }
  }

  lemma {:induction false} AltLinksMembers(bodies: seq<Fetched<Body>>, k: AltKind, found: bool, l: string)
    requires l != "" && "" !in AltLinks(bodies, k, found) && forall h :: 0 <= h < |bodies| ==> Readable(bodies[h])
    ensures l in AltLinks(bodies, k, found) <==> exists i :: 0 <= i < |bodies| && CountsFrom(bodies, i, k, found, l)
  {
    if bodies != [] {
      var here := LinksHere(bodies[0].body, k, found);
      HereMembers(bodies[0], k, found, l);
      var next := found || AltNamed(bodies[0], k);
      assert next == (found || here != []);
      CountsCons(bodies, k, found, next, l);
      AltLinksMembers(bodies[1..], k, next, l);
    }
  }

  /** Main result, for power and thermal: exactly the top-level links, and the nested links of the first body that names any. */
  lemma AltListsExactly(bodies: seq<Fetched<Body>>, exclude: Exclude, k: AltKind, r: SystemEndpoints, u: string)
    requires Walk(true, bodies, EMPTY, NO_ENDPOINTS, exclude) == Ok(r)
    ensures u in (match k case Power => r.power case Thermal => r.thermal)
            <==> exists i, l :: 0 <= i < |bodies| && AltCounts(bodies, i, k, l) && Slashes(l, u)
  {
    var links := AltLinks(bodies, k, false);
    EndsExactly(true, bodies, exclude, Other);
    CanonicalAlt(bodies, exclude, k, r);
    FirstOccurrencesMembers(Slashed(links), u);
    SlashedMembers(links, u);
    if l :| l in links && Slashes(l, u) {
      AltLinksMembers(bodies, k, false, l);
      var i :| 0 <= i < |bodies| && CountsFrom(bodies, i, k, false, l);
      assert AltCounts(bodies, i, k, l);
    }
    if i, l :| 0 <= i < |bodies| && AltCounts(bodies, i, k, l) && Slashes(l, u) {
      assert CountsFrom(bodies, i, k, false, l);
      AltLinksMembers(bodies, k, false, l);
    }
  }
}
