/** ParseComponents (exporter/partial_exporter.go). */
module Components {
  import opened Outcomes
  import opened Texts
  import opened Plans

  function Name(c: Component): string {
    match c
    case CThermal => "thermal"
    case CPower => "power"
    case CMemory => "memory"
    case CProcessor => "processor"
    case CDrives => "drives"
    case CStorageController => "storage_controller"
    case CFirmware => "firmware"
    case CSystem => "system"
  }

  /** The ValidComponents table. */
  function Named(word: string): Option<Component> {
    if word == "thermal" then Some(CThermal)
    else if word == "power" then Some(CPower)
    else if word == "memory" then Some(CMemory)
    else if word == "processor" then Some(CProcessor)
    else if word == "drives" then Some(CDrives)
    else if word == "storage_controller" then Some(CStorageController)
    else if word == "firmware" then Some(CFirmware)
    else if word == "system" then Some(CSystem)
    else None
  }

  /**
   * unicode.ToLower, where it matters: besides the ASCII capitals, two other characters have an ASCII letter as
   * their lower case. The rest keep a form outside ASCII that is not a space, so here they are left as they are.
   */
  function LowerChar(c: char): char {
    if 'A' <= c <= 'Z' then c - 'A' + 'a'
    else if c == '\U{0130}' then 'i'
    else if c == '\U{212A}' then 'k'
    else c
  }

  function Lower(s: string): (r: string)
    ensures |r| == |s| && forall i | 0 <= i < |s| :: r[i] == LowerChar(s[i])
  {
    seq(|s|, i requires 0 <= i < |s| => LowerChar(s[i]))
  }

  /** unicode.IsSpace */
  predicate IsSpace(c: char) {
    || '\t' <= c <= '\r' || c == ' ' || c == '\U{0085}' || c == '\U{00A0}' || c == '\U{1680}'
    || '\U{2000}' <= c <= '\U{200A}' || c == '\U{2028}' || c == '\U{2029}' || c == '\U{202F}'
    || c == '\U{205F}' || c == '\U{3000}'
  }

  function TrimLeft(s: string): string {
    if s != "" && IsSpace(s[0]) then TrimLeft(s[1..]) else s
  }

  function TrimRight(s: string): string {
    if s != "" && IsSpace(s[|s| - 1]) then TrimRight(s[..|s| - 1]) else s
  }

  /** strings.TrimSpace */
  function TrimSpace(s: string): string {
    TrimRight(TrimLeft(s))
  }

  /** What one part of the list asks for. */
  function Recognise(part: string): Option<Component> {
    Named(TrimSpace(Lower(part)))
  }

  function Recognised(parts: seq<string>): seq<Component> {
    if parts == [] then []
    else
      (match Recognise(parts[0])
       case None => []
       case Some(c) => [c]) + Recognised(parts[1..])
  }

  function Parsed(text: string): Outcome<seq<Component>> {
    var components := Recognised(Split(text, ','));
    if components == [] then Err(Other) else Ok(components)
  }

  lemma {:induction false} RecognisedConcat(a: seq<string>, b: seq<string>)
    ensures Recognised(a + b) == Recognised(a) + Recognised(b)
  {
    if a == [] {
      assert a + b == b;
    } else {
      assert (a + b)[1..] == a[1..] + b;
      RecognisedConcat(a[1..], b);
    }
  }

  method ParseComponents(text: string) returns (r: Outcome<seq<Component>>)
    ensures r == Parsed(text)
  {
    var parts := Split(text, ',');
    if text == "" {
      return Err(Other);
    }
    var components: seq<Component> := [];
    for i := 0 to |parts|
      invariant components == Recognised(parts[..i])
    {
      var trimmed := TrimSpace(Lower(parts[i]));
      assert parts[..i + 1] == parts[..i] + [parts[i]];
      RecognisedConcat(parts[..i], [parts[i]]);
      assert Recognise(parts[i]) == Named(trimmed);
      if trimmed == "" {
        continue;
      }
      if Named(trimmed).Some? {
        components := components + [Named(trimmed).value];
      }
    }
    assert parts[..|parts|] == parts;
    if components == [] {
      return Err(Other);
    }
    return Ok(components);
  }

  // ---------------------------------------------------------------- which parts name a component

  predicate Spaces(s: string) {
    forall c | c in s :: IsSpace(c)
  }

  /** The name of the component in any mix of cases, with any spaces around it. */
  ghost predicate Spells(part: string, c: Component) {
    exists i, j | 0 <= i <= j <= |part| :: SpellsAt(part, c, i, j)
  }

  predicate SpellsAt(part: string, c: Component, i: nat, j: nat)
    requires i <= j <= |part|
  {
    Spaces(part[..i]) && Lower(part[i..j]) == Name(c) && Spaces(part[j..])
  }

  lemma NamedIffName(word: string, c: Component)
    ensures Named(word) == Some(c) <==> word == Name(c)
  {
    match c {
      case _ =>
    }
  }

  lemma {:induction false} TrimLeftIs(s: string, i: nat)
    requires i <= |s| && Spaces(s[..i]) && (i < |s| ==> !IsSpace(s[i]))
    ensures TrimLeft(s) == s[i..]
  {
    if i > 0 {
      assert s[0] == s[..i][0];
      assert s[1..][..i - 1] == s[..i][1..];
      TrimLeftIs(s[1..], i - 1);
    }
  }

  lemma {:induction false} TrimRightIs(s: string, j: nat)
    requires j <= |s| && Spaces(s[j..]) && (0 < j ==> !IsSpace(s[j - 1]))
    ensures TrimRight(s) == s[..j]
  {
    if j < |s| {
      var k := |s| - 1;
      assert s[k] == s[j..][k - j];
      assert s[..k][j..] == s[j..][..k - j];
      TrimRightIs(s[..k], j);
      assert s[..k][..j] == s[..j];
    }
  }

  lemma {:induction false} TrimLeftShape(s: string) returns (i: nat)
    ensures i <= |s| && Spaces(s[..i]) && TrimLeft(s) == s[i..]
  {
    i := 0;
    if s != "" && IsSpace(s[0]) {
      i := TrimLeftShape(s[1..]);
      assert s[..i + 1] == [s[0]] + s[1..][..i];
      i := i + 1;
    }
  }

  lemma {:induction false} TrimRightShape(s: string) returns (j: nat)
    ensures j <= |s| && Spaces(s[j..]) && TrimRight(s) == s[..j]
  {
    j := |s|;
    if s != "" && IsSpace(s[|s| - 1]) {
      var k := |s| - 1;
      j := TrimRightShape(s[..k]);
      assert s[j..] == s[..k][j..] + [s[k]];
      assert s[..k][..j] == s[..j];
    }
  }

  lemma TrimShape(s: string) returns (i: nat, j: nat)
    ensures i <= j <= |s| && Spaces(s[..i]) && Spaces(s[j..]) && TrimSpace(s) == s[i..j]
  {
    i := TrimLeftShape(s);
    var rest := s[i..];
    var k := TrimRightShape(rest);
    j := i + k;
    assert rest[..k] == s[i..j] && rest[k..] == s[j..];
  }

  lemma TrimIs(s: string, i: nat, j: nat)
    requires i < j <= |s| && Spaces(s[..i]) && Spaces(s[j..]) && !IsSpace(s[i]) && !IsSpace(s[j - 1])
    ensures TrimSpace(s) == s[i..j]
  {
    TrimLeftIs(s, i);
    var rest := s[i..];
    assert rest[j - i..] == s[j..];
    TrimRightIs(rest, j - i);
    assert rest[..j - i] == s[i..j];
  }

  lemma LowerKeepsSpace(c: char)
    ensures IsSpace(LowerChar(c)) <==> IsSpace(c)
  {
  }

  lemma LowerSpaces(s: string)
    ensures Spaces(Lower(s)) <==> Spaces(s)
  {
    if Spaces(s) {
      forall c | c in Lower(s) ensures IsSpace(c) {
        var i :| 0 <= i < |s| && Lower(s)[i] == c;
        LowerKeepsSpace(s[i]);
        assert s[i] in s;
      }
    }
    if Spaces(Lower(s)) {
      forall c | c in s ensures IsSpace(c) {
        var i :| 0 <= i < |s| && s[i] == c;
        LowerKeepsSpace(s[i]);
        assert Lower(s)[i] in Lower(s);
      }
    }
  }

  lemma SpellsAtLower(part: string, c: Component, i: nat, j: nat)
    requires i <= j <= |part|
    ensures var low := Lower(part);
            SpellsAt(part, c, i, j) <==> Spaces(low[..i]) && low[i..j] == Name(c) && Spaces(low[j..])
  {
    var low := Lower(part);
    assert low[..i] == Lower(part[..i]) && low[i..j] == Lower(part[i..j]) && low[j..] == Lower(part[j..]);
    LowerSpaces(part[..i]);
    LowerSpaces(part[j..]);
  }

  lemma NameEnds(c: Component)
    ensures var n := Name(c); n != "" && !IsSpace(n[0]) && !IsSpace(n[|n| - 1]) && ',' !in n
  {
    match c {
      case _ =>
    }
  }

  lemma SpelledIsRecognised(part: string, c: Component, i: nat, j: nat)
    requires i <= j <= |part| && SpellsAt(part, c, i, j)
    ensures TrimSpace(Lower(part)) == Name(c)
  {
    var low := Lower(part);
    SpellsAtLower(part, c, i, j);
    NameEnds(c);
    assert low[i] == low[i..j][0] && low[j - 1] == low[i..j][j - i - 1];
    TrimIs(low, i, j);
  }

  lemma RecognisedIsSpelled(part: string, c: Component)
    requires TrimSpace(Lower(part)) == Name(c)
    ensures Spells(part, c)
  {
    var i, j := TrimShape(Lower(part));
    SpellsAtLower(part, c, i, j);
  }

  /** A part counts as a component exactly when it spells its name. */
  lemma RecogniseIffSpells(part: string, c: Component)
    ensures Recognise(part) == Some(c) <==> Spells(part, c)
  {
    NamedIffName(TrimSpace(Lower(part)), c);
    if Spells(part, c) {
      var i, j :| 0 <= i <= j <= |part| && SpellsAt(part, c, i, j);
      SpelledIsRecognised(part, c, i, j);
    }
    if TrimSpace(Lower(part)) == Name(c) {
      RecognisedIsSpelled(part, c);
    }
  }

  lemma SpacesHaveNoComma(s: string)
    requires Spaces(s)
    ensures ',' !in s
  {
    assert !IsSpace(',');
  }

  lemma LowerHasNoComma(s: string, c: Component)
    requires Lower(s) == Name(c)
    ensures ',' !in s
  {
    NameEnds(c);
    forall k | 0 <= k < |s| ensures s[k] != ',' {
      assert Lower(s)[k] in Name(c);
    }
  }

  lemma SpelledHasNoComma(part: string, c: Component)
    requires Spells(part, c)
    ensures ',' !in part
  {
    var i, j :| 0 <= i <= j <= |part| && SpellsAt(part, c, i, j);
    SpacesHaveNoComma(part[..i]);
    LowerHasNoComma(part[i..j], c);
    SpacesHaveNoComma(part[j..]);
    assert part == part[..i] + part[i..j] + part[j..];
  }

  // ---------------------------------------------------------------- the list

  /** Joining any spellings with commas and parsing the result gives back what they spell, in order, repeats kept. */
  lemma SpelledListRoundTrip(spellings: seq<string>, components: seq<Component>)
    requires |spellings| == |components| > 0
    requires forall i | 0 <= i < |components| :: Spells(spellings[i], components[i])
    ensures Parsed(Join(spellings, ',')) == Ok(components)
  {
    forall p | p in spellings ensures ',' !in p {
      var i :| 0 <= i < |spellings| && spellings[i] == p;
      SpelledHasNoComma(p, components[i]);
    }
    SplitJoin(spellings, ',');
    SpelledAll(spellings, components);
  }

  lemma {:induction false} SpelledAll(spellings: seq<string>, components: seq<Component>)
    requires |spellings| == |components|
    requires forall i | 0 <= i < |components| :: Spells(spellings[i], components[i])
    ensures Recognised(spellings) == components
  {
    if spellings != [] {
      RecogniseIffSpells(spellings[0], components[0]);
      SpelledAll(spellings[1..], components[1..]);
    }
  }

  lemma NameSpells(c: Component)
    ensures Spells(Name(c), c)
  {
    match c {
      case _ =>
    }
    assert SpellsAt(Name(c), c, 0, |Name(c)|);
  }

  function Names(components: seq<Component>): (names: seq<string>)
    ensures |names| == |components| && forall i | 0 <= i < |names| :: names[i] == Name(components[i])
  {
    seq(|components|, i requires 0 <= i < |components| => Name(components[i]))
  }

  lemma ListRoundTrip(components: seq<Component>)
    requires components != []
    ensures Parsed(Join(Names(components), ',')) == Ok(components)
  {
    forall i | 0 <= i < |components| ensures Spells(Names(components)[i], components[i]) {
      NameSpells(components[i]);
    }
    SpelledListRoundTrip(Names(components), components);
  }

  lemma RecognisedJoined(a: string, b: string, both: string)
    requires both == a + [','] + b
    ensures Recognised(Split(both, ',')) == Recognised(Split(a, ',')) + Recognised(Split(b, ','))
  {
    SplitConcat(a, b, ',');
    RecognisedConcat(Split(a, ','), Split(b, ','));
  }

  lemma ParsedSame(s: string, t: string)
    requires Recognised(Split(s, ',')) == Recognised(Split(t, ','))
    ensures Parsed(s) == Parsed(t)
  {
  }

  /** Parts that spell nothing may be put before or after others without changing the result. */
  lemma InvalidEndsIgnored(a: string, x: string, before: string, after: string)
    requires Recognised(Split(x, ',')) == []
    requires before == x + [','] + a && after == a + [','] + x
    ensures Parsed(before) == Parsed(a) && Parsed(after) == Parsed(a)
  {
    RecognisedJoined(x, a, before);
    RecognisedJoined(a, x, after);
    ParsedSame(before, a);
    ParsedSame(after, a);
  }

  /** Lists that parse alike may be exchanged, so such parts do not matter between others either. */
  lemma PrefixExchanged(front: string, a: string, b: string, joined: string, other: string)
    requires Parsed(front) == Parsed(a)
    requires joined == front + [','] + b && other == a + [','] + b
    ensures Parsed(joined) == Parsed(other)
  {
    RecognisedJoined(front, b, joined);
    RecognisedJoined(a, b, other);
  }

  lemma InvalidMiddleIgnored(a: string, x: string, b: string, joined: string, other: string)
    requires Recognised(Split(x, ',')) == []
    requires joined == a + [','] + x + [','] + b && other == a + [','] + b
    ensures Parsed(joined) == Parsed(other)
  {
    InvalidEndsIgnored(a, x, x + [','] + a, a + [','] + x);
    PrefixExchanged(a + [','] + x, a, b, joined, other);
  }

  lemma {:induction false} RecognisedMembers(parts: seq<string>, c: Component)
    ensures c in Recognised(parts) <==> exists p | p in parts :: Spells(p, c)
  {
    if parts != [] {
      RecogniseIffSpells(parts[0], c);
      RecognisedMembers(parts[1..], c);
      if c in Recognised(parts) && !Spells(parts[0], c) {
        var p :| p in parts[1..] && Spells(p, c);
        assert p in parts;
      }
      if p :| p in parts && Spells(p, c) && p != parts[0] {
        assert p in parts[1..];
      }
    }
  }

  ghost predicate Spelled(parts: seq<string>, c: Component) {
    exists p | p in parts :: Spells(p, c)
  }

  lemma RecognisedExactly(parts: seq<string>)
    ensures forall c :: c in Recognised(parts) <==> Spelled(parts, c)
    ensures Recognised(parts) == [] <==> forall c :: !Spelled(parts, c)
  {
    forall c ensures c in Recognised(parts) <==> Spelled(parts, c) {
      RecognisedMembers(parts, c);
    }
    if Recognised(parts) != [] {
      assert Recognised(parts)[0] in Recognised(parts);
    }
  }

  /** Exactly the components that some part spells are asked for, and the call fails exactly when there are none. */
  lemma ParsedExactly(text: string, parts: seq<string>)
    requires parts == Split(text, ',')
    ensures Parsed(text).Err? <==> forall c :: !Spelled(parts, c)
    ensures Parsed(text).Ok? ==> forall c :: c in Parsed(text).value <==> Spelled(parts, c)
  {
    RecognisedExactly(parts);
  }

  // ---------------------------------------------------------------- letter case

  /** The same character, or the capital and the small form of one ASCII letter. */
  predicate SameLetter(a: char, b: char) {
    || a == b
    || ('A' <= a <= 'Z' && b as int == a as int + 32)
    || ('A' <= b <= 'Z' && a as int == b as int + 32)
  }

  lemma SameLetterLower(a: char, b: char)
    requires SameLetter(a, b)
    ensures LowerChar(a) == LowerChar(b)
  {
  }

  /** Texts that differ in the case of letters only are parsed alike. */
  lemma CaseIgnored(s: string, t: string)
    requires |s| == |t| && forall i :: 0 <= i < |s| ==> SameLetter(s[i], t[i])
    ensures Parsed(s) == Parsed(t)
  {
    CaseIgnoredIn(s, t);
    SameParts(Split(s, ','), Split(t, ','));
    ParsedSame(s, t);
  }

  predicate SameLower(a: seq<string>, b: seq<string>) {
    |a| == |b| && forall i :: 0 <= i < |a| ==> Lower(a[i]) == Lower(b[i])
  }

  lemma LowerCons(c: char, s: string)
    ensures Lower([c] + s) == [LowerChar(c)] + Lower(s)
  {
  }

  lemma {:induction false} CaseIgnoredIn(s: string, t: string)
    requires |s| == |t| && forall i :: 0 <= i < |s| ==> SameLetter(s[i], t[i])
    ensures SameLower(Split(s, ','), Split(t, ','))
  {
    if s != "" {
      CaseIgnoredIn(s[1..], t[1..]);
      assert s[0] == ',' <==> t[0] == ',';
      SamePartsCons(s[0], Split(s[1..], ','), t[0], Split(t[1..], ','));
    }
  }

  lemma SamePartsCons(c: char, a: seq<string>, d: char, b: seq<string>)
    requires SameLower(a, b) && a != [] && SameLetter(c, d)
    ensures SameLower([""] + a, [""] + b)
    ensures SameLower([[c] + a[0]] + a[1..], [[d] + b[0]] + b[1..])
  {
    SameLetterLower(c, d);
    LowerCons(c, a[0]);
    LowerCons(d, b[0]);
  }

  lemma {:induction false} SameParts(a: seq<string>, b: seq<string>)
    requires SameLower(a, b)
    ensures Recognised(a) == Recognised(b)
  {
    if a != [] {
      SameParts(a[1..], b[1..]);
    }
  }

  lemma NameIs(names: seq<string>, components: seq<Component>, i: nat)
    requires names == ["thermal", "power", "memory", "processor", "drives", "storage_controller", "firmware", "system"]
    requires components == [CThermal, CPower, CMemory, CProcessor, CDrives, CStorageController, CFirmware, CSystem]
    requires i < |names|
    ensures Name(components[i]) == names[i]
  {
  }

  /** The names, letter by letter. */
  lemma NamesAreThese(names: seq<string>, components: seq<Component>)
    requires names == ["thermal", "power", "memory", "processor", "drives", "storage_controller", "firmware", "system"]
    requires components == [CThermal, CPower, CMemory, CProcessor, CDrives, CStorageController, CFirmware, CSystem]
    ensures Parsed(Join(names, ',')) == Ok(components)
  {
    assert |Names(components)| == |names|;
    forall i | 0 <= i < |names| ensures Names(components)[i] == names[i] {
      NameIs(names, components, i);
    }
    assert Names(components) == names;
    ListRoundTrip(components);
  }
}
