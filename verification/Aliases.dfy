/** Alias substitution in credential-profile paths (common/credentials.go), which visits a Go map in any order. */
module Aliases {
  import opened Collections
  import opened Outcomes
  import opened Texts

  /** strings.Replace with no limit: matches are taken left to right and do not overlap. */
  function ReplaceAll(s: string, pat: string, val: string): string
    requires pat != ""
  {
    if s == "" then ""
    else if pat <= s then val + ReplaceAll(s[|pat|..], pat, val)
    else [s[0]] + ReplaceAll(s[1..], pat, val)
  }

  function Placeholder(key: string): string {
    "%" + key + "%"
  }

  function ReplaceKey(path: string, key: string, value: string): string {
    if Contains(path, Placeholder(key)) then ReplaceAll(path, Placeholder(key), value) else path
  }

  /** The loop over the aliases, for one order of visiting them. */
  function ReplaceKeys(path: string, aliases: map<string, string>, order: seq<string>): string
    requires forall k :: k in order ==> k in aliases
    decreases |order|
  {
    if order == [] then path
    else ReplaceKeys(ReplaceKey(path, order[0], aliases[order[0]]), aliases, order[1..])
  }

  ghost predicate IsOrder(order: seq<string>, keys: set<string>) {
    && (forall k :: k in order <==> k in keys)
    && (forall i, j :: 0 <= i < j < |order| ==> order[i] != order[j])
  }

  // ---------------------------------------------------------------- paths as templates

  datatype Part = Lit(s: string) | Key(k: string)

  function Render(t: seq<Part>): string {
    if t == [] then "" else (if t[0].Lit? then t[0].s else Placeholder(t[0].k)) + Render(t[1..])
  }

  /** Neither a literal nor a key of the template holds a %. */
  ghost predicate CleanParts(t: seq<Part>) {
    forall p :: p in t ==> '%' !in if p.Lit? then p.s else p.k
  }

  ghost predicate CleanAliases(aliases: map<string, string>) {
    forall k :: k in aliases ==> '%' !in k && '%' !in aliases[k]
  }

  /** Every placeholder among the keys is replaced at once. */
  function Substitute(t: seq<Part>, aliases: map<string, string>, keys: set<string>): (r: seq<Part>)
    requires keys <= aliases.Keys
    ensures |r| == |t|
    ensures forall i :: 0 <= i < |t| ==> r[i] == if t[i].Key? && t[i].k in keys then Lit(aliases[t[i].k]) else t[i]
  {
    seq(|t|, i requires 0 <= i < |t| => if t[i].Key? && t[i].k in keys then Lit(aliases[t[i].k]) else t[i])
  }

  /** The text of a stretch once all its aliases are in place. */
  function Filled(t: seq<Part>, aliases: map<string, string>): string {
    Render(Substitute(t, aliases, aliases.Keys))
  }

  /** The text up to a placeholder is no alias name, if every placeholder on the way can go. */
  ghost predicate ClearTo(t: seq<Part>, aliases: map<string, string>, n: nat)
    requires n <= |t|
  {
    (forall m :: 0 <= m < n && t[m].Key? ==> t[m].k in aliases) ==> Filled(t[..n], aliases) !in aliases
  }

  ghost predicate Clear(t: seq<Part>, aliases: map<string, string>) {
    forall n :: 0 <= n < |t| && t[n].Key? ==> ClearTo(t, aliases, n)
  }

  /** What stands between two placeholders is no alias name, and does not become one by substituting those between. */
  ghost predicate Apart(t: seq<Part>, aliases: map<string, string>) {
    forall i :: 0 <= i < |t| && t[i].Key? ==> Clear(t[i + 1..], aliases)
  }

  // ---------------------------------------------------------------- one key

  lemma {:induction false} ReplaceAbsent(s: string, pat: string, val: string)
    requires pat != "" && !Contains(s, pat)
    ensures ReplaceAll(s, pat, val) == s
  {
    if s != "" {
      assert s[0..] == s;
      assert !Contains(s[1..], pat) by {
        forall i | 0 <= i <= |s[1..]| ensures !(pat <= s[1..][i..]) {
          assert s[1..][i..] == s[i + 1..];
        }
      }
      ReplaceAbsent(s[1..], pat, val);
    }
  }

  lemma {:induction false} SkipPlain(p: string, r: string, key: string, val: string)
    requires '%' !in p
    ensures ReplaceAll(p + r, Placeholder(key), val) == p + ReplaceAll(r, Placeholder(key), val)
  {
    if p == "" {
      assert p + r == r;
    } else {
      assert (p + r)[0] == p[0] != '%' && (p + r)[1..] == p[1..] + r;
      SkipPlain(p[1..], r, key, val);
    }
  }

  lemma ReplaceFirst(pat: string, r: string, val: string)
    requires pat != ""
    ensures ReplaceAll(pat + r, pat, val) == val + ReplaceAll(r, pat, val)
  {
    assert pat <= pat + r && (pat + r)[|pat|..] == r;
  }

  lemma ReplaceEmit(c: char, r: string, pat: string, val: string)
    requires pat != "" && !(pat <= [c] + r)
    ensures ReplaceAll([c] + r, pat, val) == [c] + ReplaceAll(r, pat, val)
  {
    assert ([c] + r)[1..] == r;
  }

  /** A key followed by % is read in one way only. */
  lemma KeyPrefix(a: string, b: string, r: string)
    requires '%' !in a && '%' !in b && a + "%" <= b + "%" + r
    ensures a == b
  {
    var s := b + "%" + r;
    assert (a + "%")[|a|] == '%' && s[|b|] == '%';
    assert |a| == |b|;
    assert a == (a + "%")[..|a|] == s[..|a|] == b;
  }

  /** The text in front of the first placeholder. */
  function Lead(t: seq<Part>): Option<string> {
    if t == [] then None
    else if t[0].Key? then Some("")
    else match Lead(t[1..]) case None => None case Some(s) => Some(t[0].s + s)
  }

  /** The closing % of one placeholder opens a key only if the text up to the next placeholder is that key. */
  lemma {:induction false} NoFalseOpening(t: seq<Part>, key: string)
    requires CleanParts(t) && '%' !in key && Lead(t) != Some(key)
    ensures !(key + "%" <= Render(t))
    decreases |t|
  {
    if t != [] && t[0].Key? {
      assert key != "" && (key + "%")[0] == key[0] && key[0] in key;
      assert Render(t)[0] == '%';
    } else if t != [] && key + "%" <= Render(t) {
      var s, r := t[0].s, Render(t[1..]);
      assert t[0] in t;
      assert (key + "%")[|key|] == '%' == (s + r)[|key|];
      assert |s| <= |key|;
      assert s == (s + r)[..|s|] == (key + "%")[..|s|] == key[..|s|];
      var rest := key[|s|..];
      assert key == s + rest;
      assert rest + "%" == (key + "%")[|s|..] <= (s + r)[|s|..] == r;
      NoFalseOpening(t[1..], rest);
    }
  }

  /** After another placeholder, the key does not stand before the next one. */
  ghost predicate ApartFrom(t: seq<Part>, key: string) {
    forall i :: 0 <= i < |t| && t[i].Key? && t[i].k != key ==> Lead(t[i + 1..]) != Some(key)
  }

  lemma ApartFromTail(t: seq<Part>, key: string)
    requires ApartFrom(t, key) && t != []
    ensures ApartFrom(t[1..], key)
  {
    var u := t[1..];
    forall i | 0 <= i < |u| && u[i].Key? && u[i].k != key ensures Lead(u[i + 1..]) != Some(key) {
      assert t[i + 1] == u[i] && t[i + 1 + 1..] == u[i + 1..];
    }
  }

  function One(key: string, value: string): map<string, string> {
    map[key := value]
  }

  lemma OpensWith(key: string, text: string)
    requires Placeholder(key) <= ['%'] + text
    ensures key + "%" <= text
  {
    assert key + "%" == Placeholder(key)[1..] <= (['%'] + text)[1..] == text;
  }

  /** A different placeholder is left alone, and nothing that starts inside it matches. */
  lemma OtherPlaceholder(k: string, key: string, value: string, r: string)
    requires k != key && '%' !in k && '%' !in key && !(key + "%" <= r)
    ensures ReplaceAll(Placeholder(k) + r, Placeholder(key), value) == Placeholder(k) + ReplaceAll(r, Placeholder(key), value)
  {
    var pat, tail := Placeholder(key), k + (['%'] + r);
    var done := ReplaceAll(r, pat, value);
    if pat <= ['%'] + tail {
      OpensWith(key, tail);
      assert tail == k + "%" + r;
      KeyPrefix(key, k, r);
    }
    ReplaceEmit('%', tail, pat, value);
    SkipPlain(k, ['%'] + r, key, value);
    if pat <= ['%'] + r {
      OpensWith(key, r);
    }
    ReplaceEmit('%', r, pat, value);
    SplitPlaceholder(k, r);
    SplitPlaceholder(k, done);
  }

  lemma SplitPlaceholder(k: string, r: string)
    ensures Placeholder(k) + r == ['%'] + (k + (['%'] + r))
  {
  }

  /** Replacing one key in the text is replacing it in the template. */
  lemma {:induction false} ReplaceInTemplate(t: seq<Part>, key: string, value: string)
    requires CleanParts(t) && '%' !in key && ApartFrom(t, key)
    ensures ReplaceAll(Render(t), Placeholder(key), value) == Render(Substitute(t, One(key, value), {key}))
    decreases |t|
  {
    if t != [] {
      var u := t[1..];
      ApartFromTail(t, key);
      ReplaceInTemplate(u, key, value);
      assert Substitute(t, One(key, value), {key})[1..] == Substitute(u, One(key, value), {key});
      assert t[0] in t;
      if t[0].Lit? {
        SkipPlain(t[0].s, Render(u), key, value);
      } else if t[0].k == key {
        ReplaceFirst(Placeholder(key), Render(u), value);
      } else {
        assert t[0 + 1..] == u;
        NoFalseOpening(u, key);
        OtherPlaceholder(t[0].k, key, value, Render(u));
      }
    }
  }

  /** The containment test in front of the replacement changes nothing. */
  lemma ReplaceKeyIsReplaceAll(path: string, key: string, value: string)
    ensures ReplaceKey(path, key, value) == ReplaceAll(path, Placeholder(key), value)
  {
    if !Contains(path, Placeholder(key)) {
      ReplaceAbsent(path, Placeholder(key), value);
    }
  }

  // ---------------------------------------------------------------- all keys, in any order

  lemma CleanSubstitute(t: seq<Part>, aliases: map<string, string>, keys: set<string>)
    requires CleanParts(t) && CleanAliases(aliases) && keys <= aliases.Keys
    ensures CleanParts(Substitute(t, aliases, keys))
  {
    var u := Substitute(t, aliases, keys);
    forall p | p in u ensures '%' !in if p.Lit? then p.s else p.k {
      var i :| 0 <= i < |u| && u[i] == p;
      assert t[i] in t;
    }
  }

  lemma SubstituteTwice(t: seq<Part>, aliases: map<string, string>, key: string, rest: set<string>)
    requires key in aliases && rest <= aliases.Keys
    ensures Substitute(Substitute(t, aliases, {key}), aliases, rest) == Substitute(t, aliases, {key} + rest)
    ensures Substitute(t, aliases, {key}) == Substitute(t, One(key, aliases[key]), {key})
  {
  }

  lemma {:induction false} LeadIsFilled(t: seq<Part>, aliases: map<string, string>) returns (n: nat)
    requires Lead(t).Some?
    ensures n < |t| && t[n].Key? && (forall m :: 0 <= m < n ==> t[m].Lit?) && Filled(t[..n], aliases) == Lead(t).value
  {
    n := 0;
    if t[0].Lit? {
      n := LeadIsFilled(t[1..], aliases);
      assert t[..n + 1] == [t[0]] + t[1..][..n];
      assert Substitute(t[..n + 1], aliases, aliases.Keys) == [t[0]] + Substitute(t[1..][..n], aliases, aliases.Keys);
      assert ([t[0]] + Substitute(t[1..][..n], aliases, aliases.Keys))[1..] == Substitute(t[1..][..n], aliases, aliases.Keys);
      n := n + 1;
    }
  }

  lemma ApartFromEach(t: seq<Part>, aliases: map<string, string>, key: string)
    requires Apart(t, aliases) && key in aliases
    ensures ApartFrom(t, key)
  {
    forall i | 0 <= i < |t| && t[i].Key? && t[i].k != key ensures Lead(t[i + 1..]) != Some(key) {
      if Lead(t[i + 1..]).Some? {
        var n := LeadIsFilled(t[i + 1..], aliases);
        assert ClearTo(t[i + 1..], aliases, n);
      }
    }
  }

  lemma ApartSubstitute(t: seq<Part>, aliases: map<string, string>, key: string)
    requires Apart(t, aliases) && key in aliases
    ensures Apart(Substitute(t, aliases, {key}), aliases)
  {
    var u := Substitute(t, aliases, {key});
    forall i | 0 <= i < |u| && u[i].Key? ensures Clear(u[i + 1..], aliases) {
      var v, w := u[i + 1..], t[i + 1..];
      assert Clear(w, aliases);
      forall n | 0 <= n < |v| && v[n].Key? ensures ClearTo(v, aliases, n) {
        assert ClearTo(w, aliases, n);
        assert v[..n] == Substitute(w[..n], aliases, {key});
        SubstituteTwice(w[..n], aliases, key, aliases.Keys);
        assert {key} + aliases.Keys == aliases.Keys;
        assert forall m :: 0 <= m < n ==> v[m] == u[i + 1 + m] && w[m] == t[i + 1 + m];
      }
    }
  }

  /** Main result: whatever the order, the path becomes the template with every alias substituted at once. */
  lemma {:induction false} AnyOrderSubstitutesAll(t: seq<Part>, aliases: map<string, string>, order: seq<string>)
    requires CleanParts(t) && CleanAliases(aliases) && Apart(t, aliases) && forall k :: k in order ==> k in aliases
    ensures ReplaceKeys(Render(t), aliases, order) == Render(Substitute(t, aliases, Elements(order)))
    decreases |order|
  {
    if order == [] {
      assert Substitute(t, aliases, {}) == t;
    } else {
      var key := order[0];
      assert key in order;
      SubstituteTwice(t, aliases, key, Elements(order[1..]));
      ApartFromEach(t, aliases, key);
      ReplaceInTemplate(t, key, aliases[key]);
      ReplaceKeyIsReplaceAll(Render(t), key, aliases[key]);
      CleanSubstitute(t, aliases, {key});
      ApartSubstitute(t, aliases, key);
      AnyOrderSubstitutesAll(Substitute(t, aliases, {key}), aliases, order[1..]);
    }
  }

  /** In particular the map iteration order does not matter. */
  lemma OrderIndependent(t: seq<Part>, aliases: map<string, string>, order: seq<string>)
    requires CleanParts(t) && CleanAliases(aliases) && Apart(t, aliases) && IsOrder(order, aliases.Keys)
    ensures ReplaceKeys(Render(t), aliases, order) == Render(Substitute(t, aliases, aliases.Keys))
  {
    AnyOrderSubstitutesAll(t, aliases, order);
    assert Elements(order) == aliases.Keys;
  }

  /** A literal with a slash somewhere between any two placeholders, as path segments have. */
  ghost predicate SlashesBetween(t: seq<Part>) {
    forall i, j :: 0 <= i < j < |t| && t[i].Key? && t[j].Key? ==> SlashBetween(t, i, j)
  }

  ghost predicate SlashBetween(t: seq<Part>, i: nat, j: nat)
    requires i < j < |t|
  {
    exists m :: i < m < j && t[m].Lit? && '/' in t[m].s
  }

  lemma {:induction false} RenderHolds(t: seq<Part>, m: nat, c: char)
    requires m < |t| && t[m].Lit? && c in t[m].s
    ensures c in Render(t)
  {
    if m > 0 {
      RenderHolds(t[1..], m - 1, c);
    }
  }

  /** Slashes between placeholders are enough, when no alias name has one. */
  lemma SlashesKeepApart(t: seq<Part>, aliases: map<string, string>)
    requires SlashesBetween(t) && forall k :: k in aliases ==> '/' !in k
    ensures Apart(t, aliases)
  {
    forall i | 0 <= i < |t| && t[i].Key? ensures Clear(t[i + 1..], aliases) {
      var u := t[i + 1..];
      forall n | 0 <= n < |u| && u[n].Key? ensures ClearTo(u, aliases, n) {
        assert t[i + 1 + n] == u[n] && SlashBetween(t, i, i + 1 + n);
        var m :| i < m < i + 1 + n && t[m].Lit? && '/' in t[m].s;
        assert u[..n][m - i - 1] == t[m];
        RenderHolds(Substitute(u[..n], aliases, aliases.Keys), m - i - 1, '/');
      }
    }
  }

  /** A path without % is never changed: a placeholder in braces, as the user documentation writes it, stays. */
  lemma {:induction false} NoPercentNoChange(path: string, aliases: map<string, string>, order: seq<string>)
    requires '%' !in path && forall k :: k in order ==> k in aliases
    ensures ReplaceKeys(path, aliases, order) == path
    decreases |order|
  {
    if order != [] {
      assert Placeholder(order[0])[0] == '%';
      NoPercentNoChange(path, aliases, order[1..]);
    }
  }

  // ---------------------------------------------------------------- why the hypotheses are there

  /** No match anywhere, checked letter by letter. */
  lemma NoMatch3(s: string, pat: string, val: string)
    requires |pat| == 3 && forall i :: 0 <= i < |s| - 2 ==> !(s[i] == pat[0] && s[i + 1] == pat[1] && s[i + 2] == pat[2])
    ensures ReplaceAll(s, pat, val) == s
  {
    forall i | 0 <= i <= |s| ensures !(pat <= s[i..]) {
      if pat <= s[i..] {
        FirstLetters(s, pat, i);
      }
    }
    ReplaceAbsent(s, pat, val);
  }

  lemma FirstLetters(s: string, pat: string, i: nat)
    requires |pat| == 3 && i <= |s| && pat <= s[i..]
    ensures i < |s| - 2 && s[i] == pat[0] && s[i + 1] == pat[1] && s[i + 2] == pat[2]
  {
    assert s[i] == s[i..][0] && s[i + 1] == s[i..][1] && s[i + 2] == s[i..][2];
  }

  lemma TwoKeys(path: string, aliases: map<string, string>, a: string, b: string, mid: string, end: string)
    requires a in aliases && b in aliases
    requires ReplaceAll(path, Placeholder(a), aliases[a]) == mid && ReplaceAll(mid, Placeholder(b), aliases[b]) == end
    ensures ReplaceKeys(path, aliases, [a, b]) == end
  {
    ReplaceKeyIsReplaceAll(path, a, aliases[a]);
    ReplaceKeyIsReplaceAll(mid, b, aliases[b]);
    assert [a, b][1..] == [b] && [b][1..] == [];
    assert ReplaceKeys(mid, aliases, [b]) == ReplaceKeys(end, aliases, []);
  }

  const XY := map["a" := "x", "b" := "y"]

  lemma MatchFirst()
    ensures ReplaceAll("%a%b%c%", "%a%", "x") == "xb%c%"
  {
    ReplaceFirst("%a%", "b%c%", "x");
    NoMatch3("b%c%", "%a%", "x");
    assert "%a%b%c%" == "%a%" + "b%c%" && "x" + "b%c%" == "xb%c%";
  }

  lemma FirstOrder()
    ensures ReplaceKeys("%a%b%c%", XY, ["a", "b"]) == "xb%c%"
  {
    assert Placeholder("a") == "%a%" && Placeholder("b") == "%b%";
    MatchFirst();
    NoMatch3("xb%c%", "%b%", "y");
    TwoKeys("%a%b%c%", XY, "a", "b", "xb%c%", "xb%c%");
  }

  lemma EmitBefore(c: char, r: string, pat: string, val: string)
    requires |pat| >= 2 && r != "" && r[0] != pat[1]
    ensures ReplaceAll([c] + r, pat, val) == [c] + ReplaceAll(r, pat, val)
  {
    assert ([c] + r)[1] == r[0];
    ReplaceEmit(c, r, pat, val);
  }

  lemma MatchInside()
    ensures ReplaceAll("a%b%c%", "%b%", "y") == "ayc%"
  {
    ReplaceFirst("%b%", "c%", "y");
    NoMatch3("c%", "%b%", "y");
    assert "%b%" + "c%" == "%b%c%" && "a" + "%b%c%" == "a%b%c%" && "y" + "c%" == "yc%";
    SkipPlain("a", "%b%c%", "b", "y");
    assert Placeholder("b") == "%b%" && "a" + "yc%" == "ayc%";
  }

  lemma SecondOrder()
    ensures ReplaceKeys("%a%b%c%", XY, ["b", "a"]) == "%ayc%"
  {
    assert Placeholder("a") == "%a%" && Placeholder("b") == "%b%";
    MatchInside();
    var inner, pat := "a%b%c%", "%b%";
    assert inner == ['a', '%', 'b', '%', 'c', '%'] && pat == ['%', 'b', '%'];
    EmitBefore('%', inner, pat, "y");
    assert ['%'] + "a%b%c%" == "%a%b%c%" && ['%'] + "ayc%" == "%ayc%";
    NoMatch3("%ayc%", "%a%", "x");
    TwoKeys("%a%b%c%", XY, "b", "a", "%ayc%", "%ayc%");
  }

  /** Where an alias name stands between two placeholders, it can match there, and the order shows. */
  lemma NameBetweenShowsOrder()
    ensures ReplaceKeys("%a%b%c%", XY, ["a", "b"]) != ReplaceKeys("%a%b%c%", XY, ["b", "a"])
  {
    FirstOrder();
    SecondOrder();
  }

  /** A value that holds a placeholder is substituted again, or not, depending on the order. */
  lemma CleanValuesNeeded()
    ensures var aliases := map["a" := "%b%", "b" := "y"];
            && ReplaceKeys("%a%", aliases, ["a", "b"]) == "y"
            && ReplaceKeys("%a%", aliases, ["b", "a"]) == "%b%"
  {
    var aliases := map["a" := "%b%", "b" := "y"];
    assert Placeholder("a") == "%a%" && Placeholder("b") == "%b%";
    ReplaceFirst("%a%", "", "%b%");
    ReplaceFirst("%b%", "", "y");
    NoMatch3("%a%", "%b%", "y");
    assert "%a%" + "" == "%a%" && "%b%" + "" == "%b%" && "y" + "" == "y";
    TwoKeys("%a%", aliases, "a", "b", "%b%", "y");
    TwoKeys("%a%", aliases, "b", "a", "%a%", "%b%");
  }
}
