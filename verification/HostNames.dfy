/** isValidDomainName (http/handlers/credentials_script.go). */
module HostNames {
  import opened Texts

  const MAX_NAME := 253
  const MAX_LABEL := 63

  /** Letters, digits and hyphen. */
  predicate LetDigHyp(c: char) {
    'a' <= c <= 'z' || 'A' <= c <= 'Z' || '0' <= c <= '9' || c == '-'
  }

  // ---------------------------------------------------------------- the grammar

  /** Section 2.3.4 of RFC 1035 and section 2.1 of RFC 1123. */
  predicate IsLabel(s: string) {
    && 1 <= |s| <= MAX_LABEL
    && (forall c | c in s :: LetDigHyp(c))
    && s[0] != '-' && s[|s| - 1] != '-'
  }

  predicate Derives(name: string, labels: seq<string>, dot: bool) {
    && labels != [] && (forall l | l in labels :: IsLabel(l))
    && |Join(labels, '.')| <= MAX_NAME
    && name == Join(labels, '.') + if dot then "." else ""
  }

  ghost predicate InGrammar(name: string) {
    exists labels, dot :: Derives(name, labels, dot)
  }

  // ---------------------------------------------------------------- the scan

  function TrimDot(s: string): string {
    if s != "" && s[|s| - 1] == '.' then s[..|s| - 1] else s
  }

  predicate AllLabels(host: string) {
    host != "" && |host| <= MAX_NAME && forall l | l in Split(host, '.') :: IsLabel(l)
  }

  lemma {:induction false} JoinEnd(labels: seq<string>)
    requires labels != [] && forall l | l in labels :: IsLabel(l)
    ensures var s := Join(labels, '.'); s != "" && s[|s| - 1] != '.'
  {
    assert IsLabel(labels[0]);
    if |labels| > 1 {
      JoinEnd(labels[1..]);
    } else {
      assert labels[0][|labels[0]| - 1] in labels[0];
    }
  }

  lemma LabelHasNoDot(l: string)
    requires IsLabel(l)
    ensures '.' !in l
  {
    assert !LetDigHyp('.');
  }

  lemma ScanIsGrammar(host: string)
    ensures AllLabels(TrimDot(host)) <==> InGrammar(host)
  {
    var trimmed := TrimDot(host);
    if AllLabels(trimmed) {
      JoinSplit(trimmed, '.');
      assert Derives(host, Split(trimmed, '.'), trimmed != host);
    }
    if InGrammar(host) {
      var labels, dot :| Derives(host, labels, dot);
      JoinEnd(labels);
      assert TrimDot(host) == Join(labels, '.');
      forall l | l in labels ensures '.' !in l {
        LabelHasNoDot(l);
      }
      SplitJoin(labels, '.');
    }
  }

  method IsValidDomainName(target: string) returns (ok: bool)
    ensures ok <==> InGrammar(target)
  {
    ScanIsGrammar(target);
    var host := TrimDot(target);
    if host == "" || |host| > MAX_NAME {
      return false;
    }
    var labels := Split(host, '.');
    for i := 0 to |labels|
      invariant forall k | 0 <= k < i :: IsLabel(labels[k])
    {
      var part := labels[i];
      if part == "" || |part| > MAX_LABEL || part[0] == '-' || part[|part| - 1] == '-' {
        assert !IsLabel(part);
        return false;
      }
      for j := 0 to |part|
        invariant forall k | 0 <= k < j :: LetDigHyp(part[k])
      {
        if !LetDigHyp(part[j]) {
          assert part[j] in part && !IsLabel(part);
          return false;
        }
      }
    }
    return true;
  }

  // ---------------------------------------------------------------- one pass

  /** How many characters were read, how many since the last dot, and whether the last one was a hyphen. */
  datatype Reader = Dead | Reading(total: nat, length: nat, hyphen: bool)

  function Read(r: Reader, c: char): Reader {
    match r
    case Dead => Dead
    case Reading(total, length, hyphen) =>
      if c == '.' then
        if length == 0 || hyphen then Dead else Reading(total + 1, 0, false)
      else if !LetDigHyp(c) || (c == '-' && length == 0) || length == MAX_LABEL then Dead
      else Reading(total + 1, length + 1, c == '-')
  }

  function ReadAll(s: string): Reader {
    if s == "" then Reading(0, 0, false) else Read(ReadAll(s[..|s| - 1]), s[|s| - 1])
  }

  predicate Accepts(r: Reader) {
    && r.Reading? && r.total > 0 && !r.hyphen
    && (if r.length == 0 then r.total - 1 else r.total) <= MAX_NAME
  }

  /** The start of a label. */
  predicate IsOpen(s: string) {
    |s| <= MAX_LABEL && (forall c | c in s :: LetDigHyp(c)) && (s != "" ==> s[0] != '-')
  }

  predicate Open(parts: seq<string>)
    requires parts != []
  {
    (forall l | l in parts[..|parts| - 1] :: IsLabel(l)) && IsOpen(parts[|parts| - 1])
  }

  ghost predicate Tracks(r: Reader, s: string) {
    var parts := Split(s, '.');
    var last := parts[|parts| - 1];
    if Open(parts) then
      r == Reading(|s|, |last|, last != "" && last[|last| - 1] == '-')
    else
      r == Dead
  }

  lemma OpenThenLabel(s: string)
    ensures IsLabel(s) <==> IsOpen(s) && s != "" && s[|s| - 1] != '-'
  {
  }

  lemma OpenSnoc(s: string, c: char)
    ensures IsOpen(s + [c]) <==> IsOpen(s) && LetDigHyp(c) && |s| < MAX_LABEL && (s == "" ==> c != '-')
  {
    var t := s + [c];
    assert c in t && forall x | x in s :: x in t;
    assert s != "" ==> t[0] == s[0];
  }

  lemma {:induction false} ReadAllTracks(s: string)
    ensures Tracks(ReadAll(s), s)
  {
    if s != "" {
      var init, c := s[..|s| - 1], s[|s| - 1];
      assert s == init + [c];
      ReadAllTracks(init);
      ReadTracks(ReadAll(init), init, c);
    }
  }

  lemma ReadTracks(r: Reader, s: string, c: char)
    requires Tracks(r, s)
    ensures Tracks(Read(r, c), s + [c])
  {
    if c == '.' {
      ReadDot(r, s, s + [c]);
    } else {
      ReadOther(r, s, c, s + [c]);
    }
  }

  lemma ReadDot(r: Reader, s: string, t: string)
    requires Tracks(r, s) && t == s + ['.']
    ensures Tracks(Read(r, '.'), t)
  {
    var parts := Split(s, '.');
    var n := |parts| - 1;
    SplitConcat(s, "", '.');
    assert s + ['.'] + "" == t;
    assert (parts + [""])[..|parts|] == parts == parts[..n] + [parts[n]];
    OpenThenLabel(parts[n]);
  }

  lemma ReadOther(r: Reader, s: string, c: char, t: string)
    requires Tracks(r, s) && t == s + [c] && c != '.'
    ensures Tracks(Read(r, c), t)
  {
    var parts := Split(s, '.');
    var n := |parts| - 1;
    SplitSnoc(s, c, '.');
    assert (parts[..n] + [parts[n] + [c]])[..n] == parts[..n];
    OpenSnoc(parts[n], c);
  }

  /** The automaton accepts exactly the names of the grammar. */
  lemma AutomatonIsGrammar(s: string)
    ensures Accepts(ReadAll(s)) <==> InGrammar(s)
  {
    ScanIsGrammar(s);
    ReadAllTracks(s);
    if s != "" {
      if s[|s| - 1] == '.' {
        DottedAccepted(ReadAll(s), s);
      } else {
        UndottedAccepted(ReadAll(s), s);
      }
    }
  }

  lemma DottedAccepted(r: Reader, s: string)
    requires Tracks(r, s) && s != "" && s[|s| - 1] == '.'
    ensures Accepts(r) <==> AllLabels(TrimDot(s))
  {
    var parts, host := Split(s, '.'), TrimDot(s);
    assert s == host + ['.'] + "";
    SplitConcat(host, "", '.');
    assert Split(host, '.') == parts[..|parts| - 1];
    if host == "" {
      assert Split(host, '.')[0] == "" && !IsLabel("");
    }
  }

  lemma UndottedAccepted(r: Reader, s: string)
    requires Tracks(r, s) && s != "" && s[|s| - 1] != '.'
    ensures Accepts(r) <==> AllLabels(TrimDot(s))
  {
    var parts := Split(s, '.');
    var n := |parts| - 1;
    assert s == s[..|s| - 1] + [s[|s| - 1]];
    SplitSnoc(s[..|s| - 1], s[|s| - 1], '.');
    assert parts[n] != "";
    assert parts == parts[..n] + [parts[n]];
    OpenThenLabel(parts[n]);
  }

  // ---------------------------------------------------------------- character by character

  /** A dot is not followed by a dot or a hyphen, and a hyphen not by a dot. */
  predicate Fits(a: char, b: char) {
    !(a == '.' && (b == '.' || b == '-')) && !(a == '-' && b == '.')
  }

  /** One of the 64 characters from i on is a dot. */
  predicate DotWithin(s: string, i: nat)
    requires i + 64 <= |s|
  {
    exists k :: i <= k < i + 64 && s[k] == '.'
  }

  /** The start of a name: the letters it may hold, what may stand first and side by side, and no label over 63 characters. */
  predicate Begins(s: string) {
    && (forall i :: 0 <= i < |s| ==>
          'a' <= s[i] <= 'z' || 'A' <= s[i] <= 'Z' || '0' <= s[i] <= '9' || s[i] == '-' || s[i] == '.')
    && (s != "" ==> s[0] != '-' && s[0] != '.')
    && (forall i :: 0 <= i < |s| - 1 ==> Fits(s[i], s[i + 1]))
    && (forall i: nat :: i + 64 <= |s| ==> DotWithin(s, i))
  }

  /** The number of characters since the last dot. */
  function Trail(s: string): (n: nat)
    ensures n <= |s| && (forall k :: |s| - n <= k < |s| ==> s[k] != '.') && (n < |s| ==> s[|s| - n - 1] == '.')
  {
    if s == "" || s[|s| - 1] == '.' then 0 else 1 + Trail(s[..|s| - 1])
  }

  lemma WindowsSnoc(s: string, c: char)
    requires forall i: nat :: i + 64 <= |s| ==> DotWithin(s, i)
    ensures (forall i: nat :: i + 64 <= |s| + 1 ==> DotWithin(s + [c], i)) <==> c == '.' || Trail(s) < 63
  {
    var t, n := s + [c], |s| + 1;
    if c == '.' || Trail(s) < 63 {
      forall i: nat | i + 64 <= n ensures DotWithin(t, i) {
        if i + 64 <= |s| {
          assert DotWithin(s, i);
          var k :| i <= k < i + 64 && s[k] == '.';
          assert t[k] == '.';
        } else if c == '.' {
          assert t[|s|] == '.';
        } else {
          assert t[|s| - Trail(s) - 1] == '.';
        }
      }
    } else {
      assert n - 64 >= 0;
      assert !DotWithin(t, n - 64) by {
        assert forall k :: n - 64 <= k < |s| ==> t[k] == s[k];
      }
    }
  }

  lemma BeginsSnoc(s: string, c: char)
    ensures Begins(s + [c])
            <==> && Begins(s)
                 && ('a' <= c <= 'z' || 'A' <= c <= 'Z' || '0' <= c <= '9' || c == '-' || c == '.')
                 && (if s == "" then c != '-' && c != '.' else Fits(s[|s| - 1], c))
                 && (c == '.' || Trail(s) < 63)
  {
    var t := s + [c];
    assert t[|s|] == c && forall i :: 0 <= i < |s| ==> t[i] == s[i];
    if Begins(t) {
      assert Begins(s) by {
        forall i: nat | i + 64 <= |s| ensures DotWithin(s, i) {
          assert DotWithin(t, i);
        }
      }
      assert s != "" ==> Fits(t[|s| - 1], t[|s| - 1 + 1]);
    }
    if Begins(s) {
      WindowsSnoc(s, c);
    }
  }

  function Expected(s: string): Reader {
    if Begins(s) then Reading(|s|, Trail(s), s != "" && s[|s| - 1] == '-') else Dead
  }

  lemma ExpectedSnoc(s: string, c: char)
    ensures Expected(s + [c]) == Read(Expected(s), c)
  {
    var t := s + [c];
    assert t[..|t| - 1] == s && t[|t| - 1] == c;
    BeginsSnoc(s, c);
    assert Trail(t) == if c == '.' then 0 else 1 + Trail(s);
    assert Trail(s) == 0 <==> s == "" || s[|s| - 1] == '.';
    assert Begins(s) && |s| >= 64 ==> DotWithin(s, |s| - 64);
    assert Begins(s) ==> Trail(s) <= 63;
  }

  lemma {:induction false} ReadAllBegins(s: string)
    ensures ReadAll(s) == Expected(s)
  {
    if s != "" {
      var front, c := s[..|s| - 1], s[|s| - 1];
      assert s == front + [c];
      ReadAllBegins(front);
      ExpectedSnoc(front, c);
    }
  }

  /**
   * The accepted names, by their characters: ASCII letters, digits, hyphens and dots; no label empty, over 63 characters,
   * or with a hyphen at an end; at most 253 characters, not counting one final dot.
   */
  lemma AcceptedExactly(s: string)
    ensures InGrammar(s) <==>
              && Begins(s) && s != "" && s[|s| - 1] != '-'
              && (if s[|s| - 1] == '.' then |s| - 1 else |s|) <= 253
  {
    AutomatonIsGrammar(s);
    ReadAllBegins(s);
  }
}
