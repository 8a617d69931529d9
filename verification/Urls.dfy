/** URL normalisation and first-occurrence de-duplication (exporter/helpers.go). */
module Urls {
  import opened Outcomes

  /** The source indexes the last byte, so an empty URL is a panic: callers test for it. */
  function AppendSlash(url: string): (r: string)
    requires url != ""
    ensures r != "" && r[|r| - 1] == '/'
    ensures r == url || r == url + "/"
  {
    if url[|url| - 1] != '/' then url + "/" else url
  }

  /** u is the link l with its final slash. */
  predicate Slashes(l: string, u: string) {
    l != "" && u == if l[|l| - 1] == '/' then l else l + "/"
  }

  method CheckUnique(s: seq<string>, str: string) returns (unique: bool)
    ensures unique <==> str !in s
  {
    for i := 0 to |s|
      invariant str !in s[..i]
    {
      if s[i] == str {
        return false;
      }
    }
    return true;
  }

  function Slashed(links: seq<string>): (r: seq<string>)
    requires "" !in links
    ensures |r| == |links|
    ensures forall i :: 0 <= i < |r| ==> r[i] == AppendSlash(links[i])
  {
    if links == [] then [] else [AppendSlash(links[0])] + Slashed(links[1..])
  }

  function Filtered(urls: seq<string>, exclude: Exclude): (r: seq<string>)
    ensures forall u :: u in r <==> u in urls && Kept(exclude, u)
  {
    if urls == [] then []
    else (if Kept(exclude, urls[0]) then [urls[0]] else []) + Filtered(urls[1..], exclude)
  }

  function Insert(acc: seq<string>, url: string): seq<string> {
    if url in acc then acc else acc + [url]
  }

  /** Appends to acc, in order, each URL not there yet. */
  function Merge(acc: seq<string>, urls: seq<string>): seq<string>
    decreases |urls|
  {
    if urls == [] then acc else Merge(Insert(acc, urls[0]), urls[1..])
  }

  /** Reference definition: keep the elements that do not occur earlier in the list. */
  function FirstOccurrences(urls: seq<string>): seq<string> {
    if urls == [] then []
    else
      var front, last := urls[..|urls| - 1], urls[|urls| - 1];
      FirstOccurrences(front) + (if last in front then [] else [last])
  }

  ghost predicate NoDuplicates(s: seq<string>) {
    forall i, j :: 0 <= i < j < |s| ==> s[i] != s[j]
  }

  lemma {:induction false} MergeConcat(acc: seq<string>, a: seq<string>, b: seq<string>)
    ensures Merge(acc, a + b) == Merge(Merge(acc, a), b)
    decreases |a|
  {
    if a == [] {
      assert a + b == b;
    } else {
      assert (a + b)[1..] == a[1..] + b;
      MergeConcat(Insert(acc, a[0]), a[1..], b);
    }
  }

  lemma {:induction false} MergeMembers(acc: seq<string>, urls: seq<string>)
    ensures forall u :: u in Merge(acc, urls) <==> u in acc || u in urls
    ensures acc <= Merge(acc, urls)
    ensures NoDuplicates(acc) ==> NoDuplicates(Merge(acc, urls))
    decreases |urls|
  {
    if urls != [] {
      MergeMembers(Insert(acc, urls[0]), urls[1..]);
      assert urls == [urls[0]] + urls[1..];
    }
  }

  /** The accumulating loop computes the reference definition. */
  lemma {:induction false} MergeIsFirstOccurrences(urls: seq<string>)
    ensures Merge([], urls) == FirstOccurrences(urls)
    decreases |urls|
  {
    if urls != [] {
      var front, last := urls[..|urls| - 1], urls[|urls| - 1];
      assert urls == front + [last];
      MergeConcat([], front, [last]);
      MergeIsFirstOccurrences(front);
      MergeMembers([], front);
      assert Merge(Merge([], front), [last]) == Insert(Merge([], front), last);
    }
  }

  lemma {:induction false} FilteredConcat(a: seq<string>, b: seq<string>, exclude: Exclude)
    ensures Filtered(a + b, exclude) == Filtered(a, exclude) + Filtered(b, exclude)
  {
    if a == [] {
      assert a + b == b;
    } else {
      assert (a + b)[1..] == a[1..] + b;
      FilteredConcat(a[1..], b, exclude);
    }
  }

  lemma {:induction false} FirstOccurrencesMembers(urls: seq<string>, u: string)
    ensures u in FirstOccurrences(urls) <==> u in urls
    decreases |urls|
  {
    if urls != [] {
      var front, last := urls[..|urls| - 1], urls[|urls| - 1];
      assert urls == front + [last];
      FirstOccurrencesMembers(front, u);
      FirstOccurrencesMembers(front, last);
    }
  }

  /** Exactly the URLs that the pattern, if any, does not match, in order: at lists their positions. */
  ghost predicate Unmatched(urls: seq<string>, exclude: Exclude, kept: seq<string>, at: seq<nat>) {
    && |kept| == |at|
    && (forall k :: 0 <= k < |at| ==> at[k] < |urls| && kept[k] == urls[at[k]])
    && (forall j, k :: 0 <= j < k < |at| ==> at[j] < at[k])
    && (forall i :: 0 <= i < |urls| ==> (i in at <==> exclude.None? || !exclude.value(urls[i])))
  }

  lemma UnmatchedSnoc(urls: seq<string>, exclude: Exclude, kept: seq<string>, at: seq<nat>, u: string)
    requires Unmatched(urls, exclude, kept, at)
    ensures exclude.None? || !exclude.value(u) ==> Unmatched(urls + [u], exclude, kept + [u], at + [|urls|])
    ensures exclude.Some? && exclude.value(u) ==> Unmatched(urls + [u], exclude, kept, at)
  {
    var longer, n := urls + [u], |urls|;
    assert longer[n] == u && forall i :: 0 <= i < n ==> longer[i] == urls[i];
    assert forall i :: i in at ==> i < n;
    assert forall i :: i in at + [n] <==> i in at || i == n;
  }

  lemma {:induction false} FilteredExactly(urls: seq<string>, exclude: Exclude) returns (at: seq<nat>)
    ensures Unmatched(urls, exclude, Filtered(urls, exclude), at)
  {
    at := [];
    if urls != [] {
      var n := |urls| - 1;
      var front, u := urls[..n], urls[n];
      assert urls == front + [u];
      at := FilteredExactly(front, exclude);
      FilteredConcat(front, [u], exclude);
      FilteredOne(u, exclude);
      UnmatchedSnoc(front, exclude, Filtered(front, exclude), at, u);
      if exclude.None? || !exclude.value(u) {
        at := at + [n];
      }
    }
  }

  lemma FilteredOne(u: string, exclude: Exclude)
    ensures Filtered([u], exclude) == if exclude.None? || !exclude.value(u) then [u] else []
  {
    assert [u][1..] == [];
  }
}
