/** The elements of a sequence, as a set. */
module Collections {

  function Elements<T(==, !new)>(s: seq<T>): (r: set<T>)
    ensures forall x :: x in r <==> x in s
    ensures (forall i, j :: 0 <= i < j < |s| ==> s[i] != s[j]) ==> |r| == |s|
  {
    if s == [] then {} else
      assert forall x :: x in s <==> x == s[0] || x in s[1..];
      {s[0]} + Elements(s[1..])
  }
}
