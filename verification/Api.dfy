/** What every part of the model shares about the two remote services it talks to:
    the Kubernetes API server and Azure. */
module Api {
  datatype Option<+T> = None | Some(value: T)

  /** How one remote write ends: carried out and acknowledged, carried out although the
      caller is told it failed, or not carried out. Reads use Failed for "the read failed". */
  datatype Reply = Done | Lost | Failed

  /** No element of `s` occurs twice. */
  ghost predicate Distinct<T(!new)>(s: seq<T>) {
    forall i, j :: 0 <= i < j < |s| ==> s[i] != s[j]
  }

  /** A distinct sequence has as many elements as the set of its elements. */
  lemma DistinctLength<T>(s: seq<T>, elements: set<T>)
    requires forall i, j :: 0 <= i < j < |s| ==> s[i] != s[j]
    requires forall x :: x in s <==> x in elements
    ensures |s| == |elements|
    decreases |s|
  {
    if s != [] {
      var last := s[|s| - 1];
      assert s == s[..|s| - 1] + [last];
      DistinctLength(s[..|s| - 1], elements - {last});
    } else {
      assert elements == {};
    }
  }
}
