/** The protocol-version lookup of Get_kafka_info (main.go:86-98): the configured version string
    is compared with the printed form of every version the client library supports, in the
    library's order, and the first equal one is used. */
module Versions {
  import opened Wrappers

  /** The index of the first of supported[from..] equal to `wanted`. */
  function FirstMatch(supported: seq<string>, wanted: string, from: nat): Option<nat>
    requires from <= |supported|
    decreases |supported| - from
  {
    if from == |supported| then None
    else if supported[from] == wanted then Some(from)
    else FirstMatch(supported, wanted, from + 1)
  }

  /** FirstMatch finds the first equal entry at or after `from`, and finds none exactly when
      there is none. */
  lemma {:induction false} FirstMatchIsFirst(supported: seq<string>, wanted: string, from: nat)
    requires from <= |supported|
    ensures var r := FirstMatch(supported, wanted, from);
      && (r.Some? ==> from <= r.value < |supported| && supported[r.value] == wanted)
      && (r.Some? ==> forall j :: from <= j < r.value ==> supported[j] != wanted)
      && (r.None? <==> forall j :: from <= j < |supported| ==> supported[j] != wanted)
    decreases |supported| - from
  {
    if from < |supported| && supported[from] != wanted {
      FirstMatchIsFirst(supported, wanted, from + 1);
    }
  }

  /** The search loop (main.go:88-94): stop at the first supported version whose string equals
      the configured one; Go's `versionFound` is `r.Some?` and `matchedVersion` is
      `supported[r.value]`. */
  method MatchVersion(supported: seq<string>, wanted: string) returns (r: Option<nat>)
    ensures r.Some? ==> r.value < |supported| && supported[r.value] == wanted
    ensures r.Some? ==> forall j :: 0 <= j < r.value ==> supported[j] != wanted
    ensures r.None? <==> wanted !in supported
    ensures r == FirstMatch(supported, wanted, 0)
  {
    r := None;
    var i := 0;
    while i < |supported|
      invariant 0 <= i <= |supported|
      invariant forall j :: 0 <= j < i ==> supported[j] != wanted
      invariant FirstMatch(supported, wanted, 0) == FirstMatch(supported, wanted, i)
    {
      if supported[i] == wanted {
        r := Some(i);
        break;
      }
      i := i + 1;
    }
  }
}
