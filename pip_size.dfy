/** The three discrete sizes of the overlay; each raw value is the scale of
    the size relative to the small one. */
module Sizes {

  datatype Option<T> = None | Some(value: T)

  datatype PipSize = Small | Medium | Large

  /** `rawValue`. */
  function RawValue(s: PipSize): (r: real)
    ensures 1.0 <= r <= 2.0
    ensures r == 1.0 <==> s == Small
  {
    match s
    case Small => 1.0
    case Medium => 1.5
    case Large => 2.0
  }

  /** `PipSize(rawValue:)`, the failable initialiser of a raw-value enum. */
  function FromRawValue(r: real): (o: Option<PipSize>)
    ensures o.Some? <==> r == 1.0 || r == 1.5 || r == 2.0
    ensures o.Some? ==> RawValue(o.value) == r
  {
    if r == 1.0 then Some(Small)
    else if r == 1.5 then Some(Medium)
    else if r == 2.0 then Some(Large)
    else None
  }

  lemma RawValueRoundTrip(s: PipSize)
    ensures FromRawValue(RawValue(s)) == Some(s)
  {
  }

  /** The multipliers are positive and strictly increasing. */
  lemma RawValuesIncreasing()
    ensures 0.0 < RawValue(Small) < RawValue(Medium) < RawValue(Large)
    ensures RawValue(Small) == 1.0
  {
  }

  lemma RawValueInjective(s: PipSize, t: PipSize)
    requires RawValue(s) == RawValue(t)
    ensures s == t
  {
  }

  /** `allSizes`, the default set of enabled sizes: every size, each once
      (the raw values strictly decrease, so none repeats),
      largest first. */
  function AllSizes(): (r: seq<PipSize>)
    ensures |r| == 3
    ensures forall s :: s in r
    ensures forall i, j :: 0 <= i < j < |r| ==> RawValue(r[i]) > RawValue(r[j])
  {
    var r := [Large, Medium, Small];
    assert forall s :: s in r by {
      forall s: PipSize ensures s in r {
        if s == Large { assert r[0] == s; }
        else if s == Medium { assert r[1] == s; }
        else { assert r[2] == s; }
      }
    }
    r
  }
}
