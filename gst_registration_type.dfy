/** The GST registration types of a party ledger. */
module GstRegistrationType {

  const Regular: string := "Regular"
  const UnregisteredConsumer: string := "Unregistered/Consumer"
  const Composition: string := "Composition"
  const Consumer: string := "Consumer"
  const Unregistered: string := "Unregistered"

  /** `GstRegistrationType::all()`: the five types in declaration order, pairwise distinct. */
  function All(): (r: seq<string>)
    ensures |r| == 5
    ensures forall i, j :: 0 <= i < j < |r| ==> r[i] != r[j]
  {
    [Regular, UnregisteredConsumer, Composition, Consumer, Unregistered]
  }

  /** `GstRegistrationType::isValid`: strict membership in `All()`. */
  predicate IsValid(t: string)
  {
    t in All()
  }

  /** Matching is on the whole string and is case-sensitive. */
  lemma WholeStringMatch()
    ensures IsValid("Regular") && !IsValid("regular") && !IsValid("REGULAR")
    ensures IsValid("Unregistered/Consumer") && IsValid("Unregistered") && IsValid("Consumer")
    ensures !IsValid("Unregistered/") && !IsValid("Regular ")
  {
    assert All()[0] == "Regular";
  }
}
