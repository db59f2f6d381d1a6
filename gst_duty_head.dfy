/** The GST duty heads, in the order Tally lists rate rows. */
module GstDutyHead {

  const Cgst: string := "CGST"
  const Sgst: string := "SGST/UTGST"
  const Igst: string := "IGST"
  const Cess: string := "Cess"
  const StateCess: string := "State Cess"

  /** `GstDutyHead::all()`: CGST, SGST/UTGST, IGST, Cess, State Cess. */
  function All(): (r: seq<string>)
    ensures |r| == 5
    ensures forall i, j :: 0 <= i < j < |r| ==> r[i] != r[j]
  {
    [Cgst, Sgst, Igst, Cess, StateCess]
  }

  /** `GstDutyHead::isValid`: strict membership in `All()`. */
  predicate IsValid(d: string)
  {
    d in All()
  }

  /** The state head is spelled "SGST/UTGST": "SGST" alone is not a duty head. */
  lemma SgstAloneIsInvalid()
    ensures IsValid("SGST/UTGST") && !IsValid("SGST") && !IsValid("cgst")
  {
    assert All()[1] == "SGST/UTGST";
  }
}
