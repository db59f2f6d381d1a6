/** `UnitBuilder`: a unit of measure master (Nos, Kgs, …). */
module UnitBuilding {
  import opened PhpNumbers
  import opened PhpArrays
  import opened Helpers
  import opened TallyRecords

  /** The UNIT record a new builder holds, from the cleaned name and reporting unit. */
  function UnitRecord(name: string, uqcName: string, applicableFrom: string): seq<Entry>
  {
    var u := uqcName;
    [Text("ACTION", "Alter"),
     Text("NAME", name),
     Text("GSTREPUOM", u),
     Text("ISSIMPLEUNIT", "Yes"),
     Text("FORPAYROLL", "No"),
     Field("REPORTINGUQCDETAILS.LIST", Arr([Text("APPLICABLEFROM", applicableFrom), Text("REPORTINGUQCNAME", u)]))]
  }

  /**
   * A new unit: the name, the reporting unit stored twice with the same
   * value, a simple unit not for payroll, no DECIMALPLACES.
   */
  lemma NewUnit(name: string, uqcName: string, applicableFrom: string)
    ensures var r := UnitRecord(name, uqcName, applicableFrom);
            && Get(r, Name("ACTION")) == Str("Alter")
            && Get(r, Name("NAME")) == Str(name)
            && Get(r, Name("GSTREPUOM")) == Str(uqcName)
            && Lookup(Get(r, Name("REPORTINGUQCDETAILS.LIST")), "REPORTINGUQCNAME") == Get(r, Name("GSTREPUOM"))
            && Get(r, Name("ISSIMPLEUNIT")) == Str("Yes") && Get(r, Name("FORPAYROLL")) == Str("No")
            && !HasKey(r, Name("DECIMALPLACES"))
  {
    var r := UnitRecord(name, uqcName, applicableFrom);
    GetAt(r, 1, Name("NAME"));
    GetAt(r, 2, Name("GSTREPUOM"));
    GetAt(r, 3, Name("ISSIMPLEUNIT"));
    GetAt(r, 4, Name("FORPAYROLL"));
    GetAt(r, 5, Name("REPORTINGUQCDETAILS.LIST"));
    GetAt(r[5].val.entries, 1, Name("REPORTINGUQCNAME"));
    Absent(r, Name("DECIMALPLACES"));
  }

  /**
   * `decimalPlaces` after construction: DECIMALPLACES is added as the last
   * field and holds the last value given; every other field is unchanged.
   */
  lemma DecimalPlacesOnlyAddsTheField(name: string, uqcName: string, applicableFrom: string, d1: int, d2: int)
    ensures var r0 := UnitRecord(name, uqcName, applicableFrom);
            var r := Put(Put(r0, Name("DECIMALPLACES"), Num(Int(d1))), Name("DECIMALPLACES"), Num(Int(d2)));
            && Get(r, Name("DECIMALPLACES")) == Num(Int(d2))
            && Keys(r) == Keys(r0) + [Name("DECIMALPLACES")]
            && (forall k :: k != Name("DECIMALPLACES") ==> Get(r, k) == Get(r0, k))
  {
    var r0 := UnitRecord(name, uqcName, applicableFrom);
    NewUnit(name, uqcName, applicableFrom);
    PutPut(r0, Name("DECIMALPLACES"), Num(Int(d1)), Num(Int(d2)));
    PutKeys(r0, Name("DECIMALPLACES"), Num(Int(d2)));
  }

  class UnitBuilder {
    /** The UNIT record; the builder's array is `Message("UNIT", unit)`. */
    var unit: seq<Entry>

    constructor (name: string, uqcName: string, clock: Clock)
      ensures unit == UnitRecord(Clean(name), Clean(uqcName), clock.applicableFrom)
    {
      unit := UnitRecord(Clean(name), Clean(uqcName), clock.applicableFrom);
    }

    /** `decimalPlaces`: writes DECIMALPLACES and nothing else. */
    method DecimalPlaces(decimals: int)
      modifies this
      ensures unit == Put(old(unit), Name("DECIMALPLACES"), Num(Int(decimals)))
      ensures Get(unit, Name("DECIMALPLACES")) == Num(Int(decimals))
      ensures forall k :: k != Name("DECIMALPLACES") ==> Get(unit, k) == Get(old(unit), k)
    {
      unit := Put(unit, Name("DECIMALPLACES"), Num(Int(decimals)));
    }

    /** `build`: the accumulated array, unchanged. */
    function Build(): (r: seq<Entry>)
      reads this
      ensures Lookup(Lookup(Arr(r), "TALLYMESSAGE"), "UNIT") == Arr(unit)
    {
      Message("UNIT", unit)
    }

    static method Create(name: string, uqcName: string, clock: Clock) returns (b: UnitBuilder)
      ensures fresh(b) && b.unit == UnitRecord(Clean(name), Clean(uqcName), clock.applicableFrom)
    {
      b := new UnitBuilder(name, uqcName, clock);
    }
  }
}
