/** `StockItemBuilder`: a stock item master with its GST and HSN details. */
module StockItemBuilding {
  import opened Wrappers
  import opened PhpNumbers
  import opened PhpArrays
  import opened Helpers
  import opened TallyRecords
  import GstDutyHead

  /** The STOCKITEM record a new builder holds, from the cleaned name and unit. */
  function StockItemRecord(name: string, unit: string): seq<Entry>
  {
    [Text("ACTION", "Alter"),
     Field("NAME.LIST", Arr([Text("NAME", name)])),
     Text("BASEUNITS", unit)]
  }

  lemma NewStockItem(name: string, unit: string)
    ensures var r := StockItemRecord(name, unit);
            && Get(r, Name("ACTION")) == Str("Alter")
            && Lookup(Get(r, Name("NAME.LIST")), "NAME") == Str(name)
            && Get(r, Name("BASEUNITS")) == Str(unit)
  {
    var r := StockItemRecord(name, unit);
    GetAt(r, 1, Name("NAME.LIST"));
    GetAt(r, 2, Name("BASEUNITS"));
    GetAt(r[1].val.entries, 0, Name("NAME"));
  }

  /** The unit rates are quoted in: BASEUNITS, or "Nos" if it were missing. */
  function RateUnit(item: seq<Entry>): string
  {
    ToText(Coalesce(Get(item, Name("BASEUNITS")), Str("Nos")))
  }

  /** The GSTAPPLICABLE text. */
  function GstApplicableText(applicable: bool): (r: string)
    ensures r == TallySpecialChar + (if applicable then " Applicable" else " Not Applicable")
  {
    if applicable then TallySpecialChar + " Applicable" else TallySpecialChar + " Not Applicable"
  }

  function HsnDetails(hsnCode: string, applicableFrom: string): seq<Entry>
  {
    [Text("HSNCODE", hsnCode),
     Text("SRCOFHSNDETAILS", "Specify Details Here"),
     Text("APPLICABLEFROM", applicableFrom)]
  }

  /** The five rate rows: CGST and SGST/UTGST at half the rate, IGST at the full rate, then the cesses without a rate. */
  function RateRows(gstPercentage: Decimal): seq<seq<Entry>>
  {
    var half := Half(gstPercentage);
    [[Text("GSTRATEDUTYHEAD", "CGST"), Text("GSTRATEVALUATIONTYPE", "Based on Value"), Field("GSTRATE", Num(half))],
     [Text("GSTRATEDUTYHEAD", "SGST/UTGST"), Text("GSTRATEVALUATIONTYPE", "Based on Value"), Field("GSTRATE", Num(half))],
     [Text("GSTRATEDUTYHEAD", "IGST"), Text("GSTRATEVALUATIONTYPE", "Based on Value"), Field("GSTRATE", Num(gstPercentage))],
     [Text("GSTRATEDUTYHEAD", "Cess"), Text("GSTRATEVALUATIONTYPE", TallySpecialChar + " Not Applicable")],
     [Text("GSTRATEDUTYHEAD", "State Cess"), Text("GSTRATEVALUATIONTYPE", "Based on Value")]]
  }

  /** The rate of a row, if it has one. */
  function RowRate(row: seq<Entry>): Option<Decimal>
  {
    var v := Get(row, Name("GSTRATE"));
    if v.Num? then Some(v.d) else None
  }

  /**
   * Exactly five rows, one per duty head in the order `GstDutyHead::all()`
   * lists them; only the first three carry a rate.
   */
  lemma RateRowsFollowDutyHeads(gstPercentage: Decimal)
    ensures |RateRows(gstPercentage)| == |GstDutyHead.All()| == 5
    ensures forall i :: 0 <= i < 5 ==>
              Get(RateRows(gstPercentage)[i], Name("GSTRATEDUTYHEAD")) == Str(GstDutyHead.All()[i])
    ensures forall i :: 0 <= i < 5 ==> (RowRate(RateRows(gstPercentage)[i]).Some? <==> i < 3)
  {
    var rows := RateRows(gstPercentage);
    forall i | 0 <= i < 5
      ensures Get(rows[i], Name("GSTRATEDUTYHEAD")) == Str(GstDutyHead.All()[i])
      ensures RowRate(rows[i]).Some? <==> i < 3
    {
      assert rows[i][0].key == Name("GSTRATEDUTYHEAD");
      assert rows[i][1].key == Name("GSTRATEVALUATIONTYPE");
      if i < 3 {
        GetAt(rows[i], 2, Name("GSTRATE"));
      } else {
        Absent(rows[i], Name("GSTRATE"));
      }
    }
  }

  /** The central and state rates are half the percentage each and add up to the integrated rate. */
  lemma CentralAndStateAddUpToIntegrated(gstPercentage: Decimal)
    ensures var rows := RateRows(gstPercentage);
            && RowRate(rows[0]) == RowRate(rows[1]) == Some(Half(gstPercentage))
            && RowRate(rows[2]) == Some(gstPercentage)
            && RealOf(RowRate(rows[0]).value) + RealOf(RowRate(rows[1]).value) == RealOf(RowRate(rows[2]).value)
  {
    var rows := RateRows(gstPercentage);
    forall i | 0 <= i < 3 ensures Get(rows[i], Name("GSTRATE")) == rows[i][2].val {
      assert DistinctKeys(rows[i]);
      GetAt(rows[i], 2, Name("GSTRATE"));
    }
  }

  function BaseGstDetails(hsnCode: string, applicableFrom: string): seq<Entry>
  {
    [Text("CALCULATIONTYPE", "On Value"),
     Text("HSNCODE", hsnCode),
     Text("TAXABILITY", "Taxable"),
     Text("SRCOFGSTDETAILS", "Specify Details Here"),
     Text("GSTCALCSLABONMRP", "No"),
     Text("APPLICABLEFROM", applicableFrom),
     Text("ADDITIONALUNITS", "")]
  }

  /** OPENINGRATE, quoted per `unit`, when an opening rate is given. */
  function WithOpeningRate(details: seq<Entry>, openingRate: Option<Decimal>, unit: string): seq<Entry>
  {
    if openingRate.Some? then With(details, "OPENINGRATE", Str(FormatRate(openingRate.value, unit))) else details
  }

  /** STATEWISEDETAILS.LIST: one "Any" state with the five rate rows. */
  function StatewiseDetails(gstPercentage: Decimal): seq<Entry>
  {
    [Text("STATENAME", TallySpecialChar + " Any"),
     Field("RATEDETAILS.LIST", Arr(RecordList(RateRows(gstPercentage))))]
  }

  /** GSTDETAILS.LIST as `gstDetails` assembles it. */
  function GstDetails(hsnCode: string, gstPercentage: Decimal, openingRate: Option<Decimal>, unit: string, applicableFrom: string): seq<Entry>
  {
    var withRate := WithOpeningRate(BaseGstDetails(hsnCode, applicableFrom), openingRate, unit);
    With(withRate, "STATEWISEDETAILS.LIST", Arr(StatewiseDetails(gstPercentage)))
  }

  lemma WithOpeningRateFields(details: seq<Entry>, openingRate: Option<Decimal>, unit: string)
    ensures var r := WithOpeningRate(details, openingRate, unit);
            && Get(r, Name("HSNCODE")) == Get(details, Name("HSNCODE"))
            && (HasKey(r, Name("OPENINGRATE")) <==> openingRate.Some? || HasKey(details, Name("OPENINGRATE")))
            && (openingRate.Some? ==> Get(r, Name("OPENINGRATE")) == Str(FormatRate(openingRate.value, unit)))
  {
    if openingRate.Some? {
      PutHasKey(details, Name("OPENINGRATE"), Str(FormatRate(openingRate.value, unit)), Name("OPENINGRATE"));
    }
  }

  lemma BaseGstDetailsFields(hsnCode: string, applicableFrom: string)
    ensures Get(BaseGstDetails(hsnCode, applicableFrom), Name("HSNCODE")) == Str(hsnCode)
    ensures !HasKey(BaseGstDetails(hsnCode, applicableFrom), Name("OPENINGRATE"))
  {
    var r := BaseGstDetails(hsnCode, applicableFrom);
    GetAt(r, 1, Name("HSNCODE"));
    Absent(r, Name("OPENINGRATE"));
  }

  /**
   * OPENINGRATE is present exactly when an opening rate is given, quoted per
   * the unit passed in; the HSN code is the one given.
   */
  lemma GstDetailsFields(hsnCode: string, gstPercentage: Decimal, openingRate: Option<Decimal>, unit: string, applicableFrom: string)
    ensures var d := GstDetails(hsnCode, gstPercentage, openingRate, unit, applicableFrom);
            && Get(d, Name("HSNCODE")) == Str(hsnCode)
            && (HasKey(d, Name("OPENINGRATE")) <==> openingRate.Some?)
            && (openingRate.Some? ==> Get(d, Name("OPENINGRATE")) == Str(FormatRate(openingRate.value, unit)))
            && Get(d, Name("STATEWISEDETAILS.LIST")) == Arr(StatewiseDetails(gstPercentage))
  {
    BaseGstDetailsFields(hsnCode, applicableFrom);
    var withRate := WithOpeningRate(BaseGstDetails(hsnCode, applicableFrom), openingRate, unit);
    WithOpeningRateFields(BaseGstDetails(hsnCode, applicableFrom), openingRate, unit);
    var sw := StatewiseDetails(gstPercentage);
    PutHasKey(withRate, Name("STATEWISEDETAILS.LIST"), Arr(sw), Name("OPENINGRATE"));
  }

  /** The state-wise details apply to any state and carry the five rate rows. */
  lemma StatewiseDetailsFields(gstPercentage: Decimal)
    ensures Lookup(Arr(StatewiseDetails(gstPercentage)), "STATENAME") == Str(TallySpecialChar + " Any")
    ensures Lookup(Arr(StatewiseDetails(gstPercentage)), "RATEDETAILS.LIST") == Arr(RecordList(RateRows(gstPercentage)))
  {
    GetAt(StatewiseDetails(gstPercentage), 1, Name("RATEDETAILS.LIST"));
  }

  /** The record after `gstDetails`: GSTDETAILS.LIST, then HSNDETAILS.LIST through `hsn`. */
  function WithGstDetails(item: seq<Entry>, hsnCode: string, gstPercentage: Decimal, openingRate: Option<Decimal>, applicableFrom: string): seq<Entry>
  {
    var code := Clean(hsnCode);
    var details := GstDetails(code, gstPercentage, openingRate, RateUnit(item), applicableFrom);
    With(With(item, "GSTDETAILS.LIST", Arr(details)), "HSNDETAILS.LIST", Arr(HsnDetails(code, applicableFrom)))
  }

  /** After `gstDetails` the HSN code in HSNDETAILS.LIST is the one in GSTDETAILS.LIST. */
  lemma HsnCodesAgree(item: seq<Entry>, hsnCode: string, gstPercentage: Decimal, openingRate: Option<Decimal>, applicableFrom: string)
    ensures var r := WithGstDetails(item, hsnCode, gstPercentage, openingRate, applicableFrom);
            && Lookup(Get(r, Name("HSNDETAILS.LIST")), "HSNCODE") == Str(Clean(hsnCode))
            && Lookup(Get(r, Name("GSTDETAILS.LIST")), "HSNCODE") == Str(Clean(hsnCode))
            && Get(r, Name("BASEUNITS")) == Get(item, Name("BASEUNITS"))
  {
    GstDetailsFields(Clean(hsnCode), gstPercentage, openingRate, RateUnit(item), applicableFrom);
    assert Get(HsnDetails(Clean(hsnCode), applicableFrom), Name("HSNCODE")) == Str(Clean(hsnCode));
  }

  /** In a builder's record the opening rate is quoted in the item's own base unit. */
  lemma OpeningRateUsesBaseUnit(name: string, unit: string, hsnCode: string, gstPercentage: Decimal, rate: Decimal, applicableFrom: string)
    ensures var r := WithGstDetails(StockItemRecord(name, unit), hsnCode, gstPercentage, Some(rate), applicableFrom);
            Lookup(Get(r, Name("GSTDETAILS.LIST")), "OPENINGRATE") == Str(FormatRate(rate, unit))
  {
    NewStockItem(name, unit);
    GstDetailsFields(Clean(hsnCode), gstPercentage, Some(rate), unit, applicableFrom);
  }

  class StockItemBuilder {
    /** The STOCKITEM record; the builder's array is `Message("STOCKITEM", item)`. */
    var item: seq<Entry>

    constructor (name: string, unit: string)
      ensures item == StockItemRecord(Clean(name), Clean(unit))
    {
      item := StockItemRecord(Clean(name), Clean(unit));
    }

    /** `hsn`: HSNDETAILS.LIST with the cleaned code. */
    method Hsn(hsnCode: string, clock: Clock)
      modifies this
      ensures item == With(old(item), "HSNDETAILS.LIST", Arr(HsnDetails(Clean(hsnCode), clock.applicableFrom)))
    {
      item := With(item, "HSNDETAILS.LIST", Arr(HsnDetails(Clean(hsnCode), clock.applicableFrom)));
    }

    method GstApplicable(applicable: bool)
      modifies this
      ensures item == With(old(item), "GSTAPPLICABLE", Str(GstApplicableText(applicable)))
    {
      var value := if applicable then TallySpecialChar + " Applicable" else TallySpecialChar + " Not Applicable";
      item := With(item, "GSTAPPLICABLE", Str(value));
    }

    method GstSupplyType(supplyType: string)
      modifies this
      ensures item == With(old(item), "GSTTYPEOFSUPPLY", Str(Clean(supplyType)))
    {
      item := With(item, "GSTTYPEOFSUPPLY", Str(Clean(supplyType)));
    }

    /** `price`: only _OPENINGRATE changes, quoted per the current base unit. */
    method Price(price: Decimal)
      modifies this
      ensures item == With(old(item), "_OPENINGRATE", Str(FormatRate(price, RateUnit(old(item)))))
      ensures forall k :: k != Name("_OPENINGRATE") ==> Get(item, k) == Get(old(item), k)
    {
      var unit := RateUnit(item);
      item := With(item, "_OPENINGRATE", Str(FormatRate(price, unit)));
    }

    /** `gstDetails`: GSTDETAILS.LIST for the percentage, then the HSN details. */
    method GstDetails(hsnCode: string, gstPercentage: Decimal, openingRate: Option<Decimal>, clock: Clock)
      modifies this
      ensures item == WithGstDetails(old(item), hsnCode, gstPercentage, openingRate, clock.applicableFrom)
    {
      var unit := RateUnit(item);
      var details := BaseGstDetails(Clean(hsnCode), clock.applicableFrom);
      if openingRate.Some? {
        details := With(details, "OPENINGRATE", Str(FormatRate(openingRate.value, unit)));
      }
      details := With(details, "STATEWISEDETAILS.LIST", Arr(StatewiseDetails(gstPercentage)));
      item := With(item, "GSTDETAILS.LIST", Arr(details));
      Hsn(hsnCode, clock);
    }

    /** `build`: the accumulated array, unchanged. */
    function Build(): (r: seq<Entry>)
      reads this
      ensures Lookup(Lookup(Arr(r), "TALLYMESSAGE"), "STOCKITEM") == Arr(item)
    {
      Message("STOCKITEM", item)
    }

    static method Create(name: string, unit: string) returns (b: StockItemBuilder)
      ensures fresh(b) && b.item == StockItemRecord(Clean(name), Clean(unit))
    {
      b := new StockItemBuilder(name, unit);
    }
  }
}
