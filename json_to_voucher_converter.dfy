/**
 * `JsonToVoucherConverter`: turns a voucher document (units, ledgers, stock
 * items and one voucher) into the Tally import envelope, with one message per
 * entity under DATA.
 */
module VoucherConversion {
  import opened Wrappers
  import opened PhpNumbers
  import opened PhpStrings
  import opened PhpArrays
  import opened Helpers
  import opened TallyRecords
  import opened TallyXml
  import opened UnitBuilding
  import opened LedgerBuilding
  import opened StockItemBuilding
  import opened VoucherBuilding
  import opened ConversionInputs
  import VoucherType
  import JsonValidation

  /** The elements a `foreach` guarded by `isset($v) && is_array($v)` walks. */
  function ListOf(v: Value): seq<Entry>
  {
    if IsSet(v) && v.Arr? then v.entries else []
  }

  /** The pairs of an array value (none for a scalar, which an `array` parameter refuses anyway). */
  function Fields(v: Value): seq<Entry>
  {
    if v.Arr? then v.entries else []
  }

  /** `$v[f] ?? d` on a list element, which need not be an array. */
  function Or(v: Value, f: string, d: Value): Value
  {
    Coalesce(Lookup(v, f), d)
  }

  // ---------------------------------------------------------------------
  // Units

  /** The number an `int` parameter receives (where `IntArg` accepts). */
  function IntValue(v: Value): int
  {
    match IntArg(v)
    case Success(n) => n
    case Failure(_) => 0
  }

  /** `buildUnit(array $data)` accepts the element and the arguments it passes on. */
  predicate UnitDataOk(v: Value)
  {
    && v.Arr?
    && StringOk(At(v.entries, "name")) && StringOk(At(v.entries, "uqc_name"))
    && (IsSet(At(v.entries, "decimal_point")) ==> IntArg(At(v.entries, "decimal_point")).Success?)
  }

  /** What `buildUnit` returns: DECIMALPLACES only when `decimal_point` is set. */
  function ConvertedUnit(d: seq<Entry>, clock: Clock): seq<Entry>
  {
    var u := UnitRecord(Clean(FieldText(d, "name")), Clean(FieldText(d, "uqc_name")), clock.applicableFrom);
    var places := At(d, "decimal_point");
    Message("UNIT", if IsSet(places) then Put(u, Name("DECIMALPLACES"), Num(Int(IntValue(places)))) else u)
  }

  // ---------------------------------------------------------------------
  // Ledgers: the master converter's setters, without the detail lists

  function ConvertedLedger(d: seq<Entry>): seq<Entry>
  {
    Message("LEDGER", WithAddresses(LedgerOptionalFields(NewLedgerFor(d), d), LedgerAddressLines(d)))
  }

  // ---------------------------------------------------------------------
  // Stock items

  /** `$data['unit'] ?? 'Nos'`. */
  function StockUnitOf(d: seq<Entry>): Value
  {
    Coalesce(At(d, "unit"), Str("Nos"))
  }

  /** GST details are set when the HSN code is non-empty and a percentage is present. */
  predicate WantsGstDetails(d: seq<Entry>)
  {
    Given(d, "hsn") && IsSet(At(d, "gst_percentage"))
  }

  /** The opening rate a `?float` parameter receives from `$data['price'] ?? null`. */
  function OpeningRateOf(d: seq<Entry>): Option<Decimal>
  {
    match NullableFloatArg(At(d, "price"))
    case Success(o) => o
    case Failure(_) => None
  }

  predicate StockItemDataOk(v: Value)
  {
    && v.Arr?
    && StringOk(At(v.entries, "name")) && StringOk(StockUnitOf(v.entries))
    && (IsSet(At(v.entries, "gst_applicable")) ==> BoolArg(At(v.entries, "gst_applicable")).Success?)
    && OptionalStringOk(v.entries, "gst_supply_type")
    && (WantsGstDetails(v.entries) ==>
          StringOk(At(v.entries, "hsn")) && FloatOk(At(v.entries, "gst_percentage")) && NullableFloatArg(At(v.entries, "price")).Success?)
  }

  /** The STOCKITEM record `buildStockItem` builds. */
  function StockItemFields(d: seq<Entry>, clock: Clock): seq<Entry>
  {
    var item := StockItemRecord(Clean(FieldText(d, "name")), Clean(ToText(StockUnitOf(d))));
    var applicable := At(d, "gst_applicable");
    var i1 := SetIf(item, IsSet(applicable), "GSTAPPLICABLE", Str(GstApplicableText(!IsEmpty(applicable))));
    var i2 := SetIf(i1, Given(d, "gst_supply_type"), "GSTTYPEOFSUPPLY", Cleaned(d, "gst_supply_type"));
    if WantsGstDetails(d) then
      WithGstDetails(i2, FieldText(d, "hsn"), FloatValue(At(d, "gst_percentage")), OpeningRateOf(d), clock.applicableFrom)
    else i2
  }

  function ConvertedStockItem(d: seq<Entry>, clock: Clock): seq<Entry>
  {
    Message("STOCKITEM", StockItemFields(d, clock))
  }

  // ---------------------------------------------------------------------
  // The voucher

  /** The `case` labels of `createVoucherBuilder`. */
  const FactoryCases: seq<string> := ["sale", "sales", "purchase", "sale return", "purchase return", "payment", "receipt"]

  /** The voucher type `createVoucherBuilder` gives the builder: a factory's type, or the raw type. */
  function BuilderType(t: string): string
  {
    var l := Lower(t);
    if l == "sale" || l == "sales" then VoucherType.Sale
    else if l == "purchase" then VoucherType.Purchase
    else if l == "sale return" then VoucherType.SaleReturn
    else if l == "purchase return" then VoucherType.PurchaseReturn
    else if l == "payment" then VoucherType.Payment
    else if l == "receipt" then VoucherType.Receipt
    else t
  }

  /** `$data['voucher_type'] ?? 'Sale'`. */
  function VoucherTypeOf(d: seq<Entry>): Value { Coalesce(At(d, "voucher_type"), Str("Sale")) }

  /** `$data['voucher_number'] ?? ''`. */
  function VoucherNumberOf(d: seq<Entry>): Value { Coalesce(At(d, "voucher_number"), Str("")) }

  /** `$data['voucher_date'] ?? date('Y-m-d')`. */
  function VoucherDateOf(d: seq<Entry>, clock: Clock): Value { Coalesce(At(d, "voucher_date"), Str(clock.today)) }

  /** The type the voucher's builder carries. */
  function TypeFor(d: seq<Entry>, clock: Clock): string
  {
    BuilderType(ToText(VoucherTypeOf(d)))
  }

  /** The party setters: each only when its field is non-empty. */
  function PartyDetails(v: seq<Entry>, d: seq<Entry>): seq<Entry>
  {
    var v1 := if Given(d, "ledger_name") then WithPartyName(v, Clean(FieldText(d, "ledger_name"))) else v;
    var v2 := SetIf(SetIf(v1, Given(d, "state"), "STATENAME", Cleaned(d, "state")), Given(d, "state"), "CONSIGNEESTATENAME", Cleaned(d, "state"));
    var v3 := SetIf(SetIf(v2, Given(d, "country"), "COUNTRYNAME", Cleaned(d, "country")), Given(d, "country"), "COUNTRYOFRESIDENCE", Cleaned(d, "country"));
    var v4 := SetIf(v3, Given(d, "pincode"), "PINCODE", Cleaned(d, "pincode"));
    var v5 := SetIf(v4, Given(d, "gst_registration_type"), "GSTREGISTRATIONTYPE", Cleaned(d, "gst_registration_type"));
    var v6 := SetIf(v5, Given(d, "gst_in"), "PARTYGSTIN", Cleaned(d, "gst_in"));
    var v7 := SetIf(v6, Given(d, "place_of_supply"), "PLACEOFSUPPLY", Cleaned(d, "place_of_supply"));
    SetIf(v7, Given(d, "narration"), "NARRATION", Cleaned(d, "narration"))
  }

  /** The party's address lines: line 1, then line 2, each when non-empty. */
  function PartyAddressLines(d: seq<Entry>): seq<string>
  {
    (if Given(d, "address_line_1") then [Clean(FieldText(d, "address_line_1"))] else [])
    + (if Given(d, "address_line_2") then [Clean(FieldText(d, "address_line_2"))] else [])
  }

  predicate PartyArgsOk(d: seq<Entry>)
  {
    && OptionalStringOk(d, "ledger_name")
    && OptionalStringOk(d, "address_line_1") && OptionalStringOk(d, "address_line_2")
    && OptionalStringOk(d, "state") && OptionalStringOk(d, "country") && OptionalStringOk(d, "pincode")
    && OptionalStringOk(d, "gst_registration_type") && OptionalStringOk(d, "gst_in")
    && OptionalStringOk(d, "place_of_supply") && OptionalStringOk(d, "narration")
  }

  /** The six arguments of `addVoucherItem` accept the item's values or defaults. */
  predicate ItemArgsOk(item: Value)
  {
    && StringOk(Or(item, "ledger_name", Str("Sales Account")))
    && StringOk(Or(item, "stock_item_name", Str("")))
    && StringOk(Or(item, "unit", Str("Nos")))
    && FloatOk(Or(item, "price", Num(Int(0))))
    && FloatOk(Or(item, "qty", Num(Int(1))))
    && NullableFloatArg(Lookup(item, "discount")).Success?
  }

  function DiscountOf(item: Value): Option<Decimal>
  {
    match NullableFloatArg(Lookup(item, "discount"))
    case Success(o) => o
    case Failure(_) => None
  }

  /** The inventory line one element of `voucher_items` adds. */
  function InventoryLine(t: string, item: Value): seq<Entry>
  {
    ItemEntry(t, ToText(Or(item, "ledger_name", Str("Sales Account"))), ToText(Or(item, "stock_item_name", Str(""))),
              ToText(Or(item, "unit", Str("Nos"))), FloatValue(Or(item, "price", Num(Int(0)))),
              FloatValue(Or(item, "qty", Num(Int(1)))), DiscountOf(item))
  }

  /** The inventory lines of `voucher_items`, one per element, in order. */
  function InventoryLines(t: string, items: seq<Entry>): (r: seq<seq<Entry>>)
    ensures |r| == |items| && forall i :: 0 <= i < |items| ==> r[i] == InventoryLine(t, items[i].val)
  {
    seq(|items|, i requires 0 <= i < |items| => InventoryLine(t, items[i].val))
  }

  /** The name and amount `addTax`, `addAdditionalCharge` or `roundOff` receive. */
  predicate PostingArgsOk(v: Value, defaultName: string)
  {
    StringOk(Or(v, "name", Str(defaultName))) && FloatOk(Or(v, "amount", Num(Int(0))))
  }

  function PostingName(v: Value, defaultName: string): string { ToText(Or(v, "name", Str(defaultName))) }

  function PostingAmount(v: Value): Decimal { FloatValue(Or(v, "amount", Num(Int(0)))) }

  /** The line one element of `tax_details` adds: ledger 'GST' and amount 0 unless given. */
  function TaxLineOf(t: string, tax: Value): seq<Entry>
  {
    TaxEntry(t, PostingName(tax, "GST"), PostingAmount(tax))
  }

  function TaxLines(t: string, taxes: seq<Entry>): (r: seq<seq<Entry>>)
    ensures |r| == |taxes| && forall i :: 0 <= i < |taxes| ==> r[i] == TaxLineOf(t, taxes[i].val)
  {
    seq(|taxes|, i requires 0 <= i < |taxes| => TaxLineOf(t, taxes[i].val))
  }

  lemma TaxLinesStep(t: string, list: seq<Entry>, i: nat)
    requires i < |list|
    ensures TaxLines(t, list[..i + 1]) == TaxLines(t, list[..i]) + [TaxLineOf(t, list[i].val)]
  {
    hide *;
    var a, b := list[..i + 1], list[..i];
    assert forall k :: 0 <= k < i ==> a[k] == b[k];
    assert a[i] == list[i];
  }

  /** The line one element of `additional_charges` adds: an empty name and amount 0 unless given. */
  function ChargeLineOf(t: string, charge: Value): seq<Entry>
  {
    ChargeEntry(t, PostingName(charge, ""), PostingAmount(charge))
  }

  function ChargeLines(t: string, charges: seq<Entry>): (r: seq<seq<Entry>>)
    ensures |r| == |charges| && forall i :: 0 <= i < |charges| ==> r[i] == ChargeLineOf(t, charges[i].val)
  {
    seq(|charges|, i requires 0 <= i < |charges| => ChargeLineOf(t, charges[i].val))
  }

  lemma ChargeLinesStep(t: string, list: seq<Entry>, i: nat)
    requires i < |list|
    ensures ChargeLines(t, list[..i + 1]) == ChargeLines(t, list[..i]) + [ChargeLineOf(t, list[i].val)]
  {
    hide *;
    var a, b := list[..i + 1], list[..i];
    assert forall k :: 0 <= k < i ==> a[k] == b[k];
    assert a[i] == list[i];
  }

  function RoundOffLines(d: seq<Entry>): seq<seq<Entry>>
  {
    var r := At(d, "round_off");
    if IsSet(r) then [RoundOffEntry(Clean(PostingName(r, "Round Off")), PostingAmount(r))] else []
  }

  /** The party line is added when both `total` and `ledger_name` are set (not merely non-empty). */
  predicate HasPartyAmount(d: seq<Entry>)
  {
    IsSet(At(d, "total")) && IsSet(At(d, "ledger_name"))
  }

  function PartyLines(t: string, d: seq<Entry>): seq<seq<Entry>>
  {
    if HasPartyAmount(d) then [PartyEntry(t, FieldText(d, "ledger_name"), FloatValue(At(d, "total")))] else []
  }

  /** The tax lines, then the additional charges. */
  function PostingLines(t: string, d: seq<Entry>): seq<seq<Entry>>
  {
    TaxLines(t, ListOf(At(d, "tax_details"))) + ChargeLines(t, ListOf(At(d, "additional_charges")))
  }

  /** LEDGERENTRIES in order: the party line first, then taxes, charges and the round-off. */
  function LedgerLines(t: string, d: seq<Entry>): seq<seq<Entry>>
  {
    PartyLines(t, d) + PostingLines(t, d) + RoundOffLines(d)
  }

  predicate PostingsOk(list: seq<Entry>, defaultName: string)
  {
    forall i :: 0 <= i < |list| ==> PostingArgsOk(list[i].val, defaultName)
  }

  predicate ItemsOk(items: seq<Entry>)
  {
    forall i :: 0 <= i < |items| ==> ItemArgsOk(items[i].val)
  }

  /** Every argument `buildVoucher` passes on is accepted. */
  predicate VoucherArgsOk(d: seq<Entry>, clock: Clock)
  {
    && StringOk(VoucherTypeOf(d)) && StringOk(VoucherNumberOf(d)) && StringOk(VoucherDateOf(d, clock))
    && PartyArgsOk(d)
    && ItemsOk(ListOf(At(d, "voucher_items")))
    && PostingsOk(ListOf(At(d, "tax_details")), "GST")
    && PostingsOk(ListOf(At(d, "additional_charges")), "")
    && (IsSet(At(d, "round_off")) ==> PostingArgsOk(At(d, "round_off"), "Round Off"))
    && (HasPartyAmount(d) ==> StringOk(At(d, "ledger_name")) && FloatOk(At(d, "total")))
  }

  predicate VoucherDataOk(v: Value, clock: Clock)
  {
    v.Arr? && VoucherArgsOk(v.entries, clock)
  }

  /** The VOUCHER record `buildVoucher` builds. */
  function VoucherFields(d: seq<Entry>, clock: Clock): seq<Entry>
  {
    var t := TypeFor(d, clock);
    var header := VoucherRecord(t, ToText(VoucherNumberOf(d)), clock.formatDate(ToText(VoucherDateOf(d, clock))));
    Built(PartyDetails(header, d), PartyAddressLines(d), InventoryLines(t, ListOf(At(d, "voucher_items"))), LedgerLines(t, d))
  }

  function ConvertedVoucher(d: seq<Entry>, clock: Clock): seq<Entry>
  {
    Message("VOUCHER", VoucherFields(d, clock))
  }

  // ---------------------------------------------------------------------
  // The whole document

  function Units(units: seq<Entry>, clock: Clock): (r: seq<seq<Entry>>)
    ensures |r| == |units| && forall i :: 0 <= i < |units| ==> r[i] == ConvertedUnit(Fields(units[i].val), clock)
  {
    seq(|units|, i requires 0 <= i < |units| => ConvertedUnit(Fields(units[i].val), clock))
  }

  function Ledgers(ledgers: seq<Entry>): (r: seq<seq<Entry>>)
    ensures |r| == |ledgers| && forall i :: 0 <= i < |ledgers| ==> r[i] == ConvertedLedger(Fields(ledgers[i].val))
  {
    seq(|ledgers|, i requires 0 <= i < |ledgers| => ConvertedLedger(Fields(ledgers[i].val)))
  }

  function StockItems(items: seq<Entry>, clock: Clock): (r: seq<seq<Entry>>)
    ensures |r| == |items| && forall i :: 0 <= i < |items| ==> r[i] == ConvertedStockItem(Fields(items[i].val), clock)
  {
    seq(|items|, i requires 0 <= i < |items| => ConvertedStockItem(Fields(items[i].val), clock))
  }

  function VoucherPart(json: seq<Entry>, clock: Clock): seq<seq<Entry>>
  {
    var v := At(json, "voucher");
    if IsSet(v) then [ConvertedVoucher(Fields(v), clock)] else []
  }

  /** `$allData`: units, then ledgers, then stock items, then the voucher. */
  function VoucherData(json: seq<Entry>, clock: Clock): seq<seq<Entry>>
  {
    Units(ListOf(At(json, "units")), clock) + Ledgers(ListOf(At(json, "ledgers")))
    + StockItems(ListOf(At(json, "stock_item")), clock) + VoucherPart(json, clock)
  }

  /** Every builder call `convert` makes accepts its arguments. */
  predicate VoucherJsonArgsOk(json: seq<Entry>, clock: Clock)
  {
    var units := ListOf(At(json, "units"));
    var ledgers := ListOf(At(json, "ledgers"));
    var items := ListOf(At(json, "stock_item"));
    && (forall i :: 0 <= i < |units| ==> UnitDataOk(units[i].val))
    && (forall i :: 0 <= i < |ledgers| ==> LedgerDataOk(ledgers[i].val))
    && (forall i :: 0 <= i < |items| ==> StockItemDataOk(items[i].val))
    && (IsSet(At(json, "voucher")) ==> VoucherDataOk(At(json, "voucher"), clock))
  }

  /** The array `convertToXml` hands to the serializer. */
  function VoucherEnvelope(company: Value, data: seq<seq<Entry>>): seq<Entry>
  {
    [Field("_COMPANY_NAME", company), Field("DATA", Arr(RecordList(data)))]
  }

  function VoucherValidationMessage(json: seq<Entry>, clock: Clock): string
  {
    ValidationFailedPrefix + Join(JsonValidation.VoucherJsonErrors(json, clock), "\n")
  }

  lemma AppendAssociative<T>(a: seq<T>, b: seq<T>, c: seq<T>)
    ensures a + b + c == a + (b + c)
  {
  }

  // ---------------------------------------------------------------------
  // Properties

  /** A type validation accepts reaches the builder unchanged. */
  lemma ValidatedTypeKept(t: string)
    requires t in VoucherType.ValidatorTypes
    ensures BuilderType(t) == t
  {
  }

  /**
   * The factory choice ignores case; a type outside the switch reaches the
   * builder as written, so a lower-case 'journal' is not the Journal type.
   */
  lemma BuilderTypeCases(t: string)
    ensures Lower(t) in FactoryCases ==> BuilderType(t) == BuilderType(Lower(t)) && BuilderType(t) in VoucherType.ValidatorTypes
    ensures Lower(t) !in FactoryCases ==> BuilderType(t) == t
    ensures BuilderType("sales") == BuilderType("Sales") == VoucherType.Sale
    ensures BuilderType("journal") == "journal" != VoucherType.Journal
  {
    LowerIdempotent(t);
    assert Lower("Sales") == "sales" && Lower("journal") == "journal";
  }

  /** Choosing the type twice changes nothing. */
  lemma BuilderTypeIdempotent(t: string)
    ensures BuilderType(BuilderType(t)) == BuilderType(t)
  {
    BuilderTypeCases(t);
    if Lower(t) in FactoryCases {
      ValidatedTypeKept(BuilderType(t));
    }
  }

  /** A voucher without type, number or date is a Sale numbered '' dated today. */
  lemma VoucherDefaults(d: seq<Entry>, clock: Clock)
    requires !HasKey(d, Name("voucher_type")) && !HasKey(d, Name("voucher_number")) && !HasKey(d, Name("voucher_date"))
    ensures TypeFor(d, clock) == VoucherType.Sale
    ensures ToText(VoucherNumberOf(d)) == "" && ToText(VoucherDateOf(d, clock)) == clock.today
  {
    ValidatedTypeKept("Sale");
  }

  /** An item with none of the six fields: 'Sales Account', no stock item, 'Nos', rate 0, quantity 1, no discount. */
  lemma ItemDefaults(t: string, item: Value)
    requires !IsSet(Lookup(item, "ledger_name")) && !IsSet(Lookup(item, "stock_item_name")) && !IsSet(Lookup(item, "unit"))
    requires !IsSet(Lookup(item, "price")) && !IsSet(Lookup(item, "qty")) && !IsSet(Lookup(item, "discount"))
    ensures ItemArgsOk(item)
    ensures InventoryLine(t, item) == ItemEntry(t, "Sales Account", "", "Nos", Int(0), Int(1), None)
  {
    hide Lookup, ItemEntry;
  }

  /** An item the validator accepts has a price and a quantity the `float` parameters accept. */
  lemma ValidatedItemAmountsAccepted(item: Value)
    requires JsonValidation.ItemOk(item)
    ensures FloatOk(Or(item, "price", Num(Int(0)))) && FloatOk(Or(item, "qty", Num(Int(1))))
  {
  }

  /** The party line, when there is one, comes first, ahead of every tax and charge line. */
  lemma PartyLineFirst(t: string, d: seq<Entry>)
    ensures HasPartyAmount(d) ==> |LedgerLines(t, d)| > 0 && LedgerLines(t, d)[0] == PartyEntry(t, FieldText(d, "ledger_name"), FloatValue(At(d, "total")))
    ensures !HasPartyAmount(d) ==> LedgerLines(t, d) == PostingLines(t, d) + RoundOffLines(d)
  {
    hide PostingLines, RoundOffLines, PartyEntry;
  }

  /** The round-off line, added only when `round_off` is set, is the last ledger line and keeps its sign. */
  lemma RoundOffLast(t: string, d: seq<Entry>)
    ensures var lines := LedgerLines(t, d);
            var r := At(d, "round_off");
            && (IsSet(r) ==> |lines| > 0 && lines[|lines| - 1] == RoundOffEntry(Clean(PostingName(r, "Round Off")), PostingAmount(r))
                             && Side(lines[|lines| - 1]) == Str(YesNo(IsNegative(PostingAmount(r)))))
            && (!IsSet(r) ==> lines == PartyLines(t, d) + PostingLines(t, d))
  {
    hide PostingLines, PartyLines, RoundOffEntry, Clean, PostingName, PostingAmount;
    var r := At(d, "round_off");
    if IsSet(r) {
      UnadjustedLines(Clean(PostingName(r, "Round Off")), PostingAmount(r), false);
    } else {
      assert RoundOffLines(d) == [];
    }
  }

  /**
   * DATA holds one message per unit, ledger and stock item, in that order,
   * and the voucher last.
   */
  lemma DataOrder(json: seq<Entry>, clock: Clock)
    ensures var units := ListOf(At(json, "units"));
            var ledgers := ListOf(At(json, "ledgers"));
            var items := ListOf(At(json, "stock_item"));
            var data := VoucherData(json, clock);
            && |data| == |units| + |ledgers| + |items| + (if IsSet(At(json, "voucher")) then 1 else 0)
            && (forall i :: 0 <= i < |units| ==> data[i] == ConvertedUnit(Fields(units[i].val), clock))
            && (forall i :: 0 <= i < |ledgers| ==> data[|units| + i] == ConvertedLedger(Fields(ledgers[i].val)))
            && (forall i :: 0 <= i < |items| ==> data[|units| + |ledgers| + i] == ConvertedStockItem(Fields(items[i].val), clock))
  {
    hide ConvertedUnit, ConvertedLedger, ConvertedStockItem, ConvertedVoucher, ListOf, At, Fields;
    var masters := Units(ListOf(At(json, "units")), clock) + Ledgers(ListOf(At(json, "ledgers")));
    assert VoucherData(json, clock) == masters + StockItems(ListOf(At(json, "stock_item")), clock) + VoucherPart(json, clock);
  }

  /** A document the validator accepts has its voucher, which is the last message of DATA. */
  lemma ValidatedDocumentEndsWithVoucher(json: seq<Entry>, clock: Clock)
    requires JsonValidation.VoucherJsonOk(json, clock)
    ensures var data := VoucherData(json, clock);
            |data| > 0 && data[|data| - 1] == ConvertedVoucher(At(json, "voucher").entries, clock)
  {
    hide Units, Ledgers, StockItems, ConvertedVoucher;
  }

  /** `$data['unit'] ?? 'Nos'`, cleaned, when the unit is missing. */
  lemma DefaultStockUnit(d: seq<Entry>)
    ensures !HasKey(d, Name("unit")) ==> Clean(ToText(StockUnitOf(d))) == "Nos"
  {
    if !HasKey(d, Name("unit")) {
      assert NoControl("Nos") && NoQuote("Nos") && Count("Nos", '&') == 0;
    }
  }

  /**
   * A stock item without a unit is counted in 'Nos'; its GST details are
   * present exactly when the HSN code is non-empty and a percentage is set,
   * and then carry the cleaned HSN code.
   */
  lemma StockItemConversion(d: seq<Entry>, clock: Clock)
    ensures var r := StockItemFields(d, clock);
            && (!HasKey(d, Name("unit")) ==> Get(r, Name("BASEUNITS")) == Str("Nos"))
            && (HasKey(r, Name("GSTDETAILS.LIST")) <==> WantsGstDetails(d))
            && (WantsGstDetails(d) ==> Lookup(Get(r, Name("GSTDETAILS.LIST")), "HSNCODE") == Str(Clean(FieldText(d, "hsn"))))
  {
    hide GstDetails, HsnDetails, GstApplicableText, Cleaned, Clean;
    var unit := Clean(ToText(StockUnitOf(d)));
    var item := StockItemRecord(Clean(FieldText(d, "name")), unit);
    NewStockItem(Clean(FieldText(d, "name")), unit);
    Absent(item, Name("GSTDETAILS.LIST"));
    DefaultStockUnit(d);
    var applicable := At(d, "gst_applicable");
    var i1 := SetIf(item, IsSet(applicable), "GSTAPPLICABLE", Str(GstApplicableText(!IsEmpty(applicable))));
    var i2 := SetIf(i1, Given(d, "gst_supply_type"), "GSTTYPEOFSUPPLY", Cleaned(d, "gst_supply_type"));
    SetIfGet(item, IsSet(applicable), "GSTAPPLICABLE", Str(GstApplicableText(!IsEmpty(applicable))), Name("BASEUNITS"));
    SetIfGet(item, IsSet(applicable), "GSTAPPLICABLE", Str(GstApplicableText(!IsEmpty(applicable))), Name("GSTDETAILS.LIST"));
    SetIfGet(i1, Given(d, "gst_supply_type"), "GSTTYPEOFSUPPLY", Cleaned(d, "gst_supply_type"), Name("BASEUNITS"));
    SetIfGet(i1, Given(d, "gst_supply_type"), "GSTTYPEOFSUPPLY", Cleaned(d, "gst_supply_type"), Name("GSTDETAILS.LIST"));
    if WantsGstDetails(d) {
      var hsn := FieldText(d, "hsn");
      var pct := FloatValue(At(d, "gst_percentage"));
      HsnCodesAgree(i2, hsn, pct, OpeningRateOf(d), clock.applicableFrom);
      var code := Clean(hsn);
      var details := GstDetails(code, pct, OpeningRateOf(d), RateUnit(i2), clock.applicableFrom);
      var i3 := With(i2, "GSTDETAILS.LIST", Arr(details));
      PutHasKey(i2, Name("GSTDETAILS.LIST"), Arr(details), Name("GSTDETAILS.LIST"));
      PutHasKey(i3, Name("HSNDETAILS.LIST"), Arr(HsnDetails(code, clock.applicableFrom)), Name("GSTDETAILS.LIST"));
    }
  }

  // ---------------------------------------------------------------------
  // The converter

  class JsonToVoucherConverter {
    var converter: TallyXmlConverter
    /** The company name of the last conversion; unset before the first. */
    var companyName: Value

    constructor ()
      ensures fresh(converter) && converter.tallyVersion == "9.0" && converter.dom == []
      ensures companyName == Null
    {
      converter := new TallyXmlConverter("9.0");
      companyName := Null;
    }

    /**
     * `convert`: with validation on and failing, the validation messages are
     * thrown; otherwise one message per unit, ledger and stock item and one
     * for the voucher, unless some value has a type its builder parameter
     * refuses.
     */
    method Convert(json: seq<Entry>, validate: bool, clock: Clock) returns (r: Result<Element, ConvertError>)
      modifies this, converter
      ensures converter == old(converter)
      ensures validate && !JsonValidation.VoucherJsonOk(json, clock) ==>
                r == Failure(InvalidJson(VoucherValidationMessage(json, clock))) && companyName == old(companyName)
      ensures !(validate && !JsonValidation.VoucherJsonOk(json, clock)) ==>
                && companyName == CompanyOf(json)
                && (!VoucherJsonArgsOk(json, clock) ==> r == Failure(WrongType))
                && (VoucherJsonArgsOk(json, clock) ==>
                      var doc := Document(VoucherEnvelope(CompanyOf(json), VoucherData(json, clock)), "Import");
                      && (r.Success? <==> WellNamed(doc))
                      && (r.Success? ==> r.value == doc)
                      && (r.Failure? ==> r.error == InvalidName))
    {
      hide Units, Ledgers, StockItems, ConvertedUnit, ConvertedLedger, ConvertedStockItem, ConvertedVoucher, UnitDataOk, LedgerDataOk, StockItemDataOk, VoucherDataOk, Document, VoucherEnvelope, WellNamed, JsonValidation.VoucherJsonOk, JsonValidation.VoucherJsonErrors;
      if validate {
        var validator := new JsonValidation.JsonValidator();
        var ok := validator.ValidateVoucherJson(json, clock);
        if !ok {
          var message := validator.GetErrorsAsString();
          return Failure(InvalidJson(ValidationFailedPrefix + message));
        }
      }
      companyName := CompanyOf(json);
      var units := BuildUnits(At(json, "units"), clock);
      if units.Failure? {
        return Failure(WrongType);
      }
      var ledgers := BuildLedgers(At(json, "ledgers"));
      if ledgers.Failure? {
        return Failure(WrongType);
      }
      var items := BuildStockItems(At(json, "stock_item"), clock);
      if items.Failure? {
        return Failure(WrongType);
      }
      var allData := units.value + ledgers.value + items.value;
      var voucher := At(json, "voucher");
      if IsSet(voucher) {
        var built := BuildVoucher(voucher, clock);
        if built.Failure? {
          return Failure(WrongType);
        }
        allData := allData + [built.value];
      }
      assert allData == VoucherData(json, clock);
      assert VoucherJsonArgsOk(json, clock);
      var xml := ConvertToXml(allData);
      if xml.Failure? {
        return Failure(InvalidName);
      }
      return Success(xml.value);
    }

    /** The units loop of `convert`, over the list when `units` is set and an array. */
    static method BuildUnits(units: Value, clock: Clock) returns (r: Result<seq<seq<Entry>>, TypeError>)
      ensures r.Success? <==> forall i :: 0 <= i < |ListOf(units)| ==> UnitDataOk(ListOf(units)[i].val)
      ensures r.Success? ==> r.value == Units(ListOf(units), clock)
    {
      hide *;
      var list := ListOf(units);
      var built: seq<seq<Entry>> := [];
      for i := 0 to |list|
        invariant forall j :: 0 <= j < i ==> UnitDataOk(list[j].val)
        invariant |built| == i
        invariant forall j :: 0 <= j < i ==> built[j] == ConvertedUnit(Fields(list[j].val), clock)
      {
        var unit := BuildUnit(list[i].val, clock);
        if unit.Failure? {
          return Failure(TypeError);
        }
        built := built + [unit.value];
      }
      return Success(built);
    }

    /** The ledgers loop of `convert`. */
    static method BuildLedgers(ledgers: Value) returns (r: Result<seq<seq<Entry>>, TypeError>)
      ensures r.Success? <==> forall i :: 0 <= i < |ListOf(ledgers)| ==> LedgerDataOk(ListOf(ledgers)[i].val)
      ensures r.Success? ==> r.value == Ledgers(ListOf(ledgers))
    {
      hide *;
      var list := ListOf(ledgers);
      var built: seq<seq<Entry>> := [];
      for i := 0 to |list|
        invariant forall j :: 0 <= j < i ==> LedgerDataOk(list[j].val)
        invariant |built| == i
        invariant forall j :: 0 <= j < i ==> built[j] == ConvertedLedger(Fields(list[j].val))
      {
        var ledger := BuildLedger(list[i].val);
        if ledger.Failure? {
          return Failure(TypeError);
        }
        built := built + [ledger.value];
      }
      return Success(built);
    }

    /** The stock items loop of `convert`. */
    static method BuildStockItems(items: Value, clock: Clock) returns (r: Result<seq<seq<Entry>>, TypeError>)
      ensures r.Success? <==> forall i :: 0 <= i < |ListOf(items)| ==> StockItemDataOk(ListOf(items)[i].val)
      ensures r.Success? ==> r.value == StockItems(ListOf(items), clock)
    {
      hide *;
      var list := ListOf(items);
      var built: seq<seq<Entry>> := [];
      for i := 0 to |list|
        invariant forall j :: 0 <= j < i ==> StockItemDataOk(list[j].val)
        invariant |built| == i
        invariant forall j :: 0 <= j < i ==> built[j] == ConvertedStockItem(Fields(list[j].val), clock)
      {
        var stockItem := BuildStockItem(list[i].val, clock);
        if stockItem.Failure? {
          return Failure(TypeError);
        }
        built := built + [stockItem.value];
      }
      return Success(built);
    }

    /** `buildUnit`. */
    static method BuildUnit(data: Value, clock: Clock) returns (r: Result<seq<Entry>, TypeError>)
      ensures r.Success? <==> UnitDataOk(data)
      ensures r.Success? ==> r.value == ConvertedUnit(Fields(data), clock)
    {
      hide UnitRecord, Message, Put, Clean;
      if !data.Arr? {
        return Failure(TypeError);
      }
      var d := data.entries;
      var name := StringArg(At(d, "name"));
      var uqcName := StringArg(At(d, "uqc_name"));
      if name.Failure? || uqcName.Failure? {
        return Failure(TypeError);
      }
      var builder := UnitBuilder.Create(name.value, uqcName.value, clock);
      if IsSet(At(d, "decimal_point")) {
        var places := IntArg(At(d, "decimal_point"));
        if places.Failure? {
          return Failure(TypeError);
        }
        builder.DecimalPlaces(places.value);
      }
      return Success(builder.Build());
    }

    /** `buildLedger` of this converter: the setters, no detail lists. */
    static method BuildLedger(data: Value) returns (r: Result<seq<Entry>, TypeError>)
      ensures r.Success? <==> LedgerDataOk(data)
      ensures r.Success? ==> r.value == ConvertedLedger(Fields(data))
    {
      hide Message, WithAddresses, LedgerOptionalFields, LedgerRecord, Clean;
      if !data.Arr? {
        return Failure(TypeError);
      }
      var d := data.entries;
      var name := StringArg(At(d, "name"));
      var parent := StringArg(ParentOf(d));
      if name.Failure? || parent.Failure? {
        return Failure(TypeError);
      }
      var builder := LedgerBuilder.Create(name.value, parent.value);
      var ok := SetLedgerOptionalFields(builder, d);
      if !ok {
        return Failure(TypeError);
      }
      assert builder.addressLines == LedgerAddressLines(d);
      var built := builder.Build();
      return Success(built);
    }

    /** `buildStockItem`. */
    static method BuildStockItem(data: Value, clock: Clock) returns (r: Result<seq<Entry>, TypeError>)
      ensures r.Success? <==> StockItemDataOk(data)
      ensures r.Success? ==> r.value == ConvertedStockItem(Fields(data), clock)
    {
      hide Message, With, Put, Clean, WithGstDetails, StockItemRecord, GstApplicableText;
      if !data.Arr? {
        return Failure(TypeError);
      }
      var d := data.entries;
      var name := StringArg(At(d, "name"));
      var unit := StringArg(StockUnitOf(d));
      if name.Failure? || unit.Failure? {
        return Failure(TypeError);
      }
      var builder := StockItemBuilder.Create(name.value, unit.value);
      ghost var i0 := builder.item;
      if IsSet(At(d, "gst_applicable")) {
        var applicable := BoolArg(At(d, "gst_applicable"));
        if applicable.Failure? {
          return Failure(TypeError);
        }
        builder.GstApplicable(applicable.value);
      }
      ghost var i1 := builder.item;
      assert i1 == SetIf(i0, IsSet(At(d, "gst_applicable")), "GSTAPPLICABLE", Str(GstApplicableText(!IsEmpty(At(d, "gst_applicable")))));
      if Given(d, "gst_supply_type") {
        var supplyType := StringArg(At(d, "gst_supply_type"));
        if supplyType.Failure? {
          return Failure(TypeError);
        }
        builder.GstSupplyType(supplyType.value);
      }
      if WantsGstDetails(d) {
        var hsn := StringArg(At(d, "hsn"));
        var percentage := FloatArg(At(d, "gst_percentage"));
        var price := NullableFloatArg(At(d, "price"));
        if hsn.Failure? || percentage.Failure? || price.Failure? {
          return Failure(TypeError);
        }
        builder.GstDetails(hsn.value, percentage.value, price.value, clock);
      }
      return Success(builder.Build());
    }

    /** `buildVoucher`. */
    static method BuildVoucher(data: Value, clock: Clock) returns (r: Result<seq<Entry>, TypeError>)
      ensures r.Success? <==> VoucherDataOk(data, clock)
      ensures r.Success? ==> r.value == ConvertedVoucher(Fields(data), clock)
    {
      hide Built, Message, VoucherRecord, BuilderType, PartyDetails, PartyAddressLines, InventoryLines, PostingLines, TaxLines, ChargeLines, RoundOffLines, PartyLines, PartyArgsOk, PostingArgsOk, ItemsOk, PostingsOk, InventoryLine, TaxLineOf, ChargeLineOf;
      if !data.Arr? {
        return Failure(TypeError);
      }
      var d := data.entries;
      var voucherType := StringArg(VoucherTypeOf(d));
      var voucherNumber := StringArg(VoucherNumberOf(d));
      var voucherDate := StringArg(VoucherDateOf(d, clock));
      if voucherType.Failure? || voucherNumber.Failure? || voucherDate.Failure? {
        return Failure(TypeError);
      }
      var builder := CreateVoucherBuilder(voucherType.value, voucherNumber.value, voucherDate.value, clock);
      var ok := SetParty(builder, d);
      if !ok {
        return Failure(TypeError);
      }
      ok := AddLines(builder, d);
      if !ok {
        return Failure(TypeError);
      }
      assert [] + PostingLines(builder.voucherType, d) == PostingLines(builder.voucherType, d);
      assert builder.addressLines == PartyAddressLines(d);
      assert builder.inventoryEntries == InventoryLines(builder.voucherType, ListOf(At(d, "voucher_items")));
      var built := builder.Build();
      return Success(built);
    }

    /** The party setters of `buildVoucher`, in source order. */
    static method SetParty(b: VoucherBuilder, d: seq<Entry>) returns (ok: bool)
      modifies b
      ensures ok <==> PartyArgsOk(d)
      ensures b.voucherType == old(b.voucherType)
      ensures b.inventoryEntries == old(b.inventoryEntries) && b.ledgerEntries == old(b.ledgerEntries)
      ensures ok ==> b.voucher == PartyDetails(old(b.voucher), d) && b.addressLines == old(b.addressLines) + PartyAddressLines(d)
    {
      ok := SetPartyName(b, d);
      if !ok { return; }
      ok := SetPartyPlace(b, d);
      if !ok { return; }
      ok := SetPartyTax(b, d);
    }

    /** Name and address lines. */
    static method SetPartyName(b: VoucherBuilder, d: seq<Entry>) returns (ok: bool)
      modifies b
      ensures ok <==> OptionalStringOk(d, "ledger_name") && OptionalStringOk(d, "address_line_1") && OptionalStringOk(d, "address_line_2")
      ensures b.voucherType == old(b.voucherType)
      ensures b.inventoryEntries == old(b.inventoryEntries) && b.ledgerEntries == old(b.ledgerEntries)
      ensures ok ==> b.addressLines == old(b.addressLines) + PartyAddressLines(d)
      ensures ok ==> b.voucher == if Given(d, "ledger_name") then WithPartyName(old(b.voucher), Clean(FieldText(d, "ledger_name"))) else old(b.voucher)
    {
      hide WithPartyName, Clean;
      if Given(d, "ledger_name") {
        var name := StringArg(At(d, "ledger_name"));
        if name.Failure? { return false; }
        b.PartyName(name.value);
      }
      if Given(d, "address_line_1") {
        var line := StringArg(At(d, "address_line_1"));
        if line.Failure? { return false; }
        b.PartyAddress(line.value);
      }
      if Given(d, "address_line_2") {
        var line := StringArg(At(d, "address_line_2"));
        if line.Failure? { return false; }
        b.PartyAddress(line.value);
      }
      return true;
    }

    /** State, country and pincode. */
    static method SetPartyPlace(b: VoucherBuilder, d: seq<Entry>) returns (ok: bool)
      modifies b
      ensures ok <==> OptionalStringOk(d, "state") && OptionalStringOk(d, "country") && OptionalStringOk(d, "pincode")
      ensures b.voucherType == old(b.voucherType) && b.addressLines == old(b.addressLines)
      ensures b.inventoryEntries == old(b.inventoryEntries) && b.ledgerEntries == old(b.ledgerEntries)
      ensures ok ==> b.voucher == SetIf(SetIf(SetIf(SetIf(SetIf(old(b.voucher),
                        Given(d, "state"), "STATENAME", Cleaned(d, "state")), Given(d, "state"), "CONSIGNEESTATENAME", Cleaned(d, "state")),
                        Given(d, "country"), "COUNTRYNAME", Cleaned(d, "country")), Given(d, "country"), "COUNTRYOFRESIDENCE", Cleaned(d, "country")),
                        Given(d, "pincode"), "PINCODE", Cleaned(d, "pincode"))
    {
      hide With, Put, Clean;
      if Given(d, "state") {
        var state := StringArg(At(d, "state"));
        if state.Failure? { return false; }
        b.PartyState(state.value);
      }
      if Given(d, "country") {
        var country := StringArg(At(d, "country"));
        if country.Failure? { return false; }
        b.PartyCountry(country.value);
      }
      if Given(d, "pincode") {
        var pincode := StringArg(At(d, "pincode"));
        if pincode.Failure? { return false; }
        b.PartyPincode(pincode.value);
      }
      return true;
    }

    /** Registration type, GSTIN, place of supply and narration. */
    static method SetPartyTax(b: VoucherBuilder, d: seq<Entry>) returns (ok: bool)
      modifies b
      ensures ok <==> && OptionalStringOk(d, "gst_registration_type") && OptionalStringOk(d, "gst_in")
                      && OptionalStringOk(d, "place_of_supply") && OptionalStringOk(d, "narration")
      ensures b.voucherType == old(b.voucherType) && b.addressLines == old(b.addressLines)
      ensures b.inventoryEntries == old(b.inventoryEntries) && b.ledgerEntries == old(b.ledgerEntries)
      ensures ok ==> b.voucher == SetIf(SetIf(SetIf(SetIf(old(b.voucher),
                        Given(d, "gst_registration_type"), "GSTREGISTRATIONTYPE", Cleaned(d, "gst_registration_type")),
                        Given(d, "gst_in"), "PARTYGSTIN", Cleaned(d, "gst_in")),
                        Given(d, "place_of_supply"), "PLACEOFSUPPLY", Cleaned(d, "place_of_supply")),
                        Given(d, "narration"), "NARRATION", Cleaned(d, "narration"))
    {
      hide With, Put, Clean;
      if Given(d, "gst_registration_type") {
        var gstType := StringArg(At(d, "gst_registration_type"));
        if gstType.Failure? { return false; }
        b.PartyGstRegistrationType(gstType.value);
      }
      if Given(d, "gst_in") {
        var gstin := StringArg(At(d, "gst_in"));
        if gstin.Failure? { return false; }
        b.PartyGstin(gstin.value);
      }
      if Given(d, "place_of_supply") {
        var place := StringArg(At(d, "place_of_supply"));
        if place.Failure? { return false; }
        b.PlaceOfSupply(place.value);
      }
      if Given(d, "narration") {
        var narration := StringArg(At(d, "narration"));
        if narration.Failure? { return false; }
        b.Narration(narration.value);
      }
      return true;
    }

    /** Items, taxes, charges, round-off and, last, the party line put in front. */
    static method AddLines(b: VoucherBuilder, d: seq<Entry>) returns (ok: bool)
      modifies b
      ensures ok <==> && ItemsOk(ListOf(At(d, "voucher_items")))
                      && PostingsOk(ListOf(At(d, "tax_details")), "GST")
                      && PostingsOk(ListOf(At(d, "additional_charges")), "")
                      && (IsSet(At(d, "round_off")) ==> PostingArgsOk(At(d, "round_off"), "Round Off"))
                      && (HasPartyAmount(d) ==> StringOk(At(d, "ledger_name")) && FloatOk(At(d, "total")))
      ensures b.voucherType == old(b.voucherType) && b.voucher == old(b.voucher) && b.addressLines == old(b.addressLines)
      ensures ok ==> b.inventoryEntries == old(b.inventoryEntries) + InventoryLines(b.voucherType, ListOf(At(d, "voucher_items")))
      ensures ok ==> b.ledgerEntries == PartyLines(b.voucherType, d) + (old(b.ledgerEntries) + PostingLines(b.voucherType, d)) + RoundOffLines(d)
    {
      hide InventoryLines, PostingLines, RoundOffLines, PartyLines, PostingArgsOk, PostingsOk, ItemsOk, ListOf, At, HasPartyAmount, StringOk, FloatOk;
      ok := AddItems(b, At(d, "voucher_items"));
      if !ok { return; }
      ok := AddPostings(b, d);
      if !ok { return; }
      ok := AddClosingLines(b, d);
    }

    /** The tax lines, then the additional charges, each at the end of the ledger entries. */
    static method AddPostings(b: VoucherBuilder, d: seq<Entry>) returns (ok: bool)
      modifies b
      ensures ok <==> PostingsOk(ListOf(At(d, "tax_details")), "GST") && PostingsOk(ListOf(At(d, "additional_charges")), "")
      ensures b.voucherType == old(b.voucherType) && b.voucher == old(b.voucher) && b.addressLines == old(b.addressLines)
      ensures b.inventoryEntries == old(b.inventoryEntries)
      ensures ok ==> b.ledgerEntries == old(b.ledgerEntries) + PostingLines(b.voucherType, d)
    {
      hide TaxLines, ChargeLines, PostingsOk, ListOf, At;
      ok := AddTaxes(b, At(d, "tax_details"));
      if !ok { return; }
      ok := AddCharges(b, At(d, "additional_charges"));
      if !ok { return; }
      AppendAssociative(old(b.ledgerEntries), TaxLines(b.voucherType, ListOf(At(d, "tax_details"))), ChargeLines(b.voucherType, ListOf(At(d, "additional_charges"))));
    }

    /** Round-off, then the party amount in front of everything. */
    static method AddClosingLines(b: VoucherBuilder, d: seq<Entry>) returns (ok: bool)
      modifies b
      ensures ok <==> && (IsSet(At(d, "round_off")) ==> PostingArgsOk(At(d, "round_off"), "Round Off"))
                      && (HasPartyAmount(d) ==> StringOk(At(d, "ledger_name")) && FloatOk(At(d, "total")))
      ensures b.voucherType == old(b.voucherType) && b.voucher == old(b.voucher) && b.addressLines == old(b.addressLines)
      ensures b.inventoryEntries == old(b.inventoryEntries)
      ensures ok ==> b.ledgerEntries == PartyLines(b.voucherType, d) + old(b.ledgerEntries) + RoundOffLines(d)
    {
      hide RoundOffEntry, PartyEntry, Clean;
      var roundOff := At(d, "round_off");
      if IsSet(roundOff) {
        var name := StringArg(Or(roundOff, "name", Str("Round Off")));
        var amount := FloatArg(Or(roundOff, "amount", Num(Int(0))));
        if name.Failure? || amount.Failure? { return false; }
        b.RoundOff(name.value, amount.value);
      }
      if HasPartyAmount(d) {
        var name := StringArg(At(d, "ledger_name"));
        var total := FloatArg(At(d, "total"));
        if name.Failure? || total.Failure? { return false; }
        b.PartyAmount(name.value, total.value);
      }
      return true;
    }

    static method AddItems(b: VoucherBuilder, items: Value) returns (ok: bool)
      modifies b
      ensures ok <==> ItemsOk(ListOf(items))
      ensures b.voucherType == old(b.voucherType) && b.voucher == old(b.voucher) && b.addressLines == old(b.addressLines)
      ensures b.ledgerEntries == old(b.ledgerEntries)
      ensures ok ==> b.inventoryEntries == old(b.inventoryEntries) + InventoryLines(b.voucherType, ListOf(items))
    {
      hide ItemArgsOk, InventoryLine;
      var list := ListOf(items);
      for i := 0 to |list|
        invariant forall j :: 0 <= j < i ==> ItemArgsOk(list[j].val)
        invariant b.voucherType == old(b.voucherType) && b.voucher == old(b.voucher) && b.addressLines == old(b.addressLines)
        invariant b.ledgerEntries == old(b.ledgerEntries)
        invariant b.inventoryEntries == old(b.inventoryEntries) + InventoryLines(b.voucherType, list[..i])
      {
        ok := AddItem(b, list[i].val);
        if !ok {
          return false;
        }
        assert InventoryLines(b.voucherType, list[..i + 1]) == InventoryLines(b.voucherType, list[..i]) + [InventoryLine(b.voucherType, list[i].val)];
      }
      assert list[..|list|] == list;
      return true;
    }

    /** One element of `voucher_items`: its arguments, then `addVoucherItem`. */
    static method AddItem(b: VoucherBuilder, item: Value) returns (ok: bool)
      modifies b
      ensures ok <==> ItemArgsOk(item)
      ensures b.voucherType == old(b.voucherType) && b.voucher == old(b.voucher) && b.addressLines == old(b.addressLines)
      ensures b.ledgerEntries == old(b.ledgerEntries)
      ensures ok ==> b.inventoryEntries == old(b.inventoryEntries) + [InventoryLine(b.voucherType, item)]
    {
      hide ItemEntry;
      var ledgerName := StringArg(Or(item, "ledger_name", Str("Sales Account")));
      var stockItemName := StringArg(Or(item, "stock_item_name", Str("")));
      var unit := StringArg(Or(item, "unit", Str("Nos")));
      var rate := FloatArg(Or(item, "price", Num(Int(0))));
      var qty := FloatArg(Or(item, "qty", Num(Int(1))));
      var discount := NullableFloatArg(Lookup(item, "discount"));
      if ledgerName.Failure? || stockItemName.Failure? || unit.Failure? || rate.Failure? || qty.Failure? || discount.Failure? {
        return false;
      }
      b.AddVoucherItem(ledgerName.value, stockItemName.value, unit.value, rate.value, qty.value, discount.value);
      return true;
    }

    static method AddTaxes(b: VoucherBuilder, taxes: Value) returns (ok: bool)
      modifies b
      ensures ok <==> PostingsOk(ListOf(taxes), "GST")
      ensures b.voucherType == old(b.voucherType) && b.voucher == old(b.voucher) && b.addressLines == old(b.addressLines)
      ensures b.inventoryEntries == old(b.inventoryEntries)
      ensures ok ==> b.ledgerEntries == old(b.ledgerEntries) + TaxLines(b.voucherType, ListOf(taxes))
    {
      hide TaxEntry, TaxLines;
      var list := ListOf(taxes);
      for i := 0 to |list|
        invariant forall j :: 0 <= j < i ==> PostingArgsOk(list[j].val, "GST")
        invariant b.voucherType == old(b.voucherType) && b.voucher == old(b.voucher) && b.addressLines == old(b.addressLines)
        invariant b.inventoryEntries == old(b.inventoryEntries)
        invariant b.ledgerEntries == old(b.ledgerEntries) + TaxLines(b.voucherType, list[..i])
      {
        var name := StringArg(Or(list[i].val, "name", Str("GST")));
        var amount := FloatArg(Or(list[i].val, "amount", Num(Int(0))));
        if name.Failure? || amount.Failure? {
          return false;
        }
        b.AddTax(name.value, amount.value);
        TaxLinesStep(b.voucherType, list, i);
      }
      assert list[..|list|] == list;
      return true;
    }

    static method AddCharges(b: VoucherBuilder, charges: Value) returns (ok: bool)
      modifies b
      ensures ok <==> PostingsOk(ListOf(charges), "")
      ensures b.voucherType == old(b.voucherType) && b.voucher == old(b.voucher) && b.addressLines == old(b.addressLines)
      ensures b.inventoryEntries == old(b.inventoryEntries)
      ensures ok ==> b.ledgerEntries == old(b.ledgerEntries) + ChargeLines(b.voucherType, ListOf(charges))
    {
      hide ChargeEntry, ChargeLines;
      var list := ListOf(charges);
      for i := 0 to |list|
        invariant forall j :: 0 <= j < i ==> PostingArgsOk(list[j].val, "")
        invariant b.voucherType == old(b.voucherType) && b.voucher == old(b.voucher) && b.addressLines == old(b.addressLines)
        invariant b.inventoryEntries == old(b.inventoryEntries)
        invariant b.ledgerEntries == old(b.ledgerEntries) + ChargeLines(b.voucherType, list[..i])
      {
        var name := StringArg(Or(list[i].val, "name", Str("")));
        var amount := FloatArg(Or(list[i].val, "amount", Num(Int(0))));
        if name.Failure? || amount.Failure? {
          return false;
        }
        b.AddAdditionalCharge(name.value, amount.value);
        ChargeLinesStep(b.voucherType, list, i);
      }
      assert list[..|list|] == list;
      return true;
    }

    /** `createVoucherBuilder`: a factory for the seven case labels, the constructor with the raw type otherwise. */
    static method CreateVoucherBuilder(voucherType: string, voucherNumber: string, date: string, clock: Clock) returns (b: VoucherBuilder)
      ensures fresh(b) && b.voucherType == BuilderType(voucherType)
      ensures b.voucher == VoucherRecord(BuilderType(voucherType), voucherNumber, clock.formatDate(date))
      ensures b.ledgerEntries == [] && b.inventoryEntries == [] && b.addressLines == []
    {
      hide VoucherRecord;
      var typeLower := Lower(voucherType);
      if typeLower == "sale" || typeLower == "sales" {
        b := VoucherBuilder.Sales(voucherNumber, date, clock);
      } else if typeLower == "purchase" {
        b := VoucherBuilder.Purchase(voucherNumber, date, clock);
      } else if typeLower == "sale return" {
        b := VoucherBuilder.SaleReturn(voucherNumber, date, clock);
      } else if typeLower == "purchase return" {
        b := VoucherBuilder.PurchaseReturn(voucherNumber, date, clock);
      } else if typeLower == "payment" {
        b := VoucherBuilder.Payment(voucherNumber, date, clock);
      } else if typeLower == "receipt" {
        b := VoucherBuilder.Receipt(voucherNumber, date, clock);
      } else {
        b := new VoucherBuilder(voucherType, voucherNumber, date, clock);
      }
    }

    /**
     * `convertToXml`: the company name, then DATA, in an Import envelope; it
     * fails when an element name is not a valid XML name.
     */
    method ConvertToXml(allData: seq<seq<Entry>>) returns (xml: Result<Element, DomError>)
      modifies converter
      ensures xml.Success? <==> WellNamed(Document(VoucherEnvelope(companyName, allData), "Import"))
      ensures xml.Success? ==> xml.value == Document(VoucherEnvelope(companyName, allData), "Import")
    {
      xml := converter.Convert(VoucherEnvelope(companyName, allData), "Import");
    }
  }
}
