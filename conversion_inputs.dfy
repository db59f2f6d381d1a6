/**
 * What the two JSON converters share: how a field of the decoded JSON reaches
 * a builder's typed parameter, the `!empty(...)` test that guards every
 * optional builder call, and the ledger fields both converters set the same
 * way.
 */
module ConversionInputs {
  import opened Wrappers
  import opened PhpNumbers
  import opened PhpArrays
  import opened Helpers
  import opened TallyRecords
  import opened LedgerBuilding
  import JsonValidation

  /** Why `convert` produced no XML. */
  datatype ConvertError =
    /** `InvalidArgumentException`: validation was on and failed. */
    | InvalidJson(message: string)
    /** A PHP `TypeError`: some value reached a builder parameter of the wrong type. */
    | WrongType
    /** A `DOMException` from `createElement`: an element name is not a valid XML name. */
    | InvalidName

  const ValidationFailedPrefix: string := "JSON validation failed:\n"

  /** `$data[f] ?? null`. */
  function At(data: seq<Entry>, f: string): Value { JsonValidation.At(data, f) }

  /** `!empty($data[f])`: the guard of every optional builder call. */
  predicate Given(data: seq<Entry>, f: string)
  {
    !IsEmpty(At(data, f))
  }

  /** `$json['company_name'] ?? ''`. */
  function CompanyOf(json: seq<Entry>): (r: Value)
    ensures IsSet(r)
  {
    Coalesce(At(json, "company_name"), Str(""))
  }

  /** A `string` parameter accepts the value. */
  predicate StringOk(v: Value)
  {
    StringArg(v).Success?
  }

  /** A `float` parameter accepts the value. */
  predicate FloatOk(v: Value)
  {
    FloatArg(v).Success?
  }

  /** An optional string field: when it is given, it must be accepted. */
  predicate OptionalStringOk(data: seq<Entry>, f: string)
  {
    Given(data, f) ==> StringOk(At(data, f))
  }

  /** The string a `string` parameter receives (where `StringOk` holds). */
  function FieldText(data: seq<Entry>, f: string): string
  {
    ToText(At(data, f))
  }

  /** The cleaned field text, as a builder stores it. */
  function Cleaned(data: seq<Entry>, f: string): Value
  {
    Str(Clean(FieldText(data, f)))
  }

  /** The number a `float` parameter receives (where `FloatOk` holds). */
  function FloatValue(v: Value): Decimal
  {
    match FloatArg(v)
    case Success(d) => d
    case Failure(_) => Int(0)
  }

  lemma FloatValueIsArgument(v: Value)
    requires FloatOk(v)
    ensures FloatArg(v) == Success(FloatValue(v))
  {
  }

  /** `$data['parent'] ?? 'Sundry Debtors'`. */
  function ParentOf(data: seq<Entry>): (r: Value)
    ensures !HasKey(data, Name("parent")) ==> r == Str("Sundry Debtors")
  {
    Coalesce(At(data, "parent"), Str("Sundry Debtors"))
  }

  /** Every typed argument `buildLedger` passes is accepted (the two converters agree). */
  predicate LedgerArgsOk(data: seq<Entry>)
  {
    StringOk(At(data, "name")) && StringOk(ParentOf(data)) && LedgerOptionalArgsOk(data)
  }

  /** `buildLedger(array $data)` (either converter) accepts the element and every argument it passes on. */
  predicate LedgerDataOk(v: Value)
  {
    v.Arr? && LedgerArgsOk(v.entries)
  }

  /** Every optional field `buildLedger` passes on, when given, is accepted. */
  predicate LedgerOptionalArgsOk(data: seq<Entry>)
  {
    && OptionalStringOk(data, "address")
    && OptionalStringOk(data, "state")
    && OptionalStringOk(data, "country")
    && OptionalStringOk(data, "pincode")
    && OptionalStringOk(data, "gst_registration_type")
    && OptionalStringOk(data, "gst_in")
    && OptionalStringOk(data, "gst_duty_head")
    && (Given(data, "gst_percentage") ==> FloatOk(At(data, "gst_percentage")))
  }

  /** A new ledger for `data`: `LedgerBuilder::create($data['name'], parent)`. */
  function NewLedgerFor(data: seq<Entry>): seq<Entry>
  {
    LedgerRecord(FieldText(data, "name"), ToText(ParentOf(data)))
  }

  /** `$record[tag] = v` when `given`, else nothing. */
  function SetIf(record: seq<Entry>, given: bool, tag: string, v: Value): seq<Entry>
  {
    if given then With(record, tag, v) else record
  }

  /** `SetIf` writes its tag when given and touches no other field. */
  lemma SetIfGet(record: seq<Entry>, given: bool, tag: string, v: Value, k: Key)
    ensures Get(SetIf(record, given, tag, v), k) == if given && k == Name(tag) then v else Get(record, k)
    ensures HasKey(SetIf(record, given, tag, v), k) <==> (given && k == Name(tag)) || HasKey(record, k)
  {
  }

  /**
   * The optional ledger setters of `buildLedger`, in the order they are
   * called, each only when its field is non-empty. `state` and `country`
   * each write two tags with the same value; `gstDutyHead` also sets TAXTYPE.
   */
  function LedgerOptionalFields(l: seq<Entry>, data: seq<Entry>): seq<Entry>
  {
    var l1 := SetIf(SetIf(l, Given(data, "state"), "PRIORSTATENAME", Cleaned(data, "state")), Given(data, "state"), "LEDSTATENAME", Cleaned(data, "state"));
    var l2 := SetIf(SetIf(l1, Given(data, "country"), "COUNTRYNAME", Cleaned(data, "country")), Given(data, "country"), "COUNTRYOFRESIDENCE", Cleaned(data, "country"));
    var l3 := SetIf(l2, Given(data, "pincode"), "PINCODE", Cleaned(data, "pincode"));
    var l4 := SetIf(l3, Given(data, "gst_registration_type"), "GSTREGISTRATIONTYPE", Cleaned(data, "gst_registration_type"));
    var l5 := SetIf(l4, Given(data, "gst_in"), "PARTYGSTIN", Cleaned(data, "gst_in"));
    var l6 := SetIf(SetIf(l5, Given(data, "gst_duty_head"), "TAXTYPE", Str("GST")), Given(data, "gst_duty_head"), "GSTDUTYHEAD", Cleaned(data, "gst_duty_head"));
    SetIf(l6, Given(data, "gst_percentage"), "RATEOFTAXCALCULATION", Num(FloatValue(At(data, "gst_percentage"))))
  }

  /** The address lines `buildLedger` adds: at most the one `address` field. */
  function LedgerAddressLines(data: seq<Entry>): (r: seq<string>)
    ensures r != [] <==> Given(data, "address")
  {
    if Given(data, "address") then [Clean(FieldText(data, "address"))] else []
  }

  /** The tags the optional setters of `buildLedger` may write. */
  const LedgerOptionalTags: set<Key> := {
    Name("PRIORSTATENAME"), Name("LEDSTATENAME"), Name("COUNTRYNAME"), Name("COUNTRYOFRESIDENCE"),
    Name("PINCODE"), Name("GSTREGISTRATIONTYPE"), Name("PARTYGSTIN"), Name("TAXTYPE"), Name("GSTDUTYHEAD"),
    Name("RATEOFTAXCALCULATION")}

  /** A field the optional setters do not write keeps the value it had. */
  lemma LedgerOptionalFieldsKeep(l: seq<Entry>, data: seq<Entry>, k: Key)
    requires k !in LedgerOptionalTags
    ensures Get(LedgerOptionalFields(l, data), k) == Get(l, k)
    ensures HasKey(LedgerOptionalFields(l, data), k) <==> HasKey(l, k)
  {
    var a := SetIf(l, Given(data, "state"), "PRIORSTATENAME", Cleaned(data, "state"));
    SetIfGet(l, Given(data, "state"), "PRIORSTATENAME", Cleaned(data, "state"), k);
    var l1 := SetIf(a, Given(data, "state"), "LEDSTATENAME", Cleaned(data, "state"));
    SetIfGet(a, Given(data, "state"), "LEDSTATENAME", Cleaned(data, "state"), k);
    var b := SetIf(l1, Given(data, "country"), "COUNTRYNAME", Cleaned(data, "country"));
    SetIfGet(l1, Given(data, "country"), "COUNTRYNAME", Cleaned(data, "country"), k);
    var l2 := SetIf(b, Given(data, "country"), "COUNTRYOFRESIDENCE", Cleaned(data, "country"));
    SetIfGet(b, Given(data, "country"), "COUNTRYOFRESIDENCE", Cleaned(data, "country"), k);
    var l3 := SetIf(l2, Given(data, "pincode"), "PINCODE", Cleaned(data, "pincode"));
    SetIfGet(l2, Given(data, "pincode"), "PINCODE", Cleaned(data, "pincode"), k);
    var l4 := SetIf(l3, Given(data, "gst_registration_type"), "GSTREGISTRATIONTYPE", Cleaned(data, "gst_registration_type"));
    SetIfGet(l3, Given(data, "gst_registration_type"), "GSTREGISTRATIONTYPE", Cleaned(data, "gst_registration_type"), k);
    var l5 := SetIf(l4, Given(data, "gst_in"), "PARTYGSTIN", Cleaned(data, "gst_in"));
    SetIfGet(l4, Given(data, "gst_in"), "PARTYGSTIN", Cleaned(data, "gst_in"), k);
    var c := SetIf(l5, Given(data, "gst_duty_head"), "TAXTYPE", Str("GST"));
    SetIfGet(l5, Given(data, "gst_duty_head"), "TAXTYPE", Str("GST"), k);
    var l6 := SetIf(c, Given(data, "gst_duty_head"), "GSTDUTYHEAD", Cleaned(data, "gst_duty_head"));
    SetIfGet(c, Given(data, "gst_duty_head"), "GSTDUTYHEAD", Cleaned(data, "gst_duty_head"), k);
    SetIfGet(l6, Given(data, "gst_percentage"), "RATEOFTAXCALCULATION", Num(FloatValue(At(data, "gst_percentage"))), k);
  }

  /**
   * The optional setter calls of `buildLedger`, in source order, each only
   * when its field is non-empty; `ok` is false when a value reaches a setter
   * whose parameter refuses it.
   */
  method SetLedgerOptionalFields(b: LedgerBuilder, d: seq<Entry>) returns (ok: bool)
    modifies b
    ensures ok <==> LedgerOptionalArgsOk(d)
    ensures ok ==> b.ledger == LedgerOptionalFields(old(b.ledger), d)
    ensures ok ==> b.addressLines == old(b.addressLines) + LedgerAddressLines(d)
  {
    if Given(d, "address") {
      var address := StringArg(At(d, "address"));
      if address.Failure? { return false; }
      b.Address(address.value);
    }
    ok := SetLedgerLocation(b, d);
    if !ok { return; }
    ok := SetLedgerTax(b, d);
  }

  /** The state, country and pincode setters. */
  method SetLedgerLocation(b: LedgerBuilder, d: seq<Entry>) returns (ok: bool)
    modifies b
    ensures ok <==> OptionalStringOk(d, "state") && OptionalStringOk(d, "country") && OptionalStringOk(d, "pincode")
    ensures b.addressLines == old(b.addressLines)
    ensures ok ==> b.ledger == SetIf(SetIf(SetIf(SetIf(SetIf(old(b.ledger),
                      Given(d, "state"), "PRIORSTATENAME", Cleaned(d, "state")), Given(d, "state"), "LEDSTATENAME", Cleaned(d, "state")),
                      Given(d, "country"), "COUNTRYNAME", Cleaned(d, "country")), Given(d, "country"), "COUNTRYOFRESIDENCE", Cleaned(d, "country")),
                      Given(d, "pincode"), "PINCODE", Cleaned(d, "pincode"))
  {
    if Given(d, "state") {
      var state := StringArg(At(d, "state"));
      if state.Failure? { return false; }
      b.State(state.value);
    }
    if Given(d, "country") {
      var country := StringArg(At(d, "country"));
      if country.Failure? { return false; }
      b.Country(country.value);
    }
    if Given(d, "pincode") {
      var pincode := StringArg(At(d, "pincode"));
      if pincode.Failure? { return false; }
      b.Pincode(pincode.value);
    }
    return true;
  }

  /** The registration type, GSTIN, duty head and percentage setters. */
  method SetLedgerTax(b: LedgerBuilder, d: seq<Entry>) returns (ok: bool)
    modifies b
    ensures ok <==> && OptionalStringOk(d, "gst_registration_type") && OptionalStringOk(d, "gst_in")
                    && OptionalStringOk(d, "gst_duty_head") && (Given(d, "gst_percentage") ==> FloatOk(At(d, "gst_percentage")))
    ensures b.addressLines == old(b.addressLines)
    ensures ok ==> b.ledger == SetIf(SetIf(SetIf(SetIf(SetIf(old(b.ledger),
                      Given(d, "gst_registration_type"), "GSTREGISTRATIONTYPE", Cleaned(d, "gst_registration_type")),
                      Given(d, "gst_in"), "PARTYGSTIN", Cleaned(d, "gst_in")),
                      Given(d, "gst_duty_head"), "TAXTYPE", Str("GST")), Given(d, "gst_duty_head"), "GSTDUTYHEAD", Cleaned(d, "gst_duty_head")),
                      Given(d, "gst_percentage"), "RATEOFTAXCALCULATION", Num(FloatValue(At(d, "gst_percentage"))))
  {
    if Given(d, "gst_registration_type") {
      var gstType := StringArg(At(d, "gst_registration_type"));
      if gstType.Failure? { return false; }
      b.GstRegistrationType(gstType.value);
    }
    if Given(d, "gst_in") {
      var gstin := StringArg(At(d, "gst_in"));
      if gstin.Failure? { return false; }
      b.Gstin(gstin.value);
    }
    if Given(d, "gst_duty_head") {
      var dutyHead := StringArg(At(d, "gst_duty_head"));
      if dutyHead.Failure? { return false; }
      b.GstDutyHead(dutyHead.value);
    }
    if Given(d, "gst_percentage") {
      var percentage := FloatArg(At(d, "gst_percentage"));
      if percentage.Failure? { return false; }
      b.GstPercentage(percentage.value);
    }
    return true;
  }
}
