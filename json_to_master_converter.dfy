/**
 * `JsonToMasterConverter`: turns a master document (company name and a list
 * of ledgers) into the Tally import envelope, one LEDGER message per ledger.
 */
module MasterConversion {
  import opened Wrappers
  import opened PhpStrings
  import opened PhpArrays
  import opened Helpers
  import opened TallyRecords
  import opened TallyXml
  import opened LedgerBuilding
  import opened ConversionInputs
  import JsonValidation

  /** Registration details need the state, the registration type and the GSTIN. */
  predicate WantsRegistrationDetails(data: seq<Entry>)
  {
    Given(data, "state") && Given(data, "gst_registration_type") && Given(data, "gst_in")
  }

  /** Mailing details need the state, the country, the name and the pincode. */
  predicate WantsMailingDetails(data: seq<Entry>)
  {
    Given(data, "state") && Given(data, "country") && Given(data, "name") && Given(data, "pincode")
  }

  function RegistrationFor(data: seq<Entry>, clock: Clock): Value
  {
    Arr(RegistrationDetails(FieldText(data, "state"), FieldText(data, "gst_registration_type"), FieldText(data, "gst_in"), clock.applicableFrom))
  }

  function MailingFor(data: seq<Entry>, clock: Clock): Value
  {
    Arr(MailingDetailsRecord(FieldText(data, "name"), FieldText(data, "state"), FieldText(data, "country"), FieldText(data, "pincode"), clock.applicableFrom))
  }

  /** The two detail lists `buildLedger` adds after the setters, each only when its fields are all given. */
  function LedgerDetails(l: seq<Entry>, data: seq<Entry>, clock: Clock): seq<Entry>
  {
    SetIf(SetIf(l, WantsRegistrationDetails(data), "LEDGSTREGDETAILS.LIST", RegistrationFor(data, clock)),
          WantsMailingDetails(data), "LEDMAILINGDETAILS.LIST", MailingFor(data, clock))
  }

  /** The LEDGER record of `buildLedger` before `build` adds the address. */
  function MasterLedgerRecord(data: seq<Entry>, clock: Clock): seq<Entry>
  {
    LedgerDetails(LedgerOptionalFields(NewLedgerFor(data), data), data, clock)
  }

  /** What `buildLedger` returns for one ledger of the input. */
  function MasterLedger(data: seq<Entry>, clock: Clock): (r: seq<Entry>)
    ensures Lookup(Lookup(Arr(r), "TALLYMESSAGE"), "LEDGER") == Arr(WithAddresses(MasterLedgerRecord(data, clock), LedgerAddressLines(data)))
  {
    Message("LEDGER", WithAddresses(MasterLedgerRecord(data, clock), LedgerAddressLines(data)))
  }

  /** The ledgers `convert` walks: `$json['ledger']` when it is an array. */
  function LedgerListOf(json: seq<Entry>): seq<Entry>
  {
    var ledgers := At(json, "ledger");
    if IsSet(ledgers) && ledgers.Arr? then ledgers.entries else []
  }

  predicate MasterArgsOk(json: seq<Entry>)
  {
    forall i :: 0 <= i < |LedgerListOf(json)| ==> LedgerDataOk(LedgerListOf(json)[i].val)
  }

  /** One built ledger per input ledger, in input order. */
  function Masters(ledgers: seq<Entry>, clock: Clock): (r: seq<seq<Entry>>)
    requires forall i :: 0 <= i < |ledgers| ==> ledgers[i].val.Arr?
    ensures |r| == |ledgers|
    ensures forall i :: 0 <= i < |ledgers| ==> r[i] == MasterLedger(ledgers[i].val.entries, clock)
  {
    seq(|ledgers|, i requires 0 <= i < |ledgers| => MasterLedger(ledgers[i].val.entries, clock))
  }

  /** The array `convertToXml` hands to the serializer. */
  function MasterEnvelope(company: Value, masters: seq<seq<Entry>>): seq<Entry>
  {
    [Field("_COMPANY_NAME", company), Field("MASTERS", Arr(RecordList(masters)))]
  }

  /** The message `convert` throws with when validation fails. */
  function ValidationMessage(json: seq<Entry>): string
  {
    ValidationFailedPrefix + Join(JsonValidation.MasterErrors(json), "\n")
  }

  /**
   * The envelope holds the company name, then MASTERS with one LEDGER message
   * per input ledger, in input order.
   */
  lemma MasterEnvelopeOrder(json: seq<Entry>, clock: Clock)
    requires MasterArgsOk(json)
    ensures var env := MasterEnvelope(CompanyOf(json), Masters(LedgerListOf(json), clock));
            var ledgers := LedgerListOf(json);
            && Keys(env) == [Name("_COMPANY_NAME"), Name("MASTERS")]
            && Get(env, Name("_COMPANY_NAME")) == CompanyOf(json)
            && Get(env, Name("MASTERS")).Arr?
            && |Get(env, Name("MASTERS")).entries| == |ledgers|
            && forall i :: 0 <= i < |ledgers| ==>
                 Get(env, Name("MASTERS")).entries[i] == Entry(Index(i), Arr(MasterLedger(ledgers[i].val.entries, clock)))
  {
    var env := MasterEnvelope(CompanyOf(json), Masters(LedgerListOf(json), clock));
    GetAt(env, 0, Name("_COMPANY_NAME"));
    GetAt(env, 1, Name("MASTERS"));
  }

  lemma LedgerDetailsFields(l: seq<Entry>, data: seq<Entry>, clock: Clock)
    requires !HasKey(l, Name("LEDGSTREGDETAILS.LIST")) && !HasKey(l, Name("LEDMAILINGDETAILS.LIST"))
    ensures var r := LedgerDetails(l, data, clock);
            && (HasKey(r, Name("LEDGSTREGDETAILS.LIST")) <==> WantsRegistrationDetails(data))
            && (WantsRegistrationDetails(data) ==> Get(r, Name("LEDGSTREGDETAILS.LIST")) == RegistrationFor(data, clock))
            && (HasKey(r, Name("LEDMAILINGDETAILS.LIST")) <==> WantsMailingDetails(data))
            && (WantsMailingDetails(data) ==> Get(r, Name("LEDMAILINGDETAILS.LIST")) == MailingFor(data, clock))
  {
    var a := SetIf(l, WantsRegistrationDetails(data), "LEDGSTREGDETAILS.LIST", RegistrationFor(data, clock));
    SetIfGet(l, WantsRegistrationDetails(data), "LEDGSTREGDETAILS.LIST", RegistrationFor(data, clock), Name("LEDGSTREGDETAILS.LIST"));
    SetIfGet(l, WantsRegistrationDetails(data), "LEDGSTREGDETAILS.LIST", RegistrationFor(data, clock), Name("LEDMAILINGDETAILS.LIST"));
    SetIfGet(a, WantsMailingDetails(data), "LEDMAILINGDETAILS.LIST", MailingFor(data, clock), Name("LEDGSTREGDETAILS.LIST"));
    SetIfGet(a, WantsMailingDetails(data), "LEDMAILINGDETAILS.LIST", MailingFor(data, clock), Name("LEDMAILINGDETAILS.LIST"));
  }

  /** The setters of `buildLedger` never write the two detail lists, and a new ledger has neither. */
  lemma OptionalFieldsLeaveDetails(data: seq<Entry>)
    ensures !HasKey(LedgerOptionalFields(NewLedgerFor(data), data), Name("LEDGSTREGDETAILS.LIST"))
    ensures !HasKey(LedgerOptionalFields(NewLedgerFor(data), data), Name("LEDMAILINGDETAILS.LIST"))
  {
    hide LedgerOptionalFields, LedgerRecord, FieldText, ParentOf, ToText;
    NewLedgerOtherFieldsAbsent(FieldText(data, "name"), ToText(ParentOf(data)), Name("LEDGSTREGDETAILS.LIST"));
    NewLedgerOtherFieldsAbsent(FieldText(data, "name"), ToText(ParentOf(data)), Name("LEDMAILINGDETAILS.LIST"));
    LedgerOptionalFieldsKeep(NewLedgerFor(data), data, Name("LEDGSTREGDETAILS.LIST"));
    LedgerOptionalFieldsKeep(NewLedgerFor(data), data, Name("LEDMAILINGDETAILS.LIST"));
  }

  /**
   * Registration details are present exactly when state, registration type
   * and GSTIN are all non-empty; mailing details exactly when state, country,
   * name and pincode are.
   */
  lemma DetailsWhenComplete(data: seq<Entry>, clock: Clock)
    ensures var r := MasterLedgerRecord(data, clock);
            && (HasKey(r, Name("LEDGSTREGDETAILS.LIST")) <==> WantsRegistrationDetails(data))
            && (WantsRegistrationDetails(data) ==> Get(r, Name("LEDGSTREGDETAILS.LIST")) == RegistrationFor(data, clock))
            && (HasKey(r, Name("LEDMAILINGDETAILS.LIST")) <==> WantsMailingDetails(data))
            && (WantsMailingDetails(data) ==> Get(r, Name("LEDMAILINGDETAILS.LIST")) == MailingFor(data, clock))
  {
    OptionalFieldsLeaveDetails(data);
    LedgerDetailsFields(LedgerOptionalFields(NewLedgerFor(data), data), data, clock);
  }

  /** Without a `parent` field the ledger goes under Sundry Debtors, with bill-wise details on. */
  lemma DefaultParent(data: seq<Entry>)
    requires !HasKey(data, Name("parent"))
    ensures Get(NewLedgerFor(data), Name("PARENT")) == Str(Clean("Sundry Debtors"))
    ensures Get(NewLedgerFor(data), Name("BILLWISEDETAILS")) == Str("Yes")
  {
    assert ToText(ParentOf(data)) == "Sundry Debtors";
    NewLedger(FieldText(data, "name"), "Sundry Debtors");
  }

  class JsonToMasterConverter {
    var converter: TallyXmlConverter
    /** The company name of the last conversion; unset before the first. */
    var companyName: Value

    constructor ()
      ensures fresh(converter) && converter.tallyVersion == "9.0" && converter.dom == []
      ensures companyName == Null
    {
      converter := new TallyXmlConverter("9.0");
      companyName := Null;
    }

    /**
     * `convert`: with validation on and failing, the validation messages are
     * thrown and nothing is converted; otherwise one LEDGER message per
     * ledger, unless some value has a type its builder parameter refuses.
     */
    method Convert(json: seq<Entry>, validate: bool, clock: Clock) returns (r: Result<Element, ConvertError>)
      modifies this, converter
      ensures converter == old(converter)
      ensures validate && !JsonValidation.MasterOk(json) ==>
                r == Failure(InvalidJson(ValidationMessage(json))) && companyName == old(companyName)
      ensures !(validate && !JsonValidation.MasterOk(json)) ==>
                && companyName == CompanyOf(json)
                && (!MasterArgsOk(json) ==> r == Failure(WrongType))
                && (MasterArgsOk(json) ==>
                      var doc := Document(MasterEnvelope(CompanyOf(json), Masters(LedgerListOf(json), clock)), "Import");
                      && (r.Success? <==> WellNamed(doc))
                      && (r.Success? ==> r.value == doc)
                      && (r.Failure? ==> r.error == InvalidName))
      ensures r.Failure? ==> r.error == WrongType || r.error == InvalidName || r.error == InvalidJson(ValidationMessage(json))
    {
      hide MasterLedger, Document, MasterEnvelope, LedgerListOf, LedgerDataOk, WellNamed, JsonValidation.MasterOk, JsonValidation.MasterErrors;
      if validate {
        var validator := new JsonValidation.JsonValidator();
        var ok := validator.ValidateMasterJson(json);
        if !ok {
          var message := validator.GetErrorsAsString();
          return Failure(InvalidJson(ValidationFailedPrefix + message));
        }
      }
      companyName := CompanyOf(json);
      var masters := BuildMasters(LedgerListOf(json), clock);
      if masters.Failure? {
        return Failure(WrongType);
      }
      assert masters.value == Masters(LedgerListOf(json), clock);
      var xml := ConvertToXml(masters.value);
      if xml.Failure? {
        return Failure(InvalidName);
      }
      return Success(xml.value);
    }

    /** `buildLedger`: the builder calls for one ledger, each optional one only when its field is non-empty. */
    static method BuildLedger(data: Value, clock: Clock) returns (r: Result<seq<Entry>, TypeError>)
      ensures r.Success? <==> LedgerDataOk(data)
      ensures r.Success? ==> data.Arr? && r.value == MasterLedger(data.entries, clock)
    {
      hide Clean, RegistrationDetails, MailingDetailsRecord, LedgerOptionalFields, WithAddresses, Message, LedgerRecord;
      if !data.Arr? {
        return Failure(TypeError);
      }
      var d := data.entries;
      var name := StringArg(At(d, "name"));
      var parent := StringArg(ParentOf(d));
      if name.Failure? || parent.Failure? {
        return Failure(TypeError);
      }
      var builder := LedgerBuilder.Create(name.value, parent.value);
      var ok := SetLedgerOptionalFields(builder, d);
      if !ok {
        return Failure(TypeError);
      }
      ghost var l := builder.ledger;
      if WantsRegistrationDetails(d) {
        builder.GstRegistrationDetails(FieldText(d, "state"), FieldText(d, "gst_registration_type"), FieldText(d, "gst_in"), clock);
      }
      assert builder.ledger == SetIf(l, WantsRegistrationDetails(d), "LEDGSTREGDETAILS.LIST", RegistrationFor(d, clock));
      if WantsMailingDetails(d) {
        builder.MailingDetails(FieldText(d, "name"), FieldText(d, "state"), FieldText(d, "country"), FieldText(d, "pincode"), clock);
      }
      assert builder.ledger == MasterLedgerRecord(d, clock);
      assert builder.addressLines == LedgerAddressLines(d);
      var built := builder.Build();
      return Success(built);
    }

    /**
     * The ledger loop of `convert`, over the ledgers when `ledger` is set and
     * an array: stops at the first ledger whose builder calls fail.
     */
    static method BuildMasters(ledgers: seq<Entry>, clock: Clock) returns (r: Result<seq<seq<Entry>>, TypeError>)
      ensures r.Success? <==> forall i :: 0 <= i < |ledgers| ==> LedgerDataOk(ledgers[i].val)
      ensures r.Success? ==> |r.value| == |ledgers| && forall i :: 0 <= i < |ledgers| ==> ledgers[i].val.Arr? && r.value[i] == MasterLedger(ledgers[i].val.entries, clock)
    {
      hide *;
      var masters: seq<seq<Entry>> := [];
      for i := 0 to |ledgers|
        invariant forall j :: 0 <= j < i ==> LedgerDataOk(ledgers[j].val) && ledgers[j].val.Arr?
        invariant |masters| == i
        invariant forall j :: 0 <= j < i ==> masters[j] == MasterLedger(ledgers[j].val.entries, clock)
      {
        var ledger := BuildLedger(ledgers[i].val, clock);
        if ledger.Failure? {
          return Failure(TypeError);
        }
        masters := masters + [ledger.value];
      }
      return Success(masters);
    }

    /**
     * `convertToXml`: the company name, then the masters, in an Import
     * envelope; it fails when an element name is not a valid XML name.
     */
    method ConvertToXml(masters: seq<seq<Entry>>) returns (xml: Result<Element, DomError>)
      modifies converter
      ensures xml.Success? <==> WellNamed(Document(MasterEnvelope(companyName, masters), "Import"))
      ensures xml.Success? ==> xml.value == Document(MasterEnvelope(companyName, masters), "Import")
    {
      var data := MasterEnvelope(companyName, masters);
      xml := converter.Convert(data, "Import");
    }
  }
}
