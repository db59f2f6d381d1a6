/** `LedgerBuilder`: a ledger master (party, sales, purchase or tax account). */
module LedgerBuilding {
  import opened PhpNumbers
  import opened PhpArrays
  import opened Helpers
  import opened TallyRecords

  /** Parent groups whose ledgers keep bill-wise details. */
  predicate IsBillwiseGroup(parent: string)
  {
    parent == "Sundry Debtors" || parent == "Sundry Creditors"
  }

  /** The fields every new ledger has; `name` and `parent` are already cleaned. */
  function BaseLedgerRecord(name: string, parent: string): seq<Entry>
  {
    [Text("ACTION", "Alter"),
     Field("NAME.LIST", Arr([Text("NAME", name)])),
     Text("PARENT", parent)]
  }

  /** The LEDGER record a new builder holds; the group test uses the raw parent. */
  function LedgerRecord(name: string, parent: string): seq<Entry>
  {
    var base := BaseLedgerRecord(Clean(name), Clean(parent));
    if IsBillwiseGroup(parent) then With(base, "BILLWISEDETAILS", Str("Yes")) else base
  }

  lemma BaseLedgerFields(name: string, parent: string)
    ensures var r := BaseLedgerRecord(name, parent);
            && Get(r, Name("ACTION")) == Str("Alter")
            && Lookup(Get(r, Name("NAME.LIST")), "NAME") == Str(name)
            && Get(r, Name("PARENT")) == Str(parent)
            && !HasKey(r, Name("BILLWISEDETAILS")) && !HasKey(r, Name("ADDRESS.LIST"))
  {
    var r := BaseLedgerRecord(name, parent);
    GetAt(r, 1, Name("NAME.LIST"));
    GetAt(r, 2, Name("PARENT"));
    GetAt(r[1].val.entries, 0, Name("NAME"));
    Absent(r, Name("BILLWISEDETAILS"));
    Absent(r, Name("ADDRESS.LIST"));
  }

  /**
   * A new ledger: the cleaned name inside NAME.LIST, the cleaned parent, and
   * BILLWISEDETAILS 'Yes' exactly for the two party groups; no address yet.
   */
  lemma NewLedger(name: string, parent: string)
    ensures var r := LedgerRecord(name, parent);
            && Get(r, Name("ACTION")) == Str("Alter")
            && Lookup(Get(r, Name("NAME.LIST")), "NAME") == Str(Clean(name))
            && Get(r, Name("PARENT")) == Str(Clean(parent))
            && (HasKey(r, Name("BILLWISEDETAILS")) <==> IsBillwiseGroup(parent))
            && (IsBillwiseGroup(parent) ==> Get(r, Name("BILLWISEDETAILS")) == Str("Yes"))
            && !HasKey(r, Name("ADDRESS.LIST"))
  {
    var base := BaseLedgerRecord(Clean(name), Clean(parent));
    BaseLedgerFields(Clean(name), Clean(parent));
    PutHasKey(base, Name("BILLWISEDETAILS"), Str("Yes"), Name("ADDRESS.LIST"));
    PutHasKey(base, Name("BILLWISEDETAILS"), Str("Yes"), Name("BILLWISEDETAILS"));
  }

  /** A new ledger has no field besides ACTION, NAME.LIST, PARENT and BILLWISEDETAILS. */
  lemma NewLedgerOtherFieldsAbsent(name: string, parent: string, k: Key)
    requires k !in {Name("ACTION"), Name("NAME.LIST"), Name("PARENT"), Name("BILLWISEDETAILS")}
    ensures !HasKey(LedgerRecord(name, parent), k) && Get(LedgerRecord(name, parent), k) == Null
  {
    hide Clean, IsBillwiseGroup;
    var base := BaseLedgerRecord(Clean(name), Clean(parent));
    Absent(base, k);
    PutHasKey(base, Name("BILLWISEDETAILS"), Str("Yes"), k);
  }

  /** LEDGSTREGDETAILS.LIST: the registration type, the state as place of supply, and the GSTIN. */
  function RegistrationDetails(state: string, gstType: string, gstin: string, applicableFrom: string): seq<Entry>
  {
    [Text("APPLICABLEFROM", applicableFrom),
     Text("GSTREGISTRATIONTYPE", Clean(gstType)),
     Text("PLACEOFSUPPLY", Clean(state)),
     Text("GSTIN", Clean(gstin))]
  }

  /** LEDMAILINGDETAILS.LIST: pincode, mailing name, state and country. */
  function MailingDetailsRecord(name: string, state: string, country: string, pincode: string, applicableFrom: string): seq<Entry>
  {
    [Text("APPLICABLEFROM", applicableFrom),
     Text("PINCODE", Clean(pincode)),
     Text("MAILINGNAME", Clean(name)),
     Text("STATE", Clean(state)),
     Text("COUNTRY", Clean(country))]
  }

  /** The record after `build`: ADDRESS.LIST (re)written only when there are lines. */
  function WithAddresses(ledger: seq<Entry>, lines: seq<string>): seq<Entry>
  {
    if lines == [] then ledger else With(ledger, "ADDRESS.LIST", Arr(AddressList(lines)))
  }

  /**
   * ADDRESS.LIST is added, as the last field, exactly when some address was
   * given, with one entry per line in order.
   */
  lemma AddressListOnlyWhenGiven(ledger: seq<Entry>, lines: seq<string>)
    requires !HasKey(ledger, Name("ADDRESS.LIST"))
    ensures var r := WithAddresses(ledger, lines);
            && (HasKey(r, Name("ADDRESS.LIST")) <==> lines != [])
            && (lines != [] ==> (Get(r, Name("ADDRESS.LIST")) == Arr(AddressList(lines))
                                 && Keys(r) == Keys(ledger) + [Name("ADDRESS.LIST")]))
  {
    if lines != [] {
      PutKeys(ledger, Name("ADDRESS.LIST"), Arr(AddressList(lines)));
    }
  }

  /** Building twice gives the same record as building once. */
  lemma BuildIsIdempotent(ledger: seq<Entry>, lines: seq<string>)
    ensures WithAddresses(WithAddresses(ledger, lines), lines) == WithAddresses(ledger, lines)
  {
    if lines != [] {
      PutPut(ledger, Name("ADDRESS.LIST"), Arr(AddressList(lines)), Arr(AddressList(lines)));
    }
  }

  /** Of the four factories, only `customer` and `supplier` get bill-wise details. */
  lemma FactoryGroups(name: string)
    ensures HasKey(LedgerRecord(name, "Sundry Debtors"), Name("BILLWISEDETAILS"))
    ensures HasKey(LedgerRecord(name, "Sundry Creditors"), Name("BILLWISEDETAILS"))
    ensures !HasKey(LedgerRecord(name, "Sales Account"), Name("BILLWISEDETAILS"))
    ensures !HasKey(LedgerRecord(name, "Purchase Account"), Name("BILLWISEDETAILS"))
  {
    NewLedger(name, "Sundry Debtors");
    NewLedger(name, "Sundry Creditors");
    NewLedger(name, "Sales Account");
    NewLedger(name, "Purchase Account");
  }

  class LedgerBuilder {
    /** The LEDGER record; the builder's array is `Message("LEDGER", ledger)`. */
    var ledger: seq<Entry>
    /** Cleaned address lines, in the order they were added. */
    var addressLines: seq<string>

    constructor (name: string, parent: string)
      ensures ledger == LedgerRecord(name, parent) && addressLines == []
    {
      ledger := LedgerRecord(name, parent);
      addressLines := [];
    }

    method Address(address: string)
      modifies this
      ensures addressLines == old(addressLines) + [Clean(address)] && ledger == old(ledger)
    {
      addressLines := addressLines + [Clean(address)];
    }

    /** `state`: PRIORSTATENAME and LEDSTATENAME get the same cleaned value. */
    method State(state: string)
      modifies this
      ensures ledger == With(With(old(ledger), "PRIORSTATENAME", Str(Clean(state))), "LEDSTATENAME", Str(Clean(state)))
      ensures Get(ledger, Name("PRIORSTATENAME")) == Get(ledger, Name("LEDSTATENAME")) == Str(Clean(state))
      ensures addressLines == old(addressLines)
    {
      var s := Clean(state);
      ledger := With(ledger, "PRIORSTATENAME", Str(s));
      ledger := With(ledger, "LEDSTATENAME", Str(s));
    }

    /** `country`: COUNTRYNAME and COUNTRYOFRESIDENCE get the same cleaned value. */
    method Country(country: string)
      modifies this
      ensures ledger == With(With(old(ledger), "COUNTRYNAME", Str(Clean(country))), "COUNTRYOFRESIDENCE", Str(Clean(country)))
      ensures Get(ledger, Name("COUNTRYNAME")) == Get(ledger, Name("COUNTRYOFRESIDENCE")) == Str(Clean(country))
      ensures addressLines == old(addressLines)
    {
      var c := Clean(country);
      ledger := With(ledger, "COUNTRYNAME", Str(c));
      ledger := With(ledger, "COUNTRYOFRESIDENCE", Str(c));
    }

    method Pincode(pincode: string)
      modifies this
      ensures ledger == With(old(ledger), "PINCODE", Str(Clean(pincode))) && addressLines == old(addressLines)
    {
      ledger := With(ledger, "PINCODE", Str(Clean(pincode)));
    }

    method GstRegistrationType(gstType: string)
      modifies this
      ensures ledger == With(old(ledger), "GSTREGISTRATIONTYPE", Str(Clean(gstType))) && addressLines == old(addressLines)
    {
      ledger := With(ledger, "GSTREGISTRATIONTYPE", Str(Clean(gstType)));
    }

    method Gstin(gstin: string)
      modifies this
      ensures ledger == With(old(ledger), "PARTYGSTIN", Str(Clean(gstin))) && addressLines == old(addressLines)
    {
      ledger := With(ledger, "PARTYGSTIN", Str(Clean(gstin)));
    }

    /** `gstDutyHead`: a tax ledger of type GST with the given duty head. */
    method GstDutyHead(dutyHead: string)
      modifies this
      ensures ledger == With(With(old(ledger), "TAXTYPE", Str("GST")), "GSTDUTYHEAD", Str(Clean(dutyHead)))
      ensures Get(ledger, Name("TAXTYPE")) == Str("GST") && Get(ledger, Name("GSTDUTYHEAD")) == Str(Clean(dutyHead))
      ensures addressLines == old(addressLines)
    {
      ledger := With(ledger, "TAXTYPE", Str("GST"));
      ledger := With(ledger, "GSTDUTYHEAD", Str(Clean(dutyHead)));
    }

    method TaxRate(rate: Decimal)
      modifies this
      ensures ledger == With(old(ledger), "RATEOFTAXCALCULATION", Num(rate)) && addressLines == old(addressLines)
    {
      ledger := With(ledger, "RATEOFTAXCALCULATION", Num(rate));
    }

    /** `gstPercentage`: the same as `taxRate`. */
    method GstPercentage(percentage: Decimal)
      modifies this
      ensures ledger == With(old(ledger), "RATEOFTAXCALCULATION", Num(percentage)) && addressLines == old(addressLines)
    {
      TaxRate(percentage);
    }

    method GstRegistrationDetails(state: string, gstType: string, gstin: string, clock: Clock)
      modifies this
      ensures ledger == With(old(ledger), "LEDGSTREGDETAILS.LIST", Arr(RegistrationDetails(state, gstType, gstin, clock.applicableFrom)))
      ensures addressLines == old(addressLines)
    {
      ledger := With(ledger, "LEDGSTREGDETAILS.LIST", Arr([
        Text("APPLICABLEFROM", clock.applicableFrom),
        Text("GSTREGISTRATIONTYPE", Clean(gstType)),
        Text("PLACEOFSUPPLY", Clean(state)),
        Text("GSTIN", Clean(gstin))]));
    }

    method MailingDetails(name: string, state: string, country: string, pincode: string, clock: Clock)
      modifies this
      ensures ledger == With(old(ledger), "LEDMAILINGDETAILS.LIST", Arr(MailingDetailsRecord(name, state, country, pincode, clock.applicableFrom)))
      ensures addressLines == old(addressLines)
    {
      ledger := With(ledger, "LEDMAILINGDETAILS.LIST", Arr([
        Text("APPLICABLEFROM", clock.applicableFrom),
        Text("PINCODE", Clean(pincode)),
        Text("MAILINGNAME", Clean(name)),
        Text("STATE", Clean(state)),
        Text("COUNTRY", Clean(country))]));
    }

    /**
     * `build`: when there are address lines, ADDRESS.LIST is reset and
     * refilled with one record per line; the result is the builder's array.
     */
    method Build() returns (r: seq<Entry>)
      modifies this
      ensures ledger == WithAddresses(old(ledger), addressLines) && addressLines == old(addressLines)
      ensures r == Message("LEDGER", ledger)
    {
      if addressLines != [] {
        ledger := With(ledger, "ADDRESS.LIST", Arr([]));
        var list: seq<Entry> := [];
        for i := 0 to |addressLines|
          invariant addressLines == old(addressLines)
          invariant list == AddressList(addressLines[..i])
          invariant ledger == With(old(ledger), "ADDRESS.LIST", Arr(list))
        {
          AddressListSnoc(addressLines[..i], addressLines[i]);
          assert addressLines[..i + 1] == addressLines[..i] + [addressLines[i]];
          PutPut(old(ledger), Name("ADDRESS.LIST"), Arr(list), Arr(list + [Entry(Index(i), Arr([Text("ADDRESS", addressLines[i])]))]));
          list := list + [Entry(Index(i), Arr([Text("ADDRESS", addressLines[i])]))];
          ledger := With(ledger, "ADDRESS.LIST", Arr(list));
        }
        assert addressLines[..|addressLines|] == addressLines;
      }
      r := Message("LEDGER", ledger);
    }

    static method Create(name: string, parent: string) returns (b: LedgerBuilder)
      ensures fresh(b) && b.ledger == LedgerRecord(name, parent) && b.addressLines == []
    {
      b := new LedgerBuilder(name, parent);
    }

    static method Customer(name: string) returns (b: LedgerBuilder)
      ensures fresh(b) && b.ledger == LedgerRecord(name, "Sundry Debtors") && b.addressLines == []
    {
      b := new LedgerBuilder(name, "Sundry Debtors");
    }

    static method Supplier(name: string) returns (b: LedgerBuilder)
      ensures fresh(b) && b.ledger == LedgerRecord(name, "Sundry Creditors") && b.addressLines == []
    {
      b := new LedgerBuilder(name, "Sundry Creditors");
    }

    static method SalesAccount(name: string) returns (b: LedgerBuilder)
      ensures fresh(b) && b.ledger == LedgerRecord(name, "Sales Account") && b.addressLines == []
    {
      b := new LedgerBuilder(name, "Sales Account");
    }

    static method PurchaseAccount(name: string) returns (b: LedgerBuilder)
      ensures fresh(b) && b.ledger == LedgerRecord(name, "Purchase Account") && b.addressLines == []
    {
      b := new LedgerBuilder(name, "Purchase Account");
    }
  }
}
