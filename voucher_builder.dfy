/**
 * `VoucherBuilder`: a voucher with its party, inventory lines, tax and
 * charge lines, whose debit/credit sides follow the voucher type.
 */
module VoucherBuilding {
  import opened Wrappers
  import opened PhpStrings
  import opened PhpNumbers
  import opened PhpArrays
  import opened Helpers
  import opened TallyRecords
  import VoucherType

  /** Lower-cased types shown as an item invoice. */
  const InvoiceTypes: seq<string> := ["sale", "purchase", "sale return", "purchase return"]
  /** Lower-cased types that get no VCHENTRYMODE. */
  const NoEntryModeTypes: seq<string> := ["receipt", "payment"]

  /** The VOUCHER record before the view is chosen; the type name is already cleaned and `date` is in Tally form. */
  function VoucherHeader(typeName: string, voucherNumber: string, date: string): seq<Entry>
  {
    [Text("ACTION", "Alter"),
     Text("TAGNAME", "Voucher Number"),
     Text("TAGVALUE", voucherNumber),
     Text("VOUCHERTYPENAME", typeName),
     Text("DATE", date),
     Text("EFFECTIVEDATE", date),
     Text("REFERENCEDATE", date),
     Text("VOUCHERNUMBER", voucherNumber),
     Text("REFERENCE", voucherNumber)]
  }

  /** `setVoucherView`: the view fields the voucher type calls for. */
  function WithView(voucher: seq<Entry>, voucherType: string): seq<Entry>
  {
    var t := Lower(voucherType);
    if t in InvoiceTypes then
      With(With(voucher, "PERSISTEDVIEW", Str("Invoice Voucher View")), "VCHENTRYMODE", Str("Item Invoice"))
    else
      var accounting := With(voucher, "PERSISTEDVIEW", Str("Accounting Voucher View"));
      if t !in NoEntryModeTypes then With(accounting, "VCHENTRYMODE", Str("As Voucher")) else accounting
  }

  /** The VOUCHER record a new builder holds. */
  function VoucherRecord(voucherType: string, voucherNumber: string, date: string): seq<Entry>
  {
    WithView(VoucherHeader(Clean(voucherType), voucherNumber, date), voucherType)
  }

  lemma VoucherHeaderFields(typeName: string, voucherNumber: string, date: string)
    ensures var r := VoucherHeader(typeName, voucherNumber, date);
            && Get(r, Name("ACTION")) == Str("Alter")
            && Get(r, Name("TAGNAME")) == Str("Voucher Number")
            && Get(r, Name("TAGVALUE")) == Str(voucherNumber)
            && Get(r, Name("VOUCHERTYPENAME")) == Str(typeName)
            && Get(r, Name("DATE")) == Str(date)
            && Get(r, Name("EFFECTIVEDATE")) == Str(date)
            && Get(r, Name("REFERENCEDATE")) == Str(date)
            && Get(r, Name("VOUCHERNUMBER")) == Str(voucherNumber)
            && Get(r, Name("REFERENCE")) == Str(voucherNumber)
  {
    HeaderTag(typeName, voucherNumber, date);
    HeaderDates(typeName, voucherNumber, date);
    HeaderNumbers(typeName, voucherNumber, date);
  }

  lemma HeaderTag(typeName: string, voucherNumber: string, date: string)
    ensures var r := VoucherHeader(typeName, voucherNumber, date);
            && Get(r, Name("ACTION")) == Str("Alter")
            && Get(r, Name("TAGNAME")) == Str("Voucher Number")
            && Get(r, Name("TAGVALUE")) == Str(voucherNumber)
            && Get(r, Name("VOUCHERTYPENAME")) == Str(typeName)
  {
    var r := VoucherHeader(typeName, voucherNumber, date);
    GetAt(r, 1, Name("TAGNAME"));
    GetAt(r, 2, Name("TAGVALUE"));
    GetAt(r, 3, Name("VOUCHERTYPENAME"));
  }

  lemma HeaderDates(typeName: string, voucherNumber: string, date: string)
    ensures var r := VoucherHeader(typeName, voucherNumber, date);
            && Get(r, Name("DATE")) == Str(date)
            && Get(r, Name("EFFECTIVEDATE")) == Str(date)
            && Get(r, Name("REFERENCEDATE")) == Str(date)
  {
    var r := VoucherHeader(typeName, voucherNumber, date);
    GetAt(r, 4, Name("DATE"));
    GetAt(r, 5, Name("EFFECTIVEDATE"));
    GetAt(r, 6, Name("REFERENCEDATE"));
  }

  lemma HeaderNumbers(typeName: string, voucherNumber: string, date: string)
    ensures var r := VoucherHeader(typeName, voucherNumber, date);
            Get(r, Name("VOUCHERNUMBER")) == Get(r, Name("REFERENCE")) == Str(voucherNumber)
  {
    var r := VoucherHeader(typeName, voucherNumber, date);
    GetAt(r, 7, Name("VOUCHERNUMBER"));
    GetAt(r, 8, Name("REFERENCE"));
  }

  lemma VoucherHeaderHasNoView(typeName: string, voucherNumber: string, date: string)
    ensures !HasKey(VoucherHeader(typeName, voucherNumber, date), Name("VCHENTRYMODE"))
  {
    Absent(VoucherHeader(typeName, voucherNumber, date), Name("VCHENTRYMODE"));
  }

  /**
   * The view: sale, purchase and their returns are item invoices; every
   * other type uses the accounting view, with VCHENTRYMODE 'As Voucher'
   * except receipts and payments, which get none. Case is ignored.
   */
  lemma ViewFollowsType(voucher: seq<Entry>, voucherType: string)
    requires !HasKey(voucher, Name("VCHENTRYMODE"))
    ensures var r := WithView(voucher, voucherType);
            var t := Lower(voucherType);
            && Get(r, Name("PERSISTEDVIEW")) == Str(if t in InvoiceTypes then "Invoice Voucher View" else "Accounting Voucher View")
            && (HasKey(r, Name("VCHENTRYMODE")) <==> t !in NoEntryModeTypes)
            && (t !in NoEntryModeTypes ==> Get(r, Name("VCHENTRYMODE")) == Str(if t in InvoiceTypes then "Item Invoice" else "As Voucher"))
            && forall k :: k != Name("PERSISTEDVIEW") && k != Name("VCHENTRYMODE") ==> Get(r, k) == Get(voucher, k)
  {
    hide Lower;
    var t := Lower(voucherType);
    if t in InvoiceTypes {
      var inv := With(voucher, "PERSISTEDVIEW", Str("Invoice Voucher View"));
      PutHasKey(inv, Name("VCHENTRYMODE"), Str("Item Invoice"), Name("VCHENTRYMODE"));
    } else {
      var acc := With(voucher, "PERSISTEDVIEW", Str("Accounting Voucher View"));
      PutHasKey(voucher, Name("PERSISTEDVIEW"), Str("Accounting Voucher View"), Name("VCHENTRYMODE"));
      PutHasKey(acc, Name("VCHENTRYMODE"), Str("As Voucher"), Name("VCHENTRYMODE"));
    }
  }

  /** A new voucher: the header fields and the view its type calls for. */
  lemma NewVoucher(voucherType: string, voucherNumber: string, date: string)
    ensures var r := VoucherRecord(voucherType, voucherNumber, date);
            var t := Lower(voucherType);
            && Get(r, Name("VOUCHERTYPENAME")) == Str(Clean(voucherType))
            && Get(r, Name("DATE")) == Get(r, Name("EFFECTIVEDATE")) == Get(r, Name("REFERENCEDATE")) == Str(date)
            && Get(r, Name("VOUCHERNUMBER")) == Get(r, Name("REFERENCE")) == Get(r, Name("TAGVALUE")) == Str(voucherNumber)
            && Get(r, Name("PERSISTEDVIEW")) == Str(if t in InvoiceTypes then "Invoice Voucher View" else "Accounting Voucher View")
            && (HasKey(r, Name("VCHENTRYMODE")) <==> t !in NoEntryModeTypes)
  {
    VoucherHeaderFields(Clean(voucherType), voucherNumber, date);
    VoucherHeaderHasNoView(Clean(voucherType), voucherNumber, date);
    ViewFollowsType(VoucherHeader(Clean(voucherType), voucherNumber, date), voucherType);
  }

  /** The four invoice factories get the item-invoice entry mode. */
  lemma InvoiceFactoryViews(voucherNumber: string, date: string)
    ensures Get(VoucherRecord(VoucherType.Sale, voucherNumber, date), Name("VCHENTRYMODE")) == Str("Item Invoice")
    ensures Get(VoucherRecord(VoucherType.Purchase, voucherNumber, date), Name("VCHENTRYMODE")) == Str("Item Invoice")
    ensures Get(VoucherRecord(VoucherType.SaleReturn, voucherNumber, date), Name("VCHENTRYMODE")) == Str("Item Invoice")
    ensures Get(VoucherRecord(VoucherType.PurchaseReturn, voucherNumber, date), Name("VCHENTRYMODE")) == Str("Item Invoice")
  {
    assert Lower(VoucherType.Sale) == InvoiceTypes[0];
    assert Lower(VoucherType.Purchase) == InvoiceTypes[1];
    assert Lower(VoucherType.SaleReturn) == InvoiceTypes[2];
    assert Lower(VoucherType.PurchaseReturn) == InvoiceTypes[3];
    ViewOfType(VoucherType.Sale, voucherNumber, date);
    ViewOfType(VoucherType.Purchase, voucherNumber, date);
    ViewOfType(VoucherType.SaleReturn, voucherNumber, date);
    ViewOfType(VoucherType.PurchaseReturn, voucherNumber, date);
  }

  /** Payment and receipt vouchers get no entry mode. */
  lemma PaymentAndReceiptViews(voucherNumber: string, date: string)
    ensures !HasKey(VoucherRecord(VoucherType.Payment, voucherNumber, date), Name("VCHENTRYMODE"))
    ensures !HasKey(VoucherRecord(VoucherType.Receipt, voucherNumber, date), Name("VCHENTRYMODE"))
  {
    assert Lower(VoucherType.Payment) == NoEntryModeTypes[1];
    assert Lower(VoucherType.Receipt) == NoEntryModeTypes[0];
    ViewOfType(VoucherType.Payment, voucherNumber, date);
    ViewOfType(VoucherType.Receipt, voucherNumber, date);
  }

  /** Journals use the accounting view with the 'As Voucher' entry mode. */
  lemma JournalView(voucherNumber: string, date: string)
    ensures Get(VoucherRecord(VoucherType.Journal, voucherNumber, date), Name("VCHENTRYMODE")) == Str("As Voucher")
  {
    var t := Lower(VoucherType.Journal);
    assert t == "journal";
    assert t !in NoEntryModeTypes && t !in InvoiceTypes;
    ViewOfType(VoucherType.Journal, voucherNumber, date);
  }

  lemma ViewOfType(voucherType: string, voucherNumber: string, date: string)
    ensures var r := VoucherRecord(voucherType, voucherNumber, date);
            var t := Lower(voucherType);
            && (HasKey(r, Name("VCHENTRYMODE")) <==> t !in NoEntryModeTypes)
            && (t !in NoEntryModeTypes ==> Get(r, Name("VCHENTRYMODE")) == Str(if t in InvoiceTypes then "Item Invoice" else "As Voucher"))
  {
    VoucherHeaderHasNoView(Clean(voucherType), voucherNumber, date);
    ViewFollowsType(VoucherHeader(Clean(voucherType), voucherNumber, date), voucherType);
  }

  // ---------------------------------------------------------------------
  // Party details

  /** `partyName`: the (already cleaned) name in all six party fields. */
  function WithPartyName(voucher: seq<Entry>, name: string): seq<Entry>
  {
    var n := Str(name);
    With(With(With(With(With(With(voucher,
      "PARTYNAME", n), "PARTYLEDGERNAME", n), "PARTYMAILINGNAME", n),
      "CONSIGNEEMAILINGNAME", n), "BASICBASEPARTYNAME", n), "BASICBUYERNAME", n)
  }

  lemma PartyNameEverywhere(voucher: seq<Entry>, name: string)
    ensures var r := WithPartyName(voucher, name);
            && Get(r, Name("PARTYNAME")) == Str(name)
            && Get(r, Name("PARTYLEDGERNAME")) == Str(name)
            && Get(r, Name("PARTYMAILINGNAME")) == Str(name)
            && Get(r, Name("CONSIGNEEMAILINGNAME")) == Str(name)
            && Get(r, Name("BASICBASEPARTYNAME")) == Str(name)
            && Get(r, Name("BASICBUYERNAME")) == Str(name)
            && Get(r, Name("VOUCHERTYPENAME")) == Get(voucher, Name("VOUCHERTYPENAME"))
  {
    var n := Str(name);
    var three := With(With(With(voucher, "PARTYNAME", n), "PARTYLEDGERNAME", n), "PARTYMAILINGNAME", n);
    assert Get(three, Name("PARTYNAME")) == n && Get(three, Name("PARTYLEDGERNAME")) == n;
    assert Get(three, Name("VOUCHERTYPENAME")) == Get(voucher, Name("VOUCHERTYPENAME"));
  }

  // ---------------------------------------------------------------------
  // Inventory lines

  /** `round($rate * $qty, 2)`, in hundredths. */
  function ItemAmount(rate: Decimal, qty: Decimal): (r: Decimal)
    ensures r.scale == 2
  {
    Decimal(Round2(Mul(rate, qty)), 2)
  }

  function ItemLine(itemName: string, flag: string, rateText: string, amount: string, qtyText: string): seq<Entry>
  {
    [Text("STOCKITEMNAME", itemName),
     Text("ISDEEMEDPOSITIVE", flag),
     Text("ISLASTDEEMEDPOSITIVE", flag),
     Text("ISAUTONEGATE", "No"),
     Text("ISCUSTOMSCLEARANCE", "No"),
     Text("ISTRACKCOMPONENT", "No"),
     Text("ISTRACKPRODUCTION", "No"),
     Text("ISPRIMARYITEM", "No"),
     Text("ISSCRAP", "No"),
     Text("RATE", rateText),
     Text("AMOUNT", amount),
     Text("ACTUALQTY", qtyText),
     Text("BILLEDQTY", qtyText)]
  }

  function BatchAllocation(amount: string, qtyText: string): seq<Entry>
  {
    [Text("BATCHNAME", "Primary Batch"),
     Text("DYNAMICCSTISCLEARED", "No"),
     Text("AMOUNT", amount),
     Text("ACTUALQTY", qtyText),
     Text("BILLEDQTY", qtyText)]
  }

  function AccountingAllocation(name: string, flag: string, amount: string): seq<Entry>
  {
    [Text("LEDGERNAME", name),
     Text("ISDEEMEDPOSITIVE", flag),
     Text("ISLASTDEEMEDPOSITIVE", flag),
     Text("LEDGERFROMITEM", "No"),
     Text("REMOVEZEROENTRIES", "No"),
     Text("ISPARTYLEDGER", "No"),
     Text("ISCAPVATTAXALTERED", "No"),
     Text("ISCAPVATNOTCLAIMED", "No"),
     Text("AMOUNT", amount)]
  }

  /** An inventory line with its optional DISCOUNT, then its batch and its accounting allocation. */
  function WithAllocations(line: seq<Entry>, discount: Option<string>, batch: seq<Entry>, allocation: seq<Entry>): seq<Entry>
  {
    var withDiscount := if discount.Some? then With(line, "DISCOUNT", Str(discount.value)) else line;
    With(With(withDiscount, "BATCHALLOCATIONS.LIST", Arr(batch)), "ACCOUNTINGALLOCATIONS.LIST", Arr(allocation))
  }

  /** The three writes add DISCOUNT only when one is given and leave the line's other fields alone. */
  lemma WithAllocationsFields(line: seq<Entry>, discount: Option<string>, batch: seq<Entry>, allocation: seq<Entry>)
    ensures var r := WithAllocations(line, discount, batch, allocation);
            && Get(r, Name("BATCHALLOCATIONS.LIST")) == Arr(batch)
            && Get(r, Name("ACCOUNTINGALLOCATIONS.LIST")) == Arr(allocation)
            && (HasKey(r, Name("DISCOUNT")) <==> discount.Some? || HasKey(line, Name("DISCOUNT")))
            && (discount.Some? ==> Get(r, Name("DISCOUNT")) == Str(discount.value))
  {
  }

  /** Every other field of the line is carried through unchanged. */
  lemma WithAllocationsKeeps(line: seq<Entry>, discount: Option<string>, batch: seq<Entry>, allocation: seq<Entry>, k: Key)
    requires k != Name("DISCOUNT") && k != Name("BATCHALLOCATIONS.LIST") && k != Name("ACCOUNTINGALLOCATIONS.LIST")
    ensures Get(WithAllocations(line, discount, batch, allocation), k) == Get(line, k)
  {
  }

  /**
   * An inventory line with its optional DISCOUNT, then its batch and its
   * accounting allocation, all sharing one amount and one side.
   */
  function ItemRecord(stockItemName: string, ledgerName: string, flag: string, rateText: string,
                      amount: string, qtyText: string, discount: Option<string>): seq<Entry>
  {
    WithAllocations(ItemLine(stockItemName, flag, rateText, amount, qtyText), discount,
                    BatchAllocation(amount, qtyText), AccountingAllocation(ledgerName, flag, amount))
  }

  /** The inventory entry `addVoucherItem` appends. */
  function ItemEntry(voucherType: string, ledgerName: string, stockItemName: string, unit: string,
                     rate: Decimal, qty: Decimal, discount: Option<Decimal>): seq<Entry>
  {
    ItemRecord(Clean(stockItemName), Clean(ledgerName), YesNo(IsDeemedPositive(voucherType, "item")), FormatRate(rate, unit),
               FormatAmount(AdjustAmount(ItemAmount(rate, qty), voucherType, "item")), FormatQuantity(qty, unit),
               DiscountText(discount))
  }

  /** A discount is written only when it is given and not zero. */
  function DiscountText(discount: Option<Decimal>): (r: Option<string>)
    ensures r.Some? <==> discount.Some? && !IsZero(discount.value)
    ensures r.Some? ==> r.value == FormatAmount(discount.value)
  {
    if discount.Some? && !IsZero(discount.value) then Some(FormatAmount(discount.value)) else None
  }

  lemma ItemLineFields(stockItemName: string, flag: string, rateText: string, amount: string, qtyText: string)
    ensures var r := ItemLine(stockItemName, flag, rateText, amount, qtyText);
            && Get(r, Name("STOCKITEMNAME")) == Str(stockItemName)
            && Get(r, Name("ISDEEMEDPOSITIVE")) == Str(flag)
            && Get(r, Name("RATE")) == Str(rateText)
            && Get(r, Name("AMOUNT")) == Str(amount)
            && Get(r, Name("ACTUALQTY")) == Get(r, Name("BILLEDQTY")) == Str(qtyText)
            && !HasKey(r, Name("DISCOUNT"))
  {
    var r := ItemLine(stockItemName, flag, rateText, amount, qtyText);
    GetAt(r, 1, Name("ISDEEMEDPOSITIVE"));
    GetAt(r, 9, Name("RATE"));
    GetAt(r, 10, Name("AMOUNT"));
    GetAt(r, 11, Name("ACTUALQTY"));
    GetAt(r, 12, Name("BILLEDQTY"));
    Absent(r, Name("DISCOUNT"));
  }

  lemma AllocationFields(ledgerName: string, flag: string, amount: string, qtyText: string)
    ensures Get(BatchAllocation(amount, qtyText), Name("AMOUNT")) == Str(amount)
    ensures Get(BatchAllocation(amount, qtyText), Name("ACTUALQTY")) == Str(qtyText)
    ensures Get(AccountingAllocation(ledgerName, flag, amount), Name("LEDGERNAME")) == Str(ledgerName)
    ensures Get(AccountingAllocation(ledgerName, flag, amount), Name("ISDEEMEDPOSITIVE")) == Str(flag)
    ensures Get(AccountingAllocation(ledgerName, flag, amount), Name("AMOUNT")) == Str(amount)
  {
    GetAt(BatchAllocation(amount, qtyText), 2, Name("AMOUNT"));
    GetAt(BatchAllocation(amount, qtyText), 3, Name("ACTUALQTY"));
    GetAt(AccountingAllocation(ledgerName, flag, amount), 1, Name("ISDEEMEDPOSITIVE"));
    GetAt(AccountingAllocation(ledgerName, flag, amount), 8, Name("AMOUNT"));
  }

  /**
   * The line's own fields survive the three writes; DISCOUNT is present
   * exactly when one was given, and holds it.
   */
  lemma ItemRecordLine(stockItemName: string, ledgerName: string, flag: string, rateText: string,
                       amount: string, qtyText: string, discount: Option<string>)
    ensures var r := ItemRecord(stockItemName, ledgerName, flag, rateText, amount, qtyText, discount);
            && Get(r, Name("AMOUNT")) == Str(amount)
            && Get(r, Name("ISDEEMEDPOSITIVE")) == Str(flag)
            && Get(r, Name("STOCKITEMNAME")) == Str(stockItemName)
            && Get(r, Name("RATE")) == Str(rateText)
            && Get(r, Name("ACTUALQTY")) == Str(qtyText)
            && (HasKey(r, Name("DISCOUNT")) <==> discount.Some?)
            && (discount.Some? ==> Get(r, Name("DISCOUNT")) == Str(discount.value))
  {
    var line := ItemLine(stockItemName, flag, rateText, amount, qtyText);
    var batch := BatchAllocation(amount, qtyText);
    var allocation := AccountingAllocation(ledgerName, flag, amount);
    ItemLineFields(stockItemName, flag, rateText, amount, qtyText);
    WithAllocationsFields(line, discount, batch, allocation);
    WithAllocationsKeeps(line, discount, batch, allocation, Name("AMOUNT"));
    WithAllocationsKeeps(line, discount, batch, allocation, Name("ISDEEMEDPOSITIVE"));
    WithAllocationsKeeps(line, discount, batch, allocation, Name("STOCKITEMNAME"));
    WithAllocationsKeeps(line, discount, batch, allocation, Name("RATE"));
    WithAllocationsKeeps(line, discount, batch, allocation, Name("ACTUALQTY"));
  }

  /** The batch and the accounting allocation repeat the line's amount, side and quantity. */
  lemma ItemRecordAllocations(stockItemName: string, ledgerName: string, flag: string, rateText: string,
                              amount: string, qtyText: string, discount: Option<string>)
    ensures var r := ItemRecord(stockItemName, ledgerName, flag, rateText, amount, qtyText, discount);
            && Lookup(Get(r, Name("BATCHALLOCATIONS.LIST")), "AMOUNT") == Str(amount)
            && Lookup(Get(r, Name("BATCHALLOCATIONS.LIST")), "ACTUALQTY") == Str(qtyText)
            && Lookup(Get(r, Name("ACCOUNTINGALLOCATIONS.LIST")), "AMOUNT") == Str(amount)
            && Lookup(Get(r, Name("ACCOUNTINGALLOCATIONS.LIST")), "ISDEEMEDPOSITIVE") == Str(flag)
            && Lookup(Get(r, Name("ACCOUNTINGALLOCATIONS.LIST")), "LEDGERNAME") == Str(ledgerName)
  {
    AllocationFields(ledgerName, flag, amount, qtyText);
    WithAllocationsFields(ItemLine(stockItemName, flag, rateText, amount, qtyText), discount,
                          BatchAllocation(amount, qtyText), AccountingAllocation(ledgerName, flag, amount));
  }

  /**
   * An inventory line, its batch and its accounting allocation carry the
   * same adjusted amount of `round(rate * qty, 2)`; the line and its
   * allocation are on the same side; DISCOUNT appears exactly for a
   * non-null, non-zero discount.
   */
  lemma ItemEntryAgrees(voucherType: string, ledgerName: string, stockItemName: string, unit: string,
                        rate: Decimal, qty: Decimal, discount: Option<Decimal>)
    ensures var r := ItemEntry(voucherType, ledgerName, stockItemName, unit, rate, qty, discount);
            var amount := Str(FormatAmount(AdjustAmount(ItemAmount(rate, qty), voucherType, "item")));
            var flag := Str(YesNo(IsDeemedPositive(voucherType, "item")));
            && Get(r, Name("AMOUNT")) == amount
            && Lookup(Get(r, Name("BATCHALLOCATIONS.LIST")), "AMOUNT") == amount
            && Lookup(Get(r, Name("ACCOUNTINGALLOCATIONS.LIST")), "AMOUNT") == amount
            && Get(r, Name("ISDEEMEDPOSITIVE")) == flag
            && Lookup(Get(r, Name("ACCOUNTINGALLOCATIONS.LIST")), "ISDEEMEDPOSITIVE") == flag
            && Lookup(Get(r, Name("ACCOUNTINGALLOCATIONS.LIST")), "LEDGERNAME") == Str(Clean(ledgerName))
            && Get(r, Name("STOCKITEMNAME")) == Str(Clean(stockItemName))
            && Get(r, Name("RATE")) == Str(FormatRate(rate, unit))
            && Lookup(Get(r, Name("BATCHALLOCATIONS.LIST")), "ACTUALQTY") == Get(r, Name("ACTUALQTY")) == Str(FormatQuantity(qty, unit))
            && (HasKey(r, Name("DISCOUNT")) <==> discount.Some? && !IsZero(discount.value))
            && (discount.Some? && !IsZero(discount.value) ==> Get(r, Name("DISCOUNT")) == Str(FormatAmount(discount.value)))
  {
    var flag := YesNo(IsDeemedPositive(voucherType, "item"));
    var amount := FormatAmount(AdjustAmount(ItemAmount(rate, qty), voucherType, "item"));
    var qtyText := FormatQuantity(qty, unit);
    ItemRecordLine(Clean(stockItemName), Clean(ledgerName), flag, FormatRate(rate, unit), amount, qtyText, DiscountText(discount));
    ItemRecordAllocations(Clean(stockItemName), Clean(ledgerName), flag, FormatRate(rate, unit), amount, qtyText, DiscountText(discount));
  }

  // ---------------------------------------------------------------------
  // Ledger lines

  /**
   * The ten-field line shared by taxes and the party: the same side twice and
   * the same amount twice; only ISPARTYLEDGER tells them apart.
   */
  function PostingLine(name: string, flag: string, amount: string, isParty: string): seq<Entry>
  {
    [Text("LEDGERNAME", name),
     Text("ISDEEMEDPOSITIVE", flag),
     Text("ISLASTDEEMEDPOSITIVE", flag),
     Text("LEDGERFROMITEM", "No"),
     Text("REMOVEZEROENTRIES", "No"),
     Text("ISPARTYLEDGER", isParty),
     Text("ISCAPVATTAXALTERED", "No"),
     Text("ISCAPVATNOTCLAIMED", "No"),
     Text("AMOUNT", amount),
     Text("VATEXPAMOUNT", amount)]
  }

  lemma PostingLineSide(name: string, flag: string, amount: string, isParty: string)
    ensures var r := PostingLine(name, flag, amount, isParty);
            Side(r) == Str(flag) && Get(r, Name("ISPARTYLEDGER")) == Str(isParty)
  {
    var r := PostingLine(name, flag, amount, isParty);
    GetAt(r, 1, Name("ISDEEMEDPOSITIVE"));
    GetAt(r, 5, Name("ISPARTYLEDGER"));
  }

  lemma PostingLineAmount(name: string, flag: string, amount: string, isParty: string)
    ensures var r := PostingLine(name, flag, amount, isParty);
            AmountOf(r) == Get(r, Name("VATEXPAMOUNT")) == Str(amount)
  {
    var r := PostingLine(name, flag, amount, isParty);
    GetAt(r, 8, Name("AMOUNT"));
    GetAt(r, 9, Name("VATEXPAMOUNT"));
  }

  /** The line `addTax` appends. */
  function TaxEntry(voucherType: string, ledgerName: string, amount: Decimal): seq<Entry>
  {
    PostingLine(Clean(ledgerName), YesNo(IsDeemedPositive(voucherType, "tax")), FormatAmount(AdjustAmount(amount, voucherType, "tax")), "No")
  }

  /** The six-field line of an additional charge. */
  function ChargeLine(name: string, flag: string, amount: string): seq<Entry>
  {
    [Text("LEDGERNAME", name),
     Text("ISDEEMEDPOSITIVE", flag),
     Text("ISLASTDEEMEDPOSITIVE", flag),
     Text("REMOVEZEROENTRIES", "No"),
     Text("ISPARTYLEDGER", "No"),
     Text("AMOUNT", amount)]
  }

  /** The line `addAdditionalCharge` appends. */
  function ChargeEntry(voucherType: string, ledgerName: string, amount: Decimal): seq<Entry>
  {
    ChargeLine(Clean(ledgerName), YesNo(IsDeemedPositive(voucherType, "ledger")), FormatAmount(AdjustAmount(amount, voucherType, "ledger")))
  }

  /** The line `roundOff` appends for the cleaned ledger name: the amount as given, a debit when negative. */
  function RoundOffEntry(name: string, amount: Decimal): seq<Entry>
  {
    [Text("LEDGERNAME", name),
     Text("ISDEEMEDPOSITIVE", if amount.units < 0 then "Yes" else "No"),
     Text("REMOVEZEROENTRIES", "No"),
     Text("ISPARTYLEDGER", "No"),
     Text("AMOUNT", FormatAmount(amount))]
  }

  /** The line `partyAmount` puts first. */
  function PartyEntry(voucherType: string, ledgerName: string, totalAmount: Decimal): seq<Entry>
  {
    PostingLine(Clean(ledgerName), YesNo(IsDeemedPositive(voucherType, "party")), FormatAmount(AdjustAmount(totalAmount, voucherType, "party")), "Yes")
  }

  /** The line `addLedgerEntry` appends for the cleaned ledger name: no adjustment, the side given by `isDr`. */
  function LedgerEntry(name: string, amount: Decimal, isDr: bool): seq<Entry>
  {
    [Text("LEDGERNAME", name),
     Text("ISDEEMEDPOSITIVE", YesNo(isDr)),
     Text("AMOUNT", FormatAmount(amount))]
  }

  /** The side and the amount of a ledger line, as Tally reads them. */
  function Side(line: seq<Entry>): Value { Get(line, Name("ISDEEMEDPOSITIVE")) }
  function AmountOf(line: seq<Entry>): Value { Get(line, Name("AMOUNT")) }

  /** A tax line: the tax side and the adjusted amount, repeated as VATEXPAMOUNT; not the party's line. */
  lemma TaxEntryFields(voucherType: string, ledgerName: string, amount: Decimal)
    ensures var tax := TaxEntry(voucherType, ledgerName, amount);
            && Side(tax) == Str(YesNo(IsDeemedPositive(voucherType, "tax")))
            && AmountOf(tax) == Get(tax, Name("VATEXPAMOUNT")) == Str(FormatAmount(AdjustAmount(amount, voucherType, "tax")))
            && Get(tax, Name("ISPARTYLEDGER")) == Str("No")
  {
    var flag := YesNo(IsDeemedPositive(voucherType, "tax"));
    var adjusted := FormatAmount(AdjustAmount(amount, voucherType, "tax"));
    PostingLineSide(Clean(ledgerName), flag, adjusted, "No");
    PostingLineAmount(Clean(ledgerName), flag, adjusted, "No");
  }

  /** The party line: the party side and the adjusted amount, repeated as VATEXPAMOUNT; marked as the party's. */
  lemma PartyEntryFields(voucherType: string, ledgerName: string, amount: Decimal)
    ensures var party := PartyEntry(voucherType, ledgerName, amount);
            && Side(party) == Str(YesNo(IsDeemedPositive(voucherType, "party")))
            && AmountOf(party) == Get(party, Name("VATEXPAMOUNT")) == Str(FormatAmount(AdjustAmount(amount, voucherType, "party")))
            && Get(party, Name("ISPARTYLEDGER")) == Str("Yes")
  {
    var flag := YesNo(IsDeemedPositive(voucherType, "party"));
    var adjusted := FormatAmount(AdjustAmount(amount, voucherType, "party"));
    PostingLineSide(Clean(ledgerName), flag, adjusted, "Yes");
    PostingLineAmount(Clean(ledgerName), flag, adjusted, "Yes");
  }

  /** A charge line follows the ledger rule, the same as a tax line. */
  lemma ChargeFields(voucherType: string, ledgerName: string, amount: Decimal)
    ensures var charge := ChargeEntry(voucherType, ledgerName, amount);
            && Side(charge) == Side(TaxEntry(voucherType, ledgerName, amount))
            && AmountOf(charge) == AmountOf(TaxEntry(voucherType, ledgerName, amount))
  {
    hide Clean, FormatAmount, AdjustAmount, IsDeemedPositive, YesNo;
    var charge := ChargeLine(Clean(ledgerName), YesNo(IsDeemedPositive(voucherType, "ledger")),
                             FormatAmount(AdjustAmount(amount, voucherType, "ledger")));
    GetAt(charge, 1, Name("ISDEEMEDPOSITIVE"));
    GetAt(charge, 5, Name("AMOUNT"));
    TaxEntryFields(voucherType, ledgerName, amount);
    LedgerAndTaxAgree(amount, voucherType);
  }

  /** Round-off and generic lines keep the amount's sign; round-off is a debit exactly when it is negative. */
  lemma UnadjustedLines(name: string, amount: Decimal, isDr: bool)
    ensures Side(RoundOffEntry(name, amount)) == Str(YesNo(IsNegative(amount)))
    ensures AmountOf(RoundOffEntry(name, amount)) == Str(FormatAmount(amount))
    ensures Side(LedgerEntry(name, amount, isDr)) == Str(YesNo(isDr))
    ensures AmountOf(LedgerEntry(name, amount, isDr)) == Str(FormatAmount(amount))
  {
    GetAt(RoundOffEntry(name, amount), 1, Name("ISDEEMEDPOSITIVE"));
    GetAt(RoundOffEntry(name, amount), 4, Name("AMOUNT"));
    GetAt(LedgerEntry(name, amount, isDr), 1, Name("ISDEEMEDPOSITIVE"));
    GetAt(LedgerEntry(name, amount, isDr), 2, Name("AMOUNT"));
  }

  /**
   * In an invoice the party line sits on the other side from the item,
   * tax and charge lines, and for the same positive amount one of the two
   * amounts is the other with a minus sign.
   */
  lemma InvoicePartyOpposesLines(voucherType: string, ledgerName: string, amount: Decimal)
    requires Lower(voucherType) in InvoiceTypes
    requires Round2(amount) > 0
    ensures Side(PartyEntry(voucherType, ledgerName, amount)) != Side(TaxEntry(voucherType, ledgerName, amount))
    ensures IsDeemedPositive(voucherType, "party") != IsDeemedPositive(voucherType, "item")
    ensures var p := FormatAmount(AdjustAmount(amount, voucherType, "party"));
            var i := FormatAmount(AdjustAmount(amount, voucherType, "item"));
            (p == "-" + i && i == FormatAmount(amount)) || (i == "-" + p && p == FormatAmount(amount))
  {
    TaxEntryFields(voucherType, ledgerName, amount);
    PartyEntryFields(voucherType, ledgerName, amount);
    FormatAmountNeg(amount);
    InvoiceSignsBalance(amount, voucherType);
  }

  // ---------------------------------------------------------------------
  // build

  /** The record after `build`: each list is written only when it is non-empty. */
  function Built(voucher: seq<Entry>, lines: seq<string>, inventory: seq<seq<Entry>>, ledgers: seq<seq<Entry>>): seq<Entry>
  {
    var withAddress := if lines != [] then With(voucher, "ADDRESS.LIST", Arr(AddressList(lines))) else voucher;
    var withInventory :=
      if inventory != [] then With(withAddress, "ALLINVENTORYENTRIES.LIST", Arr(RecordList(inventory))) else withAddress;
    if ledgers != [] then With(withInventory, "LEDGERENTRIES.LIST", Arr(RecordList(ledgers))) else withInventory
  }

  /**
   * Each list is present exactly when it was already there or has entries,
   * and then holds them in the order they were added; no other field changes.
   */
  lemma BuiltFields(voucher: seq<Entry>, lines: seq<string>, inventory: seq<seq<Entry>>, ledgers: seq<seq<Entry>>)
    ensures var r := Built(voucher, lines, inventory, ledgers);
            && (HasKey(r, Name("ADDRESS.LIST")) <==> lines != [] || HasKey(voucher, Name("ADDRESS.LIST")))
            && (HasKey(r, Name("ALLINVENTORYENTRIES.LIST")) <==> inventory != [] || HasKey(voucher, Name("ALLINVENTORYENTRIES.LIST")))
            && (HasKey(r, Name("LEDGERENTRIES.LIST")) <==> ledgers != [] || HasKey(voucher, Name("LEDGERENTRIES.LIST")))
            && (lines != [] ==> Get(r, Name("ADDRESS.LIST")) == Arr(AddressList(lines)))
            && (inventory != [] ==> Get(r, Name("ALLINVENTORYENTRIES.LIST")) == Arr(RecordList(inventory)))
            && (ledgers != [] ==> Get(r, Name("LEDGERENTRIES.LIST")) == Arr(RecordList(ledgers)))
            && forall k :: k !in [Name("ADDRESS.LIST"), Name("ALLINVENTORYENTRIES.LIST"), Name("LEDGERENTRIES.LIST")] ==>
                 Get(r, k) == Get(voucher, k)
  {
    var a := if lines != [] then With(voucher, "ADDRESS.LIST", Arr(AddressList(lines))) else voucher;
    var b := if inventory != [] then With(a, "ALLINVENTORYENTRIES.LIST", Arr(RecordList(inventory))) else a;
    forall k ensures HasKey(a, k) <==> (lines != [] && k == Name("ADDRESS.LIST")) || HasKey(voucher, k) {
      PutHasKey(voucher, Name("ADDRESS.LIST"), Arr(AddressList(lines)), k);
    }
    forall k ensures HasKey(b, k) <==> (inventory != [] && k == Name("ALLINVENTORYENTRIES.LIST")) || HasKey(a, k) {
      PutHasKey(a, Name("ALLINVENTORYENTRIES.LIST"), Arr(RecordList(inventory)), k);
    }
    forall k ensures HasKey(Built(voucher, lines, inventory, ledgers), k) <==> (ledgers != [] && k == Name("LEDGERENTRIES.LIST")) || HasKey(b, k) {
      PutHasKey(b, Name("LEDGERENTRIES.LIST"), Arr(RecordList(ledgers)), k);
    }
  }

  /** Building twice gives the same record as building once. */
  lemma BuildIsIdempotent(voucher: seq<Entry>, lines: seq<string>, inventory: seq<seq<Entry>>, ledgers: seq<seq<Entry>>)
    ensures Built(Built(voucher, lines, inventory, ledgers), lines, inventory, ledgers) == Built(voucher, lines, inventory, ledgers)
  {
    var r := Built(voucher, lines, inventory, ledgers);
    BuiltFields(voucher, lines, inventory, ledgers);
    var a := if lines != [] then With(r, "ADDRESS.LIST", Arr(AddressList(lines))) else r;
    if lines != [] { PutExisting(r, Name("ADDRESS.LIST"), Arr(AddressList(lines))); }
    var b := if inventory != [] then With(a, "ALLINVENTORYENTRIES.LIST", Arr(RecordList(inventory))) else a;
    if inventory != [] { PutExisting(a, Name("ALLINVENTORYENTRIES.LIST"), Arr(RecordList(inventory))); }
    if ledgers != [] { PutExisting(b, Name("LEDGERENTRIES.LIST"), Arr(RecordList(ledgers))); }
  }

  class VoucherBuilder {
    /** The VOUCHER record; the builder's array is `Message("VOUCHER", voucher)`. */
    var voucher: seq<Entry>
    var voucherType: string
    var ledgerEntries: seq<seq<Entry>>
    var inventoryEntries: seq<seq<Entry>>
    var addressLines: seq<string>

    constructor (voucherType: string, voucherNumber: string, date: string, clock: Clock)
      ensures this.voucherType == voucherType
      ensures voucher == VoucherRecord(voucherType, voucherNumber, clock.formatDate(date))
      ensures ledgerEntries == [] && inventoryEntries == [] && addressLines == []
    {
      this.voucherType := voucherType;
      var d := clock.formatDate(date);
      voucher := VoucherHeader(Clean(voucherType), voucherNumber, d);
      ledgerEntries := [];
      inventoryEntries := [];
      addressLines := [];
      new;
      SetVoucherView();
    }

    method SetVoucherView()
      modifies this
      ensures voucher == WithView(old(voucher), voucherType)
      ensures voucherType == old(voucherType) && ledgerEntries == old(ledgerEntries)
      ensures inventoryEntries == old(inventoryEntries) && addressLines == old(addressLines)
    {
      var t := Lower(voucherType);
      if t in InvoiceTypes {
        voucher := With(voucher, "PERSISTEDVIEW", Str("Invoice Voucher View"));
        voucher := With(voucher, "VCHENTRYMODE", Str("Item Invoice"));
      } else {
        voucher := With(voucher, "PERSISTEDVIEW", Str("Accounting Voucher View"));
        if t !in NoEntryModeTypes {
          voucher := With(voucher, "VCHENTRYMODE", Str("As Voucher"));
        }
      }
    }

    method Narration(narration: string)
      modifies this
      ensures voucher == With(old(voucher), "NARRATION", Str(Clean(narration)))
      ensures voucherType == old(voucherType) && ledgerEntries == old(ledgerEntries)
      ensures inventoryEntries == old(inventoryEntries) && addressLines == old(addressLines)
    {
      voucher := With(voucher, "NARRATION", Str(Clean(narration)));
    }

    method PartyName(name: string)
      modifies this
      ensures voucher == WithPartyName(old(voucher), Clean(name))
      ensures voucherType == old(voucherType) && ledgerEntries == old(ledgerEntries)
      ensures inventoryEntries == old(inventoryEntries) && addressLines == old(addressLines)
    {
      var n := Clean(name);
      voucher := With(voucher, "PARTYNAME", Str(n));
      voucher := With(voucher, "PARTYLEDGERNAME", Str(n));
      voucher := With(voucher, "PARTYMAILINGNAME", Str(n));
      voucher := With(voucher, "CONSIGNEEMAILINGNAME", Str(n));
      voucher := With(voucher, "BASICBASEPARTYNAME", Str(n));
      voucher := With(voucher, "BASICBUYERNAME", Str(n));
    }

    /** `partyLedger`: the same as `partyName`. */
    method PartyLedger(name: string)
      modifies this
      ensures voucher == WithPartyName(old(voucher), Clean(name))
      ensures voucherType == old(voucherType) && ledgerEntries == old(ledgerEntries)
      ensures inventoryEntries == old(inventoryEntries) && addressLines == old(addressLines)
    {
      PartyName(name);
    }

    method PartyAddress(address: string)
      modifies this
      ensures addressLines == old(addressLines) + [Clean(address)]
      ensures voucher == old(voucher) && voucherType == old(voucherType)
      ensures ledgerEntries == old(ledgerEntries) && inventoryEntries == old(inventoryEntries)
    {
      addressLines := addressLines + [Clean(address)];
    }

    method PartyState(state: string)
      modifies this
      ensures voucher == With(With(old(voucher), "STATENAME", Str(Clean(state))), "CONSIGNEESTATENAME", Str(Clean(state)))
      ensures voucherType == old(voucherType) && ledgerEntries == old(ledgerEntries)
      ensures inventoryEntries == old(inventoryEntries) && addressLines == old(addressLines)
    {
      var s := Clean(state);
      voucher := With(voucher, "STATENAME", Str(s));
      voucher := With(voucher, "CONSIGNEESTATENAME", Str(s));
    }

    method PartyCountry(country: string)
      modifies this
      ensures voucher == With(With(old(voucher), "COUNTRYNAME", Str(Clean(country))), "COUNTRYOFRESIDENCE", Str(Clean(country)))
      ensures voucherType == old(voucherType) && ledgerEntries == old(ledgerEntries)
      ensures inventoryEntries == old(inventoryEntries) && addressLines == old(addressLines)
    {
      var c := Clean(country);
      voucher := With(voucher, "COUNTRYNAME", Str(c));
      voucher := With(voucher, "COUNTRYOFRESIDENCE", Str(c));
    }

    method PartyPincode(pincode: string)
      modifies this
      ensures voucher == With(old(voucher), "PINCODE", Str(Clean(pincode)))
      ensures voucherType == old(voucherType) && ledgerEntries == old(ledgerEntries)
      ensures inventoryEntries == old(inventoryEntries) && addressLines == old(addressLines)
    {
      voucher := With(voucher, "PINCODE", Str(Clean(pincode)));
    }

    method PartyGstRegistrationType(registrationType: string)
      modifies this
      ensures voucher == With(old(voucher), "GSTREGISTRATIONTYPE", Str(Clean(registrationType)))
      ensures voucherType == old(voucherType) && ledgerEntries == old(ledgerEntries)
      ensures inventoryEntries == old(inventoryEntries) && addressLines == old(addressLines)
    {
      voucher := With(voucher, "GSTREGISTRATIONTYPE", Str(Clean(registrationType)));
    }

    method PartyGstin(gstin: string)
      modifies this
      ensures voucher == With(old(voucher), "PARTYGSTIN", Str(Clean(gstin)))
      ensures voucherType == old(voucherType) && ledgerEntries == old(ledgerEntries)
      ensures inventoryEntries == old(inventoryEntries) && addressLines == old(addressLines)
    {
      voucher := With(voucher, "PARTYGSTIN", Str(Clean(gstin)));
    }

    method PlaceOfSupply(place: string)
      modifies this
      ensures voucher == With(old(voucher), "PLACEOFSUPPLY", Str(Clean(place)))
      ensures voucherType == old(voucherType) && ledgerEntries == old(ledgerEntries)
      ensures inventoryEntries == old(inventoryEntries) && addressLines == old(addressLines)
    {
      voucher := With(voucher, "PLACEOFSUPPLY", Str(Clean(place)));
    }

    /** `reference`: overwrites the voucher number the constructor put there. */
    method Reference(reference: string)
      modifies this
      ensures voucher == With(old(voucher), "REFERENCE", Str(Clean(reference)))
      ensures voucherType == old(voucherType) && ledgerEntries == old(ledgerEntries)
      ensures inventoryEntries == old(inventoryEntries) && addressLines == old(addressLines)
    {
      voucher := With(voucher, "REFERENCE", Str(Clean(reference)));
    }

    method ReferenceDate(date: string, clock: Clock)
      modifies this
      ensures voucher == With(old(voucher), "REFERENCEDATE", Str(clock.formatDate(date)))
      ensures voucherType == old(voucherType) && ledgerEntries == old(ledgerEntries)
      ensures inventoryEntries == old(inventoryEntries) && addressLines == old(addressLines)
    {
      voucher := With(voucher, "REFERENCEDATE", Str(clock.formatDate(date)));
    }

    method AddVoucherItem(ledgerName: string, stockItemName: string, unit: string,
                          rate: Decimal, qty: Decimal, discount: Option<Decimal>)
      modifies this
      ensures inventoryEntries == old(inventoryEntries) + [ItemEntry(voucherType, ledgerName, stockItemName, unit, rate, qty, discount)]
      ensures voucher == old(voucher) && voucherType == old(voucherType)
      ensures ledgerEntries == old(ledgerEntries) && addressLines == old(addressLines)
    {
      hide With, ItemLine, BatchAllocation, AccountingAllocation, Clean, FormatAmount, FormatRate, FormatQuantity, AdjustAmount, ItemAmount;
      var amount := ItemAmount(rate, qty);
      var adjusted := AdjustAmount(amount, voucherType, "item");
      var flag := YesNo(IsDeemedPositive(voucherType, "item"));
      var line := ItemLine(Clean(stockItemName), flag, FormatRate(rate, unit), FormatAmount(adjusted), FormatQuantity(qty, unit));
      var item := line;
      if discount.Some? && !IsZero(discount.value) {
        item := With(item, "DISCOUNT", Str(FormatAmount(discount.value)));
      }
      var batch := BatchAllocation(FormatAmount(adjusted), FormatQuantity(qty, unit));
      var allocation := AccountingAllocation(Clean(ledgerName), flag, FormatAmount(adjusted));
      item := With(item, "BATCHALLOCATIONS.LIST", Arr(batch));
      item := With(item, "ACCOUNTINGALLOCATIONS.LIST", Arr(allocation));
      assert item == WithAllocations(line, DiscountText(discount), batch, allocation);
      inventoryEntries := inventoryEntries + [item];
    }

    method AddTax(ledgerName: string, amount: Decimal)
      modifies this
      ensures ledgerEntries == old(ledgerEntries) + [TaxEntry(voucherType, ledgerName, amount)]
      ensures voucher == old(voucher) && voucherType == old(voucherType)
      ensures inventoryEntries == old(inventoryEntries) && addressLines == old(addressLines)
    {
      ledgerEntries := ledgerEntries + [TaxEntry(voucherType, ledgerName, amount)];
    }

    method AddAdditionalCharge(ledgerName: string, amount: Decimal)
      modifies this
      ensures ledgerEntries == old(ledgerEntries) + [ChargeEntry(voucherType, ledgerName, amount)]
      ensures voucher == old(voucher) && voucherType == old(voucherType)
      ensures inventoryEntries == old(inventoryEntries) && addressLines == old(addressLines)
    {
      ledgerEntries := ledgerEntries + [ChargeEntry(voucherType, ledgerName, amount)];
    }

    method RoundOff(ledgerName: string, amount: Decimal)
      modifies this
      ensures ledgerEntries == old(ledgerEntries) + [RoundOffEntry(Clean(ledgerName), amount)]
      ensures voucher == old(voucher) && voucherType == old(voucherType)
      ensures inventoryEntries == old(inventoryEntries) && addressLines == old(addressLines)
    {
      ledgerEntries := ledgerEntries + [RoundOffEntry(Clean(ledgerName), amount)];
    }

    /** `partyAmount`: the party line goes before every line added so far. */
    method PartyAmount(ledgerName: string, totalAmount: Decimal)
      modifies this
      ensures ledgerEntries == [PartyEntry(voucherType, ledgerName, totalAmount)] + old(ledgerEntries)
      ensures voucher == old(voucher) && voucherType == old(voucherType)
      ensures inventoryEntries == old(inventoryEntries) && addressLines == old(addressLines)
    {
      ledgerEntries := [PartyEntry(voucherType, ledgerName, totalAmount)] + ledgerEntries;
    }

    method AddLedgerEntry(ledgerName: string, amount: Decimal, isDr: bool)
      modifies this
      ensures ledgerEntries == old(ledgerEntries) + [LedgerEntry(Clean(ledgerName), amount, isDr)]
      ensures voucher == old(voucher) && voucherType == old(voucherType)
      ensures inventoryEntries == old(inventoryEntries) && addressLines == old(addressLines)
    {
      ledgerEntries := ledgerEntries + [LedgerEntry(Clean(ledgerName), amount, isDr)];
    }

    /** `build`: writes the non-empty lists into the voucher and returns the array. */
    method Build() returns (r: seq<Entry>)
      modifies this
      ensures voucher == Built(old(voucher), addressLines, inventoryEntries, ledgerEntries)
      ensures voucherType == old(voucherType) && ledgerEntries == old(ledgerEntries)
      ensures inventoryEntries == old(inventoryEntries) && addressLines == old(addressLines)
      ensures r == Message("VOUCHER", voucher)
    {
      if addressLines != [] {
        var addresses: seq<Entry> := [];
        for i := 0 to |addressLines|
          invariant voucher == old(voucher) && voucherType == old(voucherType) && addressLines == old(addressLines)
          invariant ledgerEntries == old(ledgerEntries) && inventoryEntries == old(inventoryEntries)
          invariant addresses == AddressList(addressLines[..i])
        {
          AddressListSnoc(addressLines[..i], addressLines[i]);
          assert addressLines[..i + 1] == addressLines[..i] + [addressLines[i]];
          addresses := addresses + [Entry(Index(i), Arr([Text("ADDRESS", addressLines[i])]))];
        }
        assert addressLines[..|addressLines|] == addressLines;
        voucher := With(voucher, "ADDRESS.LIST", Arr(addresses));
      }
      if inventoryEntries != [] {
        voucher := With(voucher, "ALLINVENTORYENTRIES.LIST", Arr(RecordList(inventoryEntries)));
      }
      if ledgerEntries != [] {
        voucher := With(voucher, "LEDGERENTRIES.LIST", Arr(RecordList(ledgerEntries)));
      }
      r := Message("VOUCHER", voucher);
    }

    static method Sales(voucherNumber: string, date: string, clock: Clock) returns (b: VoucherBuilder)
      ensures fresh(b) && b.voucherType == VoucherType.Sale
      ensures b.voucher == VoucherRecord(VoucherType.Sale, voucherNumber, clock.formatDate(date))
      ensures b.ledgerEntries == [] && b.inventoryEntries == [] && b.addressLines == []
    {
      b := new VoucherBuilder(VoucherType.Sale, voucherNumber, date, clock);
    }

    static method Purchase(voucherNumber: string, date: string, clock: Clock) returns (b: VoucherBuilder)
      ensures fresh(b) && b.voucherType == VoucherType.Purchase
      ensures b.voucher == VoucherRecord(VoucherType.Purchase, voucherNumber, clock.formatDate(date))
      ensures b.ledgerEntries == [] && b.inventoryEntries == [] && b.addressLines == []
    {
      b := new VoucherBuilder(VoucherType.Purchase, voucherNumber, date, clock);
    }

    static method SaleReturn(voucherNumber: string, date: string, clock: Clock) returns (b: VoucherBuilder)
      ensures fresh(b) && b.voucherType == VoucherType.SaleReturn
      ensures b.voucher == VoucherRecord(VoucherType.SaleReturn, voucherNumber, clock.formatDate(date))
      ensures b.ledgerEntries == [] && b.inventoryEntries == [] && b.addressLines == []
    {
      b := new VoucherBuilder(VoucherType.SaleReturn, voucherNumber, date, clock);
    }

    static method PurchaseReturn(voucherNumber: string, date: string, clock: Clock) returns (b: VoucherBuilder)
      ensures fresh(b) && b.voucherType == VoucherType.PurchaseReturn
      ensures b.voucher == VoucherRecord(VoucherType.PurchaseReturn, voucherNumber, clock.formatDate(date))
      ensures b.ledgerEntries == [] && b.inventoryEntries == [] && b.addressLines == []
    {
      b := new VoucherBuilder(VoucherType.PurchaseReturn, voucherNumber, date, clock);
    }

    static method Payment(voucherNumber: string, date: string, clock: Clock) returns (b: VoucherBuilder)
      ensures fresh(b) && b.voucherType == VoucherType.Payment
      ensures b.voucher == VoucherRecord(VoucherType.Payment, voucherNumber, clock.formatDate(date))
      ensures b.ledgerEntries == [] && b.inventoryEntries == [] && b.addressLines == []
    {
      b := new VoucherBuilder(VoucherType.Payment, voucherNumber, date, clock);
    }

    static method Receipt(voucherNumber: string, date: string, clock: Clock) returns (b: VoucherBuilder)
      ensures fresh(b) && b.voucherType == VoucherType.Receipt
      ensures b.voucher == VoucherRecord(VoucherType.Receipt, voucherNumber, clock.formatDate(date))
      ensures b.ledgerEntries == [] && b.inventoryEntries == [] && b.addressLines == []
    {
      b := new VoucherBuilder(VoucherType.Receipt, voucherNumber, date, clock);
    }

    static method Journal(voucherNumber: string, date: string, clock: Clock) returns (b: VoucherBuilder)
      ensures fresh(b) && b.voucherType == VoucherType.Journal
      ensures b.voucher == VoucherRecord(VoucherType.Journal, voucherNumber, clock.formatDate(date))
      ensures b.ledgerEntries == [] && b.inventoryEntries == [] && b.addressLines == []
    {
      b := new VoucherBuilder(VoucherType.Journal, voucherNumber, date, clock);
    }
  }
}
