/** The voucher types Tally knows, as declared constants. */
module VoucherType {

  const Sales: string := "Sales"
  const Sale: string := "Sale"
  const Purchase: string := "Purchase"
  const SaleReturn: string := "Sale Return"
  const PurchaseReturn: string := "Purchase Return"
  const Payment: string := "Payment"
  const Receipt: string := "Receipt"
  const Contra: string := "Contra"
  const Journal: string := "Journal"
  const CreditNote: string := "Credit Note"
  const DebitNote: string := "Debit Note"
  const DeliveryNote: string := "Delivery Note"
  const ReceiptNote: string := "Receipt Note"
  const StockJournal: string := "Stock Journal"
  const PhysicalStock: string := "Physical Stock"
  const Memorandum: string := "Memorandum"
  const ReversingJournal: string := "Reversing Journal"

  /** `VoucherType::all()`: every declared type, in declaration order, each once. */
  function All(): (r: seq<string>)
    ensures |r| == 17 && r[0] == Sales && r[16] == ReversingJournal
    ensures forall i, j :: 0 <= i < j < |r| ==> r[i] != r[j]
  {
    [Sales, Sale, Purchase, SaleReturn, PurchaseReturn, Payment, Receipt, Contra, Journal,
     CreditNote, DebitNote, DeliveryNote, ReceiptNote, StockJournal, PhysicalStock, Memorandum,
     ReversingJournal]
  }

  /** `VoucherType::isValid`: strict membership in `All()`. */
  predicate IsValid(t: string)
  {
    t in All()
  }

  /** Membership is case-sensitive: "Sale" and "Sales" are valid, "sale" is not. */
  lemma ValidityIsCaseSensitive()
    ensures IsValid("Sale") && IsValid("Sales")
    ensures !IsValid("sale") && !IsValid("SALE")
  {
    assert All()[0] == "Sales" && All()[1] == "Sale";
  }

  /** The seven types the JSON validator accepts, in its order. */
  const ValidatorTypes: seq<string> := ["Sale", "Purchase", "Sale Return", "Purchase Return", "Payment", "Receipt", "Journal"]

  /** Every type the JSON validator accepts is a declared type. */
  lemma ValidatorTypesAreValid()
    ensures forall t :: t in ValidatorTypes ==> IsValid(t)
  {
    var a := All();
    assert a[1] == Sale && a[2] == Purchase && a[3] == SaleReturn && a[4] == PurchaseReturn;
    assert a[5] == Payment && a[6] == Receipt && a[8] == Journal;
  }
}
