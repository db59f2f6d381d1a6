/**
 * `JsonValidator`: checks the decoded JSON before conversion and collects
 * one message per problem, in the order the checks run. A conversion goes
 * ahead only when the list is empty.
 */
module JsonValidation {
  import opened PhpStrings
  import opened PhpNumbers
  import opened PhpArrays
  import opened Helpers
  import VoucherType

  // ---------------------------------------------------------------------
  // GSTIN format
  // ---------------------------------------------------------------------

  /** A bracket expression of the GSTIN regular expression. */
  datatype CharClass = Digit | Upper | NonZeroDigitOrUpper | Only(c: char) | DigitOrUpper

  predicate InClass(c: char, k: CharClass)
  {
    match k
    case Digit => IsDigit(c)
    case Upper => IsAsciiUpper(c)
    case NonZeroDigitOrUpper => ('1' <= c <= '9') || IsAsciiUpper(c)
    case Only(x) => c == x
    case DigitOrUpper => IsDigit(c) || IsAsciiUpper(c)
  }

  /**
   * `[0-9]{2}[A-Z]{5}[0-9]{4}[A-Z]{1}[1-9A-Z]{1}[Z]{1}[0-9A-Z]{1}`, one class
   * per character position.
   */
  const GstinPattern: seq<CharClass> :=
    [Digit, Digit, Upper, Upper, Upper, Upper, Upper, Digit, Digit, Digit, Digit,
     Upper, NonZeroDigitOrUpper, Only('Z'), DigitOrUpper]

  /** The whole of `s` matches the pattern, one character per class. */
  predicate MatchesExactly(pattern: seq<CharClass>, s: string)
  {
    |s| == |pattern| && forall i :: 0 <= i < |s| ==> InClass(s[i], pattern[i])
  }

  /**
   * `preg_match('/^…$/', s)` for a fixed-length pattern: without the `D`
   * modifier, `$` also matches just before a final newline.
   */
  predicate MatchesAnchored(pattern: seq<CharClass>, s: string)
  {
    MatchesExactly(pattern, s)
    || (|s| == |pattern| + 1 && s[|pattern|] == '\n' && MatchesExactly(pattern, s[..|pattern|]))
  }

  /** `isValidGstin`. */
  predicate IsValidGstin(gstin: string)
  {
    MatchesAnchored(GstinPattern, gstin)
  }

  /** The GSTIN layout written out field by field. */
  predicate GstinLayout(g: string)
  {
    |g| == 15
    && IsDigit(g[0]) && IsDigit(g[1])
    && (forall i :: 2 <= i < 7 ==> IsAsciiUpper(g[i]))
    && (forall i :: 7 <= i < 11 ==> IsDigit(g[i]))
    && IsAsciiUpper(g[11])
    && (('1' <= g[12] <= '9') || IsAsciiUpper(g[12]))
    && g[13] == 'Z'
    && (IsDigit(g[14]) || IsAsciiUpper(g[14]))
  }

  lemma MatchesGstinLayout(g: string)
    ensures MatchesExactly(GstinPattern, g) <==> GstinLayout(g)
  {
    var p := GstinPattern;
    if |g| == 15 {
      assert p[0] == Digit && p[1] == Digit && p[11] == Upper && p[12] == NonZeroDigitOrUpper;
      assert p[13] == Only('Z') && p[14] == DigitOrUpper;
      assert forall i :: 2 <= i < 7 ==> p[i] == Upper;
      assert forall i :: 7 <= i < 11 ==> p[i] == Digit;
    }
  }

  /**
   * A GSTIN is accepted exactly when it has the 15-character layout,
   * possibly followed by one newline.
   */
  lemma GstinAcceptedIffLayout(g: string)
    ensures IsValidGstin(g) <==> GstinLayout(g) || (|g| == 16 && g[15] == '\n' && GstinLayout(g[..15]))
  {
    MatchesGstinLayout(g);
    if |g| == 16 {
      MatchesGstinLayout(g[..15]);
    }
  }

  lemma SampleGstinIsValid()
    ensures IsValidGstin("29ABCDE1234F1Z5")
  {
    var g := "29ABCDE1234F1Z5";
    assert forall i :: 2 <= i < 7 ==> IsAsciiUpper(g[i]);
    assert forall i :: 7 <= i < 11 ==> IsDigit(g[i]);
    GstinAcceptedIffLayout(g);
  }

  lemma LowercaseGstinIsInvalid()
    ensures !IsValidGstin("29abcde1234f1z5")
  {
    var g := "29abcde1234f1z5";
    assert !IsAsciiUpper(g[2]);
    GstinAcceptedIffLayout(g);
  }

  /** Anything but 15 or 16 characters is refused. */
  lemma GstinLength(g: string)
    requires IsValidGstin(g)
    ensures |g| == 15 || (|g| == 16 && g[15] == '\n')
  {
  }

  // ---------------------------------------------------------------------
  // Checks on single values
  // ---------------------------------------------------------------------

  /** `$a[$f] ?? null` on the array being validated. */
  function At(es: seq<Entry>, f: string): Value { Get(es, Name(f)) }

  /** `is_numeric`: numbers and numeric strings. */
  predicate IsNumericValue(v: Value)
  {
    v.Num? || (v.Str? && IsNumericString(v.s))
  }

  /**
   * A value handed to the `string` parameter of `isValidGstin`: null and
   * arrays are refused, which the model counts as an invalid GSTIN.
   */
  predicate GstinAccepted(v: Value)
  {
    match StringArg(v)
    case Success(s) => IsValidGstin(s)
    case Failure(_) => false
  }

  /** The same for `isValidDate`, whose verdict comes from the date parser. */
  predicate DateAccepted(v: Value, clock: Clock)
  {
    match StringArg(v)
    case Success(s) => clock.isValidDate(s)
    case Failure(_) => false
  }

  /**
   * `in_array($v, $validTypes)` with PHP 8 loose comparison. The accepted
   * names are non-numeric strings, so a string matches only itself, `true`
   * matches any non-empty string, and no number, `false` or array matches.
   */
  predicate IsListedVoucherType(v: Value)
  {
    (v.Str? && v.s in VoucherType.ValidatorTypes) || v == Bool(true)
  }

  /** The field `f` of `v` is missing: unset, or also empty when `orEmpty`. */
  predicate Lacks(v: Value, f: string, orEmpty: bool)
  {
    if orEmpty then IsEmpty(Lookup(v, f)) else !IsSet(Lookup(v, f))
  }

  /** The fields of `fields` that `v` lacks, in order. */
  function Lacking(v: Value, fields: seq<string>, orEmpty: bool): (r: seq<string>)
    ensures |r| <= |fields|
    ensures forall f :: f in r <==> f in fields && Lacks(v, f, orEmpty)
    decreases |fields|
  {
    if fields == [] then []
    else
      var f := fields[|fields| - 1];
      assert fields == fields[..|fields| - 1] + [f];
      Lacking(v, fields[..|fields| - 1], orEmpty) + (if Lacks(v, f, orEmpty) then [f] else [])
  }

  lemma LackingStep(v: Value, fields: seq<string>, j: nat, orEmpty: bool)
    requires j < |fields|
    ensures Lacking(v, fields[..j + 1], orEmpty)
         == Lacking(v, fields[..j], orEmpty) + (if Lacks(v, fields[j], orEmpty) then [fields[j]] else [])
  {
    assert fields[..j + 1][..j] == fields[..j];
  }

  /** One message per name: `before + name + after`. */
  function Messages(before: string, names: seq<string>, after: string): (r: seq<string>)
    ensures |r| == |names|
    ensures forall i :: 0 <= i < |names| ==> r[i] == before + names[i] + after
  {
    seq(|names|, i requires 0 <= i < |names| => before + names[i] + after)
  }

  lemma MessagesSnoc(before: string, names: seq<string>, extra: seq<string>, after: string)
    requires |extra| <= 1
    ensures Messages(before, names + extra, after) == Messages(before, names, after) + Messages(before, extra, after)
  {
  }

  /** `"<what> at index {$index}: "`. */
  function AtIndex(what: string, index: Key): string
  {
    what + " at index " + KeyText(index) + ": "
  }

  /** `"Missing '<field>'"` after the index prefix. */
  function MissingMessage(prefix: string, field: string): string
  {
    prefix + "Missing '" + field + "'"
  }

  /** `"<prefix>'<field>' must be numeric"`. */
  function NumericMessage(prefix: string, field: string): string
  {
    prefix + "'" + field + "' must be numeric"
  }

  // ---------------------------------------------------------------------
  // The error list, check by check
  //
  // Each check is a function from the list before it to the list after it,
  // in the order the validator runs them.
  // ---------------------------------------------------------------------

  /** The list after one check: `msg` is appended when the check fails. */
  function Report(errs: seq<string>, failed: bool, msg: string): (r: seq<string>)
    ensures errs <= r
  {
    if failed then errs + [msg] else errs
  }

  /** A check applied to each element of a list, in order. */
  function EachChecks(check: (seq<string>, Key, Value) -> seq<string>, errs: seq<string>, es: seq<Entry>): seq<string>
    decreases |es|
  {
    if es == [] then errs
    else
      var e := es[|es| - 1];
      check(EachChecks(check, errs, es[..|es| - 1]), e.key, e.val)
  }

  lemma EachChecksStep(check: (seq<string>, Key, Value) -> seq<string>, errs: seq<string>, es: seq<Entry>, i: nat)
    requires i < |es|
    ensures EachChecks(check, errs, es[..i + 1]) == check(EachChecks(check, errs, es[..i]), es[i].key, es[i].val)
  {
    assert es[..i + 1][..i] == es[..i];
  }

  /** The required `fields` of `v`, one check per field, in order. */
  function RequiredChecks(errs: seq<string>, v: Value, fields: seq<string>, orEmpty: bool, before: string): seq<string>
    decreases |fields|
  {
    if fields == [] then errs
    else
      var f := fields[|fields| - 1];
      Report(RequiredChecks(errs, v, fields[..|fields| - 1], orEmpty, before), Lacks(v, f, orEmpty), before + f + "'")
  }

  lemma RequiredChecksStep(errs: seq<string>, v: Value, fields: seq<string>, orEmpty: bool, before: string, k: nat)
    requires k < |fields|
    ensures RequiredChecks(errs, v, fields[..k + 1], orEmpty, before)
         == Report(RequiredChecks(errs, v, fields[..k], orEmpty, before), Lacks(v, fields[k], orEmpty), before + fields[k] + "'")
  {
    assert fields[..k + 1][..k] == fields[..k];
  }

  // Units, ledgers, stock items

  function UnitChecks(errs: seq<string>, index: Key, unit: Value): (r: seq<string>)
    ensures errs <= r
  {
    var e := Report(errs, !IsSet(Lookup(unit, "name")), MissingMessage(AtIndex("Unit", index), "name"));
    Report(e, !IsSet(Lookup(unit, "uqc_name")), MissingMessage(AtIndex("Unit", index), "uqc_name"))
  }

  function LedgerGstinMessage(ledger: Value): string
  {
    "Ledger '" + ToText(Lookup(ledger, "name")) + "': Invalid GSTIN format"
  }

  function LedgerChecks(errs: seq<string>, index: Key, ledger: Value): (r: seq<string>)
    ensures errs <= r
  {
    var e := Report(errs, !IsSet(Lookup(ledger, "name")), MissingMessage(AtIndex("Ledger", index), "name"));
    GstinCheck(e, Lookup(ledger, "gst_in"), LedgerGstinMessage(ledger))
  }

  function GstMissingMessage(item: Value, field: string): string
  {
    "Stock item '" + ToText(Lookup(item, "name")) + "': GST applicable but '" + field + "' missing"
  }

  /** The checks that run when `gst_applicable` is exactly `true`. */
  function StockItemGstChecks(errs: seq<string>, item: Value): (r: seq<string>)
    ensures errs <= r
  {
    var e := Report(errs, !IsSet(Lookup(item, "gst_percentage")), GstMissingMessage(item, "gst_percentage"));
    Report(e, !IsSet(Lookup(item, "hsn")), GstMissingMessage(item, "hsn"))
  }

  function StockItemChecks(errs: seq<string>, index: Key, item: Value): (r: seq<string>)
    ensures errs <= r
  {
    var e := Report(errs, !IsSet(Lookup(item, "name")), MissingMessage(AtIndex("Stock item", index), "name"));
    var e' := Report(e, !IsSet(Lookup(item, "unit")), MissingMessage(AtIndex("Stock item", index), "unit"));
    if Lookup(item, "gst_applicable") == Bool(true) then StockItemGstChecks(e', item) else e'
  }

  // Voucher items and tax details

  const ItemFields: seq<string> := ["ledger_name", "stock_item_name", "unit", "price", "qty"]

  const EmptyItemsMessage: string := "Voucher: 'voucher_items' array is empty"

  /** `$item[$f]` is set but not numeric. */
  predicate NotNumeric(v: Value, f: string)
  {
    IsSet(Lookup(v, f)) && !IsNumericValue(Lookup(v, f))
  }

  function ItemChecks(errs: seq<string>, index: Key, item: Value): seq<string>
  {
    var prefix := AtIndex("Voucher item", index);
    var e := RequiredChecks(errs, item, ItemFields, false, prefix + "Missing '");
    var e' := Report(e, NotNumeric(item, "price"), NumericMessage(prefix, "price"));
    Report(e', NotNumeric(item, "qty"), NumericMessage(prefix, "qty"))
  }

  /** `validateVoucherItems`: an empty list is one error and no item checks. */
  function VoucherItemsChecks(errs: seq<string>, items: seq<Entry>): seq<string>
  {
    if items == [] then errs + [EmptyItemsMessage] else EachChecks(ItemChecks, errs, items)
  }

  function TaxChecks(errs: seq<string>, index: Key, tax: Value): (r: seq<string>)
    ensures errs <= r
  {
    var prefix := AtIndex("Tax detail", index);
    var e := Report(errs, !IsSet(Lookup(tax, "name")), MissingMessage(prefix, "name"));
    var e' := Report(e, !IsSet(Lookup(tax, "amount")), MissingMessage(prefix, "amount"));
    Report(e', NotNumeric(tax, "amount"), NumericMessage(prefix, "amount"))
  }

  // The voucher

  const VoucherRequired: seq<string> := ["voucher_type", "voucher_number", "voucher_date"]

  const RequiredBefore: string := "Voucher: Missing required field '"

  function InvalidTypeMessage(voucherType: Value): string
  {
    "Voucher: Invalid voucher_type '" + ToText(voucherType) + "'. Must be one of: "
    + Join(VoucherType.ValidatorTypes, ", ")
  }

  const InvalidDateMessage: string := "Voucher: Invalid date format for 'voucher_date'. Use YYYY-MM-DD format"

  const VoucherGstinMessage: string := "Voucher: Invalid GSTIN format"

  /** The voucher type, when given, must be one of the accepted names. */
  function TypeCheck(errs: seq<string>, voucherType: Value): (r: seq<string>)
    ensures errs <= r
  {
    if IsSet(voucherType) then Report(errs, !IsListedVoucherType(voucherType), InvalidTypeMessage(voucherType)) else errs
  }

  /** The date, when given, must be accepted by the date parser. */
  function DateCheck(errs: seq<string>, date: Value, clock: Clock): (r: seq<string>)
    ensures errs <= r
  {
    Report(errs, IsSet(date) && !DateAccepted(date, clock), InvalidDateMessage)
  }

  /** A GSTIN is checked only when it is present and non-empty. */
  function GstinCheck(errs: seq<string>, gstin: Value, msg: string): (r: seq<string>)
    ensures errs <= r
  {
    if IsSet(gstin) && !IsEmpty(gstin) then Report(errs, !GstinAccepted(gstin), msg) else errs
  }

  /** The checks on the voucher's own fields: required, type, date, GSTIN. */
  function VoucherFieldChecks(errs: seq<string>, voucher: seq<Entry>, clock: Clock): seq<string>
  {
    var e := RequiredChecks(errs, Arr(voucher), VoucherRequired, true, RequiredBefore);
    GstinCheck(DateCheck(TypeCheck(e, At(voucher, "voucher_type")), At(voucher, "voucher_date"), clock),
               At(voucher, "gst_in"), VoucherGstinMessage)
  }

  const ItemsNotArrayMessage: string := "Voucher: 'voucher_items' must be an array"

  const TaxesNotArrayMessage: string := "Voucher: 'tax_details' must be an array"

  const ChargesNotArrayMessage: string := "Voucher: 'additional_charges' must be an array"

  function ItemListCheck(errs: seq<string>, items: Value): seq<string>
  {
    if !IsSet(items) then errs
    else if !items.Arr? then errs + [ItemsNotArrayMessage]
    else VoucherItemsChecks(errs, items.entries)
  }

  function TaxListCheck(errs: seq<string>, taxes: Value): seq<string>
  {
    if !IsSet(taxes) then errs
    else if !taxes.Arr? then errs + [TaxesNotArrayMessage]
    else EachChecks(TaxChecks, errs, taxes.entries)
  }

  /** Additional charges are only checked to be an array. */
  function ChargesCheck(errs: seq<string>, charges: Value): (r: seq<string>)
    ensures errs <= r
  {
    Report(errs, IsSet(charges) && !charges.Arr?, ChargesNotArrayMessage)
  }

  /** The checks on the voucher's lists: items, taxes, additional charges. */
  function VoucherListChecks(errs: seq<string>, voucher: seq<Entry>): seq<string>
  {
    var e := ItemListCheck(errs, At(voucher, "voucher_items"));
    ChargesCheck(TaxListCheck(e, At(voucher, "tax_details")), At(voucher, "additional_charges"))
  }

  /** `validateVoucher`. */
  function VoucherChecks(errs: seq<string>, voucher: seq<Entry>, clock: Clock): seq<string>
  {
    VoucherListChecks(VoucherFieldChecks(errs, voucher, clock), voucher)
  }

  // The documents

  const MissingCompanyMessage: string := "Missing required field: 'company_name'"

  const LedgerListMessage: string := "Missing or invalid field: 'ledger' (must be an array)"

  const MissingVoucherMessage: string := "Missing required field: 'voucher'"

  function CompanyChecks(errs: seq<string>, json: seq<Entry>): seq<string>
  {
    var company := At(json, "company_name");
    Report(errs, !IsSet(company) || IsEmpty(company), MissingCompanyMessage)
  }

  function NotAnArrayMessage(field: string): string
  {
    "Field '" + field + "' must be an array"
  }

  /** An optional list: absent is fine, anything but an array is an error. */
  function OptionalListChecks(errs: seq<string>, v: Value, field: string, check: (seq<string>, Key, Value) -> seq<string>): seq<string>
  {
    if !IsSet(v) then errs
    else if !v.Arr? then errs + [NotAnArrayMessage(field)]
    else EachChecks(check, errs, v.entries)
  }

  /** `validateMasterJson`, from a reset list. */
  function MasterErrors(json: seq<Entry>): seq<string>
  {
    var e := CompanyChecks([], json);
    var ledgers := At(json, "ledger");
    if !IsSet(ledgers) || !ledgers.Arr? then e + [LedgerListMessage] else EachChecks(LedgerChecks, e, ledgers.entries)
  }

  /** The optional lists of a voucher document, after the company check. */
  function VoucherJsonListChecks(errs: seq<string>, json: seq<Entry>): seq<string>
  {
    var e1 := OptionalListChecks(errs, At(json, "units"), "units", UnitChecks);
    var e2 := OptionalListChecks(e1, At(json, "ledgers"), "ledgers", LedgerChecks);
    OptionalListChecks(e2, At(json, "stock_item"), "stock_item", StockItemChecks)
  }

  /** `validateVoucherJson`, from a reset list. */
  function VoucherJsonErrors(json: seq<Entry>, clock: Clock): seq<string>
  {
    var e := VoucherJsonListChecks(CompanyChecks([], json), json);
    var voucher := At(json, "voucher");
    if !IsSet(voucher) then e + [MissingVoucherMessage]
    else if !voucher.Arr? then e + [NotAnArrayMessage("voucher")]
    else VoucherChecks(e, voucher.entries, clock)
  }

  // ---------------------------------------------------------------------
  // What the checks accept, stated field by field
  // ---------------------------------------------------------------------

  /** Every element of `es` satisfies `ok`. */
  predicate All(ok: Value -> bool, es: seq<Entry>)
  {
    forall i :: 0 <= i < |es| ==> ok(es[i].val)
  }

  predicate UnitOk(unit: Value)
  {
    IsSet(Lookup(unit, "name")) && IsSet(Lookup(unit, "uqc_name"))
  }

  /** A GSTIN field passes when it is absent, empty, or well formed. */
  predicate GstinFieldOk(v: Value)
  {
    IsEmpty(v) || GstinAccepted(v)
  }

  predicate LedgerOk(ledger: Value)
  {
    IsSet(Lookup(ledger, "name")) && GstinFieldOk(Lookup(ledger, "gst_in"))
  }

  predicate StockItemOk(item: Value)
  {
    IsSet(Lookup(item, "name")) && IsSet(Lookup(item, "unit"))
    && (Lookup(item, "gst_applicable") == Bool(true) ==> IsSet(Lookup(item, "gst_percentage")) && IsSet(Lookup(item, "hsn")))
  }

  predicate ItemOk(item: Value)
  {
    (forall f :: f in ItemFields ==> IsSet(Lookup(item, f)))
    && IsNumericValue(Lookup(item, "price")) && IsNumericValue(Lookup(item, "qty"))
  }

  predicate TaxOk(tax: Value)
  {
    IsSet(Lookup(tax, "name")) && IsNumericValue(Lookup(tax, "amount"))
  }

  predicate VoucherFieldsOk(voucher: seq<Entry>, clock: Clock)
  {
    (forall f :: f in VoucherRequired ==> !IsEmpty(At(voucher, f)))
    && IsListedVoucherType(At(voucher, "voucher_type"))
    && DateAccepted(At(voucher, "voucher_date"), clock)
    && GstinFieldOk(At(voucher, "gst_in"))
  }

  /** The item list, when given, must be a non-empty array of passing items. */
  predicate ItemListOk(items: Value)
  {
    IsSet(items) ==> items.Arr? && items.entries != [] && All(ItemOk, items.entries)
  }

  predicate VoucherListsOk(voucher: seq<Entry>)
  {
    var charges := At(voucher, "additional_charges");
    ItemListOk(At(voucher, "voucher_items"))
    && OptionalListOk(At(voucher, "tax_details"), TaxOk)
    && (IsSet(charges) ==> charges.Arr?)
  }

  predicate MasterOk(json: seq<Entry>)
  {
    !IsEmpty(At(json, "company_name")) && At(json, "ledger").Arr? && All(LedgerOk, At(json, "ledger").entries)
  }

  /** An optional list passes when it is absent, or an array whose every element passes. */
  predicate OptionalListOk(v: Value, ok: Value -> bool)
  {
    IsSet(v) ==> v.Arr? && All(ok, v.entries)
  }

  predicate VoucherJsonOk(json: seq<Entry>, clock: Clock)
  {
    var voucher := At(json, "voucher");
    !IsEmpty(At(json, "company_name"))
    && OptionalListOk(At(json, "units"), UnitOk)
    && OptionalListOk(At(json, "ledgers"), LedgerOk)
    && OptionalListOk(At(json, "stock_item"), StockItemOk)
    && voucher.Arr? && VoucherFieldsOk(voucher.entries, clock) && VoucherListsOk(voucher.entries)
  }

  // ---------------------------------------------------------------------
  // What the error list means
  // ---------------------------------------------------------------------

  /** A list of checks leaves the list empty exactly when it started empty and every element passes. */
  lemma {:induction false} EachChecksEmptyIff(check: (seq<string>, Key, Value) -> seq<string>, ok: Value -> bool, errs: seq<string>, es: seq<Entry>)
    requires forall e, k, v :: check(e, k, v) == [] <==> e == [] && ok(v)
    ensures EachChecks(check, errs, es) == [] <==> errs == [] && All(ok, es)
    decreases |es|
  {
    if es != [] {
      var n := |es| - 1;
      EachChecksEmptyIff(check, ok, errs, es[..n]);
      assert forall i :: 0 <= i < n ==> es[..n][i] == es[i];
    }
  }

  /** A list of checks only ever appends. */
  lemma {:induction false} EachChecksExtends(check: (seq<string>, Key, Value) -> seq<string>, errs: seq<string>, es: seq<Entry>)
    requires forall e, k, v :: e <= check(e, k, v)
    ensures errs <= EachChecks(check, errs, es)
    decreases |es|
  {
    if es != [] {
      var n := |es| - 1;
      EachChecksExtends(check, errs, es[..n]);
      var mid := EachChecks(check, errs, es[..n]);
      assert mid <= check(mid, es[n].key, es[n].val);
    }
  }

  /**
   * The required-field checks report exactly the lacking fields, one
   * message each, in the order the fields are listed.
   */
  lemma {:induction false} RequiredChecksReportLacking(errs: seq<string>, v: Value, fields: seq<string>, orEmpty: bool, before: string)
    ensures RequiredChecks(errs, v, fields, orEmpty, before) == errs + Messages(before, Lacking(v, fields, orEmpty), "'")
    decreases |fields|
  {
    if fields != [] {
      var n := |fields| - 1;
      var f := fields[n];
      RequiredChecksReportLacking(errs, v, fields[..n], orEmpty, before);
      var lacking := Lacking(v, fields[..n], orEmpty);
      var extra := if Lacks(v, f, orEmpty) then [f] else [];
      assert Lacking(v, fields, orEmpty) == lacking + extra;
      MessagesSnoc(before, lacking, extra, "'");
    }
  }

  lemma RequiredChecksEmptyIff(errs: seq<string>, v: Value, fields: seq<string>, orEmpty: bool, before: string)
    ensures RequiredChecks(errs, v, fields, orEmpty, before) == [] <==> errs == [] && forall f :: f in fields ==> !Lacks(v, f, orEmpty)
  {
    RequiredChecksReportLacking(errs, v, fields, orEmpty, before);
    var lacking := Lacking(v, fields, orEmpty);
    if lacking != [] {
      assert lacking[0] in lacking;
    }
  }

  lemma UnitChecksEmptyIff()
    ensures forall e, k, v :: UnitChecks(e, k, v) == [] <==> e == [] && UnitOk(v)
  {
  }

  lemma LedgerChecksEmptyIff()
    ensures forall e, k, v :: LedgerChecks(e, k, v) == [] <==> e == [] && LedgerOk(v)
  {
  }

  lemma StockItemChecksEmptyIff()
    ensures forall e, k, v :: StockItemChecks(e, k, v) == [] <==> e == [] && StockItemOk(v)
  {
  }

  lemma ItemChecksEmptyIff()
    ensures forall e, k, v :: ItemChecks(e, k, v) == [] <==> e == [] && ItemOk(v)
  {
    forall e, k, v ensures ItemChecks(e, k, v) == [] <==> e == [] && ItemOk(v) {
      RequiredChecksEmptyIff(e, v, ItemFields, false, AtIndex("Voucher item", k) + "Missing '");
      assert "price" in ItemFields && "qty" in ItemFields;
    }
  }

  lemma TaxChecksEmptyIff()
    ensures forall e, k, v :: TaxChecks(e, k, v) == [] <==> e == [] && TaxOk(v)
  {
  }

  /** The master document passes exactly when it names a company and every ledger passes. */
  lemma MasterErrorsEmptyIff(json: seq<Entry>)
    ensures MasterErrors(json) == [] <==> MasterOk(json)
  {
    var ledgers := At(json, "ledger");
    if ledgers.Arr? {
      LedgerChecksEmptyIff();
      EachChecksEmptyIff(LedgerChecks, LedgerOk, CompanyChecks([], json), ledgers.entries);
    }
  }

  lemma VoucherFieldChecksEmptyIff(errs: seq<string>, voucher: seq<Entry>, clock: Clock)
    ensures VoucherFieldChecks(errs, voucher, clock) == [] <==> errs == [] && VoucherFieldsOk(voucher, clock)
  {
    RequiredChecksEmptyIff(errs, Arr(voucher), VoucherRequired, true, RequiredBefore);
    assert "voucher_type" in VoucherRequired && "voucher_date" in VoucherRequired;
  }

  lemma ItemListCheckEmptyIff(errs: seq<string>, items: Value)
    ensures ItemListCheck(errs, items) == [] <==> errs == [] && ItemListOk(items)
  {
    if items.Arr? && items.entries != [] {
      ItemChecksEmptyIff();
      EachChecksEmptyIff(ItemChecks, ItemOk, errs, items.entries);
    }
  }

  lemma TaxListCheckEmptyIff(errs: seq<string>, taxes: Value)
    ensures TaxListCheck(errs, taxes) == [] <==> errs == [] && OptionalListOk(taxes, TaxOk)
  {
    if taxes.Arr? {
      TaxChecksEmptyIff();
      EachChecksEmptyIff(TaxChecks, TaxOk, errs, taxes.entries);
    }
  }

  lemma VoucherListChecksEmptyIff(errs: seq<string>, voucher: seq<Entry>)
    ensures VoucherListChecks(errs, voucher) == [] <==> errs == [] && VoucherListsOk(voucher)
  {
    ItemListCheckEmptyIff(errs, At(voucher, "voucher_items"));
    TaxListCheckEmptyIff(ItemListCheck(errs, At(voucher, "voucher_items")), At(voucher, "tax_details"));
  }

  lemma OptionalListChecksEmptyIff(errs: seq<string>, v: Value, field: string,
                                   check: (seq<string>, Key, Value) -> seq<string>, ok: Value -> bool)
    requires forall e, k, v :: check(e, k, v) == [] <==> e == [] && ok(v)
    ensures OptionalListChecks(errs, v, field, check) == [] <==> errs == [] && OptionalListOk(v, ok)
  {
    if v.Arr? {
      EachChecksEmptyIff(check, ok, errs, v.entries);
    }
  }

  /** The voucher document passes exactly when every part of it passes. */
  lemma VoucherJsonErrorsEmptyIff(json: seq<Entry>, clock: Clock)
    ensures VoucherJsonErrors(json, clock) == [] <==> VoucherJsonOk(json, clock)
  {
    UnitChecksEmptyIff();
    LedgerChecksEmptyIff();
    StockItemChecksEmptyIff();
    var e0 := CompanyChecks([], json);
    var e1 := OptionalListChecks(e0, At(json, "units"), "units", UnitChecks);
    var e2 := OptionalListChecks(e1, At(json, "ledgers"), "ledgers", LedgerChecks);
    OptionalListChecksEmptyIff(e0, At(json, "units"), "units", UnitChecks, UnitOk);
    OptionalListChecksEmptyIff(e1, At(json, "ledgers"), "ledgers", LedgerChecks, LedgerOk);
    OptionalListChecksEmptyIff(e2, At(json, "stock_item"), "stock_item", StockItemChecks, StockItemOk);
    var voucher := At(json, "voucher");
    if voucher.Arr? {
      var e := VoucherJsonListChecks(e0, json);
      VoucherFieldChecksEmptyIff(e, voucher.entries, clock);
      VoucherListChecksEmptyIff(VoucherFieldChecks(e, voucher.entries, clock), voucher.entries);
    }
  }

  lemma OptionalListChecksExtends(errs: seq<string>, v: Value, field: string, check: (seq<string>, Key, Value) -> seq<string>)
    requires forall e, k, v :: e <= check(e, k, v)
    ensures errs <= OptionalListChecks(errs, v, field, check)
  {
    if v.Arr? {
      EachChecksExtends(check, errs, v.entries);
    }
  }

  lemma RequiredChecksExtends(errs: seq<string>, v: Value, fields: seq<string>, orEmpty: bool, before: string)
    ensures errs <= RequiredChecks(errs, v, fields, orEmpty, before)
  {
    RequiredChecksReportLacking(errs, v, fields, orEmpty, before);
  }

  lemma ItemChecksExtend()
    ensures forall e, k, v :: e <= ItemChecks(e, k, v)
  {
    forall e, k, v ensures e <= ItemChecks(e, k, v) {
      RequiredChecksExtends(e, v, ItemFields, false, AtIndex("Voucher item", k) + "Missing '");
    }
  }

  lemma ItemListCheckExtends(errs: seq<string>, items: Value)
    ensures errs <= ItemListCheck(errs, items)
  {
    if items.Arr? && items.entries != [] {
      ItemChecksExtend();
      EachChecksExtends(ItemChecks, errs, items.entries);
    }
  }

  lemma TaxListCheckExtends(errs: seq<string>, taxes: Value)
    ensures errs <= TaxListCheck(errs, taxes)
  {
    if taxes.Arr? {
      EachChecksExtends(TaxChecks, errs, taxes.entries);
    }
  }

  /** Validating a voucher only appends to the list. */
  lemma VoucherChecksExtends(errs: seq<string>, voucher: seq<Entry>, clock: Clock)
    ensures errs <= VoucherChecks(errs, voucher, clock)
  {
    RequiredChecksExtends(errs, Arr(voucher), VoucherRequired, true, RequiredBefore);
    var e := VoucherFieldChecks(errs, voucher, clock);
    ItemListCheckExtends(e, At(voucher, "voucher_items"));
    var e1 := ItemListCheck(e, At(voucher, "voucher_items"));
    TaxListCheckExtends(e1, At(voucher, "tax_details"));
  }

  /** A missing or empty company name is the first message of either document. */
  lemma CompanyReportedFirst(json: seq<Entry>, clock: Clock)
    requires IsEmpty(At(json, "company_name"))
    ensures MasterErrors(json) != [] && MasterErrors(json)[0] == MissingCompanyMessage
    ensures VoucherJsonErrors(json, clock) != [] && VoucherJsonErrors(json, clock)[0] == MissingCompanyMessage
  {
    hide UnitChecks, LedgerChecks, StockItemChecks, VoucherChecks;
    var e0 := CompanyChecks([], json);
    assert e0 == [MissingCompanyMessage];
    var ledgers := At(json, "ledger");
    if ledgers.Arr? {
      EachChecksExtends(LedgerChecks, e0, ledgers.entries);
    }
    var e1 := OptionalListChecks(e0, At(json, "units"), "units", UnitChecks);
    var e2 := OptionalListChecks(e1, At(json, "ledgers"), "ledgers", LedgerChecks);
    var e3 := OptionalListChecks(e2, At(json, "stock_item"), "stock_item", StockItemChecks);
    OptionalListChecksExtends(e0, At(json, "units"), "units", UnitChecks);
    OptionalListChecksExtends(e1, At(json, "ledgers"), "ledgers", LedgerChecks);
    OptionalListChecksExtends(e2, At(json, "stock_item"), "stock_item", StockItemChecks);
    assert e0 <= e3;
    var voucher := At(json, "voucher");
    if voucher.Arr? {
      VoucherChecksExtends(e3, voucher.entries, clock);
    }
  }

  /** A voucher document without a voucher always fails, with that message last. */
  lemma MissingVoucherReportedLast(json: seq<Entry>, clock: Clock)
    requires !IsSet(At(json, "voucher"))
    ensures !VoucherJsonOk(json, clock)
    ensures VoucherJsonErrors(json, clock) != []
    ensures VoucherJsonErrors(json, clock)[|VoucherJsonErrors(json, clock)| - 1] == MissingVoucherMessage
  {
  }

  /** An empty item list is one message and no per-item checks. */
  lemma EmptyItemListIsOneError(errs: seq<string>, voucher: seq<Entry>)
    requires At(voucher, "voucher_items") == Arr([])
    requires !IsSet(At(voucher, "tax_details")) && !IsSet(At(voucher, "additional_charges"))
    ensures VoucherListChecks(errs, voucher) == errs + [EmptyItemsMessage]
    ensures !VoucherListsOk(voucher)
  {
  }

  lemma MissingIsNotNumeric(prefix: string, f: string, g: string)
    ensures MissingMessage(prefix, f) != NumericMessage(prefix, g)
  {
    assert MissingMessage(prefix, f)[|prefix|] == 'M';
    assert NumericMessage(prefix, g)[|prefix|] == '\'';
  }

  lemma MessageNamesField(before: string, f: string, g: string)
    requires before + f + "'" == before + g + "'"
    ensures f == g
  {
    var m := before + f + "'";
    assert f == m[|before|..|before| + |f|];
    assert g == m[|before|..|before| + |g|];
  }

  /** A listed field's message is among the required-field messages exactly when the field is lacking. */
  lemma ReportedIffLacking(v: Value, fields: seq<string>, orEmpty: bool, before: string, f: string)
    requires f in fields
    ensures before + f + "'" in Messages(before, Lacking(v, fields, orEmpty), "'") <==> Lacks(v, f, orEmpty)
  {
    var missing := Lacking(v, fields, orEmpty);
    var listed := Messages(before, missing, "'");
    if before + f + "'" in listed {
      var i :| 0 <= i < |listed| && listed[i] == before + f + "'";
      MessageNamesField(before, missing[i], f);
    }
    if Lacks(v, f, orEmpty) {
      var i :| 0 <= i < |missing| && missing[i] == f;
      assert listed[i] == before + f + "'";
    }
  }

  /** A required item field is reported exactly when it is unset. */
  lemma ItemFieldReportedIffUnset(index: Key, item: Value, f: string)
    requires f in ItemFields
    ensures MissingMessage(AtIndex("Voucher item", index), f) in ItemChecks([], index, item) <==> !IsSet(Lookup(item, f))
  {
    var prefix := AtIndex("Voucher item", index);
    var before := prefix + "Missing '";
    RequiredChecksReportLacking([], item, ItemFields, false, before);
    var listed := Messages(before, Lacking(item, ItemFields, false), "'");
    var m := MissingMessage(prefix, f);
    assert m == before + f + "'";
    MissingIsNotNumeric(prefix, f, "price");
    MissingIsNotNumeric(prefix, f, "qty");
    assert ItemChecks([], index, item) == Report(Report([] + listed, NotNumeric(item, "price"), NumericMessage(prefix, "price")),
                                                 NotNumeric(item, "qty"), NumericMessage(prefix, "qty"));
    ReportedIffLacking(item, ItemFields, false, before, f);
  }

  /** An absent or empty GSTIN is never checked: the only ledger message left is the missing name. */
  lemma EmptyLedgerGstinNotChecked(errs: seq<string>, index: Key, ledger: Value)
    requires IsEmpty(Lookup(ledger, "gst_in"))
    ensures LedgerChecks(errs, index, ledger) == Report(errs, !IsSet(Lookup(ledger, "name")), MissingMessage(AtIndex("Ledger", index), "name"))
    ensures GstinFieldOk(Lookup(ledger, "gst_in"))
  {
  }

  /**
   * A string voucher type passes exactly when it is one of the seven names;
   * the loose comparison also lets `true` through.
   */
  lemma VoucherTypeMembership(s: string)
    ensures IsListedVoucherType(Str(s)) <==> s in VoucherType.ValidatorTypes
    ensures IsListedVoucherType(Bool(true)) && !IsListedVoucherType(Bool(false))
    ensures !IsListedVoucherType(Str("sale")) && IsListedVoucherType(Str("Sale"))
  {
    assert "Sale" == VoucherType.ValidatorTypes[0];
  }

  /** Messages joined with a newline give no text only for no message or one empty message. */
  lemma JoinEmptyIff(msgs: seq<string>)
    ensures Join(msgs, "\n") == "" <==> msgs == [] || msgs == [""]
  {
    if |msgs| == 1 {
      assert msgs == [msgs[0]];
    } else if |msgs| > 1 {
      assert |Join(msgs, "\n")| >= 1;
    }
  }

  // ---------------------------------------------------------------------
  // The validator object
  // ---------------------------------------------------------------------

  class JsonValidator {
    /** The messages of the last validation, in the order the checks ran. */
    var errors: seq<string>

    constructor ()
      ensures errors == []
    {
      errors := [];
    }

    /** `validateMasterJson`: resets the list, then runs the master checks. */
    method ValidateMasterJson(json: seq<Entry>) returns (ok: bool)
      modifies this
      ensures errors == MasterErrors(json)
      ensures ok <==> MasterOk(json)
      ensures ok <==> !HasErrors()
    {
      errors := [];
      var company := At(json, "company_name");
      if !IsSet(company) || IsEmpty(company) {
        errors := errors + [MissingCompanyMessage];
      }
      assert errors == CompanyChecks([], json);
      var ledgers := At(json, "ledger");
      if !IsSet(ledgers) || !ledgers.Arr? {
        errors := errors + [LedgerListMessage];
      } else {
        ValidateLedgers(ledgers.entries);
      }
      ok := errors == [];
      MasterErrorsEmptyIff(json);
    }

    /** `validateVoucherJson`: resets the list, then runs the voucher checks. */
    method ValidateVoucherJson(json: seq<Entry>, clock: Clock) returns (ok: bool)
      modifies this
      ensures errors == VoucherJsonErrors(json, clock)
      ensures ok <==> VoucherJsonOk(json, clock)
      ensures ok <==> !HasErrors()
    {
      errors := [];
      var company := At(json, "company_name");
      if !IsSet(company) || IsEmpty(company) {
        errors := errors + [MissingCompanyMessage];
      }
      assert errors == CompanyChecks([], json);
      ValidateOptionalLists(json);
      var voucher := At(json, "voucher");
      if !IsSet(voucher) {
        errors := errors + [MissingVoucherMessage];
      } else if !voucher.Arr? {
        errors := errors + [NotAnArrayMessage("voucher")];
      } else {
        ValidateVoucher(voucher.entries, clock);
      }
      ok := errors == [];
      VoucherJsonErrorsEmptyIff(json, clock);
    }

    /** The units, ledgers and stock items of `validateVoucherJson`, each checked when present. */
    method ValidateOptionalLists(json: seq<Entry>)
      modifies this
      ensures errors == VoucherJsonListChecks(old(errors), json)
    {
      ghost var e0 := errors;
      var units := At(json, "units");
      if IsSet(units) {
        if !units.Arr? {
          errors := errors + [NotAnArrayMessage("units")];
        } else {
          ValidateUnits(units.entries);
        }
      }
      ghost var e1 := errors;
      assert e1 == OptionalListChecks(e0, units, "units", UnitChecks);
      var ledgers := At(json, "ledgers");
      if IsSet(ledgers) {
        if !ledgers.Arr? {
          errors := errors + [NotAnArrayMessage("ledgers")];
        } else {
          ValidateLedgers(ledgers.entries);
        }
      }
      ghost var e2 := errors;
      assert e2 == OptionalListChecks(e1, ledgers, "ledgers", LedgerChecks);
      var items := At(json, "stock_item");
      if IsSet(items) {
        if !items.Arr? {
          errors := errors + [NotAnArrayMessage("stock_item")];
        } else {
          ValidateStockItems(items.entries);
        }
      }
    }

    /** `validateUnits`. */
    method ValidateUnits(units: seq<Entry>)
      modifies this
      ensures errors == EachChecks(UnitChecks, old(errors), units)
    {
      var i := 0;
      while i < |units|
        invariant 0 <= i <= |units|
        invariant errors == EachChecks(UnitChecks, old(errors), units[..i])
      {
        var index, unit := units[i].key, units[i].val;
        ghost var e0 := errors;
        if !IsSet(Lookup(unit, "name")) {
          errors := errors + [MissingMessage(AtIndex("Unit", index), "name")];
        }
        ghost var e1 := errors;
        assert e1 == Report(e0, !IsSet(Lookup(unit, "name")), MissingMessage(AtIndex("Unit", index), "name"));
        if !IsSet(Lookup(unit, "uqc_name")) {
          errors := errors + [MissingMessage(AtIndex("Unit", index), "uqc_name")];
        }
        assert errors == Report(e1, !IsSet(Lookup(unit, "uqc_name")), MissingMessage(AtIndex("Unit", index), "uqc_name"));
        EachChecksStep(UnitChecks, old(errors), units, i);
        i := i + 1;
      }
      assert units[..i] == units;
    }

    /** `validateLedgers`. */
    method ValidateLedgers(ledgers: seq<Entry>)
      modifies this
      ensures errors == EachChecks(LedgerChecks, old(errors), ledgers)
    {
      var i := 0;
      while i < |ledgers|
        invariant 0 <= i <= |ledgers|
        invariant errors == EachChecks(LedgerChecks, old(errors), ledgers[..i])
      {
        var index, ledger := ledgers[i].key, ledgers[i].val;
        ghost var e0 := errors;
        if !IsSet(Lookup(ledger, "name")) {
          errors := errors + [MissingMessage(AtIndex("Ledger", index), "name")];
        }
        ghost var e1 := errors;
        assert e1 == Report(e0, !IsSet(Lookup(ledger, "name")), MissingMessage(AtIndex("Ledger", index), "name"));
        var gstin := Lookup(ledger, "gst_in");
        if IsSet(gstin) && !IsEmpty(gstin) {
          if !GstinAccepted(gstin) {
            errors := errors + [LedgerGstinMessage(ledger)];
          }
          assert errors == Report(e1, !GstinAccepted(gstin), LedgerGstinMessage(ledger));
        }
        EachChecksStep(LedgerChecks, old(errors), ledgers, i);
        i := i + 1;
      }
      assert ledgers[..i] == ledgers;
    }

    /** `validateStockItems`. */
    method ValidateStockItems(items: seq<Entry>)
      modifies this
      ensures errors == EachChecks(StockItemChecks, old(errors), items)
    {
      var i := 0;
      while i < |items|
        invariant 0 <= i <= |items|
        invariant errors == EachChecks(StockItemChecks, old(errors), items[..i])
      {
        var index, item := items[i].key, items[i].val;
        ghost var e0 := errors;
        if !IsSet(Lookup(item, "name")) {
          errors := errors + [MissingMessage(AtIndex("Stock item", index), "name")];
        }
        ghost var e1 := errors;
        assert e1 == Report(e0, !IsSet(Lookup(item, "name")), MissingMessage(AtIndex("Stock item", index), "name"));
        if !IsSet(Lookup(item, "unit")) {
          errors := errors + [MissingMessage(AtIndex("Stock item", index), "unit")];
        }
        ghost var e2 := errors;
        assert e2 == Report(e1, !IsSet(Lookup(item, "unit")), MissingMessage(AtIndex("Stock item", index), "unit"));
        if IsSet(Lookup(item, "gst_applicable")) && Lookup(item, "gst_applicable") == Bool(true) {
          if !IsSet(Lookup(item, "gst_percentage")) {
            errors := errors + [GstMissingMessage(item, "gst_percentage")];
          }
          ghost var e3 := errors;
          assert e3 == Report(e2, !IsSet(Lookup(item, "gst_percentage")), GstMissingMessage(item, "gst_percentage"));
          if !IsSet(Lookup(item, "hsn")) {
            errors := errors + [GstMissingMessage(item, "hsn")];
          }
          assert errors == Report(e3, !IsSet(Lookup(item, "hsn")), GstMissingMessage(item, "hsn"));
        }
        EachChecksStep(StockItemChecks, old(errors), items, i);
        i := i + 1;
      }
      assert items[..i] == items;
    }

    /** The first half of `validateVoucher`: required fields, type, date and GSTIN. */
    method ValidateVoucherFields(voucher: seq<Entry>, clock: Clock)
      modifies this
      ensures errors == VoucherFieldChecks(old(errors), voucher, clock)
    {
      var k := 0;
      while k < |VoucherRequired|
        invariant 0 <= k <= |VoucherRequired|
        invariant errors == RequiredChecks(old(errors), Arr(voucher), VoucherRequired[..k], true, RequiredBefore)
      {
        var field := VoucherRequired[k];
        RequiredChecksStep(old(errors), Arr(voucher), VoucherRequired, true, RequiredBefore, k);
        ghost var e := errors;
        if !IsSet(At(voucher, field)) || IsEmpty(At(voucher, field)) {
          errors := errors + [RequiredBefore + field + "'"];
        }
        assert errors == Report(e, Lacks(Arr(voucher), field, true), RequiredBefore + field + "'");
        k := k + 1;
      }
      assert VoucherRequired[..k] == VoucherRequired;
      ghost var e1 := errors;
      var voucherType := At(voucher, "voucher_type");
      if IsSet(voucherType) {
        if !IsListedVoucherType(voucherType) {
          errors := errors + [InvalidTypeMessage(voucherType)];
        }
        assert errors == Report(e1, !IsListedVoucherType(voucherType), InvalidTypeMessage(voucherType));
      }
      ghost var e2 := errors;
      assert e2 == TypeCheck(e1, voucherType);
      var date := At(voucher, "voucher_date");
      if IsSet(date) && !DateAccepted(date, clock) {
        errors := errors + [InvalidDateMessage];
      }
      ghost var e3 := errors;
      assert e3 == DateCheck(e2, date, clock);
      var gstin := At(voucher, "gst_in");
      if IsSet(gstin) && !IsEmpty(gstin) {
        if !GstinAccepted(gstin) {
          errors := errors + [VoucherGstinMessage];
        }
        assert errors == Report(e3, !GstinAccepted(gstin), VoucherGstinMessage);
      }
      assert errors == GstinCheck(e3, gstin, VoucherGstinMessage);
    }

    /** `validateVoucher`: the checks on the voucher's own fields, then on its lists. */
    method ValidateVoucher(voucher: seq<Entry>, clock: Clock)
      modifies this
      ensures errors == VoucherChecks(old(errors), voucher, clock)
    {
      ValidateVoucherFields(voucher, clock);
      ghost var fields := errors;
      var items := At(voucher, "voucher_items");
      if IsSet(items) {
        if !items.Arr? {
          errors := errors + [ItemsNotArrayMessage];
        } else {
          ValidateVoucherItems(items.entries);
        }
      }
      ghost var e4 := errors;
      assert e4 == ItemListCheck(fields, items);
      var taxes := At(voucher, "tax_details");
      if IsSet(taxes) {
        if !taxes.Arr? {
          errors := errors + [TaxesNotArrayMessage];
        } else {
          ValidateTaxDetails(taxes.entries);
        }
      }
      ghost var e5 := errors;
      assert e5 == TaxListCheck(e4, taxes);
      var charges := At(voucher, "additional_charges");
      if IsSet(charges) {
        if !charges.Arr? {
          errors := errors + [ChargesNotArrayMessage];
        }
      }
      assert errors == ChargesCheck(e5, charges);
    }

    /** `validateVoucherItems`: the required fields of each item, then its numbers. */
    method ValidateVoucherItems(items: seq<Entry>)
      modifies this
      ensures errors == VoucherItemsChecks(old(errors), items)
    {
      if items == [] {
        errors := errors + [EmptyItemsMessage];
        return;
      }
      var i := 0;
      while i < |items|
        invariant 0 <= i <= |items|
        invariant errors == EachChecks(ItemChecks, old(errors), items[..i])
      {
        ValidateVoucherItem(items[i].key, items[i].val);
        EachChecksStep(ItemChecks, old(errors), items, i);
        i := i + 1;
      }
      assert items[..i] == items;
    }

    /** The body of the item loop of `validateVoucherItems`, for one item. */
    method ValidateVoucherItem(index: Key, item: Value)
      modifies this
      ensures errors == ItemChecks(old(errors), index, item)
    {
      var prefix := AtIndex("Voucher item", index);
      var k := 0;
      while k < |ItemFields|
        invariant 0 <= k <= |ItemFields|
        invariant errors == RequiredChecks(old(errors), item, ItemFields[..k], false, prefix + "Missing '")
      {
        var field := ItemFields[k];
        RequiredChecksStep(old(errors), item, ItemFields, false, prefix + "Missing '", k);
        ghost var e := errors;
        if !IsSet(Lookup(item, field)) {
          errors := errors + [prefix + "Missing '" + field + "'"];
        }
        assert errors == Report(e, Lacks(item, field, false), prefix + "Missing '" + field + "'");
        k := k + 1;
      }
      assert ItemFields[..k] == ItemFields;
      ghost var e1 := errors;
      if IsSet(Lookup(item, "price")) && !IsNumericValue(Lookup(item, "price")) {
        errors := errors + [NumericMessage(prefix, "price")];
      }
      ghost var e2 := errors;
      assert e2 == Report(e1, NotNumeric(item, "price"), NumericMessage(prefix, "price"));
      if IsSet(Lookup(item, "qty")) && !IsNumericValue(Lookup(item, "qty")) {
        errors := errors + [NumericMessage(prefix, "qty")];
      }
      assert errors == Report(e2, NotNumeric(item, "qty"), NumericMessage(prefix, "qty"));
    }

    /** `validateTaxDetails`. */
    method ValidateTaxDetails(taxes: seq<Entry>)
      modifies this
      ensures errors == EachChecks(TaxChecks, old(errors), taxes)
    {
      var i := 0;
      while i < |taxes|
        invariant 0 <= i <= |taxes|
        invariant errors == EachChecks(TaxChecks, old(errors), taxes[..i])
      {
        var index, tax := taxes[i].key, taxes[i].val;
        var prefix := AtIndex("Tax detail", index);
        ghost var e0 := errors;
        if !IsSet(Lookup(tax, "name")) {
          errors := errors + [MissingMessage(prefix, "name")];
        }
        ghost var e1 := errors;
        assert e1 == Report(e0, !IsSet(Lookup(tax, "name")), MissingMessage(prefix, "name"));
        if !IsSet(Lookup(tax, "amount")) {
          errors := errors + [MissingMessage(prefix, "amount")];
        }
        ghost var e2 := errors;
        assert e2 == Report(e1, !IsSet(Lookup(tax, "amount")), MissingMessage(prefix, "amount"));
        if IsSet(Lookup(tax, "amount")) && !IsNumericValue(Lookup(tax, "amount")) {
          errors := errors + [NumericMessage(prefix, "amount")];
        }
        assert errors == Report(e2, NotNumeric(tax, "amount"), NumericMessage(prefix, "amount"));
        EachChecksStep(TaxChecks, old(errors), taxes, i);
        i := i + 1;
      }
      assert taxes[..i] == taxes;
    }

    /** `getErrors`. */
    function GetErrors(): (r: seq<string>)
      reads this
      ensures r == errors
    {
      errors
    }

    /**
     * `getErrorsAsString`: the messages one per line; no text exactly when
     * there is no message or a single empty one.
     */
    function GetErrorsAsString(): (r: string)
      reads this
      ensures r == "" <==> errors == [] || errors == [""]
    {
      JoinEmptyIff(errors);
      Join(errors, "\n")
    }

    /** `hasErrors`. */
    predicate HasErrors()
      reads this
    {
      errors != []
    }
  }
}
