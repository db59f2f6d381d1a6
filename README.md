# tally-xml in Dafny

A model of the PHP library tally-xml, which turns JSON-like PHP arrays into a
Tally ERP import document (an XML ENVELOPE whose BODY/IMPORTDATA/REQUESTDATA
holds TALLYMESSAGE records for units, ledgers, stock items and vouchers).

The model follows the library's structure, one module per source file:

- `PhpArrays` (php_arrays.dfy): an ordered PHP array, `Value = Null | Bool | Num | Str | Arr(seq<Entry>)`.
  It keys entries by `Index(int)` or `Name(string)`. `Put` is `$a[k] = v`, `Get` is `$a[k] ?? null`.
  The module also holds the coercions PHP applies when a JSON value reaches a typed parameter
  (`string`, `float`, `?float`, `int`, `bool`); a failed one is a `TypeError`.
- `PhpStrings` and `PhpNumbers`: `strtolower`, `strtoupper` and `explode`, and decimal numbers.
  The decimal part covers `round(x, 2)`, `number_format(x, 2, '.', '')` and the text of a float
  interpolated into a string.
- `Helpers`: `clean`, `getInitials` and the debit/credit rules `isDeemedPositive` and `adjustAmount`.
  Dates and the clock reach the model as a `Clock` value.
- `TallyRecords`: small record builders shared by the builders (`Yes`/`No`, the TALLYMESSAGE wrapper,
  address lists).
- `TallyXml`: the serializer `TallyXmlConverter`, as a class whose methods build an element tree
  (`Leaf(name, text) | Node(name, children)`).
- `UnitBuilding`, `LedgerBuilding`, `StockItemBuilding` and `VoucherBuilding`: the four builders.
  Each is a class whose fields (the record as a `seq<Entry>`, the address lines, the inventory
  and ledger entries) the setter methods update.
- `VoucherType`, `GstDutyHead` and `GstRegistrationType`: the enums.
- `JsonValidation`: `JsonValidator`, a class whose `errors` list the validators append to.
  Each validator is proved against a specification function of the input.
- `ConversionInputs`, `MasterConversion` and `VoucherConversion`: the two converters.
  Their loops are methods proved against specification functions. Those functions fix the order
  of the entities, the defaults and the conditions under which each optional builder call fires.

## Model

| member | source | states |
|---|---|---|
| PhpStrings.Lower | src/Helpers.php:137 | `strtolower`: same length, every character lowered, no ASCII upper-case letter left |
| PhpStrings.Upper | src/Helpers.php:109-113 | `strtoupper`: same length, every character raised, no ASCII lower-case letter left |
| PhpStrings.LowerIdempotent | src/Helpers.php:137 | lowering twice is lowering once |
| PhpStrings.UpperIdempotent | src/Helpers.php:111 | raising twice is raising once |
| PhpStrings.LowerUpper | src/Helpers.php:137 | lowering an upper-cased text equals lowering the text |
| PhpStrings.Explode | src/Helpers.php:105 | `explode` always yields at least one piece |
| PhpStrings.ExplodeLength | src/Helpers.php:105 | `explode` yields one piece more than there are separators |
| PhpStrings.ExplodePiecesHaveNoSeparator | src/Helpers.php:105 | no piece contains the separator |
| PhpStrings.JoinExplode | src/Helpers.php:105 | joining the pieces with the separator gives the input back |
| PhpStrings.SubsequenceAppend | src/Helpers.php:107-108 | subsequences of two sequences concatenate to a subsequence of their concatenation |
| PhpStrings.SubsequenceTransitive | src/TallyXmlConverter.php:181-192 | a subsequence of a subsequence is a subsequence |
| PhpNumbers.Neg | src/Helpers.php:172 | `-$amount` has the negated value |
| PhpNumbers.Half | src/Builders/StockItemBuilder.php:108-109 | `$gstPercentage / 2` added to itself gives the percentage back |
| PhpNumbers.Round2Neg | src/Builders/VoucherBuilder.php:230 | `round(x, 2)` is symmetric around zero (halves round away from zero) |
| PhpNumbers.FormatAmountNeg | src/Helpers.php:67-70 | `number_format` of a negated amount whose rounding is positive is that text prefixed with '-' |
| PhpNumbers.FloatTextParses | src/Helpers.php:79-94 | the text a number interpolates to in `formatQuantity`/`formatRate` reads back as the same number (PHP writes this text for numbers of at most 14 significant digits) |
| PhpNumbers.FloatTextChars | src/Helpers.php:79-94 | the interpolated text is non-empty and made of digits, '-' and '.' only: no exponent, no INF or NAN for exact decimals (of at most 14 significant digits in PHP) |
| PhpNumbers.SignedMagnitudeParses | src/Helpers.php:79-94 | a sign followed by the magnitude's digits reads back as the number |
| PhpNumbers.Round2Nearest | src/Helpers.php:67-70 | `round(x, 2)` is within half a hundredth of x |
| PhpNumbers.Round2Exact | src/Helpers.php:67-70 | an amount with at most two decimals is not changed by `round(x, 2)` |
| PhpNumbers.FormatAmountParses | src/Helpers.php:67-70 | `number_format(x, 2, '.', '')` reads back as `round(x, 2)` with two decimals |
| PhpNumbers.NumericStringForms | src/Validation/JsonValidator.php:233-237 | `is_numeric` accepts leading and trailing white space and exponents ("1e3", "-2.5E-1") and rejects "12abc", " " and "- 5" |
| PhpNumbers.ExponentForms | src/Validation/JsonValidator.php:233-237 | "1e3" reads as 1000 and "-2.5E-1" as -0.25 |
| PhpNumbers.NotNumerals | src/Validation/JsonValidator.php:233-237 | "12abc", a lone space and a space between sign and digits are not numeric |
| PhpNumbers.PlainParse | src/Validation/JsonValidator.php:233-237 | a digit-led string without point or exponent is numeric exactly when it is all digits, with that value |
| PhpNumbers.PointParse | src/Validation/JsonValidator.php:233-237 | digits, a point and digits read as the decimal whose scale is the number of fraction digits |
| PhpNumbers.WithExponent | src/Validation/JsonValidator.php:233-237 | a mantissa followed by 'e' or 'E' and an exponent reads as the mantissa scaled by that power of ten |
| PhpNumbers.NonNumericLead | src/Validation/JsonValidator.php:233-237 | a string whose first character is not white space, a digit, a sign or a point is not numeric |
| PhpArrays.Put | src/Builders/UnitBuilder.php:51 | `$a[k] = v`: k now maps to v and every other key keeps its value; a new key is appended at the end |
| PhpArrays.PutPut | src/Builders/UnitBuilder.php:51 | writing a key twice leaves only the second write |
| PhpArrays.PutExisting | src/Builders/LedgerBuilder.php:169-182 | writing a key with the value it already holds changes nothing |
| PhpArrays.Coalesce | src/Converters/JsonToVoucherConverter.php:188-190 | `$v ?? $d` is v when v is set and d otherwise, so it yields null only when the default is null |
| PhpArrays.GetFirstEntry | src/Converters/JsonToVoucherConverter.php:188-190 | `$a[k]` is the value of the first entry with key k |
| PhpArrays.GetAbsent | src/Converters/JsonToVoucherConverter.php:188-190 | `$a[k] ?? null` is null for a key the array does not hold |
| PhpArrays.EmptyExamples | src/Converters/JsonToMasterConverter.php:77-101 | `empty` holds for "0", "", 0.00, [], null and false but not for "0.0" or " "; `isset` fails only for null |
| PhpArrays.RecordList | src/Builders/VoucherBuilder.php:392-400 | a PHP list of records: record i under key i, in order |
| PhpArrays.FieldRecords | src/Builders/VoucherBuilder.php:385-388 | one single-field record per line, in order |
| PhpArrays.StringArg | src/Converters/JsonToVoucherConverter.php:99-102 | a `string` parameter takes any scalar as its text; null and arrays raise a TypeError |
| PhpArrays.FloatArg | src/Converters/JsonToVoucherConverter.php:239-246 | a `float` parameter takes numbers as they are and strings exactly when numeric; null and arrays raise a TypeError |
| PhpArrays.NullableFloatArg | src/Converters/JsonToVoucherConverter.php:176-177 | a `?float` parameter maps null to no value and otherwise accepts what `float` accepts |
| PhpArrays.IntArg | src/Converters/JsonToVoucherConverter.php:104-106 | an `int` parameter accepts exactly what a `float` parameter accepts |
| PhpArrays.BoolArg | src/Converters/JsonToVoucherConverter.php:166-168 | a `bool` parameter takes any scalar by its truth value; null and arrays raise a TypeError |
| Helpers.StripControl | src/Helpers.php:26 | no character 0x00-0x1F or 0x7F remains; every other character keeps its count and the result keeps the input order (a subsequence); text without control characters is unchanged |
| Helpers.EscapeAmp | src/Helpers.php:29 | every '&' grows by four characters, nothing else changes; text without '&' is unchanged |
| Helpers.DropQuotes | src/Helpers.php:32 | no ' or " remains; every other character keeps its count and the result keeps the input order (a subsequence); text without quotes is unchanged |
| Helpers.Clean | src/Helpers.php:19-35 | '' is returned as is; otherwise no control character and no quote remains, and the '&' count is kept |
| Helpers.CleanIdempotentIff | src/Helpers.php:19-35 | cleaning twice equals cleaning once exactly when the text has no '&' |
| Helpers.UnescapeEscapeAmp | src/Helpers.php:29 | decoding "&amp;" inverts the ampersand step |
| Helpers.CleanKeepsPlainText | src/Helpers.php:19-35 | text without control characters or quotes is recovered from its cleaned form |
| Helpers.CleanDecodes | src/Helpers.php:19-35 | decoding "&amp;" in the cleaned text gives exactly the input without its control characters and quotes |
| Helpers.DropQuotesEscapeAmp | src/Helpers.php:29-32 | removing quotes and escaping '&' can be done in either order |
| Helpers.EscapeAmpAppend | src/Helpers.php:29 | escaping '&' in a concatenation escapes each part |
| Helpers.DropQuotesAppend | src/Helpers.php:32 | removing quotes from a concatenation removes them from each part |
| Helpers.KeptWords | src/Helpers.php:107-108 | the words `!empty` keeps: every word other than "" and "0", as often as in the input and in input order (a subsequence of the words) |
| Helpers.GetInitials | src/Helpers.php:102-114 | one character per kept word, in order: the upper-cased first character of that word; at most one more than the number of spaces |
| Helpers.AdjustAmount | src/Helpers.php:165-185 | the result is the amount or its negation |
| Helpers.IsDeemedPositive | src/Helpers.php:135-160 | an entry type outside party/item/ledger/tax is deemed positive; an item is deemed positive only for a voucher type whose ledger lines are debits |
| Helpers.PartyOppositeLedger | src/Helpers.php:135-160 | the party flag is the opposite of the ledger flag for every voucher type, and the tax flag equals the ledger flag |
| Helpers.PolarityMatchesSign | src/Helpers.php:135-185 | for a non-zero amount: item, ledger and tax lines, and party lines of the six trading types, are deemed positive exactly when their amount is negated |
| Helpers.JournalPartyKeepsSign | src/Helpers.php:139-141 | a Journal party line is deemed positive, yet its amount is not negated |
| Helpers.LedgerAndTaxAgree | src/Helpers.php:149-152 | the ledger and tax roles get the same flag and amount; an item debit implies a ledger debit |
| Helpers.InvoiceSignsBalance | src/Helpers.php:170-181 | for sale, purchase and their returns, the party amount is the negation of the item and ledger amounts |
| Helpers.InvoiceTypeTables | src/Helpers.php:170-181 | for sale, purchase and their returns, the party is negated exactly when the items are not, and items and ledgers are negated together |
| Helpers.AdjustInvolution | src/Helpers.php:165-185 | adjusting twice gives the amount back |
| Helpers.AdjustKeepsMagnitude | src/Helpers.php:165-185 | adjusting keeps the magnitude and the number of decimals |
| Helpers.UnknownRolePassesThrough | src/Helpers.php:154 | an entry type outside party/item/ledger/tax is deemed positive and keeps its amount |
| Helpers.RulesIgnoreCase | src/Helpers.php:137 | both rules give the same answer for the lower-cased and the upper-cased voucher type |
| Helpers.SalesIsNotSale | src/Helpers.php:171 | a 'Sale' party amount is negated, a 'Sales' party amount is not |
| Helpers.QuantityTextReadsBack | src/Helpers.php:79-86 | `formatQuantity` writes a space, the number's text (no space inside), a space and the unit; the number's text reads back as the quantity |
| Helpers.RateTextReadsBack | src/Helpers.php:91-98 | `formatRate` writes the number's text, '/' (the first one) and the unit; the number's text reads back as the rate |
| TallyRecords.YesNo | src/Builders/VoucherBuilder.php:236 | 'Yes' exactly for true, otherwise 'No' |
| TallyRecords.Message | src/Builders/UnitBuilder.php:29-31 | the record sits at TALLYMESSAGE/kind, the only entry of the message |
| TallyRecords.AddressList | src/Builders/LedgerBuilder.php:171-179 | one `{ADDRESS: line}` record per line, under keys 0, 1, ... in order |
| TallyRecords.AddressListSnoc | src/Builders/LedgerBuilder.php:175-177 | adding a line appends one record under the next index |
| TallyXml.Escape | src/TallyXmlConverter.php:131 | `htmlspecialchars`: no <, >, " or ' remains and nothing gets shorter |
| TallyXml.UnescapeEscape | src/TallyXmlConverter.php:131 | decoding the five entity references gives the text back |
| TallyXml.StripList | src/TallyXmlConverter.php:184 | removing ".LIST" never lengthens the name |
| TallyXml.KeepNameChars | src/TallyXmlConverter.php:189 | only letters, digits, '-', '_' and '.' remain |
| TallyXml.CleanElementName | src/TallyXmlConverter.php:181-192 | the result consists of name characters only |
| TallyXml.CleanElementNameSubsequence | src/TallyXmlConverter.php:181-192 | the result is a subsequence of the input |
| TallyXml.CleanElementNameKeepsCleanNames | src/TallyXmlConverter.php:181-192 | a name of name characters without ".LIST" is unchanged |
| TallyXml.JoinedListStripped | src/TallyXmlConverter.php:184 | one pass of `str_replace` turns "..LISTLIST" into ".LIST": the removal can join a new ".LIST" |
| TallyXml.ListSuffixDropped | src/TallyXmlConverter.php:184 | "X.LIST" becomes "X" for a dot-free name X |
| TallyXml.CleanElementNameNotIdempotent | src/TallyXmlConverter.php:184-189 | "..LISTLIST" cleans to ".LIST", which cleans again to the empty name |
| TallyXml.ListAloneStripped | src/TallyXmlConverter.php:184-189 | ".LIST" cleans to the empty name, which `createElement` then refuses (`ListAloneRejected`) |
| TallyXml.RenderStep | src/TallyXmlConverter.php:164-175 | the elements of the first i+1 entries are those of the first i followed by those of entry i |
| TallyXml.RenderEntriesAppend | src/TallyXmlConverter.php:127-134 | rendering two arrays in sequence renders each in turn, in input order |
| TallyXml.EmptyScalarsSkippedOnlyWhenNamed | src/TallyXmlConverter.php:168-171 | '' and null give no element inside a named element; they give an empty element when spliced or at the top level, where the raw key is the name |
| TallyXml.RecordListRendersFlat | src/TallyXmlConverter.php:144-157 | records under numeric keys create no element of their own: their fields are spliced flat, in order |
| TallyXml.ListRendersAsOneFlatElement | src/TallyXmlConverter.php:159-175 | `'X.LIST' => [[...], [...]]` renders as one element named `cleanElementName('X.LIST')` holding every record's fields flat |
| TallyXml.FieldRecordsRenderLineByLine | src/TallyXmlConverter.php:148-155 | a list of single-field records renders as one escaped leaf per line |
| TallyXml.AddressListRendering | src/TallyXmlConverter.php:142-176 | an ADDRESS.LIST renders as one ADDRESS element with one ADDRESS leaf per line |
| TallyXml.CleanedNameAccepted | src/TallyXmlConverter.php:181-192 | a cleaned name is a valid element name exactly when it is non-empty and starts with a letter or '_' |
| TallyXml.DroppedCharacters | src/TallyXmlConverter.php:189 | a character outside letters, digits, '-', '_' and '.' is removed and the text around it joins up |
| TallyXml.KeepNameCharsKeepsNames | src/TallyXmlConverter.php:189 | text made only of name characters passes the character filter unchanged |
| TallyXml.StripListNoList | src/TallyXmlConverter.php:184 | text without ".LIST" passes the suffix removal unchanged |
| TallyXml.ListAloneRejected | src/TallyXmlConverter.php:161 | the element for a ".LIST" key gets the empty name, which is not a valid XML name |
| TallyXml.DigitNameRejected | src/TallyXmlConverter.php:152 | the key 0 cleans to "0", which is not a valid XML name |
| TallyXml.DocumentWellNamed | src/TallyXmlConverter.php:52-69 | the envelope is well named exactly when the rendering of the data is |
| TallyXml.WellNamedStep | src/TallyXmlConverter.php:164-175 | the first i+1 entries render well named exactly when the first i and entry i do |
| TallyXml.WellNamedPrefix | src/TallyXmlConverter.php:164-175 | a badly named element among the first entries stays in the rendering of every longer prefix |
| TallyXml.EntryRefused | src/TallyXmlConverter.php:127-134 | one badly named entry makes the whole array's rendering badly named |
| TallyXml.AllWellNamedAppend | src/TallyXmlConverter.php:127-134 | a concatenation is well named exactly when both parts are |
| TallyXml.CompanyListRejected | src/Converters/JsonToMasterConverter.php:134-143 | a company name given as a list puts an element named "0" in the document, so it is not well named |
| TallyXml.RawTopLevelKeysRejected | src/TallyXmlConverter.php:131 | a top-level scalar under a list index or under a key with a space is not well named |
| TallyXml.TallyXmlConverter.constructor | src/TallyXmlConverter.php:29-33 | stores the version and starts with an empty document |
| TallyXml.TallyXmlConverter.Convert | src/TallyXmlConverter.php:52-69 | succeeds exactly when the envelope is well named, with the document holding only ENVELOPE(HEADER, BODY); on failure the document holds the envelope with its header only; the version is unchanged |
| TallyXml.TallyXmlConverter.CreateHeader | src/TallyXmlConverter.php:74-82 | HEADER holding TALLYREQUEST with the request type |
| TallyXml.TallyXmlConverter.CreateBody | src/TallyXmlConverter.php:87-104 | succeeds exactly when the data renders well named, with BODY/IMPORTDATA holding REQUESTDESC and then REQUESTDATA |
| TallyXml.TallyXmlConverter.CreateRequestDesc | src/TallyXmlConverter.php:109-117 | REQUESTDESC holding REPORTNAME 'All Masters' |
| TallyXml.TallyXmlConverter.CreateRequestData | src/TallyXmlConverter.php:122-137 | succeeds exactly when every element name is valid, with REQUESTDATA holding the rendering of every top-level entry, in order |
| TallyXml.TallyXmlConverter.AddArrayElement | src/TallyXmlConverter.php:142-176 | succeeds exactly when the keyed array renders well named, and then the parent's children are extended by exactly that rendering |
| TallyXml.TallyXmlConverter.AddListItems | src/TallyXmlConverter.php:145-157 | under a numeric key: succeeds exactly when the entries render well named, and appends them to the parent |
| TallyXml.TallyXmlConverter.AddContainer | src/TallyXmlConverter.php:159-175 | under any other key: succeeds exactly when the container name and its entries are valid, and appends one element |
| TallyXml.TallyXmlConverter.SetTallyVersion | src/TallyXmlConverter.php:197-209 | `getTallyVersion` afterwards returns the version set; the document is unchanged |
| UnitBuilding.NewUnit | src/Builders/UnitBuilder.php:27-44 | ACTION 'Alter', NAME, GSTREPUOM equal to REPORTINGUQCNAME, ISSIMPLEUNIT 'Yes', FORPAYROLL 'No', no DECIMALPLACES |
| UnitBuilding.DecimalPlacesOnlyAddsTheField | src/Builders/UnitBuilder.php:49-53 | after two calls DECIMALPLACES holds the last value, is the only key added, and no other key changes |
| UnitBuilding.UnitBuilder.constructor | src/Builders/UnitBuilder.php:27-44 | the record built from the cleaned name and UQC and the applicable-from date |
| UnitBuilding.UnitBuilder.DecimalPlaces | src/Builders/UnitBuilder.php:49-53 | DECIMALPLACES is set to the argument and no other field changes |
| UnitBuilding.UnitBuilder.Build | src/Builders/UnitBuilder.php:58-61 | the record unchanged, under TALLYMESSAGE/UNIT |
| UnitBuilding.UnitBuilder.Create | src/Builders/UnitBuilder.php:66-69 | a fresh builder equal to the constructor's |
| LedgerBuilding.BaseLedgerFields | src/Builders/LedgerBuilder.php:34-44 | ACTION 'Alter', NAME.LIST/NAME and PARENT; no BILLWISEDETAILS, no ADDRESS.LIST |
| LedgerBuilding.NewLedger | src/Builders/LedgerBuilder.php:32-50 | cleaned name and parent; BILLWISEDETAILS 'Yes' exactly when the raw parent is Sundry Debtors or Sundry Creditors |
| LedgerBuilding.NewLedgerOtherFieldsAbsent | src/Builders/LedgerBuilder.php:32-50 | a new ledger has no field besides those four |
| LedgerBuilding.AddressListOnlyWhenGiven | src/Builders/LedgerBuilder.php:169-182 | ADDRESS.LIST is added exactly when there are address lines: one record per line, appended as the last key |
| LedgerBuilding.BuildIsIdempotent | src/Builders/LedgerBuilder.php:169-182 | building twice gives the same record as building once |
| LedgerBuilding.FactoryGroups | src/Builders/LedgerBuilder.php:195-222 | customers and suppliers get BILLWISEDETAILS; sales and purchase accounts do not |
| LedgerBuilding.LedgerBuilder.constructor | src/Builders/LedgerBuilder.php:32-50 | the new ledger record and no address lines |
| LedgerBuilding.LedgerBuilder.Address | src/Builders/LedgerBuilder.php:55-59 | appends the cleaned line; the record is unchanged |
| LedgerBuilding.LedgerBuilder.State | src/Builders/LedgerBuilder.php:64-70 | PRIORSTATENAME and LEDSTATENAME both hold the cleaned state |
| LedgerBuilding.LedgerBuilder.Country | src/Builders/LedgerBuilder.php:75-81 | COUNTRYNAME and COUNTRYOFRESIDENCE both hold the cleaned country |
| LedgerBuilding.LedgerBuilder.Pincode | src/Builders/LedgerBuilder.php:86-90 | PINCODE is set, nothing else changes |
| LedgerBuilding.LedgerBuilder.GstRegistrationType | src/Builders/LedgerBuilder.php:95-99 | GSTREGISTRATIONTYPE is set, nothing else changes |
| LedgerBuilding.LedgerBuilder.Gstin | src/Builders/LedgerBuilder.php:104-108 | PARTYGSTIN is set, nothing else changes |
| LedgerBuilding.LedgerBuilder.GstDutyHead | src/Builders/LedgerBuilder.php:113-118 | TAXTYPE 'GST' and GSTDUTYHEAD |
| LedgerBuilding.LedgerBuilder.TaxRate | src/Builders/LedgerBuilder.php:123-127 | RATEOFTAXCALCULATION is set, nothing else changes |
| LedgerBuilding.LedgerBuilder.GstPercentage | src/Builders/LedgerBuilder.php:132-135 | the same update as `TaxRate` |
| LedgerBuilding.LedgerBuilder.GstRegistrationDetails | src/Builders/LedgerBuilder.php:140-149 | LEDGSTREGDETAILS.LIST is set to the registration record |
| LedgerBuilding.LedgerBuilder.MailingDetails | src/Builders/LedgerBuilder.php:154-164 | LEDMAILINGDETAILS.LIST is set to the mailing record |
| LedgerBuilding.LedgerBuilder.Build | src/Builders/LedgerBuilder.php:169-182 | the record gets the address list (when there are lines) and is returned under TALLYMESSAGE/LEDGER |
| LedgerBuilding.LedgerBuilder.Create | src/Builders/LedgerBuilder.php:187-190 | a fresh builder equal to the constructor's |
| LedgerBuilding.LedgerBuilder.Customer | src/Builders/LedgerBuilder.php:195-198 | `create` with parent Sundry Debtors |
| LedgerBuilding.LedgerBuilder.Supplier | src/Builders/LedgerBuilder.php:203-206 | `create` with parent Sundry Creditors |
| LedgerBuilding.LedgerBuilder.SalesAccount | src/Builders/LedgerBuilder.php:211-214 | `create` with parent Sales Account |
| LedgerBuilding.LedgerBuilder.PurchaseAccount | src/Builders/LedgerBuilder.php:219-222 | `create` with parent Purchase Account |
| StockItemBuilding.NewStockItem | src/Builders/StockItemBuilder.php:26-39 | ACTION 'Alter', NAME.LIST/NAME and BASEUNITS |
| StockItemBuilding.GstApplicableText | src/Builders/StockItemBuilder.php:57-65 | "&#4; Applicable" for true, "&#4; Not Applicable" for false |
| StockItemBuilding.RateRowsFollowDutyHeads | src/Builders/StockItemBuilder.php:114-143 | five rows in `GstDutyHead::all()` order; only the first three carry a GSTRATE |
| StockItemBuilding.CentralAndStateAddUpToIntegrated | src/Builders/StockItemBuilder.php:108-132 | CGST and SGST/UTGST are half the percentage, IGST the whole, so CGST + SGST = IGST |
| StockItemBuilding.BaseGstDetailsFields | src/Builders/StockItemBuilder.php:93-101 | the base details carry the HSN code and no OPENINGRATE |
| StockItemBuilding.WithOpeningRateFields | src/Builders/StockItemBuilder.php:103-105 | OPENINGRATE is added exactly when a rate is given, quoted per unit; HSNCODE is kept |
| StockItemBuilding.GstDetailsFields | src/Builders/StockItemBuilder.php:93-144 | HSNCODE, OPENINGRATE exactly when given, and the state-wise rate details |
| StockItemBuilding.StatewiseDetailsFields | src/Builders/StockItemBuilder.php:112-144 | STATENAME "&#4; Any" and the five rate rows as RATEDETAILS.LIST |
| StockItemBuilding.HsnCodesAgree | src/Builders/StockItemBuilder.php:146-149 | HSNDETAILS.LIST and GSTDETAILS.LIST carry the same cleaned HSN code; BASEUNITS is kept |
| StockItemBuilding.OpeningRateUsesBaseUnit | src/Builders/StockItemBuilder.php:91 | the opening rate is quoted in the item's BASEUNITS |
| StockItemBuilding.StockItemBuilder.constructor | src/Builders/StockItemBuilder.php:26-39 | the record built from the cleaned name and unit |
| StockItemBuilding.StockItemBuilder.Hsn | src/Builders/StockItemBuilder.php:44-52 | HSNDETAILS.LIST is set to the HSN record |
| StockItemBuilding.StockItemBuilder.GstApplicable | src/Builders/StockItemBuilder.php:57-65 | GSTAPPLICABLE is set to the special-character text |
| StockItemBuilding.StockItemBuilder.GstSupplyType | src/Builders/StockItemBuilder.php:70-74 | GSTTYPEOFSUPPLY is set to the cleaned type |
| StockItemBuilding.StockItemBuilder.Price | src/Builders/StockItemBuilder.php:79-84 | only _OPENINGRATE changes: the price quoted per base unit |
| StockItemBuilding.StockItemBuilder.GstDetails | src/Builders/StockItemBuilder.php:89-152 | GSTDETAILS.LIST and then HSNDETAILS.LIST are set |
| StockItemBuilding.StockItemBuilder.Build | src/Builders/StockItemBuilder.php:157-160 | the record unchanged, under TALLYMESSAGE/STOCKITEM |
| StockItemBuilding.StockItemBuilder.Create | src/Builders/StockItemBuilder.php:165-168 | a fresh builder equal to the constructor's |
| VoucherBuilding.VoucherHeaderFields | src/Builders/VoucherBuilder.php:57-71 | ACTION 'Alter', TAGNAME, TAGVALUE, VOUCHERTYPENAME and three equal dates |
| VoucherBuilding.HeaderTag | src/Builders/VoucherBuilder.php:60-63 | ACTION 'Alter', TAGNAME 'Voucher Number', TAGVALUE the number, VOUCHERTYPENAME the type |
| VoucherBuilding.HeaderDates | src/Builders/VoucherBuilder.php:64-66 | DATE, EFFECTIVEDATE and REFERENCEDATE are the same date |
| VoucherBuilding.HeaderNumbers | src/Builders/VoucherBuilder.php:67-68 | VOUCHERNUMBER and REFERENCE are the number |
| VoucherBuilding.ViewFollowsType | src/Builders/VoucherBuilder.php:80-93 | invoice types get the invoice view and 'Item Invoice'; others the accounting view, with 'As Voucher' except receipt and payment; case is ignored; no other field changes |
| VoucherBuilding.NewVoucher | src/Builders/VoucherBuilder.php:52-75 | cleaned type name, equal dates, number in three fields, view and entry mode by type |
| VoucherBuilding.InvoiceFactoryViews | src/Builders/VoucherBuilder.php:84-86 | the sale, purchase and return factories give VCHENTRYMODE 'Item Invoice' |
| VoucherBuilding.PaymentAndReceiptViews | src/Builders/VoucherBuilder.php:89-91 | the payment and receipt factories give no VCHENTRYMODE |
| VoucherBuilding.JournalView | src/Builders/VoucherBuilder.php:87-91 | the journal factory gives VCHENTRYMODE 'As Voucher' |
| VoucherBuilding.ViewOfType | src/Builders/VoucherBuilder.php:80-93 | a new voucher has VCHENTRYMODE exactly for types other than receipt and payment, with the value by type |
| VoucherBuilding.PartyNameEverywhere | src/Builders/VoucherBuilder.php:107-117 | the same name in all six party fields; the type name is kept |
| VoucherBuilding.ItemAmount | src/Builders/VoucherBuilder.php:230 | `round($rate * $qty, 2)` has two decimals |
| VoucherBuilding.WithAllocationsFields | src/Builders/VoucherBuilder.php:250-274 | DISCOUNT exactly when given, and the batch and accounting allocations |
| VoucherBuilding.WithAllocationsKeeps | src/Builders/VoucherBuilder.php:250-274 | every other field of the item line is kept |
| VoucherBuilding.DiscountText | src/Builders/VoucherBuilder.php:250-252 | a discount is written exactly when it is present and non-zero, formatted as an amount |
| VoucherBuilding.ItemLineFields | src/Builders/VoucherBuilder.php:234-248 | stock item, flag, rate, amount, equal ACTUALQTY and BILLEDQTY; no DISCOUNT |
| VoucherBuilding.AllocationFields | src/Builders/VoucherBuilder.php:255-274 | the batch allocation carries the amount and quantity; the accounting allocation the ledger, flag and amount |
| VoucherBuilding.ItemRecordLine | src/Builders/VoucherBuilder.php:234-252 | the item record keeps the line's fields; DISCOUNT exactly when a discount text is given |
| VoucherBuilding.ItemRecordAllocations | src/Builders/VoucherBuilder.php:254-274 | the item and both allocations carry the same amount; the accounting allocation the same flag |
| VoucherBuilding.ItemEntryAgrees | src/Builders/VoucherBuilder.php:230-274 | the item-role flag and the adjusted, formatted amount appear alike in the item, its batch and its accounting allocation |
| VoucherBuilding.PostingLineSide | src/Builders/VoucherBuilder.php:288-299 | a posting line carries its flag and its ISPARTYLEDGER value |
| VoucherBuilding.PostingLineAmount | src/Builders/VoucherBuilder.php:297-298 | AMOUNT and VATEXPAMOUNT are the same text |
| VoucherBuilding.TaxEntryFields | src/Builders/VoucherBuilder.php:283-302 | the tax-role flag, the tax-role amount in AMOUNT and VATEXPAMOUNT, ISPARTYLEDGER 'No' |
| VoucherBuilding.PartyEntryFields | src/Builders/VoucherBuilder.php:343-363 | the party-role flag, the party-role amount in AMOUNT and VATEXPAMOUNT, ISPARTYLEDGER 'Yes' |
| VoucherBuilding.ChargeFields | src/Builders/VoucherBuilder.php:307-322 | a charge line has the same flag and amount as a tax line of that amount |
| VoucherBuilding.UnadjustedLines | src/Builders/VoucherBuilder.php:327-338 | round-off is a debit exactly when negative; round-off and generic lines keep the amount's sign; a generic line's flag is `isDr` |
| VoucherBuilding.InvoicePartyOpposesLines | src/Builders/VoucherBuilder.php:343-363 | on an invoice type the party line and the tax line take opposite sides, and one of the two amount texts is the other with a '-' prefix |
| VoucherBuilding.BuiltFields | src/Builders/VoucherBuilder.php:381-403 | ADDRESS.LIST, ALLINVENTORYENTRIES.LIST and LEDGERENTRIES.LIST are added exactly when their list is non-empty, with the lists in order; no other field changes |
| VoucherBuilding.BuildIsIdempotent | src/Builders/VoucherBuilder.php:381-403 | building twice gives the same record as building once |
| VoucherBuilding.VoucherBuilder.constructor | src/Builders/VoucherBuilder.php:52-75 | the voucher record for the type, number and formatted date; empty entry lists |
| VoucherBuilding.VoucherBuilder.SetVoucherView | src/Builders/VoucherBuilder.php:80-93 | the view fields for the builder's type; the lists are unchanged |
| VoucherBuilding.VoucherBuilder.Narration | src/Builders/VoucherBuilder.php:98-102 | NARRATION is set to the cleaned text |
| VoucherBuilding.VoucherBuilder.PartyName | src/Builders/VoucherBuilder.php:107-117 | the cleaned name goes into all six party fields |
| VoucherBuilding.VoucherBuilder.PartyLedger | src/Builders/VoucherBuilder.php:122-125 | the same update as `PartyName` |
| VoucherBuilding.VoucherBuilder.PartyAddress | src/Builders/VoucherBuilder.php:130-134 | appends the cleaned line; nothing else changes |
| VoucherBuilding.VoucherBuilder.PartyState | src/Builders/VoucherBuilder.php:139-145 | STATENAME and CONSIGNEESTATENAME both hold the cleaned state |
| VoucherBuilding.VoucherBuilder.PartyCountry | src/Builders/VoucherBuilder.php:150-156 | COUNTRYNAME and COUNTRYOFRESIDENCE both hold the cleaned country |
| VoucherBuilding.VoucherBuilder.PartyPincode | src/Builders/VoucherBuilder.php:161-165 | PINCODE is set |
| VoucherBuilding.VoucherBuilder.PartyGstRegistrationType | src/Builders/VoucherBuilder.php:170-174 | GSTREGISTRATIONTYPE is set |
| VoucherBuilding.VoucherBuilder.PartyGstin | src/Builders/VoucherBuilder.php:179-183 | PARTYGSTIN is set |
| VoucherBuilding.VoucherBuilder.PlaceOfSupply | src/Builders/VoucherBuilder.php:188-192 | PLACEOFSUPPLY is set |
| VoucherBuilding.VoucherBuilder.Reference | src/Builders/VoucherBuilder.php:197-201 | REFERENCE is set |
| VoucherBuilding.VoucherBuilder.ReferenceDate | src/Builders/VoucherBuilder.php:206-210 | REFERENCEDATE is set to the formatted date |
| VoucherBuilding.VoucherBuilder.AddVoucherItem | src/Builders/VoucherBuilder.php:222-278 | exactly one item entry is appended at the end; nothing else changes |
| VoucherBuilding.VoucherBuilder.AddTax | src/Builders/VoucherBuilder.php:283-302 | exactly one tax line is appended at the end |
| VoucherBuilding.VoucherBuilder.AddAdditionalCharge | src/Builders/VoucherBuilder.php:307-322 | exactly one charge line is appended at the end |
| VoucherBuilding.VoucherBuilder.RoundOff | src/Builders/VoucherBuilder.php:327-338 | exactly one round-off line is appended at the end |
| VoucherBuilding.VoucherBuilder.PartyAmount | src/Builders/VoucherBuilder.php:343-363 | the party line goes first; the earlier lines follow in their order |
| VoucherBuilding.VoucherBuilder.AddLedgerEntry | src/Builders/VoucherBuilder.php:368-376 | exactly one generic line is appended at the end |
| VoucherBuilding.VoucherBuilder.Build | src/Builders/VoucherBuilder.php:381-403 | the record gets the three lists, each only when non-empty, and is returned under TALLYMESSAGE/VOUCHER |
| VoucherBuilding.VoucherBuilder.Sales | src/Builders/VoucherBuilder.php:408-411 | a fresh builder of type Sale |
| VoucherBuilding.VoucherBuilder.Purchase | src/Builders/VoucherBuilder.php:416-419 | a fresh builder of type Purchase |
| VoucherBuilding.VoucherBuilder.SaleReturn | src/Builders/VoucherBuilder.php:424-427 | a fresh builder of type Sale Return |
| VoucherBuilding.VoucherBuilder.PurchaseReturn | src/Builders/VoucherBuilder.php:432-435 | a fresh builder of type Purchase Return |
| VoucherBuilding.VoucherBuilder.Payment | src/Builders/VoucherBuilder.php:440-443 | a fresh builder of type Payment |
| VoucherBuilding.VoucherBuilder.Receipt | src/Builders/VoucherBuilder.php:448-451 | a fresh builder of type Receipt |
| VoucherBuilding.VoucherBuilder.Journal | src/Builders/VoucherBuilder.php:456-459 | a fresh builder of type Journal |
| VoucherType.All | src/Enums/VoucherType.php:35-56 | the 17 constants, Sales first and Reversing Journal last, without duplicates |
| VoucherType.ValidityIsCaseSensitive | src/Enums/VoucherType.php:64-67 | 'Sale' and 'Sales' are valid; 'sale' and 'SALE' are not |
| VoucherType.ValidatorTypesAreValid | src/Enums/VoucherType.php:13-20 | every type the JSON validator accepts is valid |
| GstDutyHead.All | src/Enums/GstDutyHead.php:23-32 | five distinct duty heads |
| GstDutyHead.SgstAloneIsInvalid | src/Enums/GstDutyHead.php:40-43 | 'SGST/UTGST' is valid; 'SGST' and 'cgst' are not |
| GstRegistrationType.All | src/Enums/GstRegistrationType.php:23-32 | five distinct registration types |
| GstRegistrationType.WholeStringMatch | src/Enums/GstRegistrationType.php:40-43 | matching is case-sensitive and on the whole string; 'Unregistered/Consumer', 'Unregistered' and 'Consumer' are all valid |
| ConversionInputs.CompanyOf | src/Converters/JsonToVoucherConverter.php:56 | `company_name ?? ''` is never null |
| ConversionInputs.ParentOf | src/Converters/JsonToMasterConverter.php:72-75 | a ledger without a parent goes under Sundry Debtors |
| ConversionInputs.SetIfGet | src/Converters/JsonToMasterConverter.php:77-107 | a guarded setter writes its tag only when its field is given, and touches nothing else |
| ConversionInputs.LedgerAddressLines | src/Converters/JsonToMasterConverter.php:77-79 | an address line is added exactly when `address` is non-empty |
| ConversionInputs.LedgerOptionalFieldsKeep | src/Converters/JsonToMasterConverter.php:77-107 | the optional setters touch no field outside their own tags |
| ConversionInputs.SetLedgerOptionalFields | src/Converters/JsonToMasterConverter.php:77-107 | succeeds exactly when every given field passes its parameter type; then the record and address lines are the optional-field update |
| ConversionInputs.SetLedgerLocation | src/Converters/JsonToMasterConverter.php:81-91 | state, country and pincode, each only when non-empty |
| ConversionInputs.SetLedgerTax | src/Converters/JsonToMasterConverter.php:93-107 | registration type, GSTIN, duty head and percentage, each only when non-empty |
| JsonValidation.MatchesGstinLayout | src/Validation/JsonValidator.php:267 | the pattern matches exactly the strings of the 15-character layout |
| JsonValidation.GstinAcceptedIffLayout | src/Validation/JsonValidator.php:263-268 | a GSTIN is accepted exactly when it has the layout, or the layout followed by one newline |
| JsonValidation.SampleGstinIsValid | src/Validation/JsonValidator.php:266-267 | '29ABCDE1234F1Z5' is accepted |
| JsonValidation.LowercaseGstinIsInvalid | src/Validation/JsonValidator.php:267 | the lower-case sample is rejected |
| JsonValidation.GstinLength | src/Validation/JsonValidator.php:263-268 | an accepted GSTIN has 15 characters, or 16 ending in a newline |
| JsonValidation.Lacking | src/Validation/JsonValidator.php:225-230 | the required fields that are missing, in field order |
| JsonValidation.Messages | src/Validation/JsonValidator.php:228 | one message per field name, in order |
| JsonValidation.Report | src/Validation/JsonValidator.php:102-107 | a check only appends to the errors before it |
| JsonValidation.UnitChecks | src/Validation/JsonValidator.php:99-109 | the unit checks only append |
| JsonValidation.LedgerChecks | src/Validation/JsonValidator.php:114-128 | the ledger checks only append |
| JsonValidation.StockItemGstChecks | src/Validation/JsonValidator.php:144-151 | the GST checks of a stock item only append |
| JsonValidation.StockItemChecks | src/Validation/JsonValidator.php:133-153 | the stock item checks only append |
| JsonValidation.TaxChecks | src/Validation/JsonValidator.php:245-258 | the tax detail checks only append |
| JsonValidation.TypeCheck | src/Validation/JsonValidator.php:169-173 | the voucher type check only appends |
| JsonValidation.DateCheck | src/Validation/JsonValidator.php:177-179 | the date check only appends |
| JsonValidation.GstinCheck | src/Validation/JsonValidator.php:182-186 | the GSTIN check only appends |
| JsonValidation.ChargesCheck | src/Validation/JsonValidator.php:207-211 | the additional charges check only appends |
| JsonValidation.EachChecksEmptyIff | src/Validation/JsonValidator.php:101-108 | a per-element loop adds no error exactly when there was none and every element is well-formed |
| JsonValidation.EachChecksExtends | src/Validation/JsonValidator.php:101-108 | a per-element loop keeps the earlier errors as a prefix |
| JsonValidation.RequiredChecksReportLacking | src/Validation/JsonValidator.php:161-166 | the required-field loop appends one message per missing field, in field order |
| JsonValidation.RequiredChecksEmptyIff | src/Validation/JsonValidator.php:161-166 | it adds nothing exactly when no field is missing |
| JsonValidation.UnitChecksEmptyIff | src/Validation/JsonValidator.php:99-109 | a unit adds no error exactly when it has name and uqc_name |
| JsonValidation.LedgerChecksEmptyIff | src/Validation/JsonValidator.php:114-128 | a ledger adds no error exactly when it has a name and any non-empty GSTIN is valid |
| JsonValidation.StockItemChecksEmptyIff | src/Validation/JsonValidator.php:133-153 | a stock item adds no error exactly when it is well-formed |
| JsonValidation.ItemChecksEmptyIff | src/Validation/JsonValidator.php:224-239 | a voucher item adds no error exactly when its five fields are set and price and qty are numeric strings in PHP's sense (surrounding white space and exponents allowed) |
| JsonValidation.TaxChecksEmptyIff | src/Validation/JsonValidator.php:245-258 | a tax detail adds no error exactly when name is set and amount is set and numeric in PHP's sense |
| JsonValidation.MasterErrorsEmptyIff | src/Validation/JsonValidator.php:24-40 | the master checks report nothing exactly when the master document is well-formed |
| JsonValidation.VoucherFieldChecksEmptyIff | src/Validation/JsonValidator.php:160-186 | the voucher field checks report nothing exactly when the fields are well-formed |
| JsonValidation.ItemListCheckEmptyIff | src/Validation/JsonValidator.php:189-195 | the items check reports nothing exactly when the items are absent or a non-empty list of good items |
| JsonValidation.TaxListCheckEmptyIff | src/Validation/JsonValidator.php:198-204 | the tax details check reports nothing exactly when they are absent or a list of good details |
| JsonValidation.VoucherListChecksEmptyIff | src/Validation/JsonValidator.php:188-211 | the voucher list checks report nothing exactly when the three lists are well-formed |
| JsonValidation.OptionalListChecksEmptyIff | src/Validation/JsonValidator.php:58-64 | an optional list reports nothing exactly when it is absent or a list of good elements |
| JsonValidation.VoucherJsonErrorsEmptyIff | src/Validation/JsonValidator.php:48-94 | the voucher document checks report nothing exactly when the document is well-formed |
| JsonValidation.OptionalListChecksExtends | src/Validation/JsonValidator.php:58-64 | the optional list checks only append |
| JsonValidation.RequiredChecksExtends | src/Validation/JsonValidator.php:161-166 | the required-field checks only append |
| JsonValidation.ItemChecksExtend | src/Validation/JsonValidator.php:224-239 | the voucher item checks only append |
| JsonValidation.ItemListCheckExtends | src/Validation/JsonValidator.php:189-195 | the items check only appends |
| JsonValidation.TaxListCheckExtends | src/Validation/JsonValidator.php:198-204 | the tax details check only appends |
| JsonValidation.VoucherChecksExtends | src/Validation/JsonValidator.php:158-212 | the voucher checks only append |
| JsonValidation.CompanyReportedFirst | src/Validation/JsonValidator.php:53-55 | a missing or empty company name is the first error of both documents |
| JsonValidation.MissingVoucherReportedLast | src/Validation/JsonValidator.php:83-84 | a missing voucher fails validation and is the last error |
| JsonValidation.EmptyItemListIsOneError | src/Validation/JsonValidator.php:219-222 | an empty item list adds exactly one error |
| JsonValidation.MissingIsNotNumeric | src/Validation/JsonValidator.php:228-237 | a missing-field message never reads as a not-numeric message |
| JsonValidation.ReportedIffLacking | src/Validation/JsonValidator.php:161-166 | a required field is reported exactly when it is missing |
| JsonValidation.ItemFieldReportedIffUnset | src/Validation/JsonValidator.php:225-230 | an item field is reported exactly when it is unset |
| JsonValidation.EmptyLedgerGstinNotChecked | src/Validation/JsonValidator.php:122-126 | an empty GSTIN is not checked: only the name can be reported |
| JsonValidation.VoucherTypeMembership | src/Validation/JsonValidator.php:169-173 | a string passes exactly when listed; loose `in_array` lets `true` through but not `false`; 'sale' fails |
| JsonValidation.JsonValidator.constructor | src/Validation/JsonValidator.php:16 | the error list starts empty |
| JsonValidation.JsonValidator.ValidateMasterJson | src/Validation/JsonValidator.php:24-40 | the errors are reset to the master checks; true exactly when the document is well-formed and no error is left |
| JsonValidation.JsonValidator.ValidateVoucherJson | src/Validation/JsonValidator.php:48-94 | the errors are reset to the voucher checks; true exactly when the document is well-formed and no error is left |
| JsonValidation.JsonValidator.ValidateOptionalLists | src/Validation/JsonValidator.php:57-80 | the units, ledgers and stock item checks are appended |
| JsonValidation.JsonValidator.ValidateUnits | src/Validation/JsonValidator.php:99-109 | the unit checks of every element are appended, in order |
| JsonValidation.JsonValidator.ValidateLedgers | src/Validation/JsonValidator.php:114-128 | the ledger checks of every element are appended, in order |
| JsonValidation.JsonValidator.ValidateStockItems | src/Validation/JsonValidator.php:133-153 | the stock item checks of every element are appended, in order |
| JsonValidation.JsonValidator.ValidateVoucherFields | src/Validation/JsonValidator.php:160-186 | the required-field, type, date and GSTIN checks are appended |
| JsonValidation.JsonValidator.ValidateVoucher | src/Validation/JsonValidator.php:158-212 | all voucher checks are appended |
| JsonValidation.JsonValidator.ValidateVoucherItems | src/Validation/JsonValidator.php:217-240 | one error for an empty list, else the item checks of every element |
| JsonValidation.JsonValidator.ValidateVoucherItem | src/Validation/JsonValidator.php:224-239 | the checks of one item are appended |
| JsonValidation.JsonValidator.ValidateTaxDetails | src/Validation/JsonValidator.php:245-258 | the tax checks of every element are appended, in order |
| JsonValidation.JsonValidator.GetErrors | src/Validation/JsonValidator.php:285-288 | the current error list |
| JsonValidation.JsonValidator.GetErrorsAsString | src/Validation/JsonValidator.php:295-298 | the joined text is empty exactly when there is no error (or only an empty one) |
| MasterConversion.MasterLedger | src/Converters/JsonToMasterConverter.php:70-129 | the ledger built from the data, with its address list, under TALLYMESSAGE/LEDGER |
| MasterConversion.Masters | src/Converters/JsonToMasterConverter.php:51-61 | one ledger message per input ledger, in input order |
| MasterConversion.MasterEnvelopeOrder | src/Converters/JsonToMasterConverter.php:134-143 | the root has exactly `_COMPANY_NAME` and then MASTERS, which holds one message per ledger, in order |
| MasterConversion.LedgerDetailsFields | src/Converters/JsonToMasterConverter.php:109-126 | registration and mailing details are added exactly when their fields are all non-empty |
| MasterConversion.OptionalFieldsLeaveDetails | src/Converters/JsonToMasterConverter.php:77-107 | the optional setters never add either detail record |
| MasterConversion.DetailsWhenComplete | src/Converters/JsonToMasterConverter.php:109-126 | the built ledger holds each detail record exactly when its fields are all non-empty |
| MasterConversion.DefaultParent | src/Converters/JsonToMasterConverter.php:72-75 | without a parent the ledger is a Sundry Debtor with bill-wise details |
| MasterConversion.JsonToMasterConverter.constructor | src/Converters/JsonToMasterConverter.php:25-28 | a fresh serializer with version '9.0' |
| MasterConversion.JsonToMasterConverter.Convert | src/Converters/JsonToMasterConverter.php:38-65 | failed validation gives the validation error and no output; otherwise a TypeError exactly when a ledger field has the wrong type, else the envelope of all ledgers when it is well named and the DOMException otherwise |
| MasterConversion.JsonToMasterConverter.BuildLedger | src/Converters/JsonToMasterConverter.php:70-129 | succeeds exactly when the fields fit the builder's parameter types, with the master ledger |
| MasterConversion.JsonToMasterConverter.BuildMasters | src/Converters/JsonToMasterConverter.php:51-61 | succeeds exactly when every ledger builds, with one message per ledger in order |
| MasterConversion.JsonToMasterConverter.ConvertToXml | src/Converters/JsonToMasterConverter.php:134-143 | the document of `_COMPANY_NAME` and MASTERS, or a DOMException exactly when it is not well named |
| VoucherConversion.InventoryLines | src/Converters/JsonToVoucherConverter.php:237-248 | one inventory line per item, in order |
| VoucherConversion.TaxLines | src/Converters/JsonToVoucherConverter.php:251-258 | one tax line per tax detail, in order |
| VoucherConversion.ChargeLines | src/Converters/JsonToVoucherConverter.php:261-268 | one charge line per additional charge, in order |
| VoucherConversion.Units | src/Converters/JsonToVoucherConverter.php:60-66 | one unit message per unit, in order |
| VoucherConversion.Ledgers | src/Converters/JsonToVoucherConverter.php:68-74 | one ledger message per ledger, in order |
| VoucherConversion.StockItems | src/Converters/JsonToVoucherConverter.php:76-82 | one stock item message per item, in order |
| VoucherConversion.ValidatedTypeKept | src/Converters/JsonToVoucherConverter.php:289-316 | a type the validator accepts reaches the builder unchanged |
| VoucherConversion.BuilderTypeCases | src/Converters/JsonToVoucherConverter.php:289-316 | the switch ignores case and 'sale' and 'sales' both give Sale; any other type passes through verbatim, so 'journal' stays 'journal' |
| VoucherConversion.BuilderTypeIdempotent | src/Converters/JsonToVoucherConverter.php:289-316 | choosing the type twice changes nothing |
| VoucherConversion.VoucherDefaults | src/Converters/JsonToVoucherConverter.php:188-190 | no type, number or date gives a Sale numbered '' dated today |
| VoucherConversion.ItemDefaults | src/Converters/JsonToVoucherConverter.php:239-246 | an empty item is Sales Account, no stock item, 'Nos', rate 0, quantity 1, no discount |
| VoucherConversion.ValidatedItemAmountsAccepted | src/Converters/JsonToVoucherConverter.php:243-244 | a validated item's price and qty pass the `float` parameters |
| VoucherConversion.StockItemConversion | src/Converters/JsonToVoucherConverter.php:159-181 | a missing unit gives 'Nos'; GST details appear exactly when hsn is non-empty and gst_percentage set, with the cleaned HSN code |
| VoucherConversion.DefaultStockUnit | src/Converters/JsonToVoucherConverter.php:163 | a missing unit is 'Nos' after cleaning |
| VoucherConversion.PartyLineFirst | src/Converters/JsonToVoucherConverter.php:279-281 | with total and ledger_name set the party line is first; without, the ledger lines are the postings and the round-off |
| VoucherConversion.RoundOffLast | src/Converters/JsonToVoucherConverter.php:271-276 | a set round_off gives the last ledger line, a debit exactly when negative; without it there is no round-off line |
| VoucherConversion.DataOrder | src/Converters/JsonToVoucherConverter.php:58-88 | DATA holds every unit, then every ledger, then every stock item, each group in input order, and the voucher when set |
| VoucherConversion.ValidatedDocumentEndsWithVoucher | src/Converters/JsonToVoucherConverter.php:84-88 | for a validated document the voucher is the last message |
| VoucherConversion.JsonToVoucherConverter.constructor | src/Converters/JsonToVoucherConverter.php:30-33 | a fresh serializer with version '9.0' |
| VoucherConversion.JsonToVoucherConverter.Convert | src/Converters/JsonToVoucherConverter.php:43-92 | failed validation gives the validation error and no output; otherwise a TypeError exactly when some field has the wrong type, else the envelope of `_COMPANY_NAME` and DATA when it is well named and the DOMException otherwise |
| VoucherConversion.JsonToVoucherConverter.BuildUnits | src/Converters/JsonToVoucherConverter.php:60-66 | succeeds exactly when every unit builds, with the unit messages in order |
| VoucherConversion.JsonToVoucherConverter.BuildLedgers | src/Converters/JsonToVoucherConverter.php:68-74 | succeeds exactly when every ledger builds, with the ledger messages in order |
| VoucherConversion.JsonToVoucherConverter.BuildStockItems | src/Converters/JsonToVoucherConverter.php:76-82 | succeeds exactly when every stock item builds, with the messages in order |
| VoucherConversion.JsonToVoucherConverter.BuildUnit | src/Converters/JsonToVoucherConverter.php:97-109 | succeeds exactly when name, uqc_name and decimal_point fit their types, with the unit message |
| VoucherConversion.JsonToVoucherConverter.BuildLedger | src/Converters/JsonToVoucherConverter.php:114-154 | succeeds exactly when the fields fit their types, with the ledger message |
| VoucherConversion.JsonToVoucherConverter.BuildStockItem | src/Converters/JsonToVoucherConverter.php:159-181 | succeeds exactly when the fields fit their types, with the stock item message |
| VoucherConversion.JsonToVoucherConverter.BuildVoucher | src/Converters/JsonToVoucherConverter.php:186-284 | succeeds exactly when every builder call's arguments fit, with the voucher message |
| VoucherConversion.JsonToVoucherConverter.SetParty | src/Converters/JsonToVoucherConverter.php:196-234 | the party setters, each only when its field is non-empty; the entry lists are unchanged |
| VoucherConversion.JsonToVoucherConverter.SetPartyName | src/Converters/JsonToVoucherConverter.php:196-206 | party name and both address lines, each only when non-empty |
| VoucherConversion.JsonToVoucherConverter.SetPartyPlace | src/Converters/JsonToVoucherConverter.php:208-218 | state, country and pincode, each only when non-empty |
| VoucherConversion.JsonToVoucherConverter.SetPartyTax | src/Converters/JsonToVoucherConverter.php:220-234 | registration type, GSTIN, place of supply and narration, each only when non-empty |
| VoucherConversion.JsonToVoucherConverter.AddLines | src/Converters/JsonToVoucherConverter.php:237-281 | items appended in order; ledger lines become party line, earlier lines, taxes, charges, round-off |
| VoucherConversion.JsonToVoucherConverter.AddPostings | src/Converters/JsonToVoucherConverter.php:251-268 | the tax lines and then the charge lines are appended |
| VoucherConversion.JsonToVoucherConverter.AddClosingLines | src/Converters/JsonToVoucherConverter.php:271-281 | the round-off is appended when set; the party line is prepended when total and ledger_name are set |
| VoucherConversion.JsonToVoucherConverter.AddItems | src/Converters/JsonToVoucherConverter.php:237-248 | one inventory entry per item is appended, in order |
| VoucherConversion.JsonToVoucherConverter.AddItem | src/Converters/JsonToVoucherConverter.php:239-246 | succeeds exactly when the item's arguments fit, appending its one entry |
| VoucherConversion.JsonToVoucherConverter.AddTaxes | src/Converters/JsonToVoucherConverter.php:251-258 | one tax line per tax detail is appended, in order |
| VoucherConversion.JsonToVoucherConverter.AddCharges | src/Converters/JsonToVoucherConverter.php:261-268 | one charge line per additional charge is appended, in order |
| VoucherConversion.JsonToVoucherConverter.CreateVoucherBuilder | src/Converters/JsonToVoucherConverter.php:289-316 | a fresh builder of the chosen type, number and formatted date |
| VoucherConversion.JsonToVoucherConverter.ConvertToXml | src/Converters/JsonToVoucherConverter.php:321-329 | the document of `_COMPANY_NAME` and DATA, or a DOMException exactly when it is not well named |

## Behaviour worth knowing

The model follows the code. Where the code behaves differently from what its
comments suggest, or in ways a caller may not expect, a lemma states the code's
behaviour:

- The party line of a Sale is written with ISDEEMEDPOSITIVE 'Yes' (src/Helpers.php:139-141)
  and a negated amount (src/Helpers.php:170-173) (`PolarityMatchesSign`, `PartyEntryFields`).
- `cleanElementName` does not reject empty or digit-leading names despite its comment,
  and is not idempotent (`ListAloneStripped`, `CleanElementNameNotIdempotent`). `createElement`
  then throws a DOMException for such a name, and so does the conversion: a company name given as
  a list (`{"company_name": ["Acme"]}`) makes an element named "0" (`CompanyListRejected`,
  `DigitNameRejected`, `ListAloneRejected`).
- `getInitials` skips the word "0", because `empty("0")` is true (`KeptWords`).
- `VoucherType::SALES` ('Sales') is not a sale for the debit/credit rules (`SalesIsNotSale`).
- A Journal party line is deemed positive but keeps its sign (`JournalPartyKeepsSign`).
- The voucher-type check uses loose `in_array`, so `true` passes (`VoucherTypeMembership`).
- The GSTIN pattern ends in `$`, which also accepts one trailing newline (`GstinAcceptedIffLayout`).
- 'Journal' is not a `case` of `createVoucherBuilder`: it passes through verbatim, and a
  lower-case 'journal' is kept as written (`BuilderTypeCases`).

## Left out

- DOMDocument, `saveXML`, pretty-printing and libxml escaping are not modelled: the document
  is an element tree. `htmlspecialchars` is written out as its five-character escape.
  `initializeDom` is the reset of the element list in `Convert`.
- The clock and the date parser (`formatDate`, `strtotime`, `date('Y-m-d')`,
  `getApplicableFrom`, `isValidDate`) are fields of a `Clock` value that the caller supplies.
- `tallySpecialChar` is the constant `TallySpecialChar`. `formatQuantity` and `formatRate` are
  written out, with the number's text given by `FloatText`.
- Floating point: amounts are exact decimals. Numeric strings with exponents are read exactly;
  binary rounding, the rounding to 14 significant digits (`precision`) PHP applies when a float
  becomes a string, the exponent notation PHP prints for very large or small floats, INF and NAN
  are not modelled.
- PhpNumbers.FloatText: writes every digit of the exact decimal, where PHP's interpolation in
  `formatQuantity`, `formatRate` and the GSTRATE and RATEOFTAXCALCULATION values rounds to 14
  significant digits (a quantity of 1.23456789012345678 prints as 1.2345678901235); the two
  agree for numbers of at most 14 significant digits.
- Integer width: `decimal_point` is an unbounded integer.
- Helpers.GetInitials: takes the first character of each word where `substr($word, 0, 1)` takes
  the first byte; the two differ for a word starting with a non-ASCII character.
- TallyXml.IsXmlName: non-ASCII names are judged by the name characters of XML 1.0, fifth
  edition; a libxml2 that uses the older letter tables can disagree on some of them.
- The builders' fixed tags (ISDEEMEDPOSITIVE, ALLLEDGERENTRIES.LIST, ...) are not proved to be
  valid names one by one; the conversion contracts decide it on the whole document.
- Exceptions: every TypeError a JSON value causes at a typed parameter is one `TypeError`/`WrongType`.
  `InvalidArgumentException` is `InvalidJson(message)`. The DOMException of `createElement` is
  `InvalidCharacterError` in the serializer and `InvalidName` in the converters. PHP warnings are
  not modelled.
- PhpArrays.FloatArg: leading-numeric strings such as "12abc", which PHP accepts with a warning,
  are treated as failures.
- JsonValidation.GstinCheck: an array-valued `gst_in` or `voucher_date` makes PHP raise a TypeError
  inside the validator; the model counts it as invalid (both end without output).
- Helpers.Clean: the `null` argument of `?string` is not modelled; every caller passes a string.
- The `$validate = true` default parameter of both `convert` methods is an explicit argument.
- The foreach loops of the converters are separate methods (`BuildUnits`, `AddItems`, ...).
  Their `isset && is_array` guards are folded into `ListOf` and `LedgerListOf`.
- `getTallyVersion` and `hasErrors` are functions without their own contract. They are stated by
  `SetTallyVersion` and by the `ok <==> !HasErrors()` clause of the two validate methods.
- VoucherBuilding.ItemAmount: states only the two decimals of `round($rate * $qty, 2)`;
  the sign and magnitude follow from `Round2Neg`.
- ConversionInputs.CompanyOf: states only that the company name is never null.
- JsonValidation.JsonValidator.GetErrorsAsString: states only when the joined text is empty,
  not the text itself.
