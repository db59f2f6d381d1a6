/**
 * String cleaning, initials and the debit/credit rules for Tally vouchers.
 * Date handling depends on the system clock and the date parser; it reaches
 * the model as a `Clock` value supplied by the caller.
 */
module Helpers {
  import opened Wrappers
  import opened PhpStrings
  import opened PhpNumbers
  import opened PhpArrays

  /**
   * What the library reads from the clock and the date parser: the
   * `YYYYMMDD` form of a date string, the `getApplicableFrom()` date, today's
   * `Y-m-d` date, and whether `strtotime` accepts a string.
   */
  datatype Clock = Clock(
    formatDate: string -> string,
    applicableFrom: string,
    today: string,
    isValidDate: string -> bool)

  /** The prefix Tally uses for special values such as "&#4; Applicable". */
  const TallySpecialChar: string := "&#4;"

  // ---------------------------------------------------------------------
  // clean

  /** The characters of the class `[\x00-\x1F\x7F]`. */
  predicate IsControl(c: char) { c as int <= 0x1F || c as int == 0x7F }

  predicate IsQuote(c: char) { c == '\'' || c == '"' }

  predicate NoControl(s: string) { forall i :: 0 <= i < |s| ==> !IsControl(s[i]) }
  predicate NoQuote(s: string) { forall i :: 0 <= i < |s| ==> !IsQuote(s[i]) }

  /** `preg_replace('/[\x00-\x1F\x7F]/', '', $s)`: every other character is kept, in order. */
  function StripControl(s: string): (r: string)
    ensures NoControl(r)
    ensures forall c :: !IsControl(c) ==> Count(r, c) == Count(s, c)
    ensures IsSubsequence(r, s)
    ensures NoQuote(s) ==> NoQuote(r)
    ensures NoControl(s) ==> r == s
  {
    if s == [] then []
    else
      var head, rest := (if IsControl(s[0]) then [] else [s[0]]), StripControl(s[1..]);
      CountAppendAll(head, rest);
      assert IsSubsequence(head + rest, s) by { KeepOrDrop(s, head, rest); }
      head + rest
  }

  /** Keeping or dropping the first element keeps a subsequence of the rest a subsequence. */
  lemma KeepOrDrop(s: string, head: string, rest: string)
    requires s != [] && (head == [] || head == [s[0]]) && IsSubsequence(rest, s[1..])
    ensures IsSubsequence(head + rest, s)
  {
    if head == [] {
      assert head + rest == rest;
      SuffixSubsequence(rest, s, 1);
    } else {
      assert (head + rest)[1..] == rest;
    }
  }

  function EscapeAmp(s: string): (r: string)
    ensures |r| == |s| + 4 * Count(s, '&')
    ensures NoControl(s) ==> NoControl(r)
    ensures NoQuote(s) ==> NoQuote(r)
    ensures Count(r, '&') == Count(s, '&')
    ensures Count(s, '&') == 0 ==> r == s
  {
    if s == [] then []
    else
      var head, rest := (if s[0] == '&' then "&amp;" else [s[0]]), EscapeAmp(s[1..]);
      CountAppend(head, rest, '&');
      assert Count(head, '&') == (if s[0] == '&' then 1 else 0);
      assert s == [s[0]] + s[1..];
      head + rest
  }

  /** `str_replace(["'", '"'], '', $s)`: every other character is kept, in order. */
  function DropQuotes(s: string): (r: string)
    ensures NoQuote(r)
    ensures forall c :: !IsQuote(c) ==> Count(r, c) == Count(s, c)
    ensures IsSubsequence(r, s)
    ensures NoControl(s) ==> NoControl(r)
    ensures NoQuote(s) ==> r == s
  {
    if s == [] then []
    else
      var head, rest := (if IsQuote(s[0]) then [] else [s[0]]), DropQuotes(s[1..]);
      CountAppendAll(head, rest);
      assert IsSubsequence(head + rest, s) by { KeepOrDrop(s, head, rest); }
      head + rest
  }

  /**
   * `Helpers::clean` on a string: the empty string is returned as is;
   * otherwise control characters are removed, every '&' becomes "&amp;" and
   * quotes are removed.
   */
  function Clean(s: string): (r: string)
    ensures s == "" ==> r == ""
    ensures NoControl(r) && NoQuote(r)
    ensures Count(r, '&') == Count(s, '&')
  {
    if s == "" then s else DropQuotes(EscapeAmp(StripControl(s)))
  }

  lemma {:induction false} CountPositive(s: string, c: char)
    ensures c in s <==> Count(s, c) > 0
  {
    if s != [] {
      CountPositive(s[1..], c);
      assert s == [s[0]] + s[1..];
    }
  }

  /**
   * Cleaning twice is the same as cleaning once exactly when the text has no
   * '&': an ampersand is escaped again on every pass.
   */
  lemma CleanIdempotentIff(s: string)
    ensures Clean(Clean(s)) == Clean(s) <==> '&' !in s
  {
    var t := Clean(s);
    CountPositive(s, '&');
    if t != "" {
      assert Clean(t) == EscapeAmp(t);
    }
  }

  /** Decodes "&amp;" back to '&': the inverse of the ampersand step. */
  function UnescapeAmp(s: string): string
  {
    if s == [] then []
    else if |s| >= 5 && s[..5] == "&amp;" then ['&'] + UnescapeAmp(s[5..])
    else [s[0]] + UnescapeAmp(s[1..])
  }

  lemma {:induction false} UnescapeEscapeAmp(s: string)
    ensures UnescapeAmp(EscapeAmp(s)) == s
  {
    hide Count, NoControl, NoQuote;
    if s != [] {
      var rest := EscapeAmp(s[1..]);
      UnescapeEscapeAmp(s[1..]);
      if s[0] == '&' {
        var e := "&amp;" + rest;
        assert EscapeAmp(s) == e;
        assert e[..5] == "&amp;" && e[5..] == rest;
        assert UnescapeAmp(e) == ['&'] + UnescapeAmp(rest);
      } else {
        var e := [s[0]] + rest;
        assert EscapeAmp(s) == e;
        assert e[0] != '&';
        assert e[1..] == rest;
        assert UnescapeAmp(e) == [s[0]] + UnescapeAmp(rest);
      }
    }
  }

  /** Quotes and ampersands are different characters, so the two steps commute. */
  lemma {:induction false} DropQuotesEscapeAmp(s: string)
    ensures DropQuotes(EscapeAmp(s)) == EscapeAmp(DropQuotes(s))
  {
    hide DropQuotes, EscapeAmp;
    if s != [] {
      var c, t := [s[0]], s[1..];
      assert s == c + t;
      DropQuotesEscapeAmp(t);
      OneCharCommutes(s[0]);
      EscapeAmpAppend(c, t);
      DropQuotesAppend(EscapeAmp(c), EscapeAmp(t));
      DropQuotesAppend(c, t);
      EscapeAmpAppend(DropQuotes(c), DropQuotes(t));
    }
  }

  lemma OneCharCommutes(c: char)
    ensures DropQuotes(EscapeAmp([c])) == EscapeAmp(DropQuotes([c]))
  {
    assert [c][1..] == [];
    if c == '&' {
      assert EscapeAmp([c]) == "&amp;";
      assert DropQuotes("&amp;") == "&amp;";
    }
  }

  lemma {:induction false} EscapeAmpAppend(a: string, b: string)
    ensures EscapeAmp(a + b) == EscapeAmp(a) + EscapeAmp(b)
  {
    hide *;
    if a == [] {
      EscapeAmpEmpty();
      assert a + b == b;
    } else {
      var h := if a[0] == '&' then "&amp;" else [a[0]];
      assert (a + b)[0] == a[0] && (a + b)[1..] == a[1..] + b;
      EscapeAmpUnfold(a);
      EscapeAmpUnfold(a + b);
      EscapeAmpAppend(a[1..], b);
      assert EscapeAmp(a + b) == h + (EscapeAmp(a[1..]) + EscapeAmp(b));
    }
  }

  lemma EscapeAmpEmpty()
    ensures EscapeAmp([]) == []
  {
  }

  lemma EscapeAmpUnfold(s: string)
    requires |s| > 0
    ensures EscapeAmp(s) == (if s[0] == '&' then "&amp;" else [s[0]]) + EscapeAmp(s[1..])
  {
  }

  lemma {:induction false} DropQuotesAppend(a: string, b: string)
    ensures DropQuotes(a + b) == DropQuotes(a) + DropQuotes(b)
  {
    hide *;
    if a == [] {
      DropQuotesEmpty();
      assert a + b == b;
    } else {
      var h := if IsQuote(a[0]) then [] else [a[0]];
      assert (a + b)[0] == a[0] && (a + b)[1..] == a[1..] + b;
      DropQuotesUnfold(a);
      DropQuotesUnfold(a + b);
      DropQuotesAppend(a[1..], b);
      assert DropQuotes(a + b) == h + (DropQuotes(a[1..]) + DropQuotes(b));
    }
  }

  lemma DropQuotesEmpty()
    ensures DropQuotes([]) == []
  {
  }

  lemma DropQuotesUnfold(s: string)
    requires |s| > 0
    ensures DropQuotes(s) == (if IsQuote(s[0]) then [] else [s[0]]) + DropQuotes(s[1..])
  {
  }

  /**
   * What cleaning loses: decoding "&amp;" in the cleaned text gives the input
   * with exactly its control characters and quotes removed.
   */
  lemma CleanDecodes(s: string)
    ensures UnescapeAmp(Clean(s)) == DropQuotes(StripControl(s))
  {
    if s != "" {
      DropQuotesEscapeAmp(StripControl(s));
      UnescapeEscapeAmp(DropQuotes(StripControl(s)));
    }
  }

  /** For text without control characters and quotes, cleaning loses nothing: decoding gives the text back. */
  lemma CleanKeepsPlainText(s: string)
    requires NoControl(s) && NoQuote(s)
    ensures UnescapeAmp(Clean(s)) == s
  {
    CleanDecodes(s);
  }

  // ---------------------------------------------------------------------
  // getInitials

  /** The words that `!empty($word)` keeps: neither "" nor "0". */
  function KeptWords(words: seq<string>): (r: seq<string>)
    ensures |r| <= |words|
    ensures forall i :: 0 <= i < |r| ==> !IsEmpty(Str(r[i]))
    ensures forall w :: !IsEmpty(Str(w)) ==> multiset(r)[w] == multiset(words)[w]
    ensures IsSubsequence(r, words)
  {
    if words == [] then []
    else
      var w := words[|words| - 1];
      var front := words[..|words| - 1];
      var rest := KeptWords(front);
      assert words == front + [w];
      if IsEmpty(Str(w)) then
        assert IsSubsequence(rest, words) by {
          SubsequenceAppend(rest, front, [], [w]);
          assert rest + [] == rest;
        }
        rest
      else
        assert IsSubsequence(rest + [w], words) by {
          SubsequenceRefl([w]);
          SubsequenceAppend(rest, front, [w], [w]);
        }
        rest + [w]
  }

  /** `initials` holds the upper-cased first character of each of the `kept` words. */
  predicate InitialsOf(initials: string, kept: seq<string>)
  {
    |initials| == |kept| &&
    forall j :: 0 <= j < |kept| ==> |kept[j]| > 0 && initials[j] == UpperChar(kept[j][0])
  }

  /** One turn of the loop in `getInitials`. */
  lemma InitialsStep(words: seq<string>, i: nat, initials: string)
    requires i < |words| && InitialsOf(initials, KeptWords(words[..i]))
    ensures InitialsOf(if IsEmpty(Str(words[i])) then initials else initials + Upper(words[i][..1]), KeptWords(words[..i + 1]))
  {
    hide *;
    KeptWordsStep(words, i);
    var w := words[i];
    if !IsEmpty(Str(w)) {
      NonEmptyWord(w);
      UpperFirst(w);
      InitialsAppend(initials, KeptWords(words[..i]), w);
    }
  }

  /** One more kept word adds its upper-cased first character. */
  lemma InitialsAppend(initials: string, kept: seq<string>, w: string)
    requires InitialsOf(initials, kept) && |w| > 0
    ensures InitialsOf(initials + [UpperChar(w[0])], kept + [w])
  {
    var next, more := initials + [UpperChar(w[0])], kept + [w];
    assert forall j :: 0 <= j < |initials| ==> next[j] == initials[j] && more[j] == kept[j];
  }

  lemma NonEmptyWord(w: string)
    requires !IsEmpty(Str(w))
    ensures |w| > 0
  {
  }

  lemma UpperFirst(w: string)
    requires |w| > 0
    ensures Upper(w[..1]) == [UpperChar(w[0])]
  {
  }

  lemma KeptWordsStep(words: seq<string>, i: nat)
    requires i < |words|
    ensures KeptWords(words[..i + 1]) ==
      if IsEmpty(Str(words[i])) then KeptWords(words[..i]) else KeptWords(words[..i]) + [words[i]]
  {
    assert words[..i + 1][..i] == words[..i];
  }

  /**
   * `Helpers::getInitials`: the upper-cased first character of every
   * kept word, in order.
   */
  method GetInitials(s: string) returns (r: string)
    ensures |r| == |KeptWords(Explode(s, ' '))|
    ensures forall i :: 0 <= i < |r| ==> r[i] == UpperChar(KeptWords(Explode(s, ' '))[i][0])
    ensures |r| <= Count(s, ' ') + 1
  {
    hide KeptWords, Count, Explode;
    var initials := "";
    var words := Explode(s, ' ');
    for i := 0 to |words|
      invariant InitialsOf(initials, KeptWords(words[..i]))
    {
      var word := words[i];
      InitialsStep(words, i, initials);
      if !IsEmpty(Str(word)) {
        initials := initials + Upper(word[..1]);
      }
    }
    assert words[..|words|] == words;
    r := Upper(initials);
    ExplodeLength(s, ' ');
  }

  // ---------------------------------------------------------------------
  // Debit/credit rules

  /** Lower-cased voucher types whose party line is a credit. */
  const PartyCreditTypes: seq<string> := ["purchase", "sale return", "receipt"]
  /** Lower-cased voucher types whose item lines are debits. */
  const ItemDebitTypes: seq<string> := ["purchase", "sale return"]
  /** Lower-cased voucher types whose ledger and tax lines are debits. */
  const LedgerDebitTypes: seq<string> := ["purchase", "sale return", "receipt"]
  /** Lower-cased voucher types whose party amount is negated. */
  const PartyNegatedTypes: seq<string> := ["sale", "purchase return", "payment"]

  /** `Helpers::isDeemedPositive`: whether a line of the given role is a debit. */
  function IsDeemedPositive(voucherType: string, entryType: string): (r: bool)
    ensures entryType !in ["party", "item", "ledger", "tax"] ==> r
    ensures entryType == "item" && r ==> Lower(voucherType) in LedgerDebitTypes
  {
    var t := Lower(voucherType);
    if entryType == "party" then t !in PartyCreditTypes
    else if entryType == "item" then t in ItemDebitTypes
    else if entryType == "ledger" || entryType == "tax" then t in LedgerDebitTypes
    else true
  }

  /** `Helpers::adjustAmount`: the amount, negated where the voucher type and role call for it. */
  function AdjustAmount(amount: Decimal, voucherType: string, entryType: string): (r: Decimal)
    ensures r == amount || r == Neg(amount)
  {
    var t := Lower(voucherType);
    if entryType == "party" && t in PartyNegatedTypes then Neg(amount)
    else if entryType == "item" && t in ItemDebitTypes then Neg(amount)
    else if (entryType == "ledger" || entryType == "tax") && t in LedgerDebitTypes then Neg(amount)
    else amount
  }

  /** The six voucher types whose lines the two tables treat consistently. */
  const TradingTypes: seq<string> := ["sale", "purchase", "sale return", "purchase return", "payment", "receipt"]

  /**
   * For item, ledger and tax lines, and for the party line of the six
   * trading types, a line is a debit exactly when its amount is negated.
   */
  lemma PolarityMatchesSign(amount: Decimal, voucherType: string, entryType: string)
    requires !IsZero(amount)
    requires entryType in ["item", "ledger", "tax"] || (entryType == "party" && Lower(voucherType) in TradingTypes)
    ensures IsDeemedPositive(voucherType, entryType) <==> AdjustAmount(amount, voucherType, entryType) == Neg(amount)
  {
    assert Neg(amount) != amount;
  }

  /** The party rule does not extend to other types: a journal party line is a debit with its amount kept. */
  lemma JournalPartyKeepsSign(amount: Decimal)
    ensures IsDeemedPositive("Journal", "party")
    ensures AdjustAmount(amount, "Journal", "party") == amount
  {
    assert Lower("Journal") == "journal";
  }

  /** Ledger and tax lines follow the same rule; an item line is a debit only where a ledger line is. */
  lemma LedgerAndTaxAgree(amount: Decimal, voucherType: string)
    ensures IsDeemedPositive(voucherType, "ledger") == IsDeemedPositive(voucherType, "tax")
    ensures AdjustAmount(amount, voucherType, "ledger") == AdjustAmount(amount, voucherType, "tax")
    ensures IsDeemedPositive(voucherType, "item") ==> IsDeemedPositive(voucherType, "ledger")
  {
  }

  /**
   * In an invoice (sale, purchase and their returns) the party line carries
   * the opposite sign of the item and ledger lines, so the voucher balances.
   */
  lemma InvoiceSignsBalance(amount: Decimal, voucherType: string)
    requires Lower(voucherType) in ["sale", "purchase", "sale return", "purchase return"]
    ensures AdjustAmount(amount, voucherType, "party") == Neg(AdjustAmount(amount, voucherType, "item"))
    ensures AdjustAmount(amount, voucherType, "party") == Neg(AdjustAmount(amount, voucherType, "ledger"))
  {
    hide *;
    AdjustByRole(amount, voucherType);
    InvoiceTypeTables(Lower(voucherType));
    NegNeg(amount);
  }

  /** The adjustment of each role, written with the role's table. */
  lemma AdjustByRole(amount: Decimal, voucherType: string)
    ensures AdjustAmount(amount, voucherType, "party") == if Lower(voucherType) in PartyNegatedTypes then Neg(amount) else amount
    ensures AdjustAmount(amount, voucherType, "item") == if Lower(voucherType) in ItemDebitTypes then Neg(amount) else amount
    ensures AdjustAmount(amount, voucherType, "ledger") == if Lower(voucherType) in LedgerDebitTypes then Neg(amount) else amount
  {
    hide Lower, Neg;
    // The role names differ in length.
    assert |"party"| == 5 && |"item"| == 4 && |"ledger"| == 6 && |"tax"| == 3;
  }

  lemma NegNeg(amount: Decimal)
    ensures Neg(Neg(amount)) == amount
  {
  }

  /** For the four invoice types the party line is negated exactly when the item and ledger lines are not. */
  lemma InvoiceTypeTables(t: string)
    requires t in ["sale", "purchase", "sale return", "purchase return"]
    ensures t in PartyNegatedTypes <==> t !in ItemDebitTypes
    ensures t in ItemDebitTypes <==> t in LedgerDebitTypes
  {
    // The table entries differ in length, except "receipt" and "payment".
    assert |t| in {4, 8, 11, 15};
    assert |"receipt"| == 7 && |"payment"| == 7;
    if |t| == 4 {
      assert t == "sale";
    } else if |t| == 8 {
      assert t == "purchase";
    } else if |t| == 11 {
      assert t == "sale return";
    } else {
      assert t == "purchase return";
    }
  }

  /** For every voucher type the party line is a debit exactly when the ledger and tax lines are credits. */
  lemma PartyOppositeLedger(voucherType: string)
    ensures IsDeemedPositive(voucherType, "party") == !IsDeemedPositive(voucherType, "ledger")
    ensures IsDeemedPositive(voucherType, "tax") == IsDeemedPositive(voucherType, "ledger")
  {
    assert PartyCreditTypes == LedgerDebitTypes;
  }

  /** Adjusting twice gives the original amount back. */
  lemma AdjustInvolution(amount: Decimal, voucherType: string, entryType: string)
    ensures AdjustAmount(AdjustAmount(amount, voucherType, entryType), voucherType, entryType) == amount
  {
    assert Neg(Neg(amount)) == amount;
  }

  /** Adjusting never changes the magnitude. */
  lemma AdjustKeepsMagnitude(amount: Decimal, voucherType: string, entryType: string)
    ensures Abs(AdjustAmount(amount, voucherType, entryType).units) == Abs(amount.units)
    ensures AdjustAmount(amount, voucherType, entryType).scale == amount.scale
  {
  }

  /** Roles other than party, item, ledger and tax are debits and keep their amount. */
  lemma UnknownRolePassesThrough(amount: Decimal, voucherType: string, entryType: string)
    requires entryType !in ["party", "item", "ledger", "tax"]
    ensures IsDeemedPositive(voucherType, entryType)
    ensures AdjustAmount(amount, voucherType, entryType) == amount
  {
  }

  /** Both rules ignore the case of the voucher type. */
  lemma RulesIgnoreCase(amount: Decimal, voucherType: string, entryType: string)
    ensures IsDeemedPositive(Lower(voucherType), entryType) == IsDeemedPositive(voucherType, entryType)
    ensures IsDeemedPositive(Upper(voucherType), entryType) == IsDeemedPositive(voucherType, entryType)
    ensures AdjustAmount(amount, Lower(voucherType), entryType) == AdjustAmount(amount, voucherType, entryType)
    ensures AdjustAmount(amount, Upper(voucherType), entryType) == AdjustAmount(amount, voucherType, entryType)
  {
    LowerIdempotent(voucherType);
    LowerUpper(voucherType);
  }

  /**
   * The declared type 'Sales' is not in the tables: its party amount keeps
   * its sign, while a 'Sale' party amount is negated.
   */
  lemma SalesIsNotSale(amount: Decimal)
    requires !IsZero(amount)
    ensures AdjustAmount(amount, "Sale", "party") == Neg(amount)
    ensures AdjustAmount(amount, "Sales", "party") == amount != Neg(amount)
  {
    assert Lower("Sale") == "sale";
    assert Lower("Sales") == "sales";
  }

  // ---------------------------------------------------------------------
  // Text forms of quantities and rates

  /** `Helpers::formatQuantity`: " <quantity> <unit>". */
  function FormatQuantity(quantity: Decimal, unit: string): string
  {
    " " + FloatText(quantity) + " " + unit
  }

  /** `Helpers::formatRate`: "<rate>/<unit>". */
  function FormatRate(rate: Decimal, unit: string): string
  {
    FloatText(rate) + "/" + unit
  }

  /**
   * The quantity is the text between the leading space and the next space,
   * and it reads back as the quantity; the unit follows that space.
   */
  lemma QuantityTextReadsBack(quantity: Decimal, unit: string)
    ensures var s, n := FormatQuantity(quantity, unit), |FloatText(quantity)|;
      s[0] == ' ' && s[n + 1] == ' ' && (forall i :: 1 <= i <= n ==> s[i] != ' ')
      && ParseNumeric(s[1..n + 1]) == Some(Normalize(quantity)) && s[n + 2..] == unit
  {
    hide ParseNumeric, FloatText, Normalize;
    var t := FloatText(quantity);
    var s := FormatQuantity(quantity, unit);
    FloatTextChars(quantity);
    FloatTextParses(quantity);
    assert forall i :: 1 <= i <= |t| ==> s[i] == t[i - 1];
    assert s[1..|t| + 1] == t;
  }

  /** The rate is the text before the first '/', and it reads back as the rate; the unit follows the '/'. */
  lemma RateTextReadsBack(rate: Decimal, unit: string)
    ensures var s, n := FormatRate(rate, unit), |FloatText(rate)|;
      s[n] == '/' && (forall i :: 0 <= i < n ==> s[i] != '/')
      && ParseNumeric(s[..n]) == Some(Normalize(rate)) && s[n + 1..] == unit
  {
    hide ParseNumeric, FloatText, Normalize;
    var t := FloatText(rate);
    var s := FormatRate(rate, unit);
    FloatTextChars(rate);
    FloatTextParses(rate);
    assert forall i :: 0 <= i < |t| ==> s[i] == t[i];
    assert s[..|t|] == t;
  }
}
