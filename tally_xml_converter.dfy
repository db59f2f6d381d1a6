/**
 * The serializer: turns an ordered PHP array into the element tree of a Tally
 * import envelope, ENVELOPE / HEADER + BODY / IMPORTDATA / REQUESTDESC +
 * REQUESTDATA. The document is an element tree; a `Leaf` carries the text
 * handed to the document for that element, a `Node` its child elements.
 */
module TallyXml {
  import opened Wrappers
  import opened PhpStrings
  import opened PhpNumbers
  import opened PhpArrays

  datatype Element = Leaf(name: string, text: string) | Node(name: string, children: seq<Element>)

  // ---------------------------------------------------------------------
  // htmlspecialchars

  function EscapeChar(c: char): string
  {
    match c
    case '&' => "&amp;"
    case '<' => "&lt;"
    case '>' => "&gt;"
    case '"' => "&quot;"
    case '\'' => "&#039;"
    case _ => [c]
  }

  /** `htmlspecialchars`: the five markup characters become entity references. */
  function Escape(s: string): (r: string)
    ensures |r| >= |s|
    ensures forall i :: 0 <= i < |r| ==> r[i] !in "<>\"'"
  {
    if s == [] then [] else EscapeChar(s[0]) + Escape(s[1..])
  }

  /** Decodes the five entity references `Escape` produces. */
  function Unescape(s: string): string
  {
    if s == [] then []
    else if |s| >= 5 && s[..5] == "&amp;" then "&" + Unescape(s[5..])
    else if |s| >= 4 && s[..4] == "&lt;" then "<" + Unescape(s[4..])
    else if |s| >= 4 && s[..4] == "&gt;" then ">" + Unescape(s[4..])
    else if |s| >= 6 && s[..6] == "&quot;" then "\"" + Unescape(s[6..])
    else if |s| >= 6 && s[..6] == "&#039;" then "'" + Unescape(s[6..])
    else [s[0]] + Unescape(s[1..])
  }

  lemma UnescapeCons(c: char, rest: string)
    ensures Unescape(EscapeChar(c) + rest) == [c] + Unescape(rest)
  {
    var e := EscapeChar(c) + rest;
    if c == '&' {
      assert e[..5] == "&amp;" && e[5..] == rest;
    } else if c == '<' {
      assert e[..4] == "&lt;" && e[4..] == rest;
      assert e[1] == 'l';
      assert !(|e| >= 5 && e[..5] == "&amp;") by { if |e| >= 5 { assert e[..5][1] == 'l'; } }
    } else if c == '>' {
      assert e[..4] == "&gt;" && e[4..] == rest;
      assert e[1] == 'g';
      assert !(|e| >= 5 && e[..5] == "&amp;") by { if |e| >= 5 { assert e[..5][1] == 'g'; } }
      assert e[..4] != "&lt;" by { assert e[..4][1] == 'g'; }
    } else if c == '"' {
      assert e[..6] == "&quot;" && e[6..] == rest;
      assert e[1] == 'q';
      assert e[..5][1] == 'q' && e[..4][1] == 'q';
    } else if c == '\'' {
      assert e[..6] == "&#039;" && e[6..] == rest;
      assert e[1] == '#';
      assert e[..5][1] == '#' && e[..4][1] == '#';
      assert e[..6] != "&quot;" by { assert e[..6][1] == '#'; }
    } else {
      assert e[0] == c && e[1..] == rest;
      assert !(|e| >= 5 && e[..5] == "&amp;") by { if |e| >= 5 { assert e[..5][0] == c; } }
      assert !(|e| >= 4 && e[..4] == "&lt;") by { if |e| >= 4 { assert e[..4][0] == c; } }
      assert !(|e| >= 4 && e[..4] == "&gt;") by { if |e| >= 4 { assert e[..4][0] == c; } }
      assert !(|e| >= 6 && e[..6] == "&quot;") by { if |e| >= 6 { assert e[..6][0] == c; } }
      assert !(|e| >= 6 && e[..6] == "&#039;") by { if |e| >= 6 { assert e[..6][0] == c; } }
    }
  }

  /** Escaping loses nothing: decoding gives the original text back. */
  lemma {:induction false} UnescapeEscape(s: string)
    ensures Unescape(Escape(s)) == s
  {
    if s != [] {
      UnescapeEscape(s[1..]);
      UnescapeCons(s[0], Escape(s[1..]));
    }
  }

  // ---------------------------------------------------------------------
  // cleanElementName

  /** `str_replace('.LIST', '', name)`: occurrences removed left to right. */
  function StripList(s: string): (r: string)
    ensures |r| <= |s|
  {
    if s == [] then []
    else if |s| >= 5 && s[..5] == ".LIST" then StripList(s[5..])
    else [s[0]] + StripList(s[1..])
  }

  /** The characters the pattern `[a-zA-Z0-9\-_.]` keeps. */
  predicate IsNameChar(c: char)
  {
    IsAsciiUpper(c) || IsAsciiLower(c) || IsDigit(c) || c == '-' || c == '_' || c == '.'
  }

  function KeepNameChars(s: string): (r: string)
    ensures forall i :: 0 <= i < |r| ==> IsNameChar(r[i])
  {
    if s == [] then []
    else (if IsNameChar(s[0]) then [s[0]] else []) + KeepNameChars(s[1..])
  }

  /** `cleanElementName`: remove every ".LIST", then every character outside the name characters. */
  function CleanElementName(name: string): (r: string)
    ensures forall i :: 0 <= i < |r| ==> IsNameChar(r[i])
  {
    KeepNameChars(StripList(name))
  }

  lemma {:induction false} StripListSubsequence(s: string)
    ensures IsSubsequence(StripList(s), s)
  {
    if s != [] {
      if |s| >= 5 && s[..5] == ".LIST" {
        StripListSubsequence(s[5..]);
        SuffixSubsequence(StripList(s[5..]), s, 5);
      } else {
        StripListSubsequence(s[1..]);
        assert ([s[0]] + StripList(s[1..]))[1..] == StripList(s[1..]);
      }
    }
  }

  lemma {:induction false} KeepNameCharsSubsequence(s: string)
    ensures IsSubsequence(KeepNameChars(s), s)
  {
    if s != [] {
      KeepNameCharsSubsequence(s[1..]);
      if IsNameChar(s[0]) {
        assert ([s[0]] + KeepNameChars(s[1..]))[1..] == KeepNameChars(s[1..]);
      } else {
        assert KeepNameChars(s) == KeepNameChars(s[1..]);
      }
    }
  }

  /** The cleaned name keeps some of the input's characters, in their order. */
  lemma CleanElementNameSubsequence(name: string)
    ensures IsSubsequence(CleanElementName(name), name)
  {
    StripListSubsequence(name);
    KeepNameCharsSubsequence(StripList(name));
    SubsequenceTransitive(CleanElementName(name), StripList(name), name);
  }

  /** `s` has ".LIST" somewhere inside it. */
  predicate HasList(s: string)
  {
    |s| >= 5 && (s[..5] == ".LIST" || HasList(s[1..]))
  }

  predicate AllNameChars(s: string)
  {
    forall i :: 0 <= i < |s| ==> IsNameChar(s[i])
  }

  predicate NoDot(s: string)
  {
    forall i :: 0 <= i < |s| ==> s[i] != '.'
  }

  lemma {:induction false} KeepNameCharsKeepsNames(s: string)
    requires AllNameChars(s)
    ensures KeepNameChars(s) == s
  {
    if s != [] {
      KeepNameCharsKeepsNames(s[1..]);
    }
  }

  lemma {:induction false} StripListNoList(s: string)
    requires !HasList(s)
    ensures StripList(s) == s
  {
    if s != [] {
      StripListNoList(s[1..]);
    }
  }

  lemma {:induction false} NoDotNoList(s: string)
    requires NoDot(s)
    ensures !HasList(s)
  {
    if |s| >= 5 {
      assert s[..5][0] == s[0] != '.';
      NoDotNoList(s[1..]);
    }
  }

  /** A name made of name characters and free of ".LIST" is left as it is. */
  lemma CleanElementNameKeepsCleanNames(name: string)
    requires AllNameChars(name) && !HasList(name)
    ensures CleanElementName(name) == name
  {
    StripListNoList(name);
    KeepNameCharsKeepsNames(name);
  }

  /** A first character other than '.' cannot start ".LIST", so it is kept. */
  lemma StripListCons(s: string)
    requires |s| > 0 && s[0] != '.'
    ensures StripList(s) == [s[0]] + StripList(s[1..])
  {
    assert |s| >= 5 ==> s[..5][0] == s[0];
  }

  lemma {:induction false} StripListPrefix(x: string, t: string)
    requires NoDot(x)
    ensures StripList(x + t) == x + StripList(t)
  {
    hide StripList;
    if x == [] {
      assert x + t == t;
    } else {
      var s := x + t;
      assert s[0] == x[0] != '.';
      StripListCons(s);
      assert s[1..] == x[1..] + t;
      StripListPrefix(x[1..], t);
      assert [x[0]] + x[1..] == x;
    }
  }

  /** A ".LIST" suffix is dropped: "ALLINVENTORYENTRIES.LIST" names ALLINVENTORYENTRIES. */
  lemma ListSuffixDropped(x: string)
    requires AllNameChars(x) && NoDot(x)
    ensures CleanElementName(x + ".LIST") == x
  {
    StripListPrefix(x, ".LIST");
    assert ".LIST"[..5] == ".LIST" && ".LIST"[5..] == [];
    assert x + [] == x;
    KeepNameCharsKeepsNames(x);
  }

  /** Characters outside the name characters are dropped rather than rejected. */
  lemma {:induction false} DroppedCharacters(x: string, c: char, y: string)
    requires !IsNameChar(c)
    ensures KeepNameChars(x + [c] + y) == KeepNameChars(x) + KeepNameChars(y)
  {
    if x == [] {
      assert x + [c] + y == [c] + y;
      assert ([c] + y)[1..] == y;
    } else {
      assert (x + [c] + y)[1..] == x[1..] + [c] + y;
      DroppedCharacters(x[1..], c, y);
    }
  }

  /** Cleaning is not idempotent: removing one ".LIST" can join the pieces of another. */
  lemma CleanElementNameNotIdempotent()
    ensures CleanElementName("..LISTLIST") == ".LIST"
    ensures CleanElementName(CleanElementName("..LISTLIST")) == ""
  {
    JoinedListStripped();
    assert AllNameChars(".LIST");
    KeepNameCharsKeepsNames(".LIST");
    ListAloneStripped();
  }

  lemma JoinedListStripped()
    ensures StripList("..LISTLIST") == ".LIST"
  {
    var s := "..LISTLIST";
    assert s[..5][1] == '.';
    assert StripList(s) == "." + StripList(s[1..]);
    assert s[1..][..5] == ".LIST" && s[1..][5..] == "LIST";
    StripListPrefix("LIST", "");
    assert "LIST" + "" == "LIST";
  }

  lemma ListAloneStripped()
    ensures CleanElementName(".LIST") == ""
  {
    assert ".LIST"[..5] == ".LIST" && ".LIST"[5..] == [];
  }

  // ---------------------------------------------------------------------
  // Element names `createElement` accepts

  /** XML 1.0 NameStartChar (fifth edition). */
  predicate IsXmlNameStart(c: char)
  {
    var n := c as int;
    c == ':' || IsAsciiUpper(c) || c == '_' || IsAsciiLower(c)
    || (0xC0 <= n <= 0xD6) || (0xD8 <= n <= 0xF6) || (0xF8 <= n <= 0x2FF)
    || (0x370 <= n <= 0x37D) || (0x37F <= n <= 0x1FFF) || (0x200C <= n <= 0x200D)
    || (0x2070 <= n <= 0x218F) || (0x2C00 <= n <= 0x2FEF) || (0x3001 <= n <= 0xD7FF)
    || (0xF900 <= n <= 0xFDCF) || (0xFDF0 <= n <= 0xFFFD) || (0x10000 <= n <= 0xEFFFF)
  }

  /** XML 1.0 NameChar (fifth edition). */
  predicate IsXmlNameChar(c: char)
  {
    var n := c as int;
    IsXmlNameStart(c) || c == '-' || c == '.' || IsDigit(c)
    || n == 0xB7 || (0x300 <= n <= 0x36F) || (0x203F <= n <= 0x2040)
  }

  /**
   * The names `DOMDocument::createElement` accepts; any other name makes it
   * throw a DOMException (INVALID_CHARACTER_ERR).
   */
  predicate IsXmlName(s: string)
  {
    |s| > 0 && IsXmlNameStart(s[0]) && forall i :: 1 <= i < |s| ==> IsXmlNameChar(s[i])
  }

  /** Every element of the tree has a name `createElement` accepts. */
  predicate WellNamed(e: Element)
  {
    IsXmlName(e.name) && (e.Node? ==> forall i :: 0 <= i < |e.children| ==> WellNamed(e.children[i]))
  }

  predicate AllWellNamed(els: seq<Element>)
  {
    forall i :: 0 <= i < |els| ==> WellNamed(els[i])
  }

  lemma AllWellNamedAppend(a: seq<Element>, b: seq<Element>)
    ensures AllWellNamed(a + b) <==> AllWellNamed(a) && AllWellNamed(b)
  {
    if AllWellNamed(a + b) {
      assert forall i :: 0 <= i < |a| ==> (a + b)[i] == a[i];
      assert forall i :: 0 <= i < |b| ==> (a + b)[|a| + i] == b[i];
    }
  }

  /**
   * A cleaned name is accepted exactly when it is non-empty and starts with
   * a letter or '_': the cleaning keeps digits, '-' and '.' in first place.
   */
  lemma CleanedNameAccepted(name: string)
    ensures IsXmlName(CleanElementName(name)) <==>
      var r := CleanElementName(name); |r| > 0 && (IsAsciiUpper(r[0]) || IsAsciiLower(r[0]) || r[0] == '_')
  {
  }

  /** ".LIST" cleans to the empty name, which `createElement` refuses. */
  lemma ListAloneRejected()
    ensures !IsXmlName(CleanElementName(".LIST"))
  {
    ListAloneStripped();
  }

  /** A digit-leading name survives cleaning and is then refused. */
  lemma DigitNameRejected()
    ensures CleanElementName("0") == "0" && !IsXmlName("0")
  {
    assert AllNameChars("0") && NoDot("0");
    NoDotNoList("0");
    CleanElementNameKeepsCleanNames("0");
  }

  // ---------------------------------------------------------------------
  // The tree an array renders to

  /**
   * Where an entry is rendered: directly under REQUESTDATA, inside the
   * parent of an array with a numeric key, or inside a named element.
   */
  datatype Context = TopLevel | Spliced | Named

  /** The elements the first `n` entries of the array `v` contribute to their parent. */
  function RenderPrefix(v: Value, n: nat, ctx: Context): seq<Element>
    requires v.Arr? && n <= |v.entries|
    decreases v, 0, n
  {
    if n == 0 then []
    else
      var e := v.entries[n - 1];
      assert e in v.entries;
      RenderPrefix(v, n - 1, ctx) + RenderEntry(e.key, e.val, ctx)
  }

  /** The elements one `key => val` entry contributes to its parent. */
  function RenderEntry(key: Key, val: Value, ctx: Context): seq<Element>
    decreases val, 1, 0
  {
    if val.Arr? then
      if IsNumericKey(key) then RenderPrefix(val, |val.entries|, Spliced)
      else [Node(CleanElementName(KeyText(key)), RenderPrefix(val, |val.entries|, Named))]
    else
      match ctx
      case TopLevel => [Leaf(KeyText(key), Escape(ToText(val)))]
      case Spliced => [Leaf(CleanElementName(KeyText(key)), Escape(ToText(val)))]
      case Named =>
        if val == Str("") || val == Null then []
        else [Leaf(CleanElementName(KeyText(key)), Escape(ToText(val)))]
  }

  /** One more entry: its elements follow those of the entries before it. */
  lemma RenderStep(es: seq<Entry>, i: nat, ctx: Context)
    requires i < |es|
    ensures RenderPrefix(Arr(es), i + 1, ctx) == RenderPrefix(Arr(es), i, ctx) + RenderEntry(es[i].key, es[i].val, ctx)
  {
  }

  function RenderEntries(es: seq<Entry>, ctx: Context): seq<Element>
  {
    RenderPrefix(Arr(es), |es|, ctx)
  }

  /** The complete envelope `convert` produces for `data`. */
  function Document(data: seq<Entry>, requestType: string): Element
  {
    Node("ENVELOPE", [
      Node("HEADER", [Leaf("TALLYREQUEST", requestType)]),
      Node("BODY", [
        Node("IMPORTDATA", [
          Node("REQUESTDESC", [Leaf("REPORTNAME", "All Masters")]),
          Node("REQUESTDATA", RenderEntries(data, TopLevel))])])])
  }

  // ---------------------------------------------------------------------
  // Properties of the rendering

  lemma {:induction false} RenderPrefixDependsOnPrefix(x: seq<Entry>, y: seq<Entry>, n: nat, ctx: Context)
    requires n <= |x| && n <= |y| && x[..n] == y[..n]
    ensures RenderPrefix(Arr(x), n, ctx) == RenderPrefix(Arr(y), n, ctx)
  {
    if n > 0 {
      assert x[..n - 1] == y[..n - 1] by {
        assert x[..n - 1] == x[..n][..n - 1] && y[..n - 1] == y[..n][..n - 1];
      }
      assert x[n - 1] == x[..n][n - 1] == y[..n][n - 1] == y[n - 1];
      RenderPrefixDependsOnPrefix(x, y, n - 1, ctx);
    }
  }

  /** Rendering a concatenation renders each part in turn: entries keep their input order. */
  lemma {:induction false} RenderEntriesAppend(a: seq<Entry>, b: seq<Entry>, ctx: Context)
    ensures RenderEntries(a + b, ctx) == RenderEntries(a, ctx) + RenderEntries(b, ctx)
    decreases |b|
  {
    hide RenderEntry;
    if b == [] {
      assert a + b == a;
    } else {
      var b' := b[..|b| - 1];
      var e := b[|b| - 1];
      RenderEntriesAppend(a, b', ctx);
      assert (a + b)[..|a + b| - 1] == a + b';
      RenderPrefixDependsOnPrefix(a + b, a + b', |a + b'|, ctx);
      assert (a + b)[|a + b| - 1] == e;
      assert b[..|b'|] == b';
      RenderPrefixDependsOnPrefix(b, b', |b'|, ctx);
    }
  }

  lemma RenderEntriesSingle(e: Entry, ctx: Context)
    ensures RenderEntries([e], ctx) == RenderEntry(e.key, e.val, ctx)
  {
    assert RenderPrefix(Arr([e]), 0, ctx) == [];
  }

  /**
   * Empty strings and nulls are skipped inside named elements only: under
   * REQUESTDATA and when spliced from a numeric key they still produce an
   * element.
   */
  lemma EmptyScalarsSkippedOnlyWhenNamed(key: Key, val: Value)
    requires val == Str("") || val == Null
    ensures RenderEntry(key, val, Named) == []
    ensures RenderEntry(key, val, Spliced) == [Leaf(CleanElementName(KeyText(key)), "")]
    ensures RenderEntry(key, val, TopLevel) == [Leaf(KeyText(key), "")]
  {
  }

  /** One more entry: the elements so far are well named exactly when both parts are. */
  lemma WellNamedStep(es: seq<Entry>, i: nat, ctx: Context)
    requires i < |es|
    ensures AllWellNamed(RenderPrefix(Arr(es), i + 1, ctx)) <==>
      AllWellNamed(RenderPrefix(Arr(es), i, ctx)) && AllWellNamed(RenderEntry(es[i].key, es[i].val, ctx))
  {
    RenderStep(es, i, ctx);
    AllWellNamedAppend(RenderPrefix(Arr(es), i, ctx), RenderEntry(es[i].key, es[i].val, ctx));
  }

  /** A badly named element in the first `i` entries' rendering stays in every longer prefix. */
  lemma {:induction false} WellNamedPrefix(es: seq<Entry>, i: nat, n: nat, ctx: Context)
    requires i <= n <= |es|
    ensures AllWellNamed(RenderPrefix(Arr(es), n, ctx)) ==> AllWellNamed(RenderPrefix(Arr(es), i, ctx))
    decreases n
  {
    hide *;
    if i < n {
      WellNamedStep(es, n - 1, ctx);
      WellNamedPrefix(es, i, n - 1, ctx);
    }
  }

  /** An entry whose elements are not all well named spoils the rendering of the whole array. */
  lemma EntryRefused(es: seq<Entry>, i: nat, ctx: Context)
    requires i < |es| && !AllWellNamed(RenderEntry(es[i].key, es[i].val, ctx))
    ensures !AllWellNamed(RenderEntries(es, ctx))
  {
    WellNamedStep(es, i, ctx);
    WellNamedPrefix(es, i + 1, |es|, ctx);
  }

  /** Where the renderer's loops start and end. */
  lemma RenderStart(es: seq<Entry>, ctx: Context)
    ensures RenderPrefix(Arr(es), 0, ctx) == [] && AllWellNamed([])
    ensures RenderEntries(es, ctx) == RenderPrefix(Arr(es), |es|, ctx)
  {
  }

  /**
   * One loop step of the renderer: the elements `elems` of entry `i` follow
   * those of the entries before it, the prefix stays well named exactly when
   * `elems` are, and badly named `elems` spoil the whole array.
   */
  lemma PrefixExtends(parent: seq<Element>, es: seq<Entry>, i: nat, ctx: Context, elems: seq<Element>)
    requires i < |es| && elems == RenderEntry(es[i].key, es[i].val, ctx)
    ensures RenderPrefix(Arr(es), i, ctx) + elems == [] + RenderPrefix(Arr(es), i + 1, ctx)
    ensures parent + RenderPrefix(Arr(es), i, ctx) + elems == parent + RenderPrefix(Arr(es), i + 1, ctx)
    ensures AllWellNamed(RenderPrefix(Arr(es), i + 1, ctx)) <==> AllWellNamed(RenderPrefix(Arr(es), i, ctx)) && AllWellNamed(elems)
    ensures !AllWellNamed(elems) ==> !AllWellNamed(RenderEntries(es, ctx))
  {
    hide *;
    RenderStep(es, i, ctx);
    WellNamedStep(es, i, ctx);
    if !AllWellNamed(elems) {
      EntryRefused(es, i, ctx);
    }
  }

  /** A scalar entry renders to one leaf: named by the raw key at the top level, by the cleaned key below. */
  lemma ScalarEntry(key: Key, val: Value, ctx: Context)
    requires !val.Arr? && !(ctx == Named && (val == Str("") || val == Null))
    ensures RenderEntry(key, val, ctx) ==
      [Leaf(if ctx == TopLevel then KeyText(key) else CleanElementName(KeyText(key)), Escape(ToText(val)))]
  {
  }

  /** An array entry renders the same wherever it appears. */
  lemma ArrayEntry(key: Key, val: Value, ctx: Context)
    requires val.Arr?
    ensures RenderEntry(key, val, ctx) == RenderEntry(key, Arr(val.entries), Named)
  {
  }

  /** An array under a numeric key contributes its entries directly. */
  lemma SplicedEntry(key: Key, data: seq<Entry>)
    requires IsNumericKey(key)
    ensures RenderEntry(key, Arr(data), Named) == RenderEntries(data, Spliced)
  {
  }

  /** An array under any other key contributes one element named by the cleaned key. */
  lemma ContainerEntry(key: Key, data: seq<Entry>)
    requires !IsNumericKey(key)
    ensures RenderEntry(key, Arr(data), Named) == [Node(CleanElementName(KeyText(key)), RenderEntries(data, Named))]
  {
  }

  /** An upper-case name is a valid element name. */
  lemma UpperNameValid(s: string)
    requires |s| > 0 && forall i :: 0 <= i < |s| ==> IsAsciiUpper(s[i])
    ensures IsXmlName(s)
  {
  }

  /** The envelope's fixed elements are all well named. */
  lemma FixedNamesValid()
    ensures IsXmlName("ENVELOPE") && IsXmlName("HEADER") && IsXmlName("TALLYREQUEST") && IsXmlName("BODY")
    ensures IsXmlName("IMPORTDATA") && IsXmlName("REQUESTDESC") && IsXmlName("REPORTNAME") && IsXmlName("REQUESTDATA")
  {
    UpperNameValid("ENVELOPE");
    UpperNameValid("HEADER");
    UpperNameValid("TALLYREQUEST");
    UpperNameValid("BODY");
    UpperNameValid("IMPORTDATA");
    UpperNameValid("REQUESTDESC");
    UpperNameValid("REPORTNAME");
    UpperNameValid("REQUESTDATA");
  }

  /** What `createElement` throws for a name that is not a valid XML name. */
  datatype DomError = InvalidCharacterError

  /** A node is well named when its own name and all its children are. */
  lemma NodeWellNamed(name: string, children: seq<Element>)
    ensures WellNamed(Node(name, children)) <==> IsXmlName(name) && AllWellNamed(children)
  {
  }

  lemma AllWellNamedOne(a: Element)
    ensures AllWellNamed([a]) <==> WellNamed(a)
  {
    assert [a][0] == a;
  }

  lemma AllWellNamedPair(a: Element, b: Element)
    ensures AllWellNamed([a, b]) <==> WellNamed(a) && WellNamed(b)
  {
    assert [a, b][0] == a && [a, b][1] == b;
  }

  lemma LeafWellNamed(name: string, text: string)
    ensures AllWellNamed([Leaf(name, text)]) <==> IsXmlName(name)
  {
    AllWellNamedOne(Leaf(name, text));
  }

  lemma ContainerWellNamed(name: string, children: seq<Element>)
    ensures AllWellNamed([Node(name, children)]) <==> IsXmlName(name) && AllWellNamed(children)
  {
    AllWellNamedOne(Node(name, children));
    NodeWellNamed(name, children);
  }

  /** The document is well named exactly when the rendering of the data is. */
  lemma DocumentWellNamed(data: seq<Entry>, requestType: string)
    ensures WellNamed(Document(data, requestType)) <==> AllWellNamed(RenderEntries(data, TopLevel))
  {
    FixedNamesValid();
    var rendered := RenderEntries(data, TopLevel);
    var header := Node("HEADER", [Leaf("TALLYREQUEST", requestType)]);
    var requestDesc := Node("REQUESTDESC", [Leaf("REPORTNAME", "All Masters")]);
    var requestData := Node("REQUESTDATA", rendered);
    var importData := Node("IMPORTDATA", [requestDesc, requestData]);
    var body := Node("BODY", [importData]);
    NodeWellNamed("HEADER", [Leaf("TALLYREQUEST", requestType)]);
    AllWellNamedOne(Leaf("TALLYREQUEST", requestType));
    NodeWellNamed("REQUESTDESC", [Leaf("REPORTNAME", "All Masters")]);
    AllWellNamedOne(Leaf("REPORTNAME", "All Masters"));
    NodeWellNamed("REQUESTDATA", rendered);
    NodeWellNamed("IMPORTDATA", [requestDesc, requestData]);
    AllWellNamedPair(requestDesc, requestData);
    NodeWellNamed("BODY", [importData]);
    AllWellNamedOne(importData);
    NodeWellNamed("ENVELOPE", [header, body]);
    AllWellNamedPair(header, body);
    assert Document(data, requestType) == Node("ENVELOPE", [header, body]);
  }

  /** A list under a named key renders its index-0 scalar as an element named "0". */
  lemma CompanyElementRefused()
    ensures !AllWellNamed(RenderEntry(Name("_COMPANY_NAME"), Arr([Entry(Index(0), Str("Acme"))]), TopLevel))
  {
    hide RenderEntry, RenderPrefix, RenderEntries, AllWellNamed, WellNamed, Escape, ToText, CleanElementName, IsXmlName;
    var inner := Entry(Index(0), Str("Acme"));
    NonNumericLead("_COMPANY_NAME");
    assert !IsNumericKey(Name("_COMPANY_NAME"));
    ArrayEntry(Name("_COMPANY_NAME"), Arr([inner]), TopLevel);
    ContainerEntry(Name("_COMPANY_NAME"), [inner]);
    DigitNameRejected();
    assert KeyText(Index(0)) == "0";
    RenderEntriesSingle(inner, Named);
    ScalarEntry(Index(0), Str("Acme"), Named);
    LeafWellNamed("0", Escape(ToText(Str("Acme"))));
    ContainerWellNamed(CleanElementName("_COMPANY_NAME"), RenderEntries([inner], Named));
  }

  /**
   * A company name given as a list (`{"company_name": ["Acme"]}`) puts an
   * element named "0" into the document, which `createElement` refuses.
   */
  lemma CompanyListRejected(rest: seq<Entry>, requestType: string)
    ensures !WellNamed(Document([Entry(Name("_COMPANY_NAME"), Arr([Entry(Index(0), Str("Acme"))]))] + rest, requestType))
  {
    hide Document, RenderEntry, AllWellNamed, WellNamed;
    var company := Entry(Name("_COMPANY_NAME"), Arr([Entry(Index(0), Str("Acme"))]));
    CompanyElementRefused();
    RenderEntriesSingle(company, TopLevel);
    RenderEntriesAppend([company], rest, TopLevel);
    AllWellNamedAppend(RenderEntries([company], TopLevel), RenderEntries(rest, TopLevel));
    DocumentWellNamed([company] + rest, requestType);
  }

  /** A top-level scalar is named by its raw key: a list index or a key with a space is refused. */
  lemma RawTopLevelKeysRejected(v: Value)
    requires !v.Arr?
    ensures !AllWellNamed(RenderEntries([Entry(Index(0), v)], TopLevel))
    ensures !AllWellNamed(RenderEntries([Entry(Name("a b"), v)], TopLevel))
  {
    RenderEntriesSingle(Entry(Index(0), v), TopLevel);
    RenderEntriesSingle(Entry(Name("a b"), v), TopLevel);
    assert IntText(0) == "0";
    DigitNameRejected();
    assert RenderEntries([Entry(Index(0), v)], TopLevel)[0].name == "0";
    assert !IsXmlNameChar("a b"[1]);
    assert RenderEntries([Entry(Name("a b"), v)], TopLevel)[0].name == "a b";
  }

  /** The fields of every record in a list, spliced one record after another. */
  function FlatFields(records: seq<seq<Entry>>): seq<Element>
  {
    if records == [] then []
    else FlatFields(records[..|records| - 1]) + RenderEntries(records[|records| - 1], Spliced)
  }

  lemma {:induction false} RecordListRendersFlat(records: seq<seq<Entry>>, n: nat, ctx: Context)
    requires n <= |records|
    ensures RenderPrefix(Arr(RecordList(records)), n, ctx) == FlatFields(records[..n])
  {
    if n > 0 {
      RecordListRendersFlat(records, n - 1, ctx);
      assert records[..n][..n - 1] == records[..n - 1];
      var e := RecordList(records)[n - 1];
      assert e == Entry(Index(n - 1), Arr(records[n - 1]));
      assert RenderEntry(e.key, e.val, ctx) == RenderEntries(records[n - 1], Spliced);
    }
  }

  /**
   * A list under a named key (`'X.LIST' => [[...], [...]]`) renders as ONE
   * element named after the key, holding the fields of every record flat,
   * one record after another.
   */
  lemma ListRendersAsOneFlatElement(key: string, records: seq<seq<Entry>>, ctx: Context)
    requires !IsNumericKey(Name(key))
    ensures RenderEntry(Name(key), Arr(RecordList(records)), ctx)
         == [Node(CleanElementName(key), FlatFields(records))]
  {
    RecordListRendersFlat(records, |records|, Named);
    assert records[..|records|] == records;
  }

  lemma FieldLineRenders(field: string, line: string)
    ensures RenderEntries([Entry(Name(field), Str(line))], Spliced) == [Leaf(CleanElementName(field), Escape(line))]
  {
    RenderEntriesSingle(Entry(Name(field), Str(line)), Spliced);
  }

  /** Each line of such a list becomes one element, in order, empty lines included. */
  lemma {:induction false} FieldRecordsRenderLineByLine(field: string, lines: seq<string>)
    ensures FlatFields(FieldRecords(field, lines))
         == seq(|lines|, i requires 0 <= i < |lines| => Leaf(CleanElementName(field), Escape(lines[i])))
  {
    hide CleanElementName, Escape, RenderEntries;
    if lines != [] {
      var n := |lines|;
      var records := FieldRecords(field, lines);
      FieldRecordsRenderLineByLine(field, lines[..n - 1]);
      assert records[..n - 1] == FieldRecords(field, lines[..n - 1]);
      FieldLineRenders(field, lines[n - 1]);
      assert FlatFields(records) == FlatFields(records[..n - 1]) + RenderEntries(records[n - 1], Spliced);
    }
  }

  lemma AddressNames()
    ensures !IsNumericKey(Name("ADDRESS.LIST"))
    ensures CleanElementName("ADDRESS.LIST") == "ADDRESS" && CleanElementName("ADDRESS") == "ADDRESS"
  {
    NonNumericLead("ADDRESS.LIST");
    AddressListCleansToAddress();
    AddressIsClean();
  }

  lemma AddressListCleansToAddress()
    ensures CleanElementName("ADDRESS.LIST") == "ADDRESS"
  {
    assert AllNameChars("ADDRESS") && NoDot("ADDRESS");
    ListSuffixDropped("ADDRESS");
    assert "ADDRESS" + ".LIST" == "ADDRESS.LIST";
  }

  lemma AddressIsClean()
    ensures CleanElementName("ADDRESS") == "ADDRESS"
  {
    assert AllNameChars("ADDRESS") && NoDot("ADDRESS");
    NoDotNoList("ADDRESS");
    CleanElementNameKeepsCleanNames("ADDRESS");
  }

  /** The address list of a party or ledger: one ADDRESS wrapper holding every line. */
  lemma AddressListRendering(lines: seq<string>)
    ensures RenderEntry(Name("ADDRESS.LIST"), Arr(RecordList(FieldRecords("ADDRESS", lines))), Named)
         == [Node("ADDRESS", seq(|lines|, i requires 0 <= i < |lines| => Leaf("ADDRESS", Escape(lines[i]))))]
  {
    AddressNames();
    ListRendersAsOneFlatElement("ADDRESS.LIST", FieldRecords("ADDRESS", lines), Named);
    FieldRecordsRenderLineByLine("ADDRESS", lines);
  }

  // ---------------------------------------------------------------------
  // The converter

  class TallyXmlConverter {
    var tallyVersion: string
    /** The document's top-level nodes; `convert` starts a fresh document. */
    var dom: seq<Element>

    constructor (tallyVersion: string)
      ensures this.tallyVersion == tallyVersion && dom == []
    {
      this.tallyVersion := tallyVersion;
      dom := [];
    }

    /**
     * `convert`: a fresh document holding the envelope for `data`. It fails
     * exactly when an element name is not a valid XML name; the document then
     * holds the envelope with its header only, since the body is attached
     * after it is complete. The version is untouched.
     */
    method Convert(data: seq<Entry>, requestType: string) returns (r: Result<Element, DomError>)
      modifies this
      ensures r.Success? <==> WellNamed(Document(data, requestType))
      ensures r.Success? ==> r.value == Document(data, requestType) && dom == [r.value]
      ensures r.Failure? ==> dom == [Node("ENVELOPE", [Node("HEADER", [Leaf("TALLYREQUEST", requestType)])])]
      ensures tallyVersion == old(tallyVersion)
    {
      dom := [];
      dom := dom + [Node("ENVELOPE", [])];
      var header := CreateHeader(requestType);
      dom := [Node("ENVELOPE", [header])];
      var body := CreateBody(data);
      DocumentWellNamed(data, requestType);
      if body.Failure? {
        return Failure(body.error);
      }
      var envelope := Node("ENVELOPE", [header, body.value]);
      dom := [envelope];
      r := Success(envelope);
    }

    /** HEADER holds one TALLYREQUEST whose text is the request type. */
    method CreateHeader(requestType: string) returns (header: Element)
      ensures header == Node("HEADER", [Leaf("TALLYREQUEST", requestType)])
      ensures WellNamed(header)
    {
      FixedNamesValid();
      header := Node("HEADER", [Leaf("TALLYREQUEST", requestType)]);
      AllWellNamedOne(Leaf("TALLYREQUEST", requestType));
    }

    /** BODY holds IMPORTDATA, whose REQUESTDESC comes before REQUESTDATA. */
    method CreateBody(data: seq<Entry>) returns (r: Result<Element, DomError>)
      ensures r.Success? <==> AllWellNamed(RenderEntries(data, TopLevel))
      ensures r.Success? ==> r.value == Node("BODY", [Node("IMPORTDATA", [
                        Node("REQUESTDESC", [Leaf("REPORTNAME", "All Masters")]),
                        Node("REQUESTDATA", RenderEntries(data, TopLevel))])])
    {
      var desc := CreateRequestDesc();
      var requestData := CreateRequestData(data);
      if requestData.Failure? {
        return Failure(requestData.error);
      }
      r := Success(Node("BODY", [Node("IMPORTDATA", [desc, requestData.value])]));
    }

    method CreateRequestDesc() returns (desc: Element)
      ensures desc == Node("REQUESTDESC", [Leaf("REPORTNAME", "All Masters")])
      ensures WellNamed(desc)
    {
      FixedNamesValid();
      desc := Node("REQUESTDESC", [Leaf("REPORTNAME", "All Masters")]);
      AllWellNamedOne(Leaf("REPORTNAME", "All Masters"));
    }

    /**
     * REQUESTDATA: top-level scalars become elements named by the raw key
     * (empty values included), arrays go through `AddArrayElement`. It fails
     * at the first element name that is not a valid XML name.
     */
    method CreateRequestData(data: seq<Entry>) returns (r: Result<Element, DomError>)
      ensures r.Success? <==> AllWellNamed(RenderEntries(data, TopLevel))
      ensures r.Success? ==> r.value == Node("REQUESTDATA", RenderEntries(data, TopLevel))
    {
      hide *;
      RenderStart(data, TopLevel);
      var children: seq<Element> := [];
      for i := 0 to |data|
        invariant children == RenderPrefix(Arr(data), i, TopLevel)
        invariant AllWellNamed(children)
      {
        var e := data[i];
        if e.val.Arr? {
          ArrayEntry(e.key, e.val, TopLevel);
          PrefixExtends([], data, i, TopLevel, RenderEntry(e.key, e.val, TopLevel));
          var added := AddArrayElement(children, e.key, e.val.entries);
          if added.Failure? {
            return Failure(added.error);
          }
          children := added.value;
        } else {
          var leaf := Leaf(KeyText(e.key), Escape(ToText(e.val)));
          ScalarEntry(e.key, e.val, TopLevel);
          PrefixExtends([], data, i, TopLevel, [leaf]);
          LeafWellNamed(leaf.name, leaf.text);
          if !IsXmlName(leaf.name) {
            return Failure(InvalidCharacterError);
          }
          children := children + [leaf];
        }
      }
      r := Success(Node("REQUESTDATA", children));
    }

    /**
     * `addArrayElement`: an array under a numeric key adds its entries to
     * `parent` directly; under any other key it adds one element named by the
     * cleaned key, holding the entries without empty strings and nulls. It
     * fails at the first element name that is not a valid XML name, the
     * container's own name first.
     */
    method AddArrayElement(parent: seq<Element>, key: Key, data: seq<Entry>) returns (r: Result<seq<Element>, DomError>)
      ensures r.Success? <==> AllWellNamed(RenderEntry(key, Arr(data), Named))
      ensures r.Success? ==> r.value == parent + RenderEntry(key, Arr(data), Named)
      decreases Arr(data), 1
    {
      if IsNumericKey(key) {
        SplicedEntry(key, data);
        r := AddListItems(parent, data);
      } else {
        r := AddContainer(parent, key, data);
      }
    }

    /** The numeric-key branch of `addArrayElement`: the entries go straight into `parent`. */
    method AddListItems(parent: seq<Element>, data: seq<Entry>) returns (r: Result<seq<Element>, DomError>)
      ensures r.Success? <==> AllWellNamed(RenderEntries(data, Spliced))
      ensures r.Success? ==> r.value == parent + RenderEntries(data, Spliced)
      decreases Arr(data), 0
    {
      hide *;
      assert parent + [] == parent;
      RenderStart(data, Spliced);
      var spliced := parent;
      for i := 0 to |data|
        invariant spliced == parent + RenderPrefix(Arr(data), i, Spliced)
        invariant AllWellNamed(RenderPrefix(Arr(data), i, Spliced))
      {
        var e := data[i];
        assert e in data;
        if e.val.Arr? {
          ArrayEntry(e.key, e.val, Spliced);
          PrefixExtends(parent, data, i, Spliced, RenderEntry(e.key, e.val, Spliced));
          var added := AddArrayElement(spliced, e.key, e.val.entries);
          if added.Failure? {
            return Failure(added.error);
          }
          spliced := added.value;
        } else {
          var leaf := Leaf(CleanElementName(KeyText(e.key)), Escape(ToText(e.val)));
          ScalarEntry(e.key, e.val, Spliced);
          PrefixExtends(parent, data, i, Spliced, [leaf]);
          LeafWellNamed(leaf.name, leaf.text);
          if !IsXmlName(leaf.name) {
            return Failure(InvalidCharacterError);
          }
          spliced := spliced + [leaf];
        }
      }
      r := Success(spliced);
    }

    /**
     * The named branch of `addArrayElement`: one element named by the cleaned
     * key, its own name checked before any of its children.
     */
    method AddContainer(parent: seq<Element>, key: Key, data: seq<Entry>) returns (r: Result<seq<Element>, DomError>)
      requires !IsNumericKey(key)
      ensures r.Success? <==> AllWellNamed(RenderEntry(key, Arr(data), Named))
      ensures r.Success? ==> r.value == parent + RenderEntry(key, Arr(data), Named)
      decreases Arr(data), 0
    {
      hide *;
      RenderStart(data, Named);
      var elementName := CleanElementName(KeyText(key));
      ContainerEntry(key, data);
      ContainerWellNamed(elementName, RenderEntries(data, Named));
      if !IsXmlName(elementName) {
        return Failure(InvalidCharacterError);
      }
      var children: seq<Element> := [];
      for i := 0 to |data|
        invariant children == RenderPrefix(Arr(data), i, Named)
        invariant AllWellNamed(children)
      {
        var e := data[i];
        assert e in data;
        if e.val.Arr? {
          ArrayEntry(e.key, e.val, Named);
          PrefixExtends([], data, i, Named, RenderEntry(e.key, e.val, Named));
          var added := AddArrayElement(children, e.key, e.val.entries);
          if added.Failure? {
            return Failure(added.error);
          }
          children := added.value;
        } else if e.val == Str("") || e.val == Null {
          EmptyScalarsSkippedOnlyWhenNamed(e.key, e.val);
          PrefixExtends([], data, i, Named, []);
          assert children + [] == children;
          continue;
        } else {
          var leaf := Leaf(CleanElementName(KeyText(e.key)), Escape(ToText(e.val)));
          ScalarEntry(e.key, e.val, Named);
          PrefixExtends([], data, i, Named, [leaf]);
          LeafWellNamed(leaf.name, leaf.text);
          if !IsXmlName(leaf.name) {
            return Failure(InvalidCharacterError);
          }
          children := children + [leaf];
        }
      }
      r := Success(parent + [Node(elementName, children)]);
    }

    method SetTallyVersion(version: string)
      modifies this
      ensures GetTallyVersion() == version && dom == old(dom)
    {
      tallyVersion := version;
    }

    function GetTallyVersion(): string
      reads this
    {
      tallyVersion
    }
  }
}
