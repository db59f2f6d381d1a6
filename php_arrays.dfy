/**
 * PHP arrays as the library uses them: ordered maps from integer or string
 * keys to values that are null, booleans, numbers, strings or nested arrays.
 * The decoded JSON input and every document the builders produce have this
 * shape.
 */
module PhpArrays {
  import opened Wrappers
  import opened PhpStrings
  import opened PhpNumbers

  datatype Key = Index(n: int) | Name(s: string)

  datatype Value =
    | Null
    | Bool(b: bool)
    | Num(d: Decimal)
    | Str(s: string)
    | Arr(entries: seq<Entry>)

  /** One `key => value` pair; an array is the sequence of its pairs in order. */
  datatype Entry = Entry(key: Key, val: Value)

  /** A PHP `TypeError`: a value of the wrong type reached a typed parameter. */
  datatype TypeError = TypeError

  function Keys(es: seq<Entry>): (r: seq<Key>)
    ensures |r| == |es| && forall i :: 0 <= i < |es| ==> r[i] == es[i].key
  {
    if es == [] then [] else [es[0].key] + Keys(es[1..])
  }

  /** The key-to-value view of an array: where a key occurs twice, the first pair wins. */
  function ToMap(es: seq<Entry>): map<Key, Value>
  {
    if es == [] then map[] else ToMap(es[1..])[es[0].key := es[0].val]
  }

  /** `array_key_exists($k, $a)`. */
  predicate HasKey(es: seq<Entry>, k: Key)
  {
    k in ToMap(es)
  }

  predicate DistinctKeys(es: seq<Entry>)
  {
    forall i, j :: 0 <= i < j < |es| ==> es[i].key != es[j].key
  }

  /** `$a[$k] ?? null`: the value stored under `k`, or null when there is none. */
  function Get(es: seq<Entry>, k: Key): Value
  {
    if k in ToMap(es) then ToMap(es)[k] else Null
  }

  /** `Get` finds the value of the first pair with the key. */
  lemma {:induction false} GetFirstEntry(es: seq<Entry>, k: Key, i: nat)
    requires i < |es| && es[i].key == k && forall j :: 0 <= j < i ==> es[j].key != k
    ensures Get(es, k) == es[i].val
  {
    if i > 0 {
      assert es[1..][i - 1] == es[i];
      assert forall j :: 0 <= j < i - 1 ==> es[1..][j] == es[j + 1];
      GetFirstEntry(es[1..], k, i - 1);
    }
  }

  /** `Get` gives null when no pair has the key. */
  lemma {:induction false} GetAbsent(es: seq<Entry>, k: Key)
    requires forall i :: 0 <= i < |es| ==> es[i].key != k
    ensures Get(es, k) == Null
  {
    if es != [] {
      assert forall i :: 0 <= i < |es| - 1 ==> es[1..][i] == es[i + 1];
      GetAbsent(es[1..], k);
    }
  }

  /** The keys present are exactly those listed. */
  lemma {:induction false} HasKeyIffListed(es: seq<Entry>, k: Key)
    ensures HasKey(es, k) <==> k in Keys(es)
  {
    if es != [] {
      HasKeyIffListed(es[1..], k);
      assert Keys(es) == [es[0].key] + Keys(es[1..]);
    }
  }

  /**
   * `$a[$k] = $v`: an existing key keeps its position and gets the new value;
   * a new key is appended at the end.
   */
  function Put(es: seq<Entry>, k: Key, v: Value): (r: seq<Entry>)
    ensures ToMap(r) == ToMap(es)[k := v]
    ensures !HasKey(es, k) ==> r == es + [Entry(k, v)]
  {
    if es == [] then
      assert [Entry(k, v)][1..] == [];
      [Entry(k, v)]
    else if es[0].key == k then
      var t := [Entry(k, v)] + es[1..];
      assert t[1..] == es[1..];
      assert ToMap(t) == ToMap(es)[k := v];
      t
    else
      var rest := Put(es[1..], k, v);
      var t := [es[0]] + rest;
      assert t[1..] == rest;
      assert ToMap(t) == ToMap(es)[k := v];
      t
  }

  /** Writing an existing key keeps every key where it was. */
  lemma {:induction false} PutKeys(es: seq<Entry>, k: Key, v: Value)
    ensures Keys(Put(es, k, v)) == if HasKey(es, k) then Keys(es) else Keys(es) + [k]
  {
    if es != [] && es[0].key != k {
      PutKeys(es[1..], k, v);
      assert Put(es, k, v)[1..] == Put(es[1..], k, v);
      assert Keys(es) == [es[0].key] + Keys(es[1..]);
    } else if es != [] {
      assert Put(es, k, v)[1..] == es[1..];
    }
  }

  /** After `Put`, a key is present exactly when it was written or was already there. */
  lemma PutHasKey(es: seq<Entry>, k: Key, v: Value, k': Key)
    ensures HasKey(Put(es, k, v), k') <==> k' == k || HasKey(es, k')
  {
    PutKeys(es, k, v);
  }

  /** Distinct keys stay distinct under `Put`. */
  lemma PutDistinct(es: seq<Entry>, k: Key, v: Value)
    requires DistinctKeys(es)
    ensures DistinctKeys(Put(es, k, v))
  {
    PutKeys(es, k, v);
    HasKeyIffListed(es, k);
    var r := Put(es, k, v);
    forall i, j | 0 <= i < j < |r| ensures r[i].key != r[j].key {
      assert r[i].key == Keys(r)[i] && r[j].key == Keys(r)[j];
      if j == |es| {
        assert Keys(r)[i] == Keys(es)[i];
      }
    }
  }

  /** Writing a key the value it already has changes nothing. */
  lemma {:induction false} PutExisting(es: seq<Entry>, k: Key, v: Value)
    requires HasKey(es, k) && Get(es, k) == v
    ensures Put(es, k, v) == es
  {
    assert Keys(es) == [es[0].key] + Keys(es[1..]);
    if es[0].key != k {
      PutExisting(es[1..], k, v);
      assert es == [es[0]] + es[1..];
    }
  }

  /** Writing the same key twice keeps only the second value. */
  lemma {:induction false} PutPut(es: seq<Entry>, k: Key, v1: Value, v2: Value)
    ensures Put(Put(es, k, v1), k, v2) == Put(es, k, v2)
  {
    if es != [] && es[0].key != k {
      PutPut(es[1..], k, v1, v2);
      assert Put(es, k, v1)[1..] == Put(es[1..], k, v1);
    }
  }

  /** With distinct keys, every stored pair is what `Get` finds. */
  lemma {:induction false} GetAt(es: seq<Entry>, i: nat, k: Key)
    requires i < |es| && es[i].key == k
    requires forall j :: 0 <= j < i ==> es[j].key != k
    ensures Get(es, k) == es[i].val
  {
    if i > 0 { GetAt(es[1..], i - 1, k); }
  }

  /** A key no pair carries is absent and reads as null. */
  lemma Absent(es: seq<Entry>, k: Key)
    requires forall i :: 0 <= i < |es| ==> es[i].key != k
    ensures !HasKey(es, k) && Get(es, k) == Null
  {
    HasKeyIffListed(es, k);
  }

  lemma GetDistinct(es: seq<Entry>)
    requires DistinctKeys(es)
    ensures forall i :: 0 <= i < |es| ==> Get(es, es[i].key) == es[i].val
  {
    forall i | 0 <= i < |es| ensures Get(es, es[i].key) == es[i].val {
      GetAt(es, i, es[i].key);
    }
  }

  /** `$a[] = $v` on a list: the elements keyed 0, 1, 2, … in order. */
  function IndexedList(items: seq<Value>): (r: seq<Entry>)
    ensures |r| == |items|
    ensures forall i :: 0 <= i < |items| ==> r[i] == Entry(Index(i), items[i])
  {
    seq(|items|, i requires 0 <= i < |items| => Entry(Index(i), items[i]))
  }

  /** A list of records, as `$list[] = $record` builds it. */
  function RecordList(records: seq<seq<Entry>>): (r: seq<Entry>)
    ensures |r| == |records|
    ensures forall i :: 0 <= i < |records| ==> r[i] == Entry(Index(i), Arr(records[i]))
  {
    IndexedList(seq(|records|, i requires 0 <= i < |records| => Arr(records[i])))
  }

  /** One single-field record per line: `[field => line]` for each line. */
  function FieldRecords(field: string, lines: seq<string>): (r: seq<seq<Entry>>)
    ensures |r| == |lines|
    ensures forall i :: 0 <= i < |lines| ==> r[i] == [Entry(Name(field), Str(lines[i]))]
  {
    seq(|lines|, i requires 0 <= i < |lines| => [Entry(Name(field), Str(lines[i]))])
  }

  lemma IndexedListSnoc(items: seq<Value>, x: Value)
    ensures IndexedList(items + [x]) == IndexedList(items) + [Entry(Index(|items|), x)]
  {
  }

  lemma IndexedListDistinct(items: seq<Value>)
    ensures DistinctKeys(IndexedList(items))
  {
  }

  /** `$v[$k] ?? null` for any value: only arrays have elements. */
  function Lookup(v: Value, k: string): Value
  {
    if v.Arr? then Get(v.entries, Name(k)) else Null
  }

  /** `$v ?? $d`. */
  function Coalesce(v: Value, d: Value): (r: Value)
    ensures v != Null ==> r == v
    ensures v == Null ==> r == d
    ensures r == Null ==> d == Null
  {
    if v == Null then d else v
  }

  /** `isset($v)`. */
  predicate IsSet(v: Value) { v != Null }

  /** `empty($v)`: null, false, zero, "", "0" and the empty array. */
  predicate IsEmpty(v: Value)
  {
    match v
    case Null => true
    case Bool(b) => !b
    case Num(d) => IsZero(d)
    case Str(s) => s == "" || s == "0"
    case Arr(es) => es == []
  }

  /** `empty` on the values the documents meet: only "" and "0" among strings, zero in any form among numbers. */
  lemma EmptyExamples()
    ensures IsEmpty(Str("0")) && IsEmpty(Str("")) && !IsEmpty(Str("0.0")) && !IsEmpty(Str(" "))
    ensures IsEmpty(Num(Decimal(0, 2))) && !IsEmpty(Num(Decimal(-1, 3)))
    ensures IsEmpty(Arr([])) && !IsEmpty(Arr([Entry(Index(0), Null)]))
    ensures IsEmpty(Null) && !IsSet(Null) && IsSet(Bool(false)) && IsEmpty(Bool(false))
  {
    assert "0.0" != "0" && "0.0" != "";
    assert " " != "0" && " " != "";
  }

  /** `(string)$v`. */
  function ToText(v: Value): string
  {
    match v
    case Null => ""
    case Bool(b) => if b then "1" else ""
    case Num(d) => FloatText(d)
    case Str(s) => s
    case Arr(_) => "Array"
  }

  /** The key as PHP turns it into a string. */
  function KeyText(k: Key): string
  {
    match k
    case Index(n) => IntText(n)
    case Name(s) => s
  }

  /** `is_numeric($key)` after the key is passed to a string parameter. */
  predicate IsNumericKey(k: Key)
  {
    k.Index? || IsNumericString(k.s)
  }

  // Coercions PHP applies when a value reaches a typed parameter (the
  // library does not declare strict types). Null and arrays are refused.

  /** A `string` parameter. */
  function StringArg(v: Value): (r: Result<string, TypeError>)
    ensures r.Success? <==> !(v.Null? || v.Arr?)
    ensures r.Success? ==> r.value == ToText(v)
  {
    match v
    case Null => Failure(TypeError)
    case Arr(_) => Failure(TypeError)
    case _ => Success(ToText(v))
  }

  /** A `float` parameter: numbers, numeric strings and booleans. */
  function FloatArg(v: Value): (r: Result<Decimal, TypeError>)
    ensures v.Num? ==> r == Success(v.d)
    ensures v.Str? ==> (r.Success? <==> IsNumericString(v.s))
    ensures v.Null? || v.Arr? ==> r.Failure?
  {
    match v
    case Num(d) => Success(d)
    case Str(s) => if IsNumericString(s) then Success(ParseNumeric(s).value) else Failure(TypeError)
    case Bool(b) => Success(Int(if b then 1 else 0))
    case _ => Failure(TypeError)
  }

  /** A `?float` parameter: as `float`, and null stays null. */
  function NullableFloatArg(v: Value): (r: Result<Option<Decimal>, TypeError>)
    ensures v.Null? ==> r == Success(None)
    ensures !v.Null? ==> (r.Success? <==> FloatArg(v).Success?)
  {
    if v.Null? then Success(None)
    else
      match FloatArg(v)
      case Success(d) => Success(Some(d))
      case Failure(e) => Failure(e)
  }

  /** An `int` parameter: a number is truncated toward zero. */
  function IntArg(v: Value): (r: Result<int, TypeError>)
    ensures r.Success? <==> FloatArg(v).Success?
  {
    match FloatArg(v)
    case Success(d) => Success(Truncate(d))
    case Failure(e) => Failure(e)
  }

  /** A `bool` parameter: the scalar's truth value, as `empty` decides it. */
  function BoolArg(v: Value): (r: Result<bool, TypeError>)
    ensures r.Success? <==> !(v.Null? || v.Arr?)
    ensures r.Success? ==> r.value == !IsEmpty(v)
  {
    match v
    case Null => Failure(TypeError)
    case Arr(_) => Failure(TypeError)
    case _ => Success(!IsEmpty(v))
  }
}
