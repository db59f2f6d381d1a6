/**
 * The shape every builder's document shares: one record under
 * TALLYMESSAGE/<KIND>, whose fields are named by upper-case Tally tags.
 */
module TallyRecords {
  import opened PhpArrays

  function Field(name: string, v: Value): Entry { Entry(Name(name), v) }

  function Text(name: string, s: string): Entry { Field(name, Str(s)) }

  /** `$record[name] = v`. */
  function With(record: seq<Entry>, name: string, v: Value): seq<Entry>
  {
    Put(record, Name(name), v)
  }

  /** Tally's boolean text. */
  function YesNo(b: bool): (r: string)
    ensures r == "Yes" || r == "No"
    ensures b <==> r == "Yes"
  {
    if b then "Yes" else "No"
  }

  /** `['TALLYMESSAGE' => [kind => record]]`, the array every builder returns. */
  function Message(kind: string, record: seq<Entry>): (r: seq<Entry>)
    ensures Lookup(Lookup(Arr(r), "TALLYMESSAGE"), kind) == Arr(record)
    ensures |r| == 1
  {
    [Field("TALLYMESSAGE", Arr([Field(kind, Arr(record))]))]
  }

  /** `ADDRESS.LIST`: one `['ADDRESS' => line]` record per line, keyed 0, 1, 2, … */
  function AddressList(lines: seq<string>): (r: seq<Entry>)
    ensures |r| == |lines|
    ensures forall i :: 0 <= i < |lines| ==> r[i] == Entry(Index(i), Arr([Text("ADDRESS", lines[i])]))
  {
    RecordList(FieldRecords("ADDRESS", lines))
  }

  lemma AddressListSnoc(lines: seq<string>, line: string)
    ensures AddressList(lines + [line]) == AddressList(lines) + [Entry(Index(|lines|), Arr([Text("ADDRESS", line)]))]
  {
  }
}
