/**
 * The browser's local storage as the script uses it: a "token" slot and a "cmd-history"
 * slot holding a JSON array of strings. JSON text is kept abstract: a slot holds either a
 * parsed document or text that `JSON.parse` rejects.
 */
module Storage {
  import opened Wrappers

  /** A JSON value, with everything but strings and arrays lumped together. */
  datatype Json = JString(s: string) | JArray(items: seq<Json>) | JOther

  /** What the "cmd-history" slot holds. */
  datatype Stored = Document(doc: Json) | Unparsable

  /**
   * `JSON.stringify(entries)` for an array of strings: a well-formed document holding an
   * array with one string item per entry, in order.
   */
  function Encode(entries: seq<string>): (r: Stored)
    ensures r.Document? && r.doc.JArray? && |r.doc.items| == |entries|
    ensures forall i :: 0 <= i < |entries| ==> r.doc.items[i] == JString(entries[i])
  {
    Document(JArray(seq(|entries|, i requires 0 <= i < |entries| => JString(entries[i]))))
  }

  /**
   * `parsed.filter((cmd) => typeof cmd === "string" && cmd.length > 0)`: the non-empty
   * strings among the items, in order.
   */
  function NonEmptyStrings(items: seq<Json>): (r: seq<string>)
    ensures |r| <= |items|
    ensures forall i :: 0 <= i < |r| ==> r[i] != []
    ensures forall s :: s in r <==> s != [] && JString(s) in items
  {
    if items == [] then []
    else
      var rest := NonEmptyStrings(items[1..]);
      assert items == [items[0]] + items[1..];
      if items[0].JString? && items[0].s != [] then [items[0].s] + rest else rest
  }

  /** A single item is kept exactly when it is a non-empty string. */
  lemma NonEmptyStringsOne(x: Json)
    ensures NonEmptyStrings([x]) == if x.JString? && x.s != [] then [x.s] else []
  {
    assert [x][1..] == [];
  }

  /**
   * The filter works item by item: filtering a concatenation concatenates the filtered
   * parts, so the kept strings stay in their order and duplicates are kept.
   */
  lemma {:induction false} NonEmptyStringsAppend(a: seq<Json>, b: seq<Json>)
    ensures NonEmptyStrings(a + b) == NonEmptyStrings(a) + NonEmptyStrings(b)
  {
    if a != [] {
      assert (a + b)[0] == a[0];
      assert (a + b)[1..] == a[1..] + b;
      NonEmptyStringsAppend(a[1..], b);
      var head := if a[0].JString? && a[0].s != [] then [a[0].s] else [];
      assert NonEmptyStrings(a + b) == head + NonEmptyStrings(a[1..] + b);
      assert NonEmptyStrings(a) == head + NonEmptyStrings(a[1..]);
    } else {
      assert a + b == b;
    }
  }

  /**
   * The startup restore: the filtered entries when the slot holds an array, and nothing
   * (history left as it was) when it holds anything else or text that does not parse.
   */
  function Decode(st: Stored): (r: Option<seq<string>>)
    ensures r.Some? <==> st.Document? && st.doc.JArray?
    ensures r.Some? ==> forall i :: 0 <= i < |r.value| ==> r.value[i] != []
  {
    match st
    case Document(JArray(items)) => Some(NonEmptyStrings(items))
    case _ => None
  }

  /** Filtering keeps a sequence of non-empty strings exactly as it is. */
  lemma {:induction false} NonEmptyStringsKeep(entries: seq<string>)
    requires forall i :: 0 <= i < |entries| ==> entries[i] != []
    ensures NonEmptyStrings(seq(|entries|, i requires 0 <= i < |entries| => JString(entries[i]))) == entries
  {
    var items := seq(|entries|, i requires 0 <= i < |entries| => JString(entries[i]));
    if entries != [] {
      var tail := seq(|entries| - 1, i requires 0 <= i < |entries| - 1 => JString(entries[1..][i]));
      assert items[1..] == tail;
      NonEmptyStringsKeep(entries[1..]);
      assert [entries[0]] + entries[1..] == entries;
    }
  }

  /** What the script persists, it restores: decoding an encoded history of non-empty commands gives it back. */
  lemma DecodeEncode(entries: seq<string>)
    requires forall i :: 0 <= i < |entries| ==> entries[i] != []
    ensures Decode(Encode(entries)) == Some(entries)
  {
    NonEmptyStringsKeep(entries);
  }

  /** The two slots of local storage the script reads and writes. */
  class LocalStorage {
    var token: Option<string>
    var cmdHistory: Option<Stored>

    constructor (token: Option<string>, cmdHistory: Option<Stored>)
      ensures this.token == token && this.cmdHistory == cmdHistory
    {
      this.token := token;
      this.cmdHistory := cmdHistory;
    }
  }
}
