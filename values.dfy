/** Field values, records and audit events of the Airtable base, and the
    Python truthiness rules the source applies to them. */
module Values {
  import opened Wrappers

  /** A "Last Active"-style timestamp: its text as stored, and the result of
      `datetime.fromisoformat` on it, already computed. Seconds are UTC epoch
      seconds; a naive timestamp carries no offset. */
  datatype Parsed = Aware(secs: int) | Naive(secs: int) | Unparseable
  datatype Timestamp = Timestamp(raw: string, parsed: Parsed)

  /** A field value as Python sees it.
      - `Null`: `None` (also what `dict.get` yields for an absent key);
      - `Str`: a text value;
      - `Links`: a list of linked record ids (e.g. "Assigned Sitter");
      - `Stamp`: a timestamp string together with its parse;
      - `Other`: any other JSON value, described by its truthiness and by
        what `str()` renders it as. */
  datatype Value =
    | Null
    | Str(s: string)
    | Links(ids: seq<string>)
    | Stamp(t: Timestamp)
    | Other(truthy: bool, text: string)

  /** Python truthiness: `None`, `""` and `[]` are falsy. */
  predicate Truthy(v: Value) {
    match v
    case Null => false
    case Str(s) => s != []
    case Links(ids) => ids != []
    case Stamp(t) => t.raw != []
    case Other(b, _) => b
  }

  /** `str(v)`, as an f-string renders it. */
  function Render(v: Value): string {
    match v
    case Null => "None"
    case Str(s) => s
    case Links(ids) => "[" + QuotedList(ids) + "]"
    case Stamp(t) => t.raw
    case Other(_, text) => text
  }

  function QuotedList(ids: seq<string>): string {
    if ids == [] then ""
    else if |ids| == 1 then "'" + ids[0] + "'"
    else "'" + ids[0] + "', " + QuotedList(ids[1..])
  }

  /** The text of a string value; `None` for values that are not strings
      (on which string methods raise). */
  function TextOf(v: Value): (t: Option<string>)
    ensures t.Some? ==> Render(v) == t.value
    ensures t.Some? <==> v.Str? || v.Stamp?
  {
    match v
    case Str(s) => Some(s)
    case Stamp(t) => Some(t.raw)
    case _ => None
  }

  /** `v == s` for a Python string `s`. */
  predicate SameText(v: Value, s: string) {
    TextOf(v) == Some(s)
  }

  /** The parse of a timestamp field: the parse a `Stamp` carries; any other
      value does not parse (a non-string has no `.replace`, and text in a
      timestamp field is represented by `Stamp`). */
  function ParseOf(v: Value): (p: Parsed)
    ensures !v.Stamp? ==> p == Unparseable
  {
    if v.Stamp? then v.t.parsed else Unparseable
  }

  type Fields = map<string, Value>

  /** `fields.get(k)` */
  function Get(f: Fields, k: string): Value {
    if k in f then f[k] else Null
  }

  /** `a or b` */
  function Or(a: Value, b: Value): Value {
    if Truthy(a) then a else b
  }

  /** An Airtable record: `{"id": ..., "fields": {...}}`. */
  datatype Record = Record(id: string, fields: Fields)

  /** An audit-log row: its event type and the record or party it concerns. */
  datatype Event = Event(kind: string, subject: string)

  /** The clock: epoch seconds (UTC) and `datetime.utcnow().isoformat()`. */
  datatype Instant = Instant(secs: int, iso: string)

  /** What the code writes for "now": a naive ISO timestamp. */
  function NowStamp(now: Instant): Value {
    Stamp(Timestamp(now.iso, Naive(now.secs)))
  }

  // ----------------------------------------------------------------------
  // Tables
  // ----------------------------------------------------------------------

  predicate HasId(rs: seq<Record>, id: string) {
    exists i :: 0 <= i < |rs| && rs[i].id == id
  }

  /** Airtable record ids are unique within a table. */
  predicate DistinctIds(rs: seq<Record>) {
    forall i, j :: 0 <= i < j < |rs| ==> rs[i].id != rs[j].id
  }

  /** `table.update(id, patch)`: Airtable merges `patch` into the record's
      fields and leaves every other record as it was. */
  function Patch(rs: seq<Record>, id: string, patch: Fields): (r: seq<Record>)
    ensures |r| == |rs|
    ensures forall i :: 0 <= i < |rs| ==> r[i].id == rs[i].id
    ensures forall i :: 0 <= i < |rs| && rs[i].id != id ==> r[i] == rs[i]
    ensures forall i :: 0 <= i < |rs| && rs[i].id == id ==> r[i].fields == rs[i].fields + patch
  {
    seq(|rs|, i requires 0 <= i < |rs| =>
      if rs[i].id == id then Record(id, rs[i].fields + patch) else rs[i])
  }

  lemma PatchKeepsDistinct(rs: seq<Record>, id: string, patch: Fields)
    requires DistinctIds(rs)
    ensures DistinctIds(Patch(rs, id, patch))
  {
  }
}
