/** The YAML documents the pipeline writes and reads back, as values. */
module Records {
  import opened Wrappers
  import opened OrderedDict

  /** A YAML node of a stored record: a string scalar or a mapping. */
  datatype Value = Str(s: string) | Table(entries: Dict<string, Value>)

  /** A loaded YAML file: its top-level mapping. */
  type Document = Dict<string, Value>

  /** `data.get(key, default)` where the value is used as a string. */
  function GetStr(doc: Document, key: string, default: string): (r: string)
    ensures Get(doc, key).None? ==> r == default
    ensures forall s :: Get(doc, key) == Some(Str(s)) ==> r == s
  {
    var v := Get(doc, key);
    if v.Some? && v.value.Str? then v.value.s else default
  }

  /** `data.get(key, default)`. */
  function GetValue(doc: Document, key: string, default: Value): (r: Value)
    ensures r == Get(doc, key).GetOr(default)
  {
    Get(doc, key).GetOr(default)
  }

  /** A command-to-output mapping as the YAML mapping it is dumped as. */
  function TextTable(d: Dict<string, string>): (r: Value)
    ensures r.Table? && Keys(r.entries) == Keys(d)
    ensures forall i :: 0 <= i < |d| ==> r.entries[i].1 == Str(d[i].1)
  {
    Table(seq(|d|, i requires 0 <= i < |d| => (d[i].0, Str(d[i].1))))
  }

  /** A device-to-outputs mapping as the nested YAML mapping it is dumped as. */
  function NestedTable(d: Dict<string, Dict<string, string>>): (r: Value)
    ensures r.Table? && Keys(r.entries) == Keys(d)
    ensures forall i :: 0 <= i < |d| ==> r.entries[i].1 == TextTable(d[i].1)
  {
    Table(seq(|d|, i requires 0 <= i < |d| => (d[i].0, TextTable(d[i].1))))
  }
}
