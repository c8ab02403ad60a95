/**
 * The options tables the request modules keep, the shallow merge Node's
 * `util._extend` performs on them, and how a builder reads one entry.
 */
module OptionTable {
  import opened Wrappers
  import opened JsValues

  /** An options object: property name to primitive value. */
  type Table = map<string, Value>

  /**
   * `util._extend(target, source)`: when `source` is absent (null, undefined or
   * not an object) the target comes back as it was; otherwise every own key of
   * `source` is copied onto the target, replacing what the target held for it.
   */
  function Extend(target: Table, source: Option<Table>): (r: Table)
    ensures source.None? ==> r == target
    ensures source.Some? ==> r.Keys == target.Keys + source.value.Keys
    ensures source.Some? ==> forall k :: k in source.value ==> r[k] == source.value[k]
    ensures forall k :: k in target && (source.None? || k !in source.value) ==> k in r && r[k] == target[k]
  {
    match source
    case None => target
    case Some(add) => target + add
  }

  /**
   * The text a builder appends for `table.key`: the entry printed as `+`
   * prints it, or "undefined" when the table has no such key.
   */
  function Field(table: Table, key: string): (r: string)
    ensures key !in table ==> r == "undefined"
    ensures key in table && table[key].Str? ==> r == table[key].s
    ensures key in table && table[key].Num? ==> ParseInt(r) == Some(table[key].n) && '/' !in r
  {
    if key in table then ToJsString(table[key]) else "undefined"
  }

  /** Merging the same overrides twice changes nothing the first merge did not. */
  lemma ExtendIdempotent(target: Table, source: Option<Table>)
    ensures Extend(Extend(target, source), source) == Extend(target, source)
  {
  }

  /** Calling with no options, or with an empty object, leaves the table as it was. */
  lemma ExtendNoOverrides(target: Table)
    ensures Extend(target, None) == target
    ensures Extend(target, Some(map[])) == target
  {
  }

  /**
   * An override persists: after merging `first`, which supplies `key`, and then
   * `second`, which does not, the table still holds the value from `first`.
   */
  lemma OverridePersists(target: Table, first: Table, second: Option<Table>, key: string)
    requires key in first
    requires second.None? || key !in second.value
    ensures Field(Extend(Extend(target, Some(first)), second), key) == Field(first, key)
  {
  }
}
