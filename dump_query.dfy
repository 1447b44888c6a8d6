/**
 * The agent's query parameters (dbd-agent/src/dump_query.rs): an absent
 * `exclude_table_data` is no list at all, a present one is its text split
 * on commas.
 */
module DumpQuery {
  import opened Wrappers
  import opened Text

  /**
   * `deserialize`: `None` stays `None`; `Some(s)` becomes the comma-separated
   * pieces of `s`, which glue back to `s`, hold no comma and number one more
   * than the commas in `s`.
   */
  function Deserialize(param: Option<string>): (tables: Option<seq<string>>)
    ensures param.None? <==> tables.None?
    ensures tables.Some? ==>
      && Join(tables.value, ',') == param.value
      && |tables.value| == Count(param.value, ',') + 1
      && (forall i :: 0 <= i < |tables.value| ==> ',' !in tables.value[i])
  {
    match param
    case None => None
    case Some(s) =>
      JoinSplit(s, ',');
      SplitCount(s, ',');
      SplitPiecesFree(s, ',');
      Some(Split(s, ','))
  }

  /** Any non-empty list of comma-free table names is what some query text parses to. */
  lemma DeserializeOnto(tables: seq<string>)
    requires |tables| >= 1
    requires forall i :: 0 <= i < |tables| ==> ',' !in tables[i]
    ensures Deserialize(Some(Join(tables, ','))) == Some(tables)
  {
    SplitJoin(tables, ',');
  }

  /** The empty text is one empty table name, not an empty list. */
  lemma DeserializeEmpty()
    ensures Deserialize(Some("")) == Some([""])
  {
  }
}
