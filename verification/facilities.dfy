/** The facility dataset: rows of the CSV, the marker colour rule, and the loader's fallback. */
module Facilities {
  import opened Common
  import opened Substrings

  /** Marker colour codes written into the `color` column. */
  const Red := "#FF0000"
  const Blue := "#0000FF"
  const Green := "#00FF00"

  /** Substrings of the raw facility type that the colour rule tests. */
  const HongKongMacau := "港澳"
  const DrugDeviceScheme := "药械通"
  const TierAKeyword := "三甲"

  /** The name of the raw facility type column. */
  const KindColumnName := "类型"

  /** One facility row. Coordinates are carried unchanged and never inspected; a cell of a
      column the table lacks, or a missing cell, is `None`. */
  datatype Row = Row(lat: real, lon: real, kind: Option<string>, color: Option<string>)

  /** A data frame: whether the `类型` (type) and `color` columns exist, and the rows in order. */
  datatype Table = Table(kindColumn: bool, colorColumn: bool, rows: seq<Row>)

  /** A row has no cell in a column its table lacks. */
  predicate WellFormed(t: Table) {
    forall x | x in t.rows :: (!t.kindColumn ==> x.kind.None?) && (!t.colorColumn ==> x.color.None?)
  }

  /** A pandas frame is `empty` when it has no rows (every frame here has columns). */
  predicate IsEmpty(t: Table) {
    |t.rows| == 0
  }

  /** The type mentions the cross-border designation, by either of its two spellings. */
  predicate IsPolicyType(v: string) {
    Contains(v, HongKongMacau) || Contains(v, DrugDeviceScheme)
  }

  /** The marker colour of a raw facility type: red for the cross-border designation, which
      outranks blue for Tier-A; green for anything else and for a missing type. */
  function GetColor(kind: Option<string>): (c: string)
    ensures c == Red <==> kind.Some? && IsPolicyType(kind.value)
    ensures c == Blue <==> kind.Some? && !IsPolicyType(kind.value) && Contains(kind.value, TierAKeyword)
    ensures c == Green <==> kind.None? || (!IsPolicyType(kind.value) && !Contains(kind.value, TierAKeyword))
  {
    match kind
    case None => Green
    case Some(v) =>
      if Contains(v, HongKongMacau) || Contains(v, DrugDeviceScheme) then Red
      else if Contains(v, TierAKeyword) then Blue
      else Green
  }

  /** The frame the loader returns when reading fails: columns lat, lon, 类型 and color, no rows. */
  const Fallback := Table(true, true, [])

  /** The loader on the outcome of reading the CSV (`None` when reading raised). A frame that
      already has a `color` column is returned as read; otherwise the column is derived from
      `类型`, and a frame lacking `类型` too raises inside the guarded block and yields the
      fallback. */
  function Load(read: Option<Table>): (t: Table)
    ensures t.colorColumn
    ensures read.None? ==> t == Fallback
    ensures read.Some? && read.value.colorColumn ==> t == read.value
    ensures read.Some? && !read.value.colorColumn && !read.value.kindColumn ==> t == Fallback
    ensures read.Some? && !read.value.colorColumn && read.value.kindColumn ==>
      && t.kindColumn
      && |t.rows| == |read.value.rows|
      && forall i | 0 <= i < |t.rows| ::
           t.rows[i].color == Some(GetColor(read.value.rows[i].kind))
           && t.rows[i].(color := None) == read.value.rows[i].(color := None)
  {
    match read
    case None => Fallback
    case Some(df) =>
      if df.colorColumn then df
      else if !df.kindColumn then Fallback
      else Table(true, true, seq(|df.rows|, i requires 0 <= i < |df.rows| =>
                                  df.rows[i].(color := Some(GetColor(df.rows[i].kind)))))
  }

  /** Loading keeps a frame well formed, and every derived colour is one of the three codes. */
  lemma LoadWellFormed(read: Option<Table>)
    requires read.Some? ==> WellFormed(read.value)
    ensures WellFormed(Load(read))
    ensures read.Some? && !read.value.colorColumn ==>
      forall i | 0 <= i < |Load(read).rows| :: Load(read).rows[i].color.value in {Red, Blue, Green}
  {
  }

  /** The cross-border designation outranks Tier-A: a type naming both is red. */
  lemma PolicyOutranksTierA(v: string)
    requires Contains(v, TierAKeyword) && IsPolicyType(v)
    ensures GetColor(Some(v)) == Red
  {
  }
}
