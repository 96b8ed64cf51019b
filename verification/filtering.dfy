/** The keyword classifier on the latest query and the row filter it selects. */
module Filtering {
  import opened Common
  import opened Substrings
  import opened Facilities

  /** Which keyword group the query fell into; `Unmatched` applies no filter. */
  datatype Intent = TierA | Policy | PrivateClinic | Unmatched

  /** Query keywords that only the classifier tests; the others are shared with the colour rule. */
  const VoucherKeyword := "医疗券"
  const PrivateKeyword := "私立"
  const ClinicKeyword := "诊所"

  /** The query asks about cross-border access: Hong Kong/Macau, the drug-and-device scheme,
      or elderly medical vouchers. */
  predicate AsksPolicy(q: string) {
    Contains(q, HongKongMacau) || Contains(q, DrugDeviceScheme) || Contains(q, VoucherKeyword)
  }

  /** The query asks about private hospitals or clinics. */
  predicate AsksPrivate(q: string) {
    Contains(q, PrivateKeyword) || Contains(q, ClinicKeyword)
  }

  /** The first keyword group the query contains, tested Tier-A, then policy, then private. */
  function Classify(q: string): (i: Intent)
    ensures i == TierA <==> Contains(q, TierAKeyword)
    ensures i == Policy <==> !Contains(q, TierAKeyword) && AsksPolicy(q)
    ensures i == PrivateClinic <==> !Contains(q, TierAKeyword) && !AsksPolicy(q) && AsksPrivate(q)
    ensures i == Unmatched <==> !Contains(q, TierAKeyword) && !AsksPolicy(q) && !AsksPrivate(q)
  {
    if Contains(q, TierAKeyword) then TierA
    else if Contains(q, HongKongMacau) || Contains(q, DrugDeviceScheme) || Contains(q, VoucherKeyword) then Policy
    else if Contains(q, PrivateKeyword) || Contains(q, ClinicKeyword) then PrivateClinic
    else Unmatched
  }

  /** The substring the facility type must contain for the selected group. Note that the
      policy group searches for "港澳" only, although the colour rule also paints "药械通" red. */
  function Key(i: Intent): string
    requires i != Unmatched
  {
    match i
    case TierA => TierAKeyword
    case Policy => HongKongMacau
    case PrivateClinic => PrivateKeyword
  }

  /** The status line shown above the map. */
  function Tip(i: Intent): string
    requires i != Unmatched
  {
    match i
    case TierA => "🔵 已筛选：三甲医院"
    case Policy => "🔴 已筛选：港澳指定医院"
    case PrivateClinic => "🟢 已筛选：私立/诊所"
  }

  /** The row's type is present and contains `key`; a missing type never matches. */
  predicate Kept(row: Row, key: string) {
    row.kind.Some? && Contains(row.kind.value, key)
  }

  /** The boolean-mask selection: the rows whose type contains `key`, in their original order. */
  function Select(rows: seq<Row>, key: string): (r: seq<Row>)
    ensures IsSubsequence(r, rows)
    ensures forall x | x in r :: Kept(x, key)
    ensures forall x | x in rows && Kept(x, key) :: x in r
    ensures forall x :: multiset(r)[x] == if Kept(x, key) then multiset(rows)[x] else 0
  {
    if rows == [] then []
    else
      var rest := Select(rows[1..], key);
      assert rows == [rows[0]] + rows[1..];
      if Kept(rows[0], key) then [rows[0]] + rest else rest
  }

  /** What the page shows: the frame for the map and the status line. */
  datatype View = View(data: Table, tips: string)

  /** The filtering step. An empty frame, an empty query or a query with no keyword leaves the
      data as loaded and the status line empty. Otherwise the rows are narrowed to those whose
      type contains the group's key; reading the `类型` column of a frame without one raises,
      reported as a failure naming the column. */
  function FilterView(t: Table, q: string): (r: Result<View, string>)
    ensures IsEmpty(t) || q == "" || Classify(q) == Unmatched ==> r == Success(View(t, ""))
    ensures !IsEmpty(t) && q != "" && Classify(q) != Unmatched && !t.kindColumn ==>
      r == Failure(KindColumnName)
    ensures !IsEmpty(t) && q != "" && Classify(q) != Unmatched && t.kindColumn ==>
      && r.Success?
      && r.value.tips == Tip(Classify(q))
      && r.value.data.kindColumn == t.kindColumn
      && r.value.data.colorColumn == t.colorColumn
      && IsSubsequence(r.value.data.rows, t.rows)
      && (forall x | x in r.value.data.rows :: Kept(x, Key(Classify(q))))
      && (forall x | x in t.rows && Kept(x, Key(Classify(q))) :: x in r.value.data.rows)
      && (forall x :: multiset(r.value.data.rows)[x]
                       == if Kept(x, Key(Classify(q))) then multiset(t.rows)[x] else 0)
  {
    if IsEmpty(t) || q == "" then Success(View(t, ""))
    else
      var intent := Classify(q);
      if intent == Unmatched then Success(View(t, ""))
      else if !t.kindColumn then Failure(KindColumnName)
      else Success(View(t.(rows := Select(t.rows, Key(intent))), Tip(intent)))
  }

  /** Filtering keeps a well-formed frame well formed: it only drops rows. */
  lemma FilterKeepsWellFormed(t: Table, q: string)
    requires WellFormed(t)
    ensures FilterView(t, q).Success? ==> WellFormed(FilterView(t, q).value.data)
  {
  }

  /** A Tier-A query filters on "三甲" whatever other keywords it also contains. */
  lemma TierAQueryWins(t: Table, q: string)
    requires t.kindColumn && !IsEmpty(t)
    requires Contains(q, TierAKeyword)
    ensures FilterView(t, q).Success?
    ensures FilterView(t, q).value.tips == "🔵 已筛选：三甲医院"
    ensures forall x | x in FilterView(t, q).value.data.rows :: Kept(x, TierAKeyword)
  {
  }

  /** A policy query narrows to "港澳" only: a row typed with the drug-and-device scheme alone is
      painted red yet dropped from the policy view. */
  lemma PolicyViewDropsSchemeOnlyRows(t: Table, q: string, x: Row)
    requires t.kindColumn && !IsEmpty(t) && q != ""
    requires Classify(q) == Policy
    requires x.kind.Some? && Contains(x.kind.value, DrugDeviceScheme)
    requires !Contains(x.kind.value, HongKongMacau)
    ensures GetColor(x.kind) == Red
    ensures x !in FilterView(t, q).value.data.rows
  {
  }

  /** A private/clinic query narrows to "私立" only: a row typed as a clinic without "私立" is
      dropped even when the query asked for clinics. */
  lemma ClinicViewDropsNonPrivateClinics(t: Table, q: string, x: Row)
    requires t.kindColumn && !IsEmpty(t) && q != ""
    requires Classify(q) == PrivateClinic
    requires x.kind.Some? && Contains(x.kind.value, ClinicKeyword)
    requires !Contains(x.kind.value, PrivateKeyword)
    ensures x !in FilterView(t, q).value.data.rows
  {
  }

  /** Rows in a policy view are red, and rows in a Tier-A view are red or blue, under the
      derived colour rule. */
  lemma FilteredRowsColour(t: Table, q: string)
    requires t.kindColumn && !IsEmpty(t) && q != ""
    requires Classify(q) == Policy || Classify(q) == TierA
    ensures forall x | x in FilterView(t, q).value.data.rows ::
      GetColor(x.kind) == (if Classify(q) == Policy || IsPolicyType(x.kind.value) then Red else Blue)
  {
  }

  /** On a frame whose colour column the loader derived, the colour the map paints for a row in
      a policy view is red, and for a row in a Tier-A view blue unless its type is also a policy
      type. A colour column read from the CSV is painted as read, whatever the type says. */
  lemma LoadedViewColour(df: Table, q: string)
    requires !df.colorColumn && df.kindColumn
    requires !IsEmpty(df) && q != ""
    requires Classify(q) == Policy || Classify(q) == TierA
    ensures forall x | x in FilterView(Load(Some(df)), q).value.data.rows ::
      x.color == Some(if Classify(q) == Policy || IsPolicyType(x.kind.value) then Red else Blue)
  {
  }

  /** The facts about the example's strings that the filter decides on. */
  lemma ExampleKinds()
    ensures Contains("附近的三甲医院", TierAKeyword)
    ensures Contains("三甲医院", TierAKeyword)
    ensures Contains("公立三甲", TierAKeyword)
    ensures !Contains("私立诊所", TierAKeyword)
    ensures !Contains("社区医院", TierAKeyword)
  {
    assert IsPrefix(TierAKeyword, "附近的三甲医院"[3..]);
    assert IsPrefix(TierAKeyword, "三甲医院"[0..]);
    assert IsPrefix(TierAKeyword, "公立三甲"[2..]);
    AbsentFirstChar("私立诊所", TierAKeyword);
    AbsentFirstChar("社区医院", TierAKeyword);
  }

  /** Selection over five rows, of which the first and third match. */
  lemma SelectFive(a: Row, b: Row, c: Row, d: Row, e: Row, key: string)
    requires Kept(a, key) && !Kept(b, key) && Kept(c, key) && !Kept(d, key) && !Kept(e, key)
    ensures Select([a, b, c, d, e], key) == [a, c]
  {
    assert [a, b, c, d, e][1..] == [b, c, d, e];
    assert [b, c, d, e][1..] == [c, d, e];
    assert [c, d, e][1..] == [d, e];
    assert [d, e][1..] == [e];
    assert [e][1..] == [];
    assert Select([e], key) == [];
    assert Select([d, e], key) == [];
    assert Select([c, d, e], key) == [c];
    assert Select([b, c, d, e], key) == [c];
  }

  /** Asking "附近的三甲医院" over five facilities, two of them Tier-A, shows exactly those two,
      in order, with the Tier-A status line. */
  lemma NearbyTierAExample()
    ensures
      var a := Row(22.54, 114.06, Some("三甲医院"), None);
      var b := Row(22.55, 114.08, Some("私立诊所"), None);
      var c := Row(22.53, 114.02, Some("公立三甲"), None);
      var d := Row(22.52, 114.10, Some("社区医院"), None);
      var e := Row(22.56, 114.12, None, None);
      FilterView(Table(true, false, [a, b, c, d, e]), "附近的三甲医院")
        == Success(View(Table(true, false, [a, c]), "🔵 已筛选：三甲医院"))
  {
    var a := Row(22.54, 114.06, Some("三甲医院"), None);
    var b := Row(22.55, 114.08, Some("私立诊所"), None);
    var c := Row(22.53, 114.02, Some("公立三甲"), None);
    var d := Row(22.52, 114.10, Some("社区医院"), None);
    var e := Row(22.56, 114.12, None, None);
    ExampleKinds();
    assert Kept(a, TierAKeyword) && !Kept(b, TierAKeyword) && Kept(c, TierAKeyword) && !Kept(d, TierAKeyword) && !Kept(e, TierAKeyword);
    SelectFive(a, b, c, d, e, TierAKeyword);
    assert Classify("附近的三甲医院") == TierA;
  }
}
