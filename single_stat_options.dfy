/** The rules inside the option panel of the "single stat plus line" chart
    (`SingleStatWithLineOptions.tsx`): which columns may be chosen for X and Y,
    and the patch objects the handlers hand to `update`. The JSX is not modelled. */
module SingleStatWithLineOptions {
  import opened Common
  import opened JsNumbers

  // ---------------------------------------------------------------- columns

  datatype ColumnType = TimeColumn | NumberColumn | StringColumn | BooleanColumn

  /** The result table as the panel sees it: its column keys in order and `getColumnType`. */
  datatype Table = Table(columnKeys: seq<string>, columnTypes: map<string, ColumnType>)

  /** The test of the `columnKeys.filter` callback. */
  predicate IsNumericColumn(types: map<string, ColumnType>, key: string) {
    && key != "result" && key != "table"
    && key in types && (types[key] == TimeColumn || types[key] == NumberColumn)
  }

  function FilterNumeric(keys: seq<string>, types: map<string, ColumnType>): (r: seq<string>)
    ensures |r| <= |keys|
    ensures forall i :: 0 <= i < |r| ==> IsNumericColumn(types, r[i]) && r[i] in keys
  {
    if keys == [] then []
    else if IsNumericColumn(types, keys[0]) then [keys[0]] + FilterNumeric(keys[1..], types)
    else FilterNumeric(keys[1..], types)
  }

  /** `numericColumns`: see `NumericColumnsSpec` for the filter's full specification. */
  function NumericColumns(table: Table): (r: seq<string>)
    ensures IsSubsequence(r, table.columnKeys)
    ensures forall x :: Count(r, x) == if IsNumericColumn(table.columnTypes, x) then Count(table.columnKeys, x) else 0
  {
    NumericColumnsSpec(table.columnKeys, table.columnTypes);
    FilterNumeric(table.columnKeys, table.columnTypes)
  }

  function Count(s: seq<string>, x: string): nat {
    if s == [] then 0 else (if s[0] == x then 1 else 0) + Count(s[1..], x)
  }

  /** `sub` is `s` with some elements left out, the rest in their original order. */
  predicate IsSubsequence(sub: seq<string>, s: seq<string>) {
    if sub == [] then true
    else if s == [] then false
    else if sub[0] == s[0] then IsSubsequence(sub[1..], s[1..])
    else IsSubsequence(sub, s[1..])
  }

  /** `numericColumns` keeps the time and number columns other than `result` and `table`,
      each as often as it occurs, in the order of `columnKeys`, and nothing else. */
  lemma {:induction false} NumericColumnsSpec(keys: seq<string>, types: map<string, ColumnType>)
    ensures IsSubsequence(FilterNumeric(keys, types), keys)
    ensures forall x :: Count(FilterNumeric(keys, types), x) == if IsNumericColumn(types, x) then Count(keys, x) else 0
    ensures "result" !in FilterNumeric(keys, types) && "table" !in FilterNumeric(keys, types)
  {
    if keys != [] {
      NumericColumnsSpec(keys[1..], types);
      var r := FilterNumeric(keys, types);
      var rest := FilterNumeric(keys[1..], types);
      if IsNumericColumn(types, keys[0]) {
        assert r == [keys[0]] + rest && r[1..] == rest;
      } else {
        assert r == rest;
        SubsequenceSkip(rest, keys);
      }
    }
  }

  /** A subsequence of the tail is a subsequence of the whole. */
  lemma {:induction false} SubsequenceSkip(sub: seq<string>, s: seq<string>)
    requires s != [] && IsSubsequence(sub, s[1..])
    ensures IsSubsequence(sub, s)
    decreases |s|, 0
  {
    if sub != [] && sub[0] == s[0] {
      SubsequenceDrop(sub, s[1..]);
    }
  }

  /** Dropping the head of a subsequence keeps it a subsequence. */
  lemma {:induction false} SubsequenceDrop(sub: seq<string>, s: seq<string>)
    requires sub != [] && IsSubsequence(sub, s)
    ensures IsSubsequence(sub[1..], s)
    decreases |s|, 1
  {
    if sub[0] != s[0] {
      SubsequenceDrop(sub, s[1..]);
    }
    SubsequenceSkip(sub[1..], s);
  }

  datatype ComponentStatus = Disabled | Default

  /** The `buttonStatus` of the X and of the Y column dropdown. */
  function DropdownStatus(numericColumns: seq<string>): (status: ComponentStatus)
    ensures status == Disabled <==> numericColumns == []
  {
    if |numericColumns| == 0 then Disabled else Default
  }

  /** Both dropdowns are disabled exactly when no column key passes the numeric filter. */
  lemma DropdownDisabledIff(table: Table)
    ensures DropdownStatus(NumericColumns(table)) == Disabled <==>
            forall i :: 0 <= i < |table.columnKeys| ==> !IsNumericColumn(table.columnTypes, table.columnKeys[i])
  {
    var keys, r := table.columnKeys, NumericColumns(table);
    NumericColumnsSpec(keys, table.columnTypes);
    if exists i :: 0 <= i < |keys| && IsNumericColumn(table.columnTypes, keys[i]) {
      var i :| 0 <= i < |keys| && IsNumericColumn(table.columnTypes, keys[i]);
      CountPositive(keys, i);
      assert Count(r, keys[i]) > 0;
    }
    if r != [] {
      var i :| 0 <= i < |keys| && keys[i] == r[0];
      assert IsNumericColumn(table.columnTypes, keys[i]);
    }
  }

  lemma {:induction false} CountPositive(s: seq<string>, i: nat)
    requires i < |s|
    ensures Count(s, s[i]) > 0
  {
    if i > 0 {
      CountPositive(s[1..], i - 1);
    }
  }

  // ---------------------------------------------------------------- handlers

  /** The fields of each axis, by axis name (`x`, `y`). */
  type Axes = map<string, Fields>

  datatype DecimalPlaces = DecimalPlaces(isEnforced: Option<bool>, digits: Option<int>)

  /** The part of `LinePlusSingleStatProperties` the handlers read. */
  datatype Properties = Properties(axes: Axes, decimalPlaces: DecimalPlaces)

  /** The object a handler passes to `update`. */
  datatype Patch = AxesPatch(axes: Axes) | DecimalPlacesPatch(decimalPlaces: DecimalPlaces)

  /** `updateAxis(axis, value)`: the axis keeps its fields, overlaid by `value`'s; every
      other axis is copied unchanged. A missing axis starts out empty. */
  function UpdateAxis(props: Properties, axis: string, value: Fields): (p: Patch)
    ensures p.AxesPatch? && p.axes.Keys == props.axes.Keys + {axis}
    ensures forall a :: a in props.axes && a != axis ==> p.axes[a] == props.axes[a]
    ensures axis in props.axes ==> p.axes[axis].Keys == props.axes[axis].Keys + value.Keys
    ensures axis !in props.axes ==> p.axes[axis] == value
    ensures forall k :: k in value ==> p.axes[axis][k] == value[k]
    ensures forall k :: axis in props.axes && k in props.axes[axis] && k !in value ==>
              p.axes[axis][k] == props.axes[axis][k]
  {
    var current := if axis in props.axes then props.axes[axis] else map[];
    AxesPatch(props.axes[axis := current + value])
  }

  /** The bounds an axis domain is stored as: `null`, or a pair whose ends are `null` or text. */
  type Bounds = Option<(Option<string>, Option<string>)>

  function EndText(end: Option<int>): Option<string> {
    if end.None? then None else Some(DecimalString(end.value))
  }

  /** The `bounds` computed by `handleSetYDomain`. */
  function DomainBounds(yDomain: Option<(Option<int>, Option<int>)>): (b: Bounds)
    ensures yDomain.None? ==> b.None?
    ensures yDomain.Some? && yDomain.value.0.None? && yDomain.value.1.None? ==> b.None?
    ensures yDomain.Some? && (yDomain.value.0.Some? || yDomain.value.1.Some?) ==>
      && b.Some?
      && (b.value.0.None? <==> yDomain.value.0.None?)
      && (b.value.1.None? <==> yDomain.value.1.None?)
      && (yDomain.value.0.Some? ==> b.value.0 == Some(DecimalString(yDomain.value.0.value)))
      && (yDomain.value.1.Some? ==> b.value.1 == Some(DecimalString(yDomain.value.1.value)))
  {
    var pair := match yDomain
      case Some((min, max)) => (EndText(min), EndText(max))
      case None => (None, None);
    if pair.0.None? && pair.1.None? then None else Some(pair)
  }

  /** Reading the stored bounds back gives the domain that was set. */
  lemma DomainBoundsReadBack(min: Option<int>, max: Option<int>)
    requires min.Some? || max.Some?
    ensures var b := DomainBounds(Some((min, max)));
      && (min.Some? ==> ParseInt(b.value.0.value) == Int(min.value))
      && (max.Some? ==> ParseInt(b.value.1.value) == Int(max.value))
  {
    if min.Some? {
      ParseIntOfDecimalString(min.value, "");
      assert DecimalString(min.value) + "" == DecimalString(min.value);
    }
    if max.Some? {
      ParseIntOfDecimalString(max.value, "");
      assert DecimalString(max.value) + "" == DecimalString(max.value);
    }
  }

  /** The `bounds` value handed to `updateAxis`: `null`, or a two-element array of `null` or text. */
  function BoundsJson(b: Bounds): (j: Json)
    ensures b.None? ==> j == JNull
    ensures b.Some? ==> j.JArr? && |j.items| == 2
    ensures b.Some? ==> (j.items[0] == JNull <==> b.value.0.None?) && (j.items[1] == JNull <==> b.value.1.None?)
    ensures b.Some? && b.value.0.Some? ==> j.items[0] == JStr(b.value.0.value)
    ensures b.Some? && b.value.1.Some? ==> j.items[1] == JStr(b.value.1.value)
  {
    match b
    case None => JNull
    case Some((lo, hi)) =>
      JArr([if lo.Some? then JStr(lo.value) else JNull, if hi.Some? then JStr(hi.value) else JNull])
  }

  /** `handleSetYDomain`: `updateAxis('y', {bounds})`. */
  function HandleSetYDomain(props: Properties, yDomain: Option<(Option<int>, Option<int>)>): (p: Patch)
    ensures p.AxesPatch? && p.axes.Keys == props.axes.Keys + {"y"}
    ensures p.axes["y"].Keys == (if "y" in props.axes then props.axes["y"].Keys else {}) + {"bounds"}
    ensures p.axes["y"]["bounds"] == BoundsJson(DomainBounds(yDomain))
  {
    UpdateAxis(props, "y", map["bounds" := BoundsJson(DomainBounds(yDomain))])
  }

  /** Setting the domain updates axis `y` only, and only its `bounds`. */
  lemma SetYDomainTouchesOnlyYBounds(props: Properties, yDomain: Option<(Option<int>, Option<int>)>)
    ensures var p := HandleSetYDomain(props, yDomain);
      && p.AxesPatch?
      && p.axes.Keys == props.axes.Keys + {"y"}
      && p.axes["y"].Keys == (if "y" in props.axes then props.axes["y"].Keys else {}) + {"bounds"}
      && (forall a :: a in props.axes && a != "y" ==> a in p.axes && p.axes[a] == props.axes[a])
      && p.axes["y"]["bounds"] == BoundsJson(DomainBounds(yDomain))
      && (forall k :: "y" in props.axes && k in props.axes["y"] && k != "bounds" ==> p.axes["y"][k] == props.axes["y"][k])
  {
  }

  /** `setDigits(digits)`: only `decimalPlaces.digits` changes. */
  function SetDigits(props: Properties, digits: Option<int>): (p: Patch)
    ensures p.DecimalPlacesPatch? && p.decimalPlaces.digits == digits
    ensures p.decimalPlaces.isEnforced == props.decimalPlaces.isEnforced
  {
    DecimalPlacesPatch(props.decimalPlaces.(digits := digits))
  }

  datatype AutoInputMode = Auto | Custom

  function HandleChangeMode(props: Properties, mode: AutoInputMode): (p: Patch)
    ensures p.DecimalPlacesPatch? && p.decimalPlaces.isEnforced == props.decimalPlaces.isEnforced
    ensures mode == Auto ==> p.decimalPlaces.digits == None
    ensures mode != Auto ==> p.decimalPlaces.digits == Some(2)
  {
    if mode == Auto then SetDigits(props, None) else SetDigits(props, Some(2))
  }

  /** The mode the decimal-places input shows: `Custom` when `digits` is a number. */
  function DisplayedMode(dp: DecimalPlaces): (mode: AutoInputMode)
    ensures mode == Custom <==> dp.digits.Some?
  {
    if dp.digits.Some? then Custom else Auto
  }

  /** Choosing a mode and then displaying the patched decimal places shows that mode. */
  lemma ChangeModeRoundTrip(props: Properties, mode: AutoInputMode)
    ensures DisplayedMode(HandleChangeMode(props, mode).decimalPlaces) == mode
  {
  }
}
