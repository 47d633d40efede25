/**
 * The sensor-history page: the two payload parsers, the table of selectable
 * series and the chart points built from the fetched feeds.
 */
module SensorDetails {
  import opened Wrappers
  import opened Strings
  import opened Remote

  /** One record of the history channel; field1 and field2 are the nodes, field3 the NPK text. */
  datatype SensorFeed = SensorFeed(entryId: int, field1: Option<string>, field2: Option<string>,
                                   field3: Option<string>)

  /** `parts[i] || 0`: a missing position and NaN both become 0 (and 0 stays 0). */
  function TokenOrZero(s: string, i: nat, toNumber: string -> Option<int>): int {
    var parts := Split(s, ',');
    if i < |parts| then toNumber(Trim(parts[i])).GetOr(0) else 0
  }

  /** Each comma token of `s`, trimmed and converted by `Number`. */
  function Numbers(s: string, toNumber: string -> Option<int>): (r: seq<Option<int>>)
    ensures |r| == |Split(s, ',')|
    ensures forall i :: 0 <= i < |r| ==> r[i] == toNumber(Trim(Split(s, ',')[i]))
  {
    var parts := Split(s, ',');
    seq(|parts|, i requires 0 <= i < |parts| => toNumber(Trim(parts[i])))
  }

  /** `parts[i] || 0` on the converted tokens. */
  function SlotOrZero(parts: seq<Option<int>>, i: nat): int {
    if i < |parts| then parts[i].GetOr(0) else 0
  }

  /** `parseNode`: a node's packed field as exactly four numbers. */
  function ParseNode(value: Option<string>, toNumber: string -> Option<int>): (r: seq<int>)
    ensures |r| == 4
    ensures value.None? || value == Some("") ==> r == [0, 0, 0, 0]
    ensures value.Some? && value.value != "" ==>
      r == [TokenOrZero(value.value, 0, toNumber), TokenOrZero(value.value, 1, toNumber),
            TokenOrZero(value.value, 2, toNumber), TokenOrZero(value.value, 3, toNumber)]
  {
    if value.None? || value.value == "" then [0, 0, 0, 0]
    else
      var parts := Numbers(value.value, toNumber);
      [SlotOrZero(parts, 0), SlotOrZero(parts, 1), SlotOrZero(parts, 2), SlotOrZero(parts, 3)]
  }

  /** `parseNPK` of this page: the packed NPK field as exactly three numbers. */
  function ParseNpk(value: Option<string>, toNumber: string -> Option<int>): (r: seq<int>)
    ensures |r| == 3
    ensures value.None? || value == Some("") ==> r == [0, 0, 0]
    ensures value.Some? && value.value != "" ==>
      r == [TokenOrZero(value.value, 0, toNumber), TokenOrZero(value.value, 1, toNumber),
            TokenOrZero(value.value, 2, toNumber)]
  {
    if value.None? || value.value == "" then [0, 0, 0]
    else
      var parts := Numbers(value.value, toNumber);
      [SlotOrZero(parts, 0), SlotOrZero(parts, 1), SlotOrZero(parts, 2)]
  }

  /** A slot is never NaN: an unconvertible token, like a missing one, reads as 0. */
  lemma UnconvertibleTokenIsZero(s: string, i: nat, toNumber: string -> Option<int>)
    requires s != [] && i < 4
    requires i >= |Split(s, ',')| || toNumber(Trim(Split(s, ',')[i])).None?
    ensures ParseNode(Some(s), toNumber)[i] == 0
    ensures i < 3 ==> ParseNpk(Some(s), toNumber)[i] == 0
  {
    UnreadableTokenIsZero(s, i, toNumber);
    var node, npk := ParseNode(Some(s), toNumber), ParseNpk(Some(s), toNumber);
    if i == 0 {
      assert node[0] == TokenOrZero(s, 0, toNumber) && npk[0] == TokenOrZero(s, 0, toNumber);
    } else if i == 1 {
      assert node[1] == TokenOrZero(s, 1, toNumber) && npk[1] == TokenOrZero(s, 1, toNumber);
    } else if i == 2 {
      assert node[2] == TokenOrZero(s, 2, toNumber) && npk[2] == TokenOrZero(s, 2, toNumber);
    } else {
      assert node[3] == TokenOrZero(s, 3, toNumber);
    }
  }

  /** The slot of a missing or unconvertible token is 0. */
  lemma UnreadableTokenIsZero(s: string, i: nat, toNumber: string -> Option<int>)
    requires i >= |Split(s, ',')| || toNumber(Trim(Split(s, ',')[i])).None?
    ensures TokenOrZero(s, i, toNumber) == 0
  {
  }

  /** Text added after a further comma leaves the earlier slots alone. */
  lemma TokenOrZeroExtended(s: string, t: string, i: nat, toNumber: string -> Option<int>)
    requires i < |Split(s, ',')|
    ensures TokenOrZero(s + [','] + t, i, toNumber) == TokenOrZero(s, i, toNumber)
  {
    SplitConcat(s, t, ',');
    var whole := Split(s + [','] + t, ',');
    assert whole[i] == Split(s, ',')[i];
  }

  /** Text after the fourth token does not change a node's parse. */
  lemma ParseNodeIgnoresExtraTokens(s: string, t: string, toNumber: string -> Option<int>)
    requires |Split(s, ',')| >= 4
    ensures ParseNode(Some(s + [','] + t), toNumber) == ParseNode(Some(s), toNumber)
  {
    assert s != [];
    TokenOrZeroExtended(s, t, 0, toNumber);
    TokenOrZeroExtended(s, t, 1, toNumber);
    TokenOrZeroExtended(s, t, 2, toNumber);
    TokenOrZeroExtended(s, t, 3, toNumber);
  }

  /** A token without outer white space converts as it stands. */
  lemma TokenOrZeroAt(s: string, i: nat, t: string, toNumber: string -> Option<int>)
    requires i < |Split(s, ',')| && Split(s, ',')[i] == t
    requires NoOuterSpace(t)
    ensures TokenOrZero(s, i, toNumber) == toNumber(t).GetOr(0)
  {
    TrimOfTrimmed(t);
  }

  /** A field of exactly four tokens without outer white space parses token by token. */
  lemma ParseNodeFourTokens(s: string, a: string, b: string, c: string, d: string,
                            toNumber: string -> Option<int>)
    requires s != [] && Split(s, ',') == [a, b, c, d]
    requires NoOuterSpace(a) && NoOuterSpace(b) && NoOuterSpace(c) && NoOuterSpace(d)
    ensures ParseNode(Some(s), toNumber)
      == [toNumber(a).GetOr(0), toNumber(b).GetOr(0), toNumber(c).GetOr(0), toNumber(d).GetOr(0)]
  {
    TokenOrZeroAt(s, 0, a, toNumber);
    TokenOrZeroAt(s, 1, b, toNumber);
    TokenOrZeroAt(s, 2, c, toNumber);
    TokenOrZeroAt(s, 3, d, toNumber);
  }

  /**
   * Round trip: four values written out by any renderer that `Number` reads
   * back, and that produces neither commas nor surrounding white space, parse
   * back to themselves.
   */
  lemma {:induction false} ParseNodeRoundTrip(show: int -> string, toNumber: string -> Option<int>,
                                             w: int, x: int, y: int, z: int)
    requires forall v :: toNumber(show(v)) == Some(v)
    requires forall v :: ',' !in show(v) && NoOuterSpace(show(v))
    ensures ParseNode(Some(Join([show(w), show(x), show(y), show(z)], ',')), toNumber) == [w, x, y, z]
  {
    var parts := [show(w), show(x), show(y), show(z)];
    assert ',' !in parts[0] && ',' !in parts[1] && ',' !in parts[2] && ',' !in parts[3];
    SplitJoin(parts, ',');
    assert Join(parts, ',') == show(w) + [','] + Join(parts[1..], ',');
    ParseNodeFourTokens(Join(parts, ','), show(w), show(x), show(y), show(z), toNumber);
  }

  // ---------------------------------------------------------------------------
  // fieldMap

  /** The record field a series is read from. */
  datatype Source = Field1 | Field2 | Field3

  /** The selectable series. */
  datatype ChartKey =
    | Node1Temp | Node1Ph | Node1Water | Node1Ldr | Node1All
    | Node2Temp | Node2Ph | Node2Water | Node2Ldr | Node2All
    | NpkN | NpkP | NpkK | NpkAll

  /** The key text the page uses for a series. */
  function KeyName(key: ChartKey): string {
    match key
    case Node1Temp => "node1-temp"
    case Node1Ph => "node1-ph"
    case Node1Water => "node1-water"
    case Node1Ldr => "node1-ldr"
    case Node1All => "node1-all"
    case Node2Temp => "node2-temp"
    case Node2Ph => "node2-ph"
    case Node2Water => "node2-water"
    case Node2Ldr => "node2-ldr"
    case Node2All => "node2-all"
    case NpkN => "npk-n"
    case NpkP => "npk-p"
    case NpkK => "npk-k"
    case NpkAll => "npk-all"
  }

  /** One entry of the table: a caption, the source field and, for a single metric, its index. */
  datatype FieldSpec = FieldSpec(caption: string, source: Source, index: Option<nat>)

  /**
   * `fieldMap` (the colours are presentation): the NPK series read field3,
   * the node series field1 or field2, and every index is in range for the
   * parser of its source.
   */
  function FieldMap(key: ChartKey): (spec: FieldSpec)
    ensures spec.source == Field3 <==> key in {NpkN, NpkP, NpkK, NpkAll}
    ensures spec.source == Field1 <==> key in {Node1Temp, Node1Ph, Node1Water, Node1Ldr, Node1All}
    ensures spec.index.Some? ==> spec.index.value < (if spec.source == Field3 then 3 else 4)
    ensures spec.caption != ""
  {
    match key
    case Node1Temp => FieldSpec("Temperature", Field1, Some(0))
    case Node1Ph => FieldSpec("pH Level", Field1, Some(1))
    case Node1Water => FieldSpec("Water Level", Field1, Some(2))
    case Node1Ldr => FieldSpec("LDR (Light)", Field1, Some(3))
    case Node1All => FieldSpec("All Values", Field1, None)
    case Node2Temp => FieldSpec("Temperature", Field2, Some(0))
    case Node2Ph => FieldSpec("pH Level", Field2, Some(1))
    case Node2Water => FieldSpec("Water Level", Field2, Some(2))
    case Node2Ldr => FieldSpec("LDR (Light)", Field2, Some(3))
    case Node2All => FieldSpec("All Values", Field2, None)
    case NpkN => FieldSpec("Nitrogen", Field3, Some(0))
    case NpkP => FieldSpec("Phosphorus", Field3, Some(1))
    case NpkK => FieldSpec("Potassium", Field3, Some(2))
    case NpkAll => FieldSpec("All Values", Field3, None)
  }

  /** `selected.includes("all")`. */
  predicate IsAllKey(key: ChartKey) {
    Contains(KeyName(key), "all")
  }

  /**
   * The text test that picks the "all values" chart agrees with the table:
   * exactly the keys without an index contain "all".
   */
  lemma IsAllKeyIffNoIndex(key: ChartKey)
    ensures IsAllKey(key) <==> FieldMap(key).index.None?
  {
    var name := KeyName(key);
    match key
    case Node1All => assert OccursAt(name, "all", 6);
    case Node2All => assert OccursAt(name, "all", 6);
    case NpkAll => assert OccursAt(name, "all", 4);
    case Node1Water => MissingCharNotContained(name, "all", 'l');
    case Node2Water => MissingCharNotContained(name, "all", 'l');
    case Node1Ldr => MissingCharNotContained(name, "all", 'a');
    case Node2Ldr => MissingCharNotContained(name, "all", 'a');
    case _ => MissingCharNotContained(name, "all", 'a');
  }

  /** The text a record holds in a source field. */
  function FieldOf(item: SensorFeed, source: Source): Option<string> {
    match source
    case Field1 => item.field1
    case Field2 => item.field2
    case Field3 => item.field3
  }

  /** The values of one record for a series: `parseNPK` for field3, `parseNode` otherwise. */
  function ValuesOf(item: SensorFeed, key: ChartKey, toNumber: string -> Option<int>): (vs: seq<int>)
    ensures FieldMap(key).source == Field3 ==> vs == ParseNpk(item.field3, toNumber)
    ensures FieldMap(key).source != Field3 ==> vs == ParseNode(FieldOf(item, FieldMap(key).source), toNumber)
  {
    var spec := FieldMap(key);
    if spec.source == Field3 then ParseNpk(item.field3, toNumber) else ParseNode(FieldOf(item, spec.source), toNumber)
  }

  /** `values[i] || 0` for an index that may be absent or past the end. */
  function At(values: seq<int>, index: Option<nat>): int {
    if index.Some? && index.value < |values| then values[index.value] else 0
  }

  /** One chart point: a single metric, or the four values of an "all" series. */
  datatype ChartPoint =
    | Metric(entryId: int, value: int)
    | AllValues(entryId: int, v1: int, v2: int, v3: int, v4: int)

  /**
   * The point of one record: tagged with its entry id, the four first values
   * for an "all" series, the series' value otherwise.
   */
  function PointOf(item: SensorFeed, key: ChartKey, toNumber: string -> Option<int>): (p: ChartPoint)
    ensures p.entryId == item.entryId
    ensures p.AllValues? <==> IsAllKey(key)
    ensures p.Metric? ==> FieldMap(key).index.Some?
                          && p.value == ValuesOf(item, key, toNumber)[FieldMap(key).index.value]
    ensures p.AllValues? ==>
      var vs := ValuesOf(item, key, toNumber);
      p.v1 == vs[0] && p.v2 == vs[1] && p.v3 == vs[2] && p.v4 == if |vs| > 3 then vs[3] else 0
  {
    IsAllKeyIffNoIndex(key);
    var values := ValuesOf(item, key, toNumber);
    if IsAllKey(key) then
      AllValues(item.entryId, At(values, Some(0)), At(values, Some(1)), At(values, Some(2)), At(values, Some(3)))
    else
      Metric(item.entryId, At(values, FieldMap(key).index))
  }

  /** `formattedData`: one point per record, in record order, tagged with its entry id. */
  function FormattedData(feeds: seq<SensorFeed>, key: ChartKey, toNumber: string -> Option<int>)
    : (points: seq<ChartPoint>)
    ensures |points| == |feeds|
    ensures forall i :: 0 <= i < |feeds| ==> points[i].entryId == feeds[i].entryId
    ensures forall i :: 0 <= i < |feeds| ==> (points[i].AllValues? <==> IsAllKey(key))
  {
    seq(|feeds|, i requires 0 <= i < |feeds| => PointOf(feeds[i], key, toNumber))
  }

  /** A single-metric point is the series' index of the parsed source field. */
  lemma MetricPointValue(feeds: seq<SensorFeed>, key: ChartKey, toNumber: string -> Option<int>, i: nat)
    requires i < |feeds| && !IsAllKey(key)
    ensures FieldMap(key).index.Some?
    ensures FormattedData(feeds, key, toNumber)[i].value
      == ValuesOf(feeds[i], key, toNumber)[FieldMap(key).index.value]
  {
    IsAllKeyIffNoIndex(key);
  }

  /** For instance "node1-water" charts the third value of field1. */
  lemma Node1WaterReadsThirdValue(feeds: seq<SensorFeed>, toNumber: string -> Option<int>, i: nat)
    requires i < |feeds|
    ensures FormattedData(feeds, Node1Water, toNumber)[i]
      == Metric(feeds[i].entryId, ParseNode(feeds[i].field1, toNumber)[2])
  {
    IsAllKeyIffNoIndex(Node1Water);
    MetricPointValue(feeds, Node1Water, toNumber, i);
  }

  /** An "all" point carries the first four parsed values; for "npk-all" the fourth is always 0. */
  lemma AllPointValues(feeds: seq<SensorFeed>, key: ChartKey, toNumber: string -> Option<int>, i: nat)
    requires i < |feeds| && IsAllKey(key)
    ensures var p := FormattedData(feeds, key, toNumber)[i];
            var vs := ValuesOf(feeds[i], key, toNumber);
            p.v1 == vs[0] && p.v2 == vs[1] && p.v3 == vs[2]
    ensures FieldMap(key).source != Field3 ==>
      FormattedData(feeds, key, toNumber)[i].v4 == ValuesOf(feeds[i], key, toNumber)[3]
    ensures key == NpkAll ==> FormattedData(feeds, key, toNumber)[i].v4 == 0
  {
  }

  /**
   * `setFeeds(json.feeds || [])` on success; a failed fetch, or a `null` body
   * on which `json.feeds` throws, keeps the records shown.
   */
  function FeedsAfterFetch(current: seq<SensorFeed>, read: Read<SensorFeed>): (r: seq<SensorFeed>)
    ensures !read.Fetched? ==> r == current
    ensures read.Fetched? ==> r == read.feeds
  {
    match read
    case Failed => current
    case NullBody => current
    case Fetched(feeds) => feeds
  }
}
