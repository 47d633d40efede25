/**
 * The soil-nutrient panel: parsing the packed "N,P,K" field, the ordered crop
 * recommendation, the bar clamp and the poll that keeps the four displayed
 * values consistent.
 */
module NpkDashboard {
  import opened Wrappers
  import opened Strings
  import opened Remote

  /** A JavaScript number as the panel sees it: `None` is NaN. */
  type Num = Option<int>

  /** `x >= c`; false for NaN, as every JavaScript comparison with NaN is. */
  predicate Ge(x: Num, c: int) {
    x.Some? && x.value >= c
  }

  /** `x <= c`; false for NaN. */
  predicate Le(x: Num, c: int) {
    x.Some? && x.value <= c
  }

  /** The ten suggestions; the emoji texts of the source are presentation. */
  datatype Crop =
    | Banana | Turmeric | Garlic | Corn | Beans
    | Beetroot | Ragi | Kambu | Tapioca | SoilNeedsImprovement

  /** The condition under which each rule of the table applies, taken alone. */
  predicate RuleHolds(c: Crop, n: Num, p: Num, k: Num) {
    match c
    case Banana => Ge(n, 70) && Ge(k, 70)
    case Turmeric => Ge(n, 40) && Ge(p, 30) && Ge(k, 40)
    case Garlic => Ge(p, 40) && Ge(k, 40) && Ge(n, 30)
    case Corn => Ge(n, 60)
    case Beans => Ge(n, 30) && Ge(p, 30) && Ge(k, 30) && Le(n, 60)
    case Beetroot => Ge(k, 50) && Ge(n, 30)
    case Ragi => Ge(n, 20) && Ge(p, 20) && Ge(k, 20) && Le(n, 50)
    case Kambu => Ge(n, 15) && Ge(p, 15) && Ge(k, 15)
    case Tapioca => Ge(k, 60)
    case SoilNeedsImprovement => true
  }

  /** `getCropSuggestion`: the if-cascade, first matching threshold wins. */
  function Suggest(n: Num, p: Num, k: Num): (c: Crop)
    ensures RuleHolds(c, n, p, k)
  {
    if Ge(n, 70) && Ge(k, 70) then Banana
    else if Ge(n, 40) && Ge(p, 30) && Ge(k, 40) then Turmeric
    else if Ge(p, 40) && Ge(k, 40) && Ge(n, 30) then Garlic
    else if Ge(n, 60) then Corn
    else if Ge(n, 30) && Ge(p, 30) && Ge(k, 30) && Le(n, 60) then Beans
    else if Ge(k, 50) && Ge(n, 30) then Beetroot
    else if Ge(n, 20) && Ge(p, 20) && Ge(k, 20) && Le(n, 50) then Ragi
    else if Ge(n, 15) && Ge(p, 15) && Ge(k, 15) then Kambu
    else if Ge(k, 60) then Tapioca
    else SoilNeedsImprovement
  }

  // ---------------------------------------------------------------------------
  // The same rules as an explicit decision table, used as the reference for
  // the cascade.

  /** The order in which the rules are tried. */
  const RuleOrder: seq<Crop> :=
    [Banana, Turmeric, Garlic, Corn, Beans, Beetroot, Ragi, Kambu, Tapioca, SoilNeedsImprovement]

  /** The first rule of `rules` that applies, if any. */
  function FirstMatch(rules: seq<Crop>, n: Num, p: Num, k: Num): (r: Option<Crop>)
    ensures r.Some? ==> r.value in rules && RuleHolds(r.value, n, p, k)
    ensures r.Some? ==> exists i :: 0 <= i < |rules| && rules[i] == r.value
                                  && forall j :: 0 <= j < i ==> !RuleHolds(rules[j], n, p, k)
    ensures r.None? <==> forall c :: c in rules ==> !RuleHolds(c, n, p, k)
  {
    if rules == [] then None
    else if RuleHolds(rules[0], n, p, k) then Some(rules[0])
    else
      var r := FirstMatch(rules[1..], n, p, k);
      if r.Some? then FirstAfterFailedHead(rules, r.value, n, p, k); r else r
  }

  /** A first match of the tail is a first match of the whole list when the head's rule fails. */
  lemma FirstAfterFailedHead(rules: seq<Crop>, c: Crop, n: Num, p: Num, k: Num)
    requires rules != [] && !RuleHolds(rules[0], n, p, k)
    requires exists i :: 0 <= i < |rules[1..]| && rules[1..][i] == c
                       && forall j :: 0 <= j < i ==> !RuleHolds(rules[1..][j], n, p, k)
    ensures exists i :: 0 <= i < |rules| && rules[i] == c
                      && forall j :: 0 <= j < i ==> !RuleHolds(rules[j], n, p, k)
  {
    var i :| 0 <= i < |rules[1..]| && rules[1..][i] == c
             && forall j :: 0 <= j < i ==> !RuleHolds(rules[1..][j], n, p, k);
    assert rules[i + 1] == c;
    assert forall j :: 1 <= j < i + 1 ==> rules[j] == rules[1..][j - 1];
  }

  /**
   * Position by position: the crop at position i of the table is the result
   * exactly when its rule holds and no earlier rule does.
   */
  lemma SuggestIff(n: Num, p: Num, k: Num, i: nat)
    requires i < |RuleOrder|
    ensures Suggest(n, p, k) == RuleOrder[i]
        <==> RuleHolds(RuleOrder[i], n, p, k) && forall j :: 0 <= j < i ==> !RuleHolds(RuleOrder[j], n, p, k)
  {
    var rs := RuleOrder;
    assert rs[0] == Banana && rs[1] == Turmeric && rs[2] == Garlic && rs[3] == Corn && rs[4] == Beans;
    assert rs[5] == Beetroot && rs[6] == Ragi && rs[7] == Kambu && rs[8] == Tapioca;
    assert rs[9] == SoilNeedsImprovement;
  }

  /**
   * The cascade is the first-match evaluation of the table; as the last rule
   * always applies, the cascade is total and returns exactly one crop.
   */
  lemma SuggestIsFirstMatch(n: Num, p: Num, k: Num)
    ensures FirstMatch(RuleOrder, n, p, k) == Some(Suggest(n, p, k))
  {
    var c := Suggest(n, p, k);
    assert c in RuleOrder by {
      assert RuleOrder[0] == Banana && RuleOrder[1] == Turmeric && RuleOrder[2] == Garlic;
      assert RuleOrder[3] == Corn && RuleOrder[4] == Beans && RuleOrder[5] == Beetroot;
      assert RuleOrder[6] == Ragi && RuleOrder[7] == Kambu && RuleOrder[8] == Tapioca;
      assert RuleOrder[9] == SoilNeedsImprovement;
    }
    var i :| 0 <= i < |RuleOrder| && RuleOrder[i] == c;
    SuggestIff(n, p, k, i);
    FirstHoldingIsFirstMatch(RuleOrder, i, n, p, k);
  }

  /** A rule that holds with no earlier rule holding is the first match. */
  lemma {:induction false} FirstHoldingIsFirstMatch(rules: seq<Crop>, i: nat, n: Num, p: Num, k: Num)
    requires i < |rules| && RuleHolds(rules[i], n, p, k)
    requires forall j :: 0 <= j < i ==> !RuleHolds(rules[j], n, p, k)
    ensures FirstMatch(rules, n, p, k) == Some(rules[i])
  {
    if i > 0 {
      assert !RuleHolds(rules[0], n, p, k);
      assert forall j :: 0 <= j < i - 1 ==> rules[1..][j] == rules[j + 1];
      FirstHoldingIsFirstMatch(rules[1..], i - 1, n, p, k);
    }
  }

  /** Rule 1 is tried first: high nitrogen and potassium give banana whatever the phosphorus. */
  lemma BananaWhateverPhosphorus(n: Num, p: Num, k: Num)
    requires Ge(n, 70) && Ge(k, 70)
    ensures Suggest(n, p, k) == Banana
  {
  }

  /** (45, 35, 45) meets the beans and ragi rules too, but turmeric comes first. */
  lemma TurmericBeforeBeansAndRagi()
    ensures RuleHolds(Beans, Some(45), Some(35), Some(45))
    ensures RuleHolds(Ragi, Some(45), Some(35), Some(45))
    ensures Suggest(Some(45), Some(35), Some(45)) == Turmeric
  {
  }

  /** Because corn (n >= 60) precedes beans, a beans result has 30 <= n < 60. */
  lemma BeansNitrogenRange(n: Num, p: Num, k: Num)
    ensures Suggest(n, p, k) == Beans ==> n.Some? && 30 <= n.value < 60
    ensures Suggest(Some(60), p, k) != Beans
  {
  }

  /** Low readings fall through every rule. */
  lemma LowReadingsNeedImprovement()
    ensures Suggest(Some(5), Some(5), Some(5)) == SoilNeedsImprovement
  {
  }

  /** A NaN nitrogen fails every rule that tests n: only tapioca (k alone) can still fire. */
  lemma NaNNitrogen(p: Num, k: Num)
    ensures Suggest(None, p, k) == if Ge(k, 60) then Tapioca else SoilNeedsImprovement
  {
  }

  /** A NaN potassium leaves only the corn rule (n alone) and the fallback. */
  lemma NaNPotassium(n: Num, p: Num)
    ensures Suggest(n, p, None) == if Ge(n, 60) then Corn else SoilNeedsImprovement
  {
  }

  /** A NaN phosphorus disables every rule that tests p. */
  lemma NaNPhosphorus(n: Num, k: Num)
    ensures Suggest(n, None, k) in {Banana, Corn, Beetroot, Tapioca, SoilNeedsImprovement}
  {
  }

  // ---------------------------------------------------------------------------
  // parseNPK

  /** Each comma token of `s`, trimmed and converted by `parseFloat`. */
  function Tokens(s: string, parseFloat: string -> Option<int>): (r: seq<Num>)
    ensures |r| == |Split(s, ',')|
    ensures forall i :: 0 <= i < |r| ==> r[i] == parseFloat(Trim(Split(s, ',')[i]))
  {
    var parts := Split(s, ',');
    seq(|parts|, i requires 0 <= i < |parts| => parseFloat(Trim(parts[i])))
  }

  /** `values[i] ?? 0`: a missing position becomes 0, a NaN one stays NaN. */
  function SlotOrZero(values: seq<Num>, i: nat): Num {
    if i < |values| then values[i] else Some(0)
  }

  /** The i-th comma token of `s`, trimmed and converted, or 0 past the last token. */
  function TokenOrZero(s: string, i: nat, parseFloat: string -> Option<int>): Num {
    var parts := Split(s, ',');
    if i < |parts| then parseFloat(Trim(parts[i])) else Some(0)
  }

  /** `parseNPK`: the packed "N,P,K" field as exactly three numbers. */
  function ParseNpk(value: Option<string>, parseFloat: string -> Option<int>): (r: seq<Num>)
    ensures |r| == 3
    ensures value.None? || value == Some("") ==> r == [Some(0), Some(0), Some(0)]
    ensures value.Some? && value.value != "" ==>
      r == [TokenOrZero(value.value, 0, parseFloat), TokenOrZero(value.value, 1, parseFloat),
            TokenOrZero(value.value, 2, parseFloat)]
  {
    if value.None? || value.value == "" then [Some(0), Some(0), Some(0)]
    else
      var values := Tokens(value.value, parseFloat);
      [SlotOrZero(values, 0), SlotOrZero(values, 1), SlotOrZero(values, 2)]
  }

  /** Text after the third token does not change the parse. */
  lemma ParseNpkIgnoresExtraTokens(s: string, t: string, parseFloat: string -> Option<int>)
    requires |Split(s, ',')| >= 3
    ensures ParseNpk(Some(s + [','] + t), parseFloat) == ParseNpk(Some(s), parseFloat)
  {
    assert s != [];
    TokenOrZeroExtended(s, t, 0, parseFloat);
    TokenOrZeroExtended(s, t, 1, parseFloat);
    TokenOrZeroExtended(s, t, 2, parseFloat);
  }

  /** Text added after a further comma leaves the earlier slots alone. */
  lemma TokenOrZeroExtended(s: string, t: string, i: nat, parseFloat: string -> Option<int>)
    requires i < |Split(s, ',')|
    ensures TokenOrZero(s + [','] + t, i, parseFloat) == TokenOrZero(s, i, parseFloat)
  {
    SplitConcat(s, t, ',');
    var whole := Split(s + [','] + t, ',');
    assert whole[i] == Split(s, ',')[i];
  }

  /**
   * `??` replaces only a missing position: past the last token a slot is 0,
   * but a token `parseFloat` cannot read stays NaN.
   */
  lemma NullishFallbackOnly(s: string, i: nat, parseFloat: string -> Option<int>)
    requires s != [] && i < 3
    ensures i >= |Split(s, ',')| ==> ParseNpk(Some(s), parseFloat)[i] == Some(0)
    ensures i < |Split(s, ',')| && parseFloat(Trim(Split(s, ',')[i])).None? ==>
      ParseNpk(Some(s), parseFloat)[i].None?
  {
    var npk := ParseNpk(Some(s), parseFloat);
    if i == 0 {
      assert npk[0] == TokenOrZero(s, 0, parseFloat);
    } else if i == 1 {
      assert npk[1] == TokenOrZero(s, 1, parseFloat);
    } else {
      assert npk[2] == TokenOrZero(s, 2, parseFloat);
    }
  }

  /** A token without outer white space converts as it stands. */
  lemma TokenOrZeroAt(s: string, i: nat, t: string, parseFloat: string -> Option<int>)
    requires i < |Split(s, ',')| && Split(s, ',')[i] == t
    requires NoOuterSpace(t)
    ensures TokenOrZero(s, i, parseFloat) == parseFloat(t)
  {
    TrimOfTrimmed(t);
  }

  /** A field of exactly three tokens without outer white space parses token by token. */
  lemma ParseNpkThreeTokens(s: string, a: string, b: string, c: string, parseFloat: string -> Option<int>)
    requires s != [] && Split(s, ',') == [a, b, c]
    requires NoOuterSpace(a) && NoOuterSpace(b) && NoOuterSpace(c)
    ensures ParseNpk(Some(s), parseFloat) == [parseFloat(a), parseFloat(b), parseFloat(c)]
  {
    TokenOrZeroAt(s, 0, a, parseFloat);
    TokenOrZeroAt(s, 1, b, parseFloat);
    TokenOrZeroAt(s, 2, c, parseFloat);
  }

  /**
   * Round trip: three values written out by any renderer that `parseFloat`
   * reads back, and that produces neither commas nor surrounding white space,
   * parse back to themselves.
   */
  lemma {:induction false} ParseNpkRoundTrip(show: int -> string, parseFloat: string -> Option<int>,
                                            n: int, p: int, k: int)
    requires forall x :: parseFloat(show(x)) == Some(x)
    requires forall x :: ',' !in show(x) && NoOuterSpace(show(x))
    ensures ParseNpk(Some(Join([show(n), show(p), show(k)], ',')), parseFloat) == [Some(n), Some(p), Some(k)]
  {
    var parts := [show(n), show(p), show(k)];
    assert ',' !in parts[0] && ',' !in parts[1] && ',' !in parts[2];
    SplitJoin(parts, ',');
    assert Join(parts, ',') == show(n) + [','] + Join(parts[1..], ',');
    ParseNpkThreeTokens(Join(parts, ','), show(n), show(p), show(k), parseFloat);
  }

  // ---------------------------------------------------------------------------
  // NPKCard

  /** `Math.min(value, 100)`, the bar width in percent; NaN stays NaN. */
  function BarWidth(value: Num): (w: Num)
    ensures w.Some? <==> value.Some?
    ensures w.Some? ==> w.value <= 100 && w.value <= value.value
    ensures w.Some? ==> w.value == value.value || w.value == 100
  {
    match value
    case None => None
    case Some(v) => Some(if v < 100 then v else 100)
  }

  // ---------------------------------------------------------------------------
  // fetchNPK

  /** One record of the NPK channel. */
  datatype NpkFeed = NpkFeed(field3: Option<string>, createdAt: string)

  /** The panel's four state values. */
  class NpkPanel {
    var nitrogen: Num
    var phosphorus: Num
    var potassium: Num
    /** `None` is the initial empty text, before the first successful poll. */
    var recommendedCrop: Option<Crop>

    /** The displayed crop, once there is one, is the suggestion for the displayed values. */
    ghost predicate Valid()
      reads this
    {
      recommendedCrop.Some? ==> recommendedCrop.value == Suggest(nitrogen, phosphorus, potassium)
    }

    constructor ()
      ensures Valid()
      ensures nitrogen == Some(0) && phosphorus == Some(0) && potassium == Some(0)
      ensures recommendedCrop == None
    {
      nitrogen, phosphorus, potassium := Some(0), Some(0), Some(0);
      recommendedCrop := None;
    }

    /** One poll: the latest record, if any, replaces all four values together. */
    method FetchNpk(response: Read<NpkFeed>, parseFloat: string -> Option<int>)
      requires Valid()
      modifies this
      ensures Valid()
      ensures Latest(response).Some? ==>
        [nitrogen, phosphorus, potassium] == ParseNpk(Latest(response).value.field3, parseFloat)
        && recommendedCrop == Some(Suggest(nitrogen, phosphorus, potassium))
      ensures Latest(response).None? ==>
        nitrogen == old(nitrogen) && phosphorus == old(phosphorus)
        && potassium == old(potassium) && recommendedCrop == old(recommendedCrop)
    {
      var latest := Latest(response);
      if latest.Some? {
        var values := ParseNpk(latest.value.field3, parseFloat);
        var n, p, k := values[0], values[1], values[2];
        nitrogen := n;
        phosphorus := p;
        potassium := k;
        recommendedCrop := Some(Suggest(n, p, k));
      }
    }
  }
}
