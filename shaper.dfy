/**
 * The asset shaper: `get_all_assets` in app.py and the high-risk KPI of the
 * dashboard's index page.
 *
 * The data provider (`model_data`) is an input value: the id universe `I` as a
 * sequence and every per-id table (`HI`, `TYPE`, `SAIDI`, `SAIFI`, `C`, `K`) as
 * a map, so that a missing entry is a key outside the map.
 */
module AssetShaper {
  import opened Numeric

  /** The three risk labels: "Yüksek" (high), "Orta" (medium), "Düşük" (low). */
  datatype RiskLabel = High | Medium | Low

  function RiskLabelText(r: RiskLabel): string {
    match r
    case High => "Yüksek"
    case Medium => "Orta"
    case Low => "Düşük"
  }

  /** The three label texts are distinct, so comparing texts is comparing labels. */
  lemma RiskLabelTextInjective(r1: RiskLabel, r2: RiskLabel)
    ensures RiskLabelText(r1) == RiskLabelText(r2) <==> r1 == r2
  {
    if r1 != r2 {
      assert RiskLabelText(r1)[0] != RiskLabelText(r2)[0] || |RiskLabelText(r1)| != |RiskLabelText(r2)|;
    }
  }

  /** Ceiling of the raw health index; health_ui is the raw value as a percentage of it. */
  const MaxHealthIndex: real := 10000.0
  /** health_ui below this is high risk. */
  const HighRiskBelow: real := 40.0
  /** health_ui below this (and not high risk) is medium risk. */
  const MediumRiskBelow: real := 70.0
  /** Group of an asset with no TYPE entry. */
  const DefaultGroup: string := "Genel"
  /** Every asset is taken as an investment candidate ("Yatırım"). */
  const InvestmentOperation: string := "Yatırım"
  const RequestPrefix: string := "T-"
  const RequestBase: int := 1000

  /** The external data provider: the id universe and the per-id lookup tables. */
  datatype DataSource = DataSource(
    ids: seq<int>,                // I
    healthIndex: map<int, real>,  // HI
    assetType: map<int, string>,  // TYPE
    saidi: map<int, real>,        // SAIDI
    saifi: map<int, real>,        // SAIFI
    cost: map<int, real>,         // C
    category: map<int, int>)      // K

  /** One shaped asset record. */
  datatype Asset = Asset(
    id: int,
    requestNo: string,       // talep_no
    saidi: real,
    saifi: real,
    cost: real,
    group: string,
    categoryPublic: bool,
    rawHealth: real,
    healthUi: real,
    riskLabel: RiskLabel,
    operationType: string)

  /** `m.get(i, default)`. */
  function Lookup<V>(m: map<int, V>, i: int, default: V): (v: V)
    ensures i in m ==> v == m[i]
    ensures i !in m ==> v == default
  {
    if i in m then m[i] else default
  }

  /** health_ui: the raw health as a percentage of MaxHealthIndex, rounded to one decimal. */
  function HealthUi(rawHealth: real): (h: real)
    ensures 0.0 <= rawHealth <= MaxHealthIndex ==> 0.0 <= h <= 100.0
    ensures rawHealth / 100.0 - 0.05 <= h <= rawHealth / 100.0 + 0.05
  {
    var h := RoundTo(rawHealth / MaxHealthIndex * 100.0, 1);
    assert Pow10(1) == 10;
    if 0.0 <= rawHealth <= MaxHealthIndex then
      // The unrounded value lies in [0, 100]; rounding to the nearest tenth
      // cannot leave that range because both ends are multiples of a tenth.
      HealthUiInRange(rawHealth);
      h
    else
      h
  }

  lemma HealthUiInRange(rawHealth: real)
    requires 0.0 <= rawHealth <= MaxHealthIndex
    ensures 0.0 <= RoundTo(rawHealth / MaxHealthIndex * 100.0, 1) <= 100.0
  {
    var y := rawHealth / MaxHealthIndex * 100.0 * 10.0;
    assert Pow10(1) == 10;
    var n := RoundHalfEven(y);
    assert 0.0 <= y <= 1000.0;
    assert 0 <= n <= 1000;
  }

  /** The risk label of a health_ui value, from the fixed cutoffs 40 and 70. */
  function RiskLabelOf(healthUi: real): (r: RiskLabel)
    ensures r == High <==> healthUi < HighRiskBelow
    ensures r == Medium <==> HighRiskBelow <= healthUi < MediumRiskBelow
    ensures r == Low <==> MediumRiskBelow <= healthUi
  {
    if healthUi < HighRiskBelow then High
    else if healthUi < MediumRiskBelow then Medium
    else Low
  }

  /** How severe a label is: High above Medium above Low. */
  function Severity(r: RiskLabel): nat {
    match r
    case High => 2
    case Medium => 1
    case Low => 0
  }

  /** Worse health never gets a milder label. */
  lemma RiskLabelMonotone(h1: real, h2: real)
    requires h1 <= h2
    ensures Severity(RiskLabelOf(h1)) >= Severity(RiskLabelOf(h2))
  {
  }

  /** talep_no: "T-" followed by 1000 + id in decimal. */
  function RequestNumber(id: int): (s: string)
    ensures |s| > |RequestPrefix| && s[..|RequestPrefix|] == RequestPrefix
  {
    RequestPrefix + IntToDecimal(RequestBase + id)
  }

  /**
   * What follows "T-" is `str(1000 + id)`: the digits of 1000 + id with no
   * leading zero, after a minus sign when 1000 + id is negative.
   */
  lemma RequestNumberDigits(id: int)
    ensures RequestBase + id >= 0 ==>
      var digits := RequestNumber(id)[|RequestPrefix|..];
      IsDigits(digits) && DecimalValue(digits) == RequestBase + id
    ensures RequestBase + id < 0 ==>
      var digits := RequestNumber(id)[|RequestPrefix| + 1..];
      RequestNumber(id)[|RequestPrefix|] == '-' && IsDigits(digits) && DecimalValue(digits) == -(RequestBase + id)
    ensures RequestBase + id == 0 ==> RequestNumber(id) == RequestPrefix + "0"
    ensures RequestBase + id > 0 ==> RequestNumber(id)[|RequestPrefix|] != '0'
    ensures RequestBase + id < 0 ==>
      |RequestNumber(id)| > |RequestPrefix| + 1 && RequestNumber(id)[|RequestPrefix| + 1] != '0'
  {
    IntToDecimalDigits(RequestBase + id);
    var n := IntToDecimal(RequestBase + id);
    var s := RequestNumber(id);
    assert s[|RequestPrefix|..] == n;
    assert s[|RequestPrefix| + 1..] == n[1..];
  }

  /** Distinct ids get distinct request numbers. */
  lemma RequestNumberInjective(i: int, j: int)
    ensures RequestNumber(i) == RequestNumber(j) ==> i == j
  {
    if RequestNumber(i) == RequestNumber(j) {
      assert IntToDecimal(RequestBase + i) == RequestNumber(i)[|RequestPrefix|..];
      assert IntToDecimal(RequestBase + j) == RequestNumber(j)[|RequestPrefix|..];
      IntToDecimalInjective(RequestBase + i, RequestBase + j);
    }
  }

  /** The record built for one id: every lookup that is missing takes its default. */
  function ShapeAsset(src: DataSource, i: int): (a: Asset)
    ensures a.id == i && a.requestNo == RequestNumber(i)
    ensures a.operationType == InvestmentOperation
    ensures a.healthUi == HealthUi(a.rawHealth) && a.riskLabel == RiskLabelOf(a.healthUi)
    ensures i in src.healthIndex ==> a.rawHealth == src.healthIndex[i]
    ensures i !in src.healthIndex ==> a.rawHealth == 0.0 && a.healthUi == 0.0 && a.riskLabel == High
    ensures i in src.assetType ==> a.group == src.assetType[i]
    ensures i !in src.assetType ==> a.group == DefaultGroup
    ensures i in src.saidi ==> a.saidi == src.saidi[i]
    ensures i !in src.saidi ==> a.saidi == 0.0
    ensures i in src.saifi ==> a.saifi == src.saifi[i]
    ensures i !in src.saifi ==> a.saifi == 0.0
    ensures i in src.cost ==> a.cost == src.cost[i]
    ensures i !in src.cost ==> a.cost == 0.0
    ensures a.categoryPublic <==> i in src.category && src.category[i] == 1
    ensures 0.0 <= a.rawHealth <= MaxHealthIndex ==> 0.0 <= a.healthUi <= 100.0
  {
    var rawHealth := Lookup(src.healthIndex, i, 0.0);
    var healthUi := HealthUi(rawHealth);
    RoundZero(1);
    Asset(
      id := i,
      requestNo := RequestNumber(i),
      saidi := Lookup(src.saidi, i, 0.0),
      saifi := Lookup(src.saifi, i, 0.0),
      cost := Lookup(src.cost, i, 0.0),
      group := Lookup(src.assetType, i, DefaultGroup),
      categoryPublic := Lookup(src.category, i, 0) == 1,
      rawHealth := rawHealth,
      healthUi := healthUi,
      riskLabel := RiskLabelOf(healthUi),
      operationType := InvestmentOperation)
  }

  /** The shaped list: one record per id of the universe, in its order. */
  function Shape(src: DataSource): (assets: seq<Asset>)
    ensures |assets| == |src.ids|
    ensures forall k :: 0 <= k < |assets| ==> assets[k] == ShapeAsset(src, src.ids[k])
    ensures forall k :: 0 <= k < |assets| ==> assets[k].id == src.ids[k]
  {
    seq(|src.ids|, k requires 0 <= k < |src.ids| => ShapeAsset(src, src.ids[k]))
  }

  /** `get_all_assets`: append one shaped record per id, in order. */
  method GetAllAssets(src: DataSource) returns (assets: seq<Asset>)
    ensures assets == Shape(src)
    ensures |assets| == |src.ids|
    ensures forall k :: 0 <= k < |assets| ==> assets[k].id == src.ids[k]
  {
    assets := [];
    for n := 0 to |src.ids|
      invariant |assets| == n
      invariant forall k :: 0 <= k < n ==> assets[k] == ShapeAsset(src, src.ids[k])
    {
      var asset := ShapeAsset(src, src.ids[n]);
      assets := assets + [asset];
    }
  }

  /** The index page's high_risk_count: how many assets are labelled High. */
  function HighRiskCount(assets: seq<Asset>): (n: nat)
    ensures n <= |assets|
    ensures n == 0 <==> forall k :: 0 <= k < |assets| ==> assets[k].riskLabel != High
    ensures n == |assets| <==> forall k :: 0 <= k < |assets| ==> assets[k].riskLabel == High
  {
    if assets == [] then 0
    else HighRiskCount(assets[1..]) + (if assets[0].riskLabel == High then 1 else 0)
  }

  /** The count over a list split in two is the sum of the counts of the parts. */
  lemma {:induction false} HighRiskCountAppend(xs: seq<Asset>, ys: seq<Asset>)
    ensures HighRiskCount(xs + ys) == HighRiskCount(xs) + HighRiskCount(ys)
  {
    if xs == [] {
      assert xs + ys == ys;
    } else {
      assert (xs + ys)[1..] == xs[1..] + ys;
      HighRiskCountAppend(xs[1..], ys);
    }
  }

  /** An id missing from the health table always counts as high risk. */
  lemma MissingHealthIsHighRisk(src: DataSource)
    requires forall i :: i in src.ids ==> i !in src.healthIndex
    ensures HighRiskCount(Shape(src)) == |src.ids|
  {
    var assets := Shape(src);
    forall k | 0 <= k < |assets| ensures assets[k].riskLabel == High {
      assert src.ids[k] in src.ids;
    }
  }
}
