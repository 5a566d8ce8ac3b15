/** The rule-based part of src/services/tradingService.js: the keyword
    classifiers, take-profit numbering and notes over the matches of the
    extraction patterns, the risk/reward guards, the validation of an
    analysis, the plan-rule lists, and the analysis cache with its
    time-to-live.

    A regular expression of the source is represented by what it captured
    (`None` when it did not match); `extractPrices` (float parsing) is a
    function parameter; prices are reals and `toFixed` rounding is not
    applied. */
module Trading {
  import opened Wrappers
  import opened JsString

  // ---------------------------------------------------------------------
  // The analysis record

  datatype Direction = Buy | Sell | UnknownDirection
  datatype Confidence = High | Medium | Low
  datatype LiquidityType = EqualHigh | EqualLow | LiquiditySweep | General

  /** `entryZone`: `price` is `prices[0] || null`, `zone` all prices found. */
  datatype EntryZone = EntryZone(direction: Direction, price: Option<real>, zone: seq<real>, description: string)
  datatype StopLoss = StopLoss(price: Option<real>, description: string)
  datatype Target = Target(level: nat, price: real, description: string)
  datatype RiskReward = RiskReward(ratio: real, risk: real, reward: real, isAcceptable: bool)
  datatype OrderBlock = OrderBlock(supply: bool, zone: seq<real>, description: string)

  datatype Analysis = Analysis(
    entryZone: Option<EntryZone>,
    stopLoss: Option<StopLoss>,
    takeProfit: Option<seq<Target>>,
    riskReward: Option<RiskReward>,
    orderBlocks: seq<OrderBlock>)

  /** `minRiskReward`. */
  const MinRiskReward: real := 1.2

  /** A JavaScript number is truthy unless it is 0 (NaN does not arise
      from the price patterns); `null` and `undefined` are `None`. */
  predicate Truthy(x: Option<real>) {
    x.Some? && x.value != 0.0
  }

  // ---------------------------------------------------------------------
  // Keyword classifiers

  /** Some keyword occurs in `text`. */
  predicate AnyIn(text: string, keywords: seq<string>) {
    exists i :: 0 <= i < |keywords| && Contains(text, keywords[i])
  }

  const BuyWords: seq<string> := ["buy", "long", "beli"]
  const SellWords: seq<string> := ["sell", "short", "jual"]
  const EqualHighWords: seq<string> := ["equal high", "eqh"]
  const EqualLowWords: seq<string> := ["equal low", "eql"]
  const SweepWords: seq<string> := ["sweep", "raid"]
  const StrongWords: seq<string> := ["strong", "kuat", "yakin"]
  const WeakWords: seq<string> := ["weak", "lemah", "hati-hati"]

  /** `determineTradeDirection`: a buy word wins over a sell word; with
      neither the direction is unknown. */
  function DetermineTradeDirection(text: string): (d: Direction)
    ensures d == Buy <==> AnyIn(ToLower(text), BuyWords)
    ensures d == Sell <==> !AnyIn(ToLower(text), BuyWords) && AnyIn(ToLower(text), SellWords)
    ensures d == UnknownDirection <==> !AnyIn(ToLower(text), BuyWords) && !AnyIn(ToLower(text), SellWords)
  {
    var lower := ToLower(text);
    if AnyIn(lower, BuyWords) then Buy
    else if AnyIn(lower, SellWords) then Sell
    else UnknownDirection
  }

  /** `determineLiquidityType`: equal highs, then equal lows, then sweeps,
      otherwise general. */
  function DetermineLiquidityType(text: string): (t: LiquidityType)
    ensures t == EqualHigh <==> AnyIn(ToLower(text), EqualHighWords)
    ensures t == EqualLow <==> !AnyIn(ToLower(text), EqualHighWords) && AnyIn(ToLower(text), EqualLowWords)
    ensures t == LiquiditySweep <==>
      !AnyIn(ToLower(text), EqualHighWords) && !AnyIn(ToLower(text), EqualLowWords) && AnyIn(ToLower(text), SweepWords)
    ensures t == General <==>
      !AnyIn(ToLower(text), EqualHighWords) && !AnyIn(ToLower(text), EqualLowWords) && !AnyIn(ToLower(text), SweepWords)
  {
    var lower := ToLower(text);
    if AnyIn(lower, EqualHighWords) then EqualHigh
    else if AnyIn(lower, EqualLowWords) then EqualLow
    else if AnyIn(lower, SweepWords) then LiquiditySweep
    else General
  }

  /** `extractConfidenceFromText`: strong words before weak ones; never
      "medium" when either kind occurs. */
  function ExtractConfidenceFromText(text: string): (c: Confidence)
    ensures c == High <==> AnyIn(ToLower(text), StrongWords)
    ensures c == Low <==> !AnyIn(ToLower(text), StrongWords) && AnyIn(ToLower(text), WeakWords)
    ensures c == Medium <==> !AnyIn(ToLower(text), StrongWords) && !AnyIn(ToLower(text), WeakWords)
  {
    var lower := ToLower(text);
    if AnyIn(lower, StrongWords) then High
    else if AnyIn(lower, WeakWords) then Low
    else Medium
  }

  /** The keyword table of `extractConfidence`, in the order it is tried. */
  function ConfidenceKeywords(): seq<(Confidence, seq<string>)> {
    [ (High, ["sangat yakin", "confident", "strong", "tinggi", "kuat"]),
      (Medium, ["cukup yakin", "moderate", "sedang", "possible"]),
      (Low, ["kurang yakin", "weak", "rendah", "perlu konfirmasi", "hati-hati"]) ]
  }

  /** The first level of `table` from position `from` on with a keyword in
      `lower`, or "medium". */
  function FirstLevel(lower: string, table: seq<(Confidence, seq<string>)>, from: nat): (c: Confidence)
    requires from <= |table|
    decreases |table| - from
  {
    if from == |table| then Medium
    else if AnyIn(lower, table[from].1) then table[from].0
    else FirstLevel(lower, table, from + 1)
  }

  /** `extractConfidence`: the levels are tried in table order and the
      first with a keyword in the text wins; "medium" by default. */
  method ExtractConfidence(text: string) returns (c: Confidence)
    ensures c == FirstLevel(ToLower(text), ConfidenceKeywords(), 0)
    ensures AnyIn(ToLower(text), ConfidenceKeywords()[0].1) ==> c == High
  {
    var lowerText := ToLower(text);
    var table := ConfidenceKeywords();
    var i := 0;
    while i < |table|
      invariant 0 <= i <= |table|
      invariant FirstLevel(lowerText, table, 0) == FirstLevel(lowerText, table, i)
    {
      var keywords := table[i].1;
      var j := 0;
      while j < |keywords|
        invariant 0 <= j <= |keywords|
        invariant forall k :: 0 <= k < j ==> !Contains(lowerText, keywords[k])
      {
        if Contains(lowerText, keywords[j]) {
          return table[i].0;
        }
        j := j + 1;
      }
      i := i + 1;
    }
    c := Medium;
  }

  /** Once one of `keywords` occurs in a lower-cased text, it still does
      after more text is appended. */
  lemma AnyInAppend(t: string, u: string, keywords: seq<string>)
    requires AnyIn(ToLower(t), keywords)
    ensures AnyIn(ToLower(t + u), keywords)
  {
    var i :| 0 <= i < |keywords| && Contains(ToLower(t), keywords[i]);
    ToLowerAppend(t, u);
    ContainsAppend(ToLower(t), ToLower(u), keywords[i]);
  }

  /** The classifiers read text case-insensitively. */
  lemma ClassifiersIgnoreCase(text: string)
    ensures DetermineTradeDirection(ToLower(text)) == DetermineTradeDirection(text)
    ensures DetermineLiquidityType(ToLower(text)) == DetermineLiquidityType(text)
    ensures ExtractConfidenceFromText(ToLower(text)) == ExtractConfidenceFromText(text)
  {
    ToLowerIdempotent(text);
  }

  /** The top-priority answer is final: more text can never take it back. */
  lemma TopPriorityIsFinal(t: string, u: string)
    ensures DetermineTradeDirection(t) == Buy ==> DetermineTradeDirection(t + u) == Buy
    ensures DetermineLiquidityType(t) == EqualHigh ==> DetermineLiquidityType(t + u) == EqualHigh
    ensures ExtractConfidenceFromText(t) == High ==> ExtractConfidenceFromText(t + u) == High
  {
    if DetermineTradeDirection(t) == Buy {
      AnyInAppend(t, u, BuyWords);
    }
    if DetermineLiquidityType(t) == EqualHigh {
      AnyInAppend(t, u, EqualHighWords);
    }
    if ExtractConfidenceFromText(t) == High {
      AnyInAppend(t, u, StrongWords);
    }
  }

  /** `extractConfidenceFromText` reads a doubtful "kurang yakin" ("not
      quite sure") as high confidence, because it contains "yakin". */
  lemma DoubtReadAsHigh(text: string)
    requires Contains(ToLower(text), "kurang yakin")
    ensures ExtractConfidenceFromText(text) == High
    ensures !AnyIn(ToLower(text), ConfidenceKeywords()[0].1) && !AnyIn(ToLower(text), ConfidenceKeywords()[1].1)
            ==> FirstLevel(ToLower(text), ConfidenceKeywords(), 0) == Low
  {
    assert Contains(ToLower(text), ConfidenceKeywords()[2].1[0]);
    assert "kurang yakin"[7..7 + |"yakin"|] == "yakin";
    ContainsAt("kurang yakin", "yakin", 7);
    ContainsTrans(ToLower(text), "kurang yakin", "yakin");
    assert Contains(ToLower(text), StrongWords[2]);
  }

  // ---------------------------------------------------------------------
  // Risk and reward

  /** `entryZone.price || entryZone.zone?.[0]`. */
  function EntryPrice(entry: EntryZone): Option<real> {
    if Truthy(entry.price) then entry.price
    else if entry.zone != [] then Some(entry.zone[0])
    else None
  }

  /** `takeProfit[0]?.price`. */
  function FirstTargetPrice(targets: seq<Target>): Option<real> {
    if targets == [] then None else Some(targets[0].price)
  }

  function Abs(x: real): real {
    if x < 0.0 then -x else x
  }

  /** `calculateRiskReward`: nothing when a part is missing, a price is
      missing or zero, or the entry equals the stop loss (risk 0); otherwise
      risk, reward, their ratio, and whether the ratio is acceptable. */
  function CalculateRiskReward(entry: Option<EntryZone>, stopLoss: Option<StopLoss>, takeProfit: Option<seq<Target>>): (r: Option<RiskReward>)
    ensures entry.None? || stopLoss.None? || takeProfit.None? ==> r.None?
    ensures r.Some? <==>
      && entry.Some? && stopLoss.Some? && takeProfit.Some?
      && Truthy(EntryPrice(entry.value)) && Truthy(stopLoss.value.price) && Truthy(FirstTargetPrice(takeProfit.value))
      && EntryPrice(entry.value).value != stopLoss.value.price.value
    ensures r.Some? ==>
      var e, sl, tp := EntryPrice(entry.value).value, stopLoss.value.price.value, FirstTargetPrice(takeProfit.value).value;
      && r.value.risk == Abs(e - sl) > 0.0
      && r.value.reward == Abs(tp - e)
      && r.value.ratio * r.value.risk == r.value.reward
      && (r.value.isAcceptable <==> r.value.ratio >= MinRiskReward)
  {
    if entry.None? || stopLoss.None? || takeProfit.None? then None
    else
      var entryPrice := EntryPrice(entry.value);
      var slPrice := stopLoss.value.price;
      var tpPrice := FirstTargetPrice(takeProfit.value);
      if !Truthy(entryPrice) || !Truthy(slPrice) || !Truthy(tpPrice) then None
      else
        var risk := Abs(entryPrice.value - slPrice.value);
        var reward := Abs(tpPrice.value - entryPrice.value);
        if risk == 0.0 then None
        else
          var ratio := reward / risk;
          Some(RiskReward(ratio, risk, reward, ratio >= MinRiskReward))
  }

  /** A long setup (stop below entry, target above) is acceptable exactly
      when the distance to the target is at least 1.2 times the distance to
      the stop. */
  lemma LongSetupAcceptance(entry: EntryZone, stopLoss: StopLoss, targets: seq<Target>)
    requires Truthy(EntryPrice(entry)) && Truthy(stopLoss.price) && Truthy(FirstTargetPrice(targets))
    requires stopLoss.price.value < EntryPrice(entry).value < FirstTargetPrice(targets).value
    ensures CalculateRiskReward(Some(entry), Some(stopLoss), Some(targets)).Some?
    ensures CalculateRiskReward(Some(entry), Some(stopLoss), Some(targets)).value.isAcceptable <==>
      FirstTargetPrice(targets).value - EntryPrice(entry).value
        >= MinRiskReward * (EntryPrice(entry).value - stopLoss.price.value)
  {
    var r := CalculateRiskReward(Some(entry), Some(stopLoss), Some(targets)).value;
    var e, sl, tp := EntryPrice(entry).value, stopLoss.price.value, FirstTargetPrice(targets).value;
    assert r.risk == e - sl && r.reward == tp - e;
    RatioThreshold(r.ratio, e - sl, tp - e, MinRiskReward);
  }

  /** With a positive risk, comparing the ratio and comparing the reward
      against the scaled risk agree. */
  lemma RatioThreshold(ratio: real, risk: real, reward: real, m: real)
    requires risk > 0.0 && ratio * risk == reward
    ensures ratio >= m <==> reward >= m * risk
  {
    if ratio >= m {
      if ratio > m {
        PositiveProduct(ratio - m, risk);
      }
    } else {
      PositiveProduct(m - ratio, risk);
    }
  }

  lemma PositiveProduct(x: real, y: real)
    requires x > 0.0 && y > 0.0
    ensures x * y > 0.0
  {
  }

  // ---------------------------------------------------------------------
  // Validation

  /** The entries of `errors`, in the order they are checked. */
  datatype ValidationError =
    | MissingEntry | MissingStopLoss | MissingTakeProfit
    | RatioBelowMinimum(ratio: real) | EntryEqualsStopLoss

  /** The message the source pushes for each error; the ratio is printed
      by `showNumber`. */
  function Message(e: ValidationError, showNumber: real -> string): string {
    match e
    case MissingEntry => "Entry zone not identified"
    case MissingStopLoss => "Stop loss not specified"
    case MissingTakeProfit => "Take profit not specified"
    case RatioBelowMinimum(ratio) => "Risk:Reward ratio " + showNumber(ratio) + " below minimum 1.2"
    case EntryEqualsStopLoss => "Entry and stop loss prices are the same"
  }

  /** The position of each error in the checking order. */
  function Rank(e: ValidationError): nat {
    match e
    case MissingEntry => 0
    case MissingStopLoss => 1
    case MissingTakeProfit => 2
    case RatioBelowMinimum(_) => 3
    case EntryEqualsStopLoss => 4
  }

  datatype Validation = Validation(isValid: bool, errors: seq<ValidationError>)

  /** The equality check: both prices present and non-zero, and equal. */
  predicate PricesClash(a: Analysis) {
    && a.entryZone.Some? && Truthy(a.entryZone.value.price)
    && a.stopLoss.Some? && Truthy(a.stopLoss.value.price)
    && a.entryZone.value.price.value == a.stopLoss.value.price.value
  }

  predicate RatioTooLow(a: Analysis) {
    a.riskReward.Some? && a.riskReward.value.ratio < MinRiskReward
  }

  function ReportedRatio(a: Analysis): real {
    if a.riskReward.Some? then a.riskReward.value.ratio else 0.0
  }

  /** Whether check number `k` (in the order of `Rank`) fails. */
  predicate Fails(a: Analysis, k: nat)
    requires k < 5
  {
    if k == 0 then a.entryZone.None?
    else if k == 1 then a.stopLoss.None?
    else if k == 2 then a.takeProfit.None?
    else if k == 3 then RatioTooLow(a)
    else PricesClash(a)
  }

  /** The error check number `k` reports. */
  function ErrorOf(a: Analysis, k: nat): (e: ValidationError)
    requires k < 5
    ensures Rank(e) == k
  {
    if k == 0 then MissingEntry
    else if k == 1 then MissingStopLoss
    else if k == 2 then MissingTakeProfit
    else if k == 3 then RatioBelowMinimum(ReportedRatio(a))
    else EntryEqualsStopLoss
  }

  /** Errors listed in strictly increasing checking order. */
  predicate Ranked(errors: seq<ValidationError>) {
    forall i, j :: 0 <= i < j < |errors| ==> Rank(errors[i]) < Rank(errors[j])
  }

  /** The errors of checks `k` to 4, pushed in order. Each error is there
      exactly when its check fails, and they come in checking order. */
  function ChecksFrom(a: Analysis, k: nat): (errors: seq<ValidationError>)
    requires k <= 5
    decreases 5 - k
    ensures forall e :: e in errors ==> k <= Rank(e) < 5 && e == ErrorOf(a, Rank(e)) && Fails(a, Rank(e))
    ensures forall j :: k <= j < 5 && Fails(a, j) ==> ErrorOf(a, j) in errors
    ensures Ranked(errors)
  {
    if k == 5 then []
    else if Fails(a, k) then [ErrorOf(a, k)] + ChecksFrom(a, k + 1)
    else ChecksFrom(a, k + 1)
  }

  /** `validateAnalysis`: one error per failed check, in checking order,
      and valid exactly when there is no error. */
  function ValidateAnalysis(a: Analysis): (v: Validation)
    ensures v.isValid <==> v.errors == []
    ensures MissingEntry in v.errors <==> a.entryZone.None?
    ensures MissingStopLoss in v.errors <==> a.stopLoss.None?
    ensures MissingTakeProfit in v.errors <==> a.takeProfit.None?
    ensures RatioBelowMinimum(ReportedRatio(a)) in v.errors <==> RatioTooLow(a)
    ensures forall e :: e in v.errors && e.RatioBelowMinimum? ==> a.riskReward.Some? && e.ratio == a.riskReward.value.ratio
    ensures EntryEqualsStopLoss in v.errors <==> PricesClash(a)
    ensures Ranked(v.errors)
  {
    var errors := ChecksFrom(a, 0);
    assert ErrorOf(a, 0) == MissingEntry && ErrorOf(a, 1) == MissingStopLoss && ErrorOf(a, 2) == MissingTakeProfit;
    assert ErrorOf(a, 3) == RatioBelowMinimum(ReportedRatio(a)) && ErrorOf(a, 4) == EntryEqualsStopLoss;
    Validation(|errors| == 0, errors)
  }

  /** An analysis whose risk/reward is computed from its own entry, stop
      loss and targets, and is acceptable, passes validation. */
  lemma AcceptableAnalysisIsValid(a: Analysis)
    requires a.riskReward == CalculateRiskReward(a.entryZone, a.stopLoss, a.takeProfit)
    requires a.riskReward.Some? && a.riskReward.value.isAcceptable
    ensures ValidateAnalysis(a).isValid
  {
  }

  // ---------------------------------------------------------------------
  // Take profit and notes

  /** The targets read from one captured text: its prices, numbered from 1
      in the order `extractPrices` returns them, each described by the
      text. */
  function Numbered(description: string, prices: seq<real>): (ts: seq<Target>)
    ensures |ts| == |prices|
    ensures forall i :: 0 <= i < |ts| ==> ts[i] == Target(i + 1, prices[i], description)
  {
    seq(|prices|, i requires 0 <= i < |prices| => Target(i + 1, prices[i], description))
  }

  /** The targets contributed by one pattern: none when it did not match. */
  function PatternTargets(m: Option<string>, extractPrices: string -> seq<real>): seq<Target> {
    if m.None? then [] else Numbered(Trim(m.value), extractPrices(Trim(m.value)))
  }

  /** All targets after the patterns in `matches`, in pattern order. */
  function AllTargets(matches: seq<Option<string>>, extractPrices: string -> seq<real>): seq<Target>
    decreases |matches|
  {
    if matches == [] then []
    else AllTargets(matches[..|matches| - 1], extractPrices) + PatternTargets(matches[|matches| - 1], extractPrices)
  }

  /** `extractTakeProfit`: `matches` holds the capture of each pattern
      (`tp`, `take profit`, `target`) and `extractPrices` the price
      reading of a text. */
  method ExtractTakeProfit(matches: seq<Option<string>>, extractPrices: string -> seq<real>) returns (r: Option<seq<Target>>)
    ensures r.None? <==> AllTargets(matches, extractPrices) == []
    ensures r.Some? ==> r.value == AllTargets(matches, extractPrices)
  {
    var targets: seq<Target> := [];
    var i := 0;
    while i < |matches|
      invariant 0 <= i <= |matches|
      invariant targets == AllTargets(matches[..i], extractPrices)
    {
      assert matches[..i + 1][..i] == matches[..i];
      assert AllTargets(matches[..i + 1], extractPrices)
        == AllTargets(matches[..i], extractPrices) + PatternTargets(matches[i], extractPrices);
      if matches[i].Some? {
        var tpText := Trim(matches[i].value);
        targets := PushNumbered(targets, tpText, extractPrices(tpText));
      }
      i := i + 1;
    }
    assert matches[..i] == matches;
    r := if |targets| > 0 then Some(targets) else None;
  }

  /** The `prices.forEach` push loop of one pattern. */
  method PushNumbered(targets: seq<Target>, tpText: string, prices: seq<real>) returns (r: seq<Target>)
    ensures r == targets + Numbered(tpText, prices)
  {
    r := targets;
    var j := 0;
    while j < |prices|
      invariant 0 <= j <= |prices|
      invariant r == targets + Numbered(tpText, prices)[..j]
    {
      assert Numbered(tpText, prices)[..j + 1] == Numbered(tpText, prices)[..j] + [Target(j + 1, prices[j], tpText)];
      r := r + [Target(j + 1, prices[j], tpText)];
      j := j + 1;
    }
    assert Numbered(tpText, prices)[..j] == Numbered(tpText, prices);
  }

  /** Every target comes from some matched pattern: its description is that
      pattern's trimmed capture, and its level numbers its price among
      that capture's prices. */
  lemma TargetsNumbered(matches: seq<Option<string>>, extractPrices: string -> seq<real>, t: Target)
    requires t in AllTargets(matches, extractPrices)
    ensures exists i :: (0 <= i < |matches| && matches[i].Some? && t.description == Trim(matches[i].value)
      && 1 <= t.level <= |extractPrices(Trim(matches[i].value))|
      && t.price == extractPrices(Trim(matches[i].value))[t.level - 1])
  {
    var i := TargetSource(matches, extractPrices, t);
  }

  /** The pattern a target comes from. */
  lemma {:induction false} TargetSource(matches: seq<Option<string>>, extractPrices: string -> seq<real>, t: Target)
    returns (i: nat)
    requires t in AllTargets(matches, extractPrices)
    ensures i < |matches| && matches[i].Some? && t.description == Trim(matches[i].value)
    ensures 1 <= t.level <= |extractPrices(Trim(matches[i].value))|
    ensures t.price == extractPrices(Trim(matches[i].value))[t.level - 1]
    decreases |matches|
  {
    var init := matches[..|matches| - 1];
    var last := matches[|matches| - 1];
    assert AllTargets(matches, extractPrices) == AllTargets(init, extractPrices) + PatternTargets(last, extractPrices);
    if t in AllTargets(init, extractPrices) {
      i := TargetSource(init, extractPrices, t);
      assert matches[i] == init[i];
    } else {
      var ts := PatternTargets(last, extractPrices);
      assert t in ts;
      var k :| 0 <= k < |ts| && ts[k] == t;
      i := |matches| - 1;
    }
  }

  /** A single matching pattern numbers its prices 1, 2, … in order. */
  lemma OnePatternLevels(matches: seq<Option<string>>, extractPrices: string -> seq<real>, i: nat)
    requires i < |matches| && matches[i].Some?
    requires forall j :: 0 <= j < |matches| && j != i ==> matches[j].None?
    ensures AllTargets(matches, extractPrices) == Numbered(Trim(matches[i].value), extractPrices(Trim(matches[i].value)))
  {
    OnePatternOnly(matches, extractPrices, i);
  }

  lemma {:induction false} OnePatternOnly(matches: seq<Option<string>>, extractPrices: string -> seq<real>, i: nat)
    requires i < |matches|
    requires forall j :: 0 <= j < |matches| && j != i ==> matches[j].None?
    ensures AllTargets(matches, extractPrices) == PatternTargets(matches[i], extractPrices)
    decreases |matches|
  {
    var init, last := matches[..|matches| - 1], matches[|matches| - 1];
    assert AllTargets(matches, extractPrices) == AllTargets(init, extractPrices) + PatternTargets(last, extractPrices);
    if i == |matches| - 1 {
      assert forall j :: 0 <= j < |init| ==> init[j].None? by {
        forall j | 0 <= j < |init| ensures init[j].None? {
          assert init[j] == matches[j];
        }
      }
      NoneBefore(init, extractPrices);
    } else {
      assert last.None?;
      assert forall j :: 0 <= j < |init| && j != i ==> init[j].None? by {
        forall j | 0 <= j < |init| && j != i ensures init[j].None? {
          assert init[j] == matches[j];
        }
      }
      OnePatternOnly(init, extractPrices, i);
      assert init[i] == matches[i];
    }
  }

  lemma {:induction false} NoneBefore(matches: seq<Option<string>>, extractPrices: string -> seq<real>)
    requires forall j :: 0 <= j < |matches| ==> matches[j].None?
    ensures AllTargets(matches, extractPrices) == []
    decreases |matches|
  {
    if matches != [] {
      NoneBefore(matches[..|matches| - 1], extractPrices);
    }
  }

  lemma {:induction false} AllTargetsAppend(xs: seq<Option<string>>, ys: seq<Option<string>>, extractPrices: string -> seq<real>)
    ensures AllTargets(xs + ys, extractPrices) == AllTargets(xs, extractPrices) + AllTargets(ys, extractPrices)
    decreases |ys|
  {
    if ys != [] {
      var ys' := ys[..|ys| - 1];
      assert (xs + ys)[..|xs + ys| - 1] == xs + ys';
      assert (xs + ys)[|xs + ys| - 1] == ys[|ys| - 1];
      AllTargetsAppend(xs, ys', extractPrices);
    } else {
      assert xs + ys == xs;
    }
  }

  /** The trimmed captures of the note patterns, in pattern order. */
  function Notes(matches: seq<Option<string>>): seq<string>
    decreases |matches|
  {
    if matches == [] then []
    else
      var last := matches[|matches| - 1];
      Notes(matches[..|matches| - 1]) + (if last.Some? then [Trim(last.value)] else [])
  }

  /** A matched pattern's trimmed capture is among the notes. */
  lemma {:induction false} NoteListed(matches: seq<Option<string>>, i: nat)
    requires i < |matches| && matches[i].Some?
    ensures Trim(matches[i].value) in Notes(matches)
    decreases |matches|
  {
    if i < |matches| - 1 {
      NoteListed(matches[..|matches| - 1], i);
    }
  }

  /** No match, no notes. */
  lemma {:induction false} NotesEmpty(matches: seq<Option<string>>)
    ensures Notes(matches) == [] <==> forall j :: 0 <= j < |matches| ==> matches[j].None?
    decreases |matches|
  {
    if matches != [] {
      NotesEmpty(matches[..|matches| - 1]);
      assert forall j :: 0 <= j < |matches| - 1 ==> matches[..|matches| - 1][j] == matches[j];
    }
  }

  /** `extractNotes`: the trimmed captures of `catatan`, `notes`,
      `perhatian` and `warning`, joined with ". ", or nothing when none
      matched. */
  method ExtractNotes(matches: seq<Option<string>>) returns (r: Option<string>)
    ensures r.None? <==> Notes(matches) == []
    ensures r.Some? ==> r.value == JoinWith(Notes(matches), ". ")
  {
    var notes: seq<string> := [];
    var i := 0;
    while i < |matches|
      invariant 0 <= i <= |matches|
      invariant notes == Notes(matches[..i])
    {
      assert matches[..i + 1][..i] == matches[..i];
      if matches[i].Some? {
        notes := notes + [Trim(matches[i].value)];
      }
      i := i + 1;
    }
    assert matches[..i] == matches;
    r := if |notes| > 0 then Some(JoinWith(notes, ". ")) else None;
  }

  /** Whatever a note pattern captured, trimmed, appears in the notes
      text. */
  lemma NoteInText(matches: seq<Option<string>>, i: nat)
    requires i < |matches| && matches[i].Some?
    ensures Notes(matches) != []
    ensures Contains(JoinWith(Notes(matches), ". "), Trim(matches[i].value))
  {
    NoteListed(matches, i);
    var notes := Notes(matches);
    var k :| 0 <= k < |notes| && notes[k] == Trim(matches[i].value);
    JoinWithContains(notes, ". ", k);
  }

  // ---------------------------------------------------------------------
  // Trading plan rules

  const BullishConfirmation := "Tunggu konfirmasi bullish (candle hijau, break resistance)"
  const BearishConfirmation := "Tunggu konfirmasi bearish (candle merah, break support)"
  const OrderBlockRule := "Perhatikan reaksi di area Order Block"
  const CloseRule := "Close posisi jika ada perubahan struktur market"

  /** The rules pushed for an identified entry zone. */
  function EntryZoneRules(zone: EntryZone): (rules: seq<string>)
    ensures 1 <= |rules| <= 2 && rules[0] == "Entry di zona " + zone.description
    ensures |rules| == 2 <==> !zone.direction.UnknownDirection?
    ensures |rules| == 2 ==> rules[1] == if zone.direction == Buy then BullishConfirmation else BearishConfirmation
    ensures OrderBlockRule !in rules
  {
    var first := "Entry di zona " + zone.description;
    assert first[0] == 'E' && OrderBlockRule[0] == 'P';
    assert |OrderBlockRule| < |BearishConfirmation| < |BullishConfirmation|;
    match zone.direction
    case Buy => [first, BullishConfirmation]
    case Sell => [first, BearishConfirmation]
    case UnknownDirection => [first]
  }

  /** `generateEntryRules`: the entry zone first, then the confirmation
      for its direction, then the order-block reminder. */
  function EntryRules(a: Analysis): (rules: seq<string>)
    ensures |rules| <= 3
    ensures a.entryZone.None? && a.orderBlocks == [] ==> rules == []
    ensures a.entryZone.Some? ==> |rules| >= 1 && rules[0] == "Entry di zona " + a.entryZone.value.description
    ensures a.entryZone.Some? && a.entryZone.value.direction == Buy ==> |rules| >= 2 && rules[1] == BullishConfirmation
    ensures a.entryZone.Some? && a.entryZone.value.direction == Sell ==> |rules| >= 2 && rules[1] == BearishConfirmation
    ensures a.orderBlocks != [] <==> OrderBlockRule in rules
    ensures a.orderBlocks != [] ==> rules[|rules| - 1] == OrderBlockRule
    ensures rules == (if a.entryZone.Some? then EntryZoneRules(a.entryZone.value) else [])
                     + (if a.orderBlocks != [] then [OrderBlockRule] else [])
  {
    var entry := if a.entryZone.None? then [] else EntryZoneRules(a.entryZone.value);
    entry + (if |a.orderBlocks| > 0 then [OrderBlockRule] else [])
  }

  /** The rule line of the stop loss. */
  function StopRule(description: string): string {
    "Stop Loss: " + description
  }

  /** The rule line of one target. */
  function TargetRule(t: Target): string {
    "TP" + NatToString(t.level) + ": " + t.description
  }

  /** The targets of an analysis, none when it has no take profit. */
  function TargetsOf(a: Analysis): seq<Target> {
    if a.takeProfit.Some? then a.takeProfit.value else []
  }

  /** `generateExitRules`: the stop loss, one line per target in order,
      and always the closing rule last. */
  method ExitRules(a: Analysis) returns (rules: seq<string>)
    ensures |rules| == (if a.stopLoss.Some? then 1 else 0) + |TargetsOf(a)| + 1
    ensures a.stopLoss.Some? ==> rules[0] == StopRule(a.stopLoss.value.description)
    ensures forall k :: 0 <= k < |TargetsOf(a)| ==>
      rules[(if a.stopLoss.Some? then 1 else 0) + k] == TargetRule(TargetsOf(a)[k])
    ensures rules[|rules| - 1] == CloseRule
  {
    rules := [];
    if a.stopLoss.Some? {
      rules := rules + [StopRule(a.stopLoss.value.description)];
    }
    ghost var stops := |rules|;
    if a.takeProfit.Some? {
      var targets := a.takeProfit.value;
      var i := 0;
      while i < |targets|
        invariant 0 <= i <= |targets|
        invariant |rules| == stops + i
        invariant a.stopLoss.Some? ==> rules[0] == StopRule(a.stopLoss.value.description)
        invariant forall k :: 0 <= k < i ==> rules[stops + k] == TargetRule(targets[k])
      {
        ghost var before := rules;
        rules := rules + [TargetRule(targets[i])];
        assert forall k :: 0 <= k < |before| ==> rules[k] == before[k];
        i := i + 1;
      }
    }
    ghost var body := rules;
    rules := rules + [CloseRule];
    assert forall k :: 0 <= k < |body| ==> rules[k] == body[k];
  }

  /** `generateRiskManagement`: four fixed rules, with the target ratio
      (printed by `showNumber`) in the middle when it is truthy. */
  function RiskManagement(a: Analysis, showNumber: real -> string): (rules: seq<string>)
    ensures |rules| == if a.riskReward.Some? && a.riskReward.value.ratio != 0.0 then 5 else 4
    ensures rules[0] == "Maksimal 2% risk per trade" && rules[1] == "Gunakan proper position sizing"
    ensures rules[|rules| - 2] == "Jangan averaging down pada loss"
    ensures rules[|rules| - 1] == "Follow trading plan dengan disiplin"
    ensures |rules| == 5 ==> rules[2] == "Target R:R minimum " + showNumber(a.riskReward.value.ratio) + ":1"
  {
    ["Maksimal 2% risk per trade", "Gunakan proper position sizing"]
    + (if a.riskReward.Some? && a.riskReward.value.ratio != 0.0
       then ["Target R:R minimum " + showNumber(a.riskReward.value.ratio) + ":1"] else [])
    + ["Jangan averaging down pada loss", "Follow trading plan dengan disiplin"]
  }

  // ---------------------------------------------------------------------
  // The analysis cache

  datatype CacheEntry = CacheEntry(analysis: Analysis, timestamp: int)

  /** `cacheTTL`, one hour in milliseconds. */
  const CacheTTL: int := 3600000

  /** What `getCachedAnalysis` returns at time `now`. */
  function Lookup(cache: map<string, CacheEntry>, h: string, now: int): (r: Option<Analysis>)
    ensures r.Some? <==> h in cache && now - cache[h].timestamp < CacheTTL
    ensures r.Some? ==> r.value == cache[h].analysis
  {
    if h in cache && now - cache[h].timestamp < CacheTTL then Some(cache[h].analysis) else None
  }

  /** An entry `cleanCache` deletes at time `now`. */
  predicate Expired(e: CacheEntry, now: int) {
    now - e.timestamp > CacheTTL
  }

  /** The cache after `cleanCache` at time `now`. */
  function Cleaned(cache: map<string, CacheEntry>, now: int): map<string, CacheEntry> {
    map k | k in cache && !Expired(cache[k], now) :: cache[k]
  }

  /** Cleaning deletes exactly the expired entries and leaves the others
      as they were. */
  lemma CleanedExactly(cache: map<string, CacheEntry>, now: int, k: string)
    ensures k in Cleaned(cache, now) <==> k in cache && now - cache[k].timestamp <= CacheTTL
    ensures k in Cleaned(cache, now) ==> Cleaned(cache, now)[k] == cache[k]
  {
  }

  /** Cleaning never changes what a lookup at the same time returns. */
  lemma CleaningKeepsLookups(cache: map<string, CacheEntry>, now: int, h: string)
    ensures Lookup(Cleaned(cache, now), h, now) == Lookup(cache, h, now)
  {
  }

  /** An entry exactly one time-to-live old survives cleaning but is no
      longer returned. */
  lemma AgedExactlyTTL(cache: map<string, CacheEntry>, now: int, h: string)
    requires h in cache && cache[h].timestamp == now - CacheTTL
    ensures h in Cleaned(cache, now)
    ensures Lookup(Cleaned(cache, now), h, now).None?
  {
  }

  class TradingService {
    var analysisCache: map<string, CacheEntry>

    constructor()
      ensures analysisCache == map[]
    {
      analysisCache := map[];
    }

    /** `getCachedAnalysis`; the clock reading is `now`. */
    method GetCachedAnalysis(h: string, now: int) returns (r: Option<Analysis>)
      ensures r == Lookup(analysisCache, h, now)
    {
      if h in analysisCache && now - analysisCache[h].timestamp < CacheTTL {
        r := Some(analysisCache[h].analysis);
      } else {
        r := None;
      }
    }

    /** `setCachedAnalysis`: store with the clock reading `now`, then
        clean with the second reading `cleanedAt` that `cleanCache` takes.
        The new entry survives the cleaning unless the clock moved on by
        more than the time-to-live in between, and a lookup at the storing
        time then returns it. */
    method SetCachedAnalysis(h: string, a: Analysis, now: int, cleanedAt: int)
      modifies this
      ensures analysisCache == Cleaned(old(analysisCache)[h := CacheEntry(a, now)], cleanedAt)
      ensures h in analysisCache <==> cleanedAt - now <= CacheTTL
      ensures cleanedAt - now <= CacheTTL ==> Lookup(analysisCache, h, now) == Some(a)
    {
      analysisCache := analysisCache[h := CacheEntry(a, now)];
      CleanCache(cleanedAt);
    }

    /** `cleanCache`: deletes every expired entry while walking the keys. */
    method CleanCache(now: int)
      modifies this
      ensures analysisCache == Cleaned(old(analysisCache), now)
    {
      var keys := analysisCache.Keys;
      while keys != {}
        invariant keys <= old(analysisCache).Keys
        invariant analysisCache == map k | k in old(analysisCache) && (k in keys || !Expired(old(analysisCache)[k], now)) :: old(analysisCache)[k]
        decreases |keys|
      {
        var k :| k in keys;
        if Expired(analysisCache[k], now) {
          analysisCache := analysisCache - {k};
        }
        keys := keys - {k};
      }
    }
  }
}
