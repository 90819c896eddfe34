/** The rule-based advisor: for each farm type, a fixed list of threshold
    checks evaluated over a record of KPIs. Each check that holds pushes one
    message; critical checks come first, then warnings, then positives. A
    message's wording is abstracted to the rule that produced it. */
module Advisory {

  datatype AdviceType = Critical | Warning | Positive

  function Rank(t: AdviceType): nat
  {
    match t
    case Critical => 0
    case Warning => 1
    case Positive => 2
  }

  /** The rule behind a message, standing in for its wording. */
  datatype Rule =
    | LayerMortality | LayerLoss | LayerFeedLowPercent | LayerFeedLowBags
    | LayerLayingDrop | LayerHighFcr | LayerStrongProfit | LayerStrongLaying
    | BroilerMortality | BroilerNegativeAdg | BroilerFcrVeryHigh | BroilerFcrHigh
    | BroilerLowAdg | BroilerExcellentFcr | BroilerGreatAdg
    | FishMortality | FishPhCritical | FishHighFcr | FishStagnant
    | FishPhWarning | FishTempWarning | FishExcellentFcr | FishGoodGrowth
    | AdvisorOffline | AdvisorUnreachable | AllGood

  /** `{ type, message }`, with the message identified by its rule. */
  datatype AdviceMessage = AdviceMessage(kind: AdviceType, rule: Rule)

  /** One `if (...) advice.push({ type, message })` of an evaluator. */
  datatype Check = Check(kind: AdviceType, rule: Rule, holds: bool)

  predicate Fired(advice: seq<AdviceMessage>, r: Rule)
  {
    exists i :: 0 <= i < |advice| && advice[i].rule == r
  }

  /** All criticals before all warnings before all positives. */
  predicate SeverityOrdered(advice: seq<AdviceMessage>)
  {
    forall i, j :: 0 <= i < j < |advice| ==> Rank(advice[i].kind) <= Rank(advice[j].kind)
  }

  predicate RanksAtMost(advice: seq<AdviceMessage>, k: nat)
  {
    forall i :: 0 <= i < |advice| ==> Rank(advice[i].kind) <= k
  }

  /** The checks are listed critical ones first, then warnings, then positives. */
  predicate ChecksRanked(checks: seq<Check>)
  {
    forall i :: 0 < i < |checks| ==> Rank(checks[i - 1].kind) <= Rank(checks[i].kind)
  }

  /** No rule is checked twice. */
  predicate DistinctRules(checks: seq<Check>)
  {
    forall i, j :: 0 <= i < j < |checks| ==> checks[i].rule != checks[j].rule
  }

  /** The advice after the first `n` checks of an evaluator: each check, in
      order, pushes its message when its condition holds. */
  function Evaluate(checks: seq<Check>, n: nat): (advice: seq<AdviceMessage>)
    requires n <= |checks|
    ensures |advice| <= n
  {
    if n == 0 then []
    else
      var before := Evaluate(checks, n - 1);
      var c := checks[n - 1];
      if c.holds then before + [AdviceMessage(c.kind, c.rule)] else before
  }

  /** A rule's message is in the advice exactly when one of the checks run
      for that rule holds. */
  lemma {:induction false} EvaluateFired(checks: seq<Check>, n: nat, r: Rule)
    requires n <= |checks|
    ensures Fired(Evaluate(checks, n), r) <==>
            exists j :: 0 <= j < n && checks[j].rule == r && checks[j].holds
  {
    if n > 0 {
      EvaluateFired(checks, n - 1, r);
      var before := Evaluate(checks, n - 1);
      var c := checks[n - 1];
      if c.holds {
        var after := before + [AdviceMessage(c.kind, c.rule)];
        assert forall i :: 0 <= i < |before| ==> after[i] == before[i];
        if c.rule == r {
          assert after[|before|].rule == r;
        }
      }
    }
  }

  /** With no rule checked twice, a rule's message is in the advice exactly
      when its own condition holds. */
  lemma EvaluateFiredAt(checks: seq<Check>, i: nat)
    requires i < |checks| && DistinctRules(checks)
    ensures Fired(Evaluate(checks, |checks|), checks[i].rule) <==> checks[i].holds
  {
    EvaluateFired(checks, |checks|, checks[i].rule);
  }

  /** Checks listed by severity give advice ordered by severity. */
  lemma {:induction false} EvaluateOrdered(checks: seq<Check>, n: nat)
    requires n <= |checks| && ChecksRanked(checks)
    ensures SeverityOrdered(Evaluate(checks, n))
    ensures n > 0 ==> RanksAtMost(Evaluate(checks, n), Rank(checks[n - 1].kind))
  {
    if n > 0 {
      EvaluateOrdered(checks, n - 1);
      var before := Evaluate(checks, n - 1);
      assert RanksAtMost(before, Rank(checks[n - 1].kind));
    }
  }

  /** Every check known not to hold shortens the advice by one. */
  lemma {:induction false} EvaluateSkips(checks: seq<Check>, n: nat, skipped: set<nat>)
    requires n <= |checks|
    requires forall i :: i in skipped ==> i < n && !checks[i].holds
    ensures |Evaluate(checks, n)| + |skipped| <= n
  {
    if n == 0 {
      assert skipped == {};
    } else if n - 1 in skipped {
      EvaluateSkips(checks, n - 1, skipped - {n - 1});
    } else {
      EvaluateSkips(checks, n - 1, skipped);
    }
  }

  // ---------------------------------------------------------------------------
  // Layers
  // ---------------------------------------------------------------------------

  /** How the feed-low alert threshold is read: a percentage of all feed
      bought, or a number of 25 kg bags. */
  datatype AlertMode = Percentage | Bags

  datatype LayerFarmData = LayerFarmData(
    mortalityRate: real,
    profit: real,
    feedAlertType: AlertMode,
    feedAlertValue: real,
    feedStockPercentage: real,
    bagsInStock: real,
    layingCapacity: real,
    avgLayingCapacity7d: real,
    fcr: real)

  /** The checks of `getLayerAIAdvice`, in the order they run. The two feed
      checks are an if / else-if pair; they never both hold, since the alert
      mode is one or the other. */
  function LayerChecks(d: LayerFarmData): seq<Check>
  {
    [ Check(Critical, LayerMortality, d.mortalityRate > 0.5),
      Check(Critical, LayerLoss, d.profit < -5000.0),
      Check(Warning, LayerFeedLowPercent,
            d.feedAlertType == Percentage && d.feedStockPercentage < d.feedAlertValue),
      Check(Warning, LayerFeedLowBags, d.feedAlertType == Bags && d.bagsInStock < d.feedAlertValue),
      Check(Warning, LayerLayingDrop,
            d.layingCapacity > 0.0 && d.avgLayingCapacity7d > 0.0
            && d.layingCapacity < d.avgLayingCapacity7d * 0.9),
      Check(Warning, LayerHighFcr, d.fcr > 3.0),
      Check(Positive, LayerStrongProfit, d.profit > 10000.0),
      Check(Positive, LayerStrongLaying, d.layingCapacity > 85.0) ]
  }

  function LayerRules(d: LayerFarmData): seq<AdviceMessage>
  {
    Evaluate(LayerChecks(d), |LayerChecks(d)|)
  }

  /** `getLayerAIAdvice`: the checks one after another, pushing a message for
      each that holds. */
  method LayerAdvice(d: LayerFarmData) returns (advice: seq<AdviceMessage>)
    ensures advice == LayerRules(d)
  {
    ghost var checks := LayerChecks(d);
    advice := [];
    if d.mortalityRate > 0.5 {
      advice := advice + [AdviceMessage(Critical, LayerMortality)];
    }
    assert advice == Evaluate(checks, 1);
    if d.profit < -5000.0 {
      advice := advice + [AdviceMessage(Critical, LayerLoss)];
    }
    assert advice == Evaluate(checks, 2);

    if d.feedAlertType == Percentage && d.feedStockPercentage < d.feedAlertValue {
      advice := advice + [AdviceMessage(Warning, LayerFeedLowPercent)];
      assert advice == Evaluate(checks, 3);
    } else {
      assert advice == Evaluate(checks, 3);
      if d.feedAlertType == Bags && d.bagsInStock < d.feedAlertValue {
        advice := advice + [AdviceMessage(Warning, LayerFeedLowBags)];
      }
    }
    assert advice == Evaluate(checks, 4);
    if d.layingCapacity > 0.0 && d.avgLayingCapacity7d > 0.0 && d.layingCapacity < d.avgLayingCapacity7d * 0.9 {
      advice := advice + [AdviceMessage(Warning, LayerLayingDrop)];
    }
    assert advice == Evaluate(checks, 5);
    if d.fcr > 3.0 {
      advice := advice + [AdviceMessage(Warning, LayerHighFcr)];
    }
    assert advice == Evaluate(checks, 6);

    if d.profit > 10000.0 {
      advice := advice + [AdviceMessage(Positive, LayerStrongProfit)];
    }
    assert advice == Evaluate(checks, 7);
    if d.layingCapacity > 85.0 {
      advice := advice + [AdviceMessage(Positive, LayerStrongLaying)];
    }
  }

  lemma LayerChecksWellFormed(d: LayerFarmData)
    ensures ChecksRanked(LayerChecks(d)) && DistinctRules(LayerChecks(d))
  {
  }

  /** Criticals, then warnings, then positives. */
  lemma LayerOrdered(d: LayerFarmData)
    ensures SeverityOrdered(LayerRules(d))
  {
    LayerChecksWellFormed(d);
    EvaluateOrdered(LayerChecks(d), |LayerChecks(d)|);
  }

  /** The feed-low warning follows the alert mode, and at most one of the two
      feed warnings is given. */
  lemma LayerFeedWarning(d: LayerFarmData)
    ensures d.feedAlertType == Percentage ==>
      (Fired(LayerRules(d), LayerFeedLowPercent) <==> d.feedStockPercentage < d.feedAlertValue)
      && !Fired(LayerRules(d), LayerFeedLowBags)
    ensures d.feedAlertType == Bags ==>
      (Fired(LayerRules(d), LayerFeedLowBags) <==> d.bagsInStock < d.feedAlertValue)
      && !Fired(LayerRules(d), LayerFeedLowPercent)
  {
    LayerChecksWellFormed(d);
    EvaluateFiredAt(LayerChecks(d), 2);
    EvaluateFiredAt(LayerChecks(d), 3);
  }

  /** A drop in laying is flagged only against a positive capacity and a
      positive 7-day average, and only below 90 % of that average. */
  lemma LayerLayingDropWarning(d: LayerFarmData)
    ensures Fired(LayerRules(d), LayerLayingDrop) <==>
      d.layingCapacity > 0.0 && d.avgLayingCapacity7d > 0.0
      && d.layingCapacity < d.avgLayingCapacity7d * 0.9
  {
    LayerChecksWellFormed(d);
    EvaluateFiredAt(LayerChecks(d), 4);
  }

  /** A loss alert and a profit commendation never appear together. */
  lemma LayerProfitExclusive(d: LayerFarmData)
    ensures Fired(LayerRules(d), LayerLoss) <==> d.profit < -5000.0
    ensures Fired(LayerRules(d), LayerStrongProfit) <==> d.profit > 10000.0
    ensures !(Fired(LayerRules(d), LayerLoss) && Fired(LayerRules(d), LayerStrongProfit))
  {
    LayerChecksWellFormed(d);
    EvaluateFiredAt(LayerChecks(d), 1);
    EvaluateFiredAt(LayerChecks(d), 6);
  }

  /** At most six messages: of the eight checks, the two feed warnings
      exclude each other and so do the loss alert and the profit
      commendation. */
  lemma LayerLength(d: LayerFarmData)
    ensures |LayerRules(d)| <= 6
  {
    var profit: set<nat> := if d.profit < -5000.0 then {6} else {1};
    var feed: set<nat> := if d.feedAlertType == Percentage then {3} else {2};
    assert |profit + feed| == 2;
    EvaluateSkips(LayerChecks(d), |LayerChecks(d)|, profit + feed);
  }

  // ---------------------------------------------------------------------------
  // Broilers
  // ---------------------------------------------------------------------------

  datatype BroilerFarmData = BroilerFarmData(mortalityRate: real, adg: real, fcr: real)

  /** The checks of `getBroilerAIAdvice`, in the order they run; the "a bit
      high" FCR check is the else branch of the "very high" one. */
  function BroilerChecks(d: BroilerFarmData): seq<Check>
  {
    [ Check(Critical, BroilerMortality, d.mortalityRate > 0.5),
      Check(Critical, BroilerNegativeAdg, d.adg < 0.0),
      Check(Warning, BroilerFcrVeryHigh, d.fcr > 2.5),
      Check(Warning, BroilerFcrHigh, !(d.fcr > 2.5) && d.fcr > 1.8),
      Check(Warning, BroilerLowAdg, d.adg > 0.0 && d.adg < 30.0),
      Check(Positive, BroilerExcellentFcr, d.fcr < 1.6 && d.fcr > 0.0),
      Check(Positive, BroilerGreatAdg, d.adg > 60.0) ]
  }

  function BroilerRules(d: BroilerFarmData): seq<AdviceMessage>
  {
    Evaluate(BroilerChecks(d), |BroilerChecks(d)|)
  }

  /** `getBroilerAIAdvice`. */
  method BroilerAdvice(d: BroilerFarmData) returns (advice: seq<AdviceMessage>)
    ensures advice == BroilerRules(d)
  {
    ghost var checks := BroilerChecks(d);
    advice := [];
    if d.mortalityRate > 0.5 {
      advice := advice + [AdviceMessage(Critical, BroilerMortality)];
    }
    assert advice == Evaluate(checks, 1);
    if d.adg < 0.0 {
      advice := advice + [AdviceMessage(Critical, BroilerNegativeAdg)];
    }
    assert advice == Evaluate(checks, 2);

    if d.fcr > 2.5 {
      advice := advice + [AdviceMessage(Warning, BroilerFcrVeryHigh)];
    } else if d.fcr > 1.8 {
      advice := advice + [AdviceMessage(Warning, BroilerFcrHigh)];
    }
    assert advice == Evaluate(checks, 4);
    if d.adg > 0.0 && d.adg < 30.0 {
      advice := advice + [AdviceMessage(Warning, BroilerLowAdg)];
    }
    assert advice == Evaluate(checks, 5);

    if d.fcr < 1.6 && d.fcr > 0.0 {
      advice := advice + [AdviceMessage(Positive, BroilerExcellentFcr)];
    }
    assert advice == Evaluate(checks, 6);
    if d.adg > 60.0 {
      advice := advice + [AdviceMessage(Positive, BroilerGreatAdg)];
    }
  }

  lemma BroilerChecksWellFormed(d: BroilerFarmData)
    ensures ChecksRanked(BroilerChecks(d)) && DistinctRules(BroilerChecks(d))
  {
  }

  lemma BroilerOrdered(d: BroilerFarmData)
    ensures SeverityOrdered(BroilerRules(d))
  {
    BroilerChecksWellFormed(d);
    EvaluateOrdered(BroilerChecks(d), |BroilerChecks(d)|);
  }

  /** At most one FCR warning: "very high" above 2.5, otherwise "a bit high"
      above 1.8; the commendation needs 0 < fcr < 1.6 and so never comes with
      either. */
  lemma BroilerFcrExclusive(d: BroilerFarmData)
    ensures Fired(BroilerRules(d), BroilerFcrVeryHigh) <==> d.fcr > 2.5
    ensures Fired(BroilerRules(d), BroilerFcrHigh) <==> 1.8 < d.fcr <= 2.5
    ensures Fired(BroilerRules(d), BroilerExcellentFcr) <==> 0.0 < d.fcr < 1.6
    ensures !(Fired(BroilerRules(d), BroilerFcrVeryHigh) && Fired(BroilerRules(d), BroilerFcrHigh))
    ensures Fired(BroilerRules(d), BroilerExcellentFcr) ==>
      !Fired(BroilerRules(d), BroilerFcrVeryHigh) && !Fired(BroilerRules(d), BroilerFcrHigh)
  {
    BroilerChecksWellFormed(d);
    EvaluateFiredAt(BroilerChecks(d), 2);
    EvaluateFiredAt(BroilerChecks(d), 3);
    EvaluateFiredAt(BroilerChecks(d), 5);
  }

  /** The three daily-gain messages exclude each other. */
  lemma BroilerAdgExclusive(d: BroilerFarmData)
    ensures Fired(BroilerRules(d), BroilerNegativeAdg) <==> d.adg < 0.0
    ensures Fired(BroilerRules(d), BroilerLowAdg) <==> 0.0 < d.adg < 30.0
    ensures Fired(BroilerRules(d), BroilerGreatAdg) <==> d.adg > 60.0
    ensures Fired(BroilerRules(d), BroilerNegativeAdg) ==>
      !Fired(BroilerRules(d), BroilerLowAdg) && !Fired(BroilerRules(d), BroilerGreatAdg)
    ensures !(Fired(BroilerRules(d), BroilerLowAdg) && Fired(BroilerRules(d), BroilerGreatAdg))
  {
    BroilerChecksWellFormed(d);
    EvaluateFiredAt(BroilerChecks(d), 1);
    EvaluateFiredAt(BroilerChecks(d), 4);
    EvaluateFiredAt(BroilerChecks(d), 6);
  }

  /** At most three messages: mortality, one gain message, one FCR message. */
  lemma BroilerLength(d: BroilerFarmData)
    ensures |BroilerRules(d)| <= 3
  {
    var fcr: set<nat> := if d.fcr > 2.5 then {3, 5} else if d.fcr > 1.8 then {2, 5} else {2, 3};
    var adg: set<nat> := if d.adg < 0.0 then {4, 6} else if d.adg < 30.0 then {1, 6} else {1, 4};
    assert |fcr + adg| == 4;
    EvaluateSkips(BroilerChecks(d), |BroilerChecks(d)|, fcr + adg);
  }

  // ---------------------------------------------------------------------------
  // Fish
  // ---------------------------------------------------------------------------

  /** `waterPH` and `waterTemp` are today's readings; 0 stands for no reading
      (and for no log today), which the source's truthiness test skips. */
  datatype FishFarmData = FishFarmData(
    mortalityRate: real,
    fcr: real,
    growthRate: real,
    daysSinceStocking: int,
    waterPH: real,
    waterTemp: real)

  /** The checks of `getFishAIAdvice`, in the order they run. */
  function FishChecks(d: FishFarmData): seq<Check>
  {
    [ Check(Critical, FishMortality, d.mortalityRate > 1.0),
      Check(Critical, FishPhCritical, d.waterPH != 0.0 && (d.waterPH < 6.0 || d.waterPH > 9.0)),
      Check(Warning, FishHighFcr, d.fcr > 1.8),
      Check(Warning, FishStagnant, d.growthRate <= 0.0 && d.daysSinceStocking > 7),
      Check(Warning, FishPhWarning, d.waterPH != 0.0 && (d.waterPH < 6.5 || d.waterPH > 8.5)),
      Check(Warning, FishTempWarning, d.waterTemp != 0.0 && (d.waterTemp < 22.0 || d.waterTemp > 32.0)),
      Check(Positive, FishExcellentFcr, d.fcr < 1.5 && d.fcr > 0.0),
      Check(Positive, FishGoodGrowth, d.growthRate > 3.0) ]
  }

  function FishRules(d: FishFarmData): seq<AdviceMessage>
  {
    Evaluate(FishChecks(d), |FishChecks(d)|)
  }

  /** `getFishAIAdvice`. */
  method FishAdvice(d: FishFarmData) returns (advice: seq<AdviceMessage>)
    ensures advice == FishRules(d)
  {
    ghost var checks := FishChecks(d);
    advice := [];
    if d.mortalityRate > 1.0 {
      advice := advice + [AdviceMessage(Critical, FishMortality)];
    }
    assert advice == Evaluate(checks, 1);
    if d.waterPH != 0.0 && (d.waterPH < 6.0 || d.waterPH > 9.0) {
      advice := advice + [AdviceMessage(Critical, FishPhCritical)];
    }
    assert advice == Evaluate(checks, 2);

    if d.fcr > 1.8 {
      advice := advice + [AdviceMessage(Warning, FishHighFcr)];
    }
    assert advice == Evaluate(checks, 3);
    if d.growthRate <= 0.0 && d.daysSinceStocking > 7 {
      advice := advice + [AdviceMessage(Warning, FishStagnant)];
    }
    assert advice == Evaluate(checks, 4);
    if d.waterPH != 0.0 && (d.waterPH < 6.5 || d.waterPH > 8.5) {
      advice := advice + [AdviceMessage(Warning, FishPhWarning)];
    }
    assert advice == Evaluate(checks, 5);
    if d.waterTemp != 0.0 && (d.waterTemp < 22.0 || d.waterTemp > 32.0) {
      advice := advice + [AdviceMessage(Warning, FishTempWarning)];
    }
    assert advice == Evaluate(checks, 6);

    if d.fcr < 1.5 && d.fcr > 0.0 {
      advice := advice + [AdviceMessage(Positive, FishExcellentFcr)];
    }
    assert advice == Evaluate(checks, 7);
    if d.growthRate > 3.0 {
      advice := advice + [AdviceMessage(Positive, FishGoodGrowth)];
    }
  }

  lemma FishChecksWellFormed(d: FishFarmData)
    ensures ChecksRanked(FishChecks(d)) && DistinctRules(FishChecks(d))
  {
  }

  lemma FishOrdered(d: FishFarmData)
    ensures SeverityOrdered(FishRules(d))
  {
    FishChecksWellFormed(d);
    EvaluateOrdered(FishChecks(d), |FishChecks(d)|);
  }

  /** A critical pH always comes with the out-of-range pH warning too. */
  lemma FishPhCriticalImpliesWarning(d: FishFarmData)
    ensures Fired(FishRules(d), FishPhCritical) ==> Fired(FishRules(d), FishPhWarning)
  {
    FishChecksWellFormed(d);
    EvaluateFiredAt(FishChecks(d), 1);
    EvaluateFiredAt(FishChecks(d), 4);
  }

  /** Without a reading (0 or absent) there is no water advice. */
  lemma FishNoReadingNoWaterAdvice(d: FishFarmData)
    ensures d.waterPH == 0.0 ==>
      !Fired(FishRules(d), FishPhCritical) && !Fired(FishRules(d), FishPhWarning)
    ensures d.waterTemp == 0.0 ==> !Fired(FishRules(d), FishTempWarning)
  {
    FishChecksWellFormed(d);
    EvaluateFiredAt(FishChecks(d), 1);
    EvaluateFiredAt(FishChecks(d), 4);
    EvaluateFiredAt(FishChecks(d), 5);
  }

  /** The FCR warning fires above 1.8 and the commendation only for
      0 < fcr < 1.5, so the two never come together. */
  lemma FishFcrAdvice(d: FishFarmData)
    ensures Fired(FishRules(d), FishHighFcr) <==> d.fcr > 1.8
    ensures Fired(FishRules(d), FishExcellentFcr) <==> 0.0 < d.fcr < 1.5
    ensures !(Fired(FishRules(d), FishHighFcr) && Fired(FishRules(d), FishExcellentFcr))
  {
    FishChecksWellFormed(d);
    EvaluateFiredAt(FishChecks(d), 2);
    EvaluateFiredAt(FishChecks(d), 6);
  }

  /** Stagnation needs no growth and more than a week since stocking; it
      never comes with the growth commendation. */
  lemma FishStagnation(d: FishFarmData)
    ensures Fired(FishRules(d), FishStagnant) <==> d.growthRate <= 0.0 && d.daysSinceStocking > 7
    ensures !(Fired(FishRules(d), FishStagnant) && Fired(FishRules(d), FishGoodGrowth))
  {
    FishChecksWellFormed(d);
    EvaluateFiredAt(FishChecks(d), 3);
    EvaluateFiredAt(FishChecks(d), 7);
  }

  /** At most six messages: the FCR warning and commendation exclude each
      other, and so do stagnation and good growth. */
  lemma FishLength(d: FishFarmData)
    ensures |FishRules(d)| <= 6
  {
    var fcr: set<nat> := if d.fcr > 1.8 then {6} else {2};
    var growth: set<nat> := if d.growthRate <= 0.0 then {7} else {3};
    assert |fcr + growth| == 2;
    EvaluateSkips(FishChecks(d), |FishChecks(d)|, fcr + growth);
  }

  // ---------------------------------------------------------------------------
  // What the advisor panel shows
  // ---------------------------------------------------------------------------

  /** `displayAdvice`: the messages, or the positive "all metrics look good"
      card when there are none. */
  function Displayed(advice: seq<AdviceMessage>): (shown: seq<AdviceMessage>)
    ensures |shown| > 0
    ensures |advice| > 0 ==> shown == advice
    ensures |advice| == 0 ==> shown == [AdviceMessage(Positive, AllGood)]
  {
    if |advice| > 0 then advice else [AdviceMessage(Positive, AllGood)]
  }
}
