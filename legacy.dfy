/** The older single-file entry point of the app, where it differs from the
    class-based one: the feed stock each dashboard shows is computed from the
    current farm type's own logs only, and the advice comes from a remote
    model whose two failure paths answer with a fixed message. */
module Legacy {
  import opened Seqs
  import opened Records
  import opened Advisory
  import opened Kpi

  // ---------------------------------------------------------------------------
  // Per-farm feed stock (layers and broilers dashboards)
  // ---------------------------------------------------------------------------

  /** All feed bought less the feed used in the logs of the farm type whose
      dashboard is open. */
  function OwnFeedStock(purchases: seq<FeedPurchase>, ownLogs: seq<DailyLog>): (r: FeedStock)
    ensures r.totalFeedBought == Sum(purchases, Weight)
    ensures r.feedInStock + Sum(ownLogs, FeedUsed) == r.totalFeedBought
  {
    var bought := Sum(purchases, Weight);
    FeedStock(bought - Sum(ownLogs, FeedUsed), bought)
  }

  /** The per-farm figure exceeds the shared pool by exactly the feed the two
      other farm types used, so it never reports less than the pool when
      their usage is non-negative, and the two agree only when the others
      used nothing. */
  lemma OwnStockOverstatesPool(purchases: seq<FeedPurchase>, own: seq<DailyLog>,
                               other1: seq<DailyLog>, other2: seq<DailyLog>)
    ensures var mine := OwnFeedStock(purchases, own);
      var pool := GetFeedStock(purchases, own, other1, other2);
      && mine.totalFeedBought == pool.totalFeedBought
      && mine.feedInStock == pool.feedInStock + Sum(other1, FeedUsed) + Sum(other2, FeedUsed)
    ensures (forall i :: 0 <= i < |other1| ==> other1[i].feedUsed >= 0.0) &&
            (forall i :: 0 <= i < |other2| ==> other2[i].feedUsed >= 0.0) ==>
      && OwnFeedStock(purchases, own).feedInStock >= GetFeedStock(purchases, own, other1, other2).feedInStock
      && (OwnFeedStock(purchases, own) == GetFeedStock(purchases, own, other1, other2) <==>
            Sum(other1, FeedUsed) + Sum(other2, FeedUsed) == 0.0)
  {
    if (forall i :: 0 <= i < |other1| ==> other1[i].feedUsed >= 0.0) &&
       (forall i :: 0 <= i < |other2| ==> other2[i].feedUsed >= 0.0) {
      SumNonNegative(other1, FeedUsed);
      SumNonNegative(other2, FeedUsed);
    }
  }

  /** 100 kg bought and 30 kg fed to the broilers: the layers dashboard of
      the older entry point still shows 100 kg in stock, where 70 kg remain. */
  lemma OwnStockCounterexample()
    ensures var purchases := [FeedPurchase(1, "2024-01-01", 4.0, 100.0, 50000.0)];
      var broilers := [DailyLog(2, "2024-01-02", 0.0, 0.0, 30.0, [], 0.0, "", 0.0, 0.0)];
      && OwnFeedStock(purchases, []).feedInStock == 100.0
      && GetFeedStock(purchases, [], broilers, []).feedInStock == 70.0
  {
    var purchases := [FeedPurchase(1, "2024-01-01", 4.0, 100.0, 50000.0)];
    var broilers := [DailyLog(2, "2024-01-02", 0.0, 0.0, 30.0, [], 0.0, "", 0.0, 0.0)];
    SumSingle(purchases[0], Weight);
    SumSingle(broilers[0], FeedUsed);
  }

  // ---------------------------------------------------------------------------
  // The remote advisor
  // ---------------------------------------------------------------------------

  /** How a call to the remote model ends: no API key configured, the call
      or the parsing of its reply failed, or a list of messages came back. */
  datatype RemoteOutcome = KeyMissing | CallFailed | Replied(advice: seq<AdviceMessage>)

  /** The advice an evaluator of the older entry point returns. */
  function RemoteAdvice(outcome: RemoteOutcome): (advice: seq<AdviceMessage>)
  {
    match outcome
    case KeyMissing => [AdviceMessage(Warning, AdvisorOffline)]
    case CallFailed => [AdviceMessage(Critical, AdvisorUnreachable)]
    case Replied(a) => a
  }

  /** Each failure path yields exactly one message, which the panel shows
      as it is: a warning when no key is configured, a critical when the
      call fails; the "all metrics look good" card never appears then. */
  lemma FailureIsOneMessage(outcome: RemoteOutcome)
    requires !outcome.Replied?
    ensures var shown := Displayed(RemoteAdvice(outcome));
      && |shown| == 1
      && (outcome.KeyMissing? <==> shown[0].kind == Warning)
      && (outcome.CallFailed? <==> shown[0].kind == Critical)
      && !Fired(shown, AllGood)
  {
    var shown := Displayed(RemoteAdvice(outcome));
    assert shown == RemoteAdvice(outcome);
  }

  /** A reply is shown as it came back, unless it is empty. */
  lemma ReplyShownAsIs(advice: seq<AdviceMessage>)
    ensures |advice| > 0 ==> Displayed(RemoteAdvice(Replied(advice))) == advice
    ensures |advice| == 0 ==> Fired(Displayed(RemoteAdvice(Replied(advice))), AllGood)
  {
    if |advice| == 0 {
      assert Displayed(RemoteAdvice(Replied(advice)))[0].rule == AllGood;
    }
  }
}
