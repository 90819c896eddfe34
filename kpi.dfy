/** The settings resolver and the KPI engine: the numbers the dashboards
    compute from the stored records before handing them to the advisor.
    The clock enters as parameters: today's ISO date text (what
    `getTodayDate` returns), yesterday's, today's local day number, and the
    day number from which the 7-day window starts. */
module Kpi {
  import opened Seqs
  import opened Dates
  import opened Records
  import opened Eggs
  import opened Ledger
  import opened Advisory
  import opened Sorting

  // ---------------------------------------------------------------------------
  // getSettings
  // ---------------------------------------------------------------------------

  /** The settings shared by all farm types. A cost left blank reads as 0;
      `None` is an alert type or value that was never saved, or saved blank. */
  datatype SharedSettings = SharedSettings(
    laborCost: real,
    rentCost: real,
    powerCost: real,
    waterCost: real,
    miscCost: real,
    feedAlertType: Option<AlertMode>,
    feedAlertValue: Option<real>)

  /** One farm type's own settings; blank numbers read as 0, blank dates as "". */
  datatype FarmSettings = FarmSettings(
    initialBirds: real,
    initialQuantity: real,
    showFlockAge: bool,
    flockStartDate: string,
    stockingDate: string,
    initialAvgWeight: real)

  datatype Settings = Settings(
    initialStock: real,
    currentStock: real,
    dailyFixedCost: real,
    feedAlertType: AlertMode,
    feedAlertValue: real,
    farm: FarmSettings)

  function Mortality(l: DailyLog): real
  {
    l.mortality
  }

  function FeedUsed(l: DailyLog): real
  {
    l.feedUsed
  }

  /** `getSettings` for the current farm type over that farm type's logs. */
  function GetSettings(ft: FarmType, shared: SharedSettings, farm: FarmSettings, logs: seq<DailyLog>): (s: Settings)
    ensures s.initialStock == if ft == Fish then farm.initialQuantity else farm.initialBirds
    ensures s.currentStock + Sum(logs, Mortality) == s.initialStock
    ensures 30.0 * s.dailyFixedCost
            == shared.laborCost + shared.rentCost + shared.powerCost + shared.waterCost + shared.miscCost
    ensures shared.feedAlertType.None? ==> s.feedAlertType == Percentage
    ensures shared.feedAlertType.Some? ==> s.feedAlertType == shared.feedAlertType.value
    ensures shared.feedAlertValue.None? ==> s.feedAlertValue == if shared.feedAlertType == Some(Bags) then 10.0 else 25.0
    ensures shared.feedAlertValue.Some? ==> s.feedAlertValue == shared.feedAlertValue.value
    ensures s.farm == farm
  {
    var initialStock := if ft == Fish then farm.initialQuantity else farm.initialBirds;
    var fixed := (shared.laborCost + shared.rentCost + shared.powerCost + shared.waterCost + shared.miscCost) / 30.0;
    var alertType := match shared.feedAlertType case Some(t) => t case None => Percentage;
    var alertValue := match shared.feedAlertValue
      case Some(v) => v
      case None => if shared.feedAlertType == Some(Bags) then 10.0 else 25.0;
    Settings(initialStock, initialStock - Sum(logs, Mortality), fixed, alertType, alertValue, farm)
  }

  /** Saving a daily log moves the current stock by exactly that log's
      mortality: down by it when appended; by the difference when it
      overwrites an earlier log; not at all when the edited id is gone. */
  lemma CurrentStockAfterSave(ft: FarmType, shared: SharedSettings, farm: FarmSettings,
                              logs: seq<DailyLog>, entry: DailyLog, editId: Option<int>)
    ensures var before := GetSettings(ft, shared, farm, logs).currentStock;
      var after := GetSettings(ft, shared, farm, SavedLogs(logs, entry, editId)).currentStock;
      && (!IsEditing(editId) ==> after == before - entry.mortality)
      && (IsEditing(editId) && FindIndex(logs, IdIs(LogId, editId.value)).Some? ==>
            after == before + logs[FindIndex(logs, IdIs(LogId, editId.value)).value].mortality - entry.mortality)
      && (IsEditing(editId) && FindIndex(logs, IdIs(LogId, editId.value)).None? ==> after == before)
  {
    SumAfterSave(logs, entry, editId, Mortality);
  }

  // ---------------------------------------------------------------------------
  // getFeedStock: one pool shared by all farm types
  // ---------------------------------------------------------------------------

  datatype FeedStock = FeedStock(feedInStock: real, totalFeedBought: real)

  function Weight(p: FeedPurchase): real
  {
    p.weight
  }

  function PurchaseCost(p: FeedPurchase): real
  {
    p.cost
  }

  /** `getFeedStock`: all feed bought less the feed used in the logs of all
      three farm types. */
  function GetFeedStock(purchases: seq<FeedPurchase>, layers: seq<DailyLog>, broilers: seq<DailyLog>,
                        fish: seq<DailyLog>): (r: FeedStock)
    ensures r.totalFeedBought == Sum(purchases, Weight)
    ensures r.feedInStock + Sum(layers, FeedUsed) + Sum(broilers, FeedUsed) + Sum(fish, FeedUsed)
            == r.totalFeedBought
  {
    SumAppend(layers + broilers, fish, FeedUsed);
    SumAppend(layers, broilers, FeedUsed);
    var bought := Sum(purchases, Weight);
    FeedStock(bought - Sum(layers + broilers + fish, FeedUsed), bought)
  }

  /** The pool is the same whichever farm type's dashboard asks, and feed
      used by any farm type draws on it: swapping which list plays which
      farm leaves it unchanged. */
  lemma FeedStockShared(purchases: seq<FeedPurchase>, a: seq<DailyLog>, b: seq<DailyLog>, c: seq<DailyLog>)
    ensures GetFeedStock(purchases, a, b, c) == GetFeedStock(purchases, b, c, a)
    ensures GetFeedStock(purchases, a, b, c) == GetFeedStock(purchases, b, a, c)
  {
    var r1 := GetFeedStock(purchases, a, b, c);
    var r2 := GetFeedStock(purchases, b, c, a);
    var r3 := GetFeedStock(purchases, b, a, c);
    assert r1.feedInStock == r2.feedInStock == r3.feedInStock;
  }

  /** Logging feed in any farm type lowers the shared stock by that amount. */
  lemma FeedStockAfterLog(purchases: seq<FeedPurchase>, layers: seq<DailyLog>, broilers: seq<DailyLog>,
                          fish: seq<DailyLog>, entry: DailyLog, nowId: int)
    ensures var before := GetFeedStock(purchases, layers, broilers, fish).feedInStock;
      var saved := SavedLogs(layers, entry, None);
      && GetFeedStock(purchases, saved, broilers, fish).feedInStock == before - entry.feedUsed
      && GetFeedStock(purchases, layers, SavedLogs(broilers, entry, None), fish).feedInStock == before - entry.feedUsed
      && GetFeedStock(purchases, layers, broilers, SavedLogs(fish, entry, None)).feedInStock == before - entry.feedUsed
  {
    SumAfterSave(layers, entry, None, FeedUsed);
    SumAfterSave(broilers, entry, None, FeedUsed);
    SumAfterSave(fish, entry, None, FeedUsed);
  }

  /** A purchase adds its weight to the stock; deleting by id takes back
      exactly the weight of the purchases removed. */
  lemma FeedStockAfterPurchases(purchases: seq<FeedPurchase>, layers: seq<DailyLog>, broilers: seq<DailyLog>,
                                fish: seq<DailyLog>, p: FeedPurchase, id: int)
    ensures GetFeedStock(purchases + [p], layers, broilers, fish).feedInStock
            == GetFeedStock(purchases, layers, broilers, fish).feedInStock + p.weight
    ensures GetFeedStock(RemoveById(purchases, id), layers, broilers, fish).feedInStock
              + Sum(Filter(purchases, Not(IdIsNot(id))), Weight)
            == GetFeedStock(purchases, layers, broilers, fish).feedInStock
  {
    SumAppend(purchases, [p], Weight);
    RemoveByIdKeepsRest(purchases, id);
    var kept := RemoveById(purchases, id);
    var removed := Filter(purchases, Not(IdIsNot(id)));
    SumAppend(kept, removed, Weight);
    assert multiset(kept + removed) == multiset(purchases);
    SumPermutation(kept + removed, purchases, Weight);
  }

  /** `avgFeedCostPerKg`: the money spent on feed per kg bought, or 0 when
      no feed was bought. */
  function AvgFeedCostPerKg(purchases: seq<FeedPurchase>): (r: real)
    ensures Sum(purchases, Weight) > 0.0 ==> r * Sum(purchases, Weight) == Sum(purchases, PurchaseCost)
    ensures Sum(purchases, Weight) <= 0.0 ==> r == 0.0
  {
    var bought := Sum(purchases, Weight);
    if bought > 0.0 then Sum(purchases, PurchaseCost) / bought else 0.0
  }

  /** `feedStockPercentage`: the share of all feed bought still in stock. */
  function FeedStockPercentage(stock: FeedStock): (r: real)
    ensures stock.totalFeedBought > 0.0 ==> r * stock.totalFeedBought == stock.feedInStock * 100.0
    ensures stock.totalFeedBought <= 0.0 ==> r == 0.0
  {
    if stock.totalFeedBought > 0.0 then stock.feedInStock / stock.totalFeedBought * 100.0 else 0.0
  }

  /** `bagsInStock`: the stock in 25 kg bags. */
  function BagsInStock(stock: FeedStock): (r: real)
    ensures r * 25.0 == stock.feedInStock
  {
    stock.feedInStock / 25.0
  }

  // ---------------------------------------------------------------------------
  // Today's records
  // ---------------------------------------------------------------------------

  function LogOn(date: string): DailyLog -> bool
  {
    (l: DailyLog) => l.date == date
  }

  function IncomeOn(date: string): IncomeEntry -> bool
  {
    (e: IncomeEntry) => e.date == date
  }

  /** `dailyLogs.find(log => log.date === date) || {}`: the first log of
      that date, or the log whose every field reads as 0. */
  function LogOfDay(logs: seq<DailyLog>, date: string): (l: DailyLog)
    ensures (forall x :: x in logs ==> x.date != date) ==> l == EmptyLog
    ensures (exists x :: x in logs && x.date == date) ==>
      exists i :: 0 <= i < |logs| && logs[i] == l && l.date == date
        && forall j :: 0 <= j < i ==> logs[j].date != date
  {
    match FindIndex(logs, LogOn(date))
    case Some(i) => logs[i]
    case None => EmptyLog
  }

  /** `incomeToday`: the amounts of the income entries dated today. */
  function IncomeOfDay(entries: seq<IncomeEntry>, date: string): real
  {
    Sum(Filter(entries, IncomeOn(date)), Amount)
  }

  /** Income never counts against the day: with non-negative amounts the
      day's income is non-negative and at most the whole ledger. */
  lemma IncomeOfDayBounds(entries: seq<IncomeEntry>, date: string)
    requires forall i :: 0 <= i < |entries| ==> entries[i].amount >= 0.0
    ensures 0.0 <= IncomeOfDay(entries, date) <= Sum(entries, Amount)
  {
    SumFilterBounds(entries, IncomeOn(date), Amount);
  }

  /** `todayLog.mortality / currentStock * 100` when there is a positive
      stock and a nonzero mortality today, else 0. */
  function MortalityRate(todayLog: DailyLog, currentStock: real): (r: real)
    ensures currentStock > 0.0 && todayLog.mortality != 0.0 ==> r * currentStock == todayLog.mortality * 100.0
    ensures currentStock <= 0.0 || todayLog.mortality == 0.0 ==> r == 0.0
  {
    if currentStock > 0.0 && todayLog.mortality != 0.0 then todayLog.mortality / currentStock * 100.0 else 0.0
  }

  /** A percentage of a positive stock passes a threshold exactly when the
      count passes that share of the stock. */
  lemma RateAbove(count: real, stock: real, rate: real, t: real)
    requires stock > 0.0 && rate * stock == count * 100.0
    ensures rate > t <==> count * 100.0 > t * stock
  {
    if rate > t {
      assert rate * stock > t * stock;
    } else {
      assert rate * stock <= t * stock;
    }
  }

  /** The mortality alerts read as head counts: over 0.5 % means more than
      one death per 200 head, over 1 % more than one per 100. */
  lemma MortalityThresholds(todayLog: DailyLog, currentStock: real)
    requires currentStock > 0.0
    ensures MortalityRate(todayLog, currentStock) > 0.5 <==> todayLog.mortality * 200.0 > currentStock
    ensures MortalityRate(todayLog, currentStock) > 1.0 <==> todayLog.mortality * 100.0 > currentStock
  {
    var r := MortalityRate(todayLog, currentStock);
    if todayLog.mortality != 0.0 {
      RateAbove(todayLog.mortality, currentStock, r, 0.5);
      RateAbove(todayLog.mortality, currentStock, r, 1.0);
    }
  }

  // ---------------------------------------------------------------------------
  // Layers
  // ---------------------------------------------------------------------------

  /** Crates laid in a log: the sum of the values of its `eggs` object. */
  function Crates(l: DailyLog): real
  {
    TotalCrates(l.eggs)
  }

  /** `layingCapacity`: eggs laid per hen in stock, in percent (a crate is 30
      eggs), or 0 without a positive stock. */
  function LayingCapacity(crates: real, currentStock: real): (c: real)
    ensures currentStock > 0.0 ==> c * currentStock == crates * 3000.0
    ensures currentStock <= 0.0 ==> c == 0.0
  {
    if currentStock > 0.0 then crates * 30.0 / currentStock * 100.0 else 0.0
  }

  /** Capacity stays within 0..100 % exactly when no more eggs than hens
      were recorded. */
  lemma LayingCapacityRange(crates: real, currentStock: real)
    requires currentStock > 0.0 && crates >= 0.0
    ensures LayingCapacity(crates, currentStock) >= 0.0
    ensures LayingCapacity(crates, currentStock) <= 100.0 <==> crates * 30.0 <= currentStock
  {
    var c := LayingCapacity(crates, currentStock);
    assert c * currentStock == crates * 3000.0;
    if c <= 100.0 {
      assert c * currentStock <= 100.0 * currentStock;
    } else {
      assert c * currentStock > 100.0 * currentStock;
    }
  }

  /** Feed conversion ratio, as all three dashboards compute it: the feed
      used per unit of output (crates for layers, kg gained for broilers and
      fish), or 0 when there is no output. */
  function Fcr(feedUsed: real, output: real): (r: real)
    ensures output > 0.0 ==> r * output == feedUsed
    ensures output <= 0.0 ==> r == 0.0
  {
    if output > 0.0 then feedUsed / output else 0.0
  }

  function DayCapacity(currentStock: real): DailyLog -> real
  {
    (l: DailyLog) => LayingCapacity(Crates(l), currentStock)
  }

  /** The 7-day filter: logs whose date parses to a day at or after the
      cutoff. A log whose date does not parse is dropped. */
  predicate InWindow(l: DailyLog, cutoff: int)
  {
    ParseDateString(l.date).Some? && DateKey(l.date) >= cutoff
  }

  function WindowFrom(cutoff: int): DailyLog -> bool
  {
    (l: DailyLog) => InWindow(l, cutoff)
  }

  function LastDays(logs: seq<DailyLog>, cutoff: int): (w: seq<DailyLog>)
    ensures forall l :: l in w <==> l in logs && InWindow(l, cutoff)
  {
    Filter(logs, WindowFrom(cutoff))
  }

  /** `avgLayingCapacity7d` over the window's logs: the mean daily capacity,
      or today's capacity when the window is empty. */
  function AvgLayingCapacity(window: seq<DailyLog>, currentStock: real, today: real): (r: real)
    ensures |window| == 0 ==> r == today
    ensures |window| > 0 ==> r * (|window| as real) == Sum(window, DayCapacity(currentStock))
  {
    if |window| > 0 then Mean(window, DayCapacity(currentStock)) else today
  }

  /** The mean lies between the lowest and the highest day in the window. */
  lemma AvgLayingCapacityBounds(window: seq<DailyLog>, currentStock: real, today: real, lo: real, hi: real)
    requires |window| > 0
    requires forall i :: 0 <= i < |window| ==> lo <= LayingCapacity(Crates(window[i]), currentStock) <= hi
    ensures lo <= AvgLayingCapacity(window, currentStock, today) <= hi
  {
    var n := |window| as real;
    var r := AvgLayingCapacity(window, currentStock, today);
    SumBounds(window, DayCapacity(currentStock), lo, hi);
  }

  /** The layers dashboard's KPI record from today's log, the logs of the
      7-day window, today's egg revenue and income, the average feed cost per kg and the feed
      stock: the day's profit is egg revenue plus income less the day's
      costs (the fixed share, the feed used at the average price, and the
      miscellaneous cost). */
  function LayerData(settings: Settings, todayLog: DailyLog, window: seq<DailyLog>, eggRevenue: real,
                     incomeToday: real, feedCostPerKg: real, stock: FeedStock): (d: LayerFarmData)
    ensures d.profit + settings.dailyFixedCost + todayLog.feedUsed * feedCostPerKg + todayLog.miscCost
            == eggRevenue + incomeToday
    ensures d.feedAlertType == settings.feedAlertType && d.feedAlertValue == settings.feedAlertValue
    ensures d.bagsInStock * 25.0 == stock.feedInStock
    ensures stock.totalFeedBought > 0.0 ==> d.feedStockPercentage * stock.totalFeedBought == stock.feedInStock * 100.0
    ensures stock.totalFeedBought <= 0.0 ==> d.feedStockPercentage == 0.0
    ensures d.layingCapacity == LayingCapacity(Crates(todayLog), settings.currentStock)
    ensures d.avgLayingCapacity7d == AvgLayingCapacity(window, settings.currentStock, d.layingCapacity)
    ensures |window| == 0 ==> d.avgLayingCapacity7d == d.layingCapacity
    ensures d.fcr == Fcr(todayLog.feedUsed, Crates(todayLog))
    ensures d.mortalityRate == MortalityRate(todayLog, settings.currentStock)
  {
    var totalCost := settings.dailyFixedCost + todayLog.feedUsed * feedCostPerKg + todayLog.miscCost;
    var crates := Crates(todayLog);
    var capacity := LayingCapacity(crates, settings.currentStock);
    LayerFarmData(
      MortalityRate(todayLog, settings.currentStock),
      eggRevenue + incomeToday - totalCost,
      settings.feedAlertType,
      settings.feedAlertValue,
      FeedStockPercentage(stock),
      BagsInStock(stock),
      capacity,
      AvgLayingCapacity(window, settings.currentStock, capacity),
      Fcr(todayLog.feedUsed, crates))
  }

  /** `updateLayersDashboard`'s figures over the stored records. */
  function LayerKpis(settings: Settings, prices: seq<EggPrice>, logs: seq<DailyLog>,
                     incomes: seq<IncomeEntry>, purchases: seq<FeedPurchase>, stock: FeedStock,
                     todayText: string, cutoff: int): LayerFarmData
  {
    var todayLog := LogOfDay(logs, todayText);
    LayerData(settings, todayLog, LastDays(logs, cutoff), EggRevenue(todayLog.eggs, prices),
              IncomeOfDay(incomes, todayText), AvgFeedCostPerKg(purchases), stock)
  }

  /** A fresh layers store (no feed bought, default alert settings) is
      warned about low feed at once: 0 % in stock is below the default 25 %. */
  lemma FreshLayersStoreWarnsFeedLow(ft: FarmType, shared: SharedSettings, farm: FarmSettings,
                                      prices: seq<EggPrice>, logs: seq<DailyLog>,
                                      incomes: seq<IncomeEntry>, todayText: string, cutoff: int)
    requires shared.feedAlertType.None? && shared.feedAlertValue.None?
    ensures var settings := GetSettings(ft, shared, farm, logs);
      var stock := GetFeedStock([], logs, [], []);
      var d := LayerKpis(settings, prices, logs, incomes, [], stock, todayText, cutoff);
      Fired(LayerRules(d), LayerFeedLowPercent) && |Displayed(LayerRules(d))| == |LayerRules(d)|
  {
    var settings := GetSettings(ft, shared, farm, logs);
    var stock := GetFeedStock([], logs, [], []);
    var d := LayerKpis(settings, prices, logs, incomes, [], stock, todayText, cutoff);
    assert d.feedStockPercentage == 0.0;
    LayerFeedWarning(d);
    var i :| 0 <= i < |LayerRules(d)| && LayerRules(d)[i].rule == LayerFeedLowPercent;
  }

  // ---------------------------------------------------------------------------
  // Broilers
  // ---------------------------------------------------------------------------

  /** `adg`: today's average weight less yesterday's, counted only when both
      were recorded (positive). */
  function Adg(todayLog: DailyLog, yesterdayLog: DailyLog): (r: real)
    ensures r != 0.0 ==> todayLog.avgWeight > 0.0 && yesterdayLog.avgWeight > 0.0
    ensures todayLog.avgWeight > 0.0 && yesterdayLog.avgWeight > 0.0 ==>
      yesterdayLog.avgWeight + r == todayLog.avgWeight
  {
    if todayLog.avgWeight > 0.0 && yesterdayLog.avgWeight > 0.0 then todayLog.avgWeight - yesterdayLog.avgWeight
    else 0.0
  }

  /** `weightGainKg`: the flock's gain in kg, counted only for a positive ADG. */
  function WeightGainKg(adg: real, currentStock: real): (r: real)
    ensures adg > 0.0 ==> r * 1000.0 == adg * currentStock
    ensures adg <= 0.0 ==> r == 0.0
  {
    if adg > 0.0 then adg * currentStock / 1000.0 else 0.0
  }

  /** The broilers dashboard's KPI record from today's and yesterday's logs. */
  function BroilerData(settings: Settings, todayLog: DailyLog, yesterdayLog: DailyLog): (d: BroilerFarmData)
    ensures d.adg == Adg(todayLog, yesterdayLog)
    ensures d.mortalityRate == MortalityRate(todayLog, settings.currentStock)
    ensures d.fcr == Fcr(todayLog.feedUsed, WeightGainKg(d.adg, settings.currentStock))
  {
    var adg := Adg(todayLog, yesterdayLog);
    BroilerFarmData(
      MortalityRate(todayLog, settings.currentStock),
      adg,
      Fcr(todayLog.feedUsed, WeightGainKg(adg, settings.currentStock)))
  }

  /** `updateBroilersDashboard`'s figures over the stored logs. */
  function BroilerKpis(settings: Settings, logs: seq<DailyLog>, todayText: string, yesterdayText: string)
    : BroilerFarmData
  {
    BroilerData(settings, LogOfDay(logs, todayText), LogOfDay(logs, yesterdayText))
  }

  /** The FCR is 0 unless the flock gained (positive ADG and stock), so it is
      never negative for non-negative feed, and a negative ADG never comes
      with the FCR commendation. */
  lemma BroilerFcrNeedsGain(settings: Settings, todayLog: DailyLog, yesterdayLog: DailyLog)
    ensures var d := BroilerData(settings, todayLog, yesterdayLog);
      && (todayLog.feedUsed >= 0.0 ==> d.fcr >= 0.0)
      && (d.fcr != 0.0 ==> d.adg > 0.0 && settings.currentStock > 0.0)
      && (d.adg < 0.0 ==> !Fired(BroilerRules(d), BroilerExcellentFcr))
  {
    var d := BroilerData(settings, todayLog, yesterdayLog);
    var gain := WeightGainKg(d.adg, settings.currentStock);
    if d.fcr != 0.0 {
      assert gain > 0.0;
      assert d.adg > 0.0;
      assert gain * 1000.0 == d.adg * settings.currentStock;
    }
    if todayLog.feedUsed >= 0.0 && gain > 0.0 {
      assert d.fcr * gain == todayLog.feedUsed;
    }
    BroilerFcrExclusive(d);
  }

  /** Without a weight recorded yesterday (or today) there is no daily-gain
      message at all. */
  lemma BroilerNoWeighingNoGainAdvice(settings: Settings, todayLog: DailyLog, yesterdayLog: DailyLog)
    requires yesterdayLog.avgWeight <= 0.0 || todayLog.avgWeight <= 0.0
    ensures var d := BroilerData(settings, todayLog, yesterdayLog);
      !Fired(BroilerRules(d), BroilerNegativeAdg) && !Fired(BroilerRules(d), BroilerLowAdg)
      && !Fired(BroilerRules(d), BroilerGreatAdg)
  {
    var d := BroilerData(settings, todayLog, yesterdayLog);
    assert d.adg == 0.0;
    BroilerAdgExclusive(d);
  }

  // ---------------------------------------------------------------------------
  // Fish
  // ---------------------------------------------------------------------------

  predicate Weighed(l: DailyLog)
  {
    l.avgWeight > 0.0
  }

  function IsWeighed(): DailyLog -> bool
  {
    (l: DailyLog) => Weighed(l)
  }

  /** `weightLogs`: the logs with a weight sample, in date order. */
  function WeightLogs(logs: seq<DailyLog>): (w: seq<DailyLog>)
    ensures multiset(w) == multiset(Filter(logs, IsWeighed()))
    ensures SortedBy(w, Key)
  {
    SortByDate(Filter(logs, IsWeighed()))
  }

  /** A log is a sample exactly when it is a weighed log. */
  lemma WeightLogsMember(logs: seq<DailyLog>, l: DailyLog)
    ensures l in WeightLogs(logs) <==> l in logs && Weighed(l)
  {
    var w := WeightLogs(logs);
    var weighed := Filter(logs, IsWeighed());
    assert l in w <==> l in multiset(w);
    assert l in weighed <==> l in multiset(weighed);
  }

  /** The samples are exactly the weighed logs. */
  lemma WeightLogsMembers(logs: seq<DailyLog>)
    ensures forall l :: l in WeightLogs(logs) <==> l in logs && Weighed(l)
  {
    forall l {
      WeightLogsMember(logs, l);
    }
  }

  /** The last sample of `weightLogs`, and the one before it. */
  function LatestSample(w: seq<DailyLog>): (r: Option<DailyLog>)
    ensures r.Some? <==> |w| >= 1
    ensures r.Some? ==> r.value == w[|w| - 1]
  {
    if |w| >= 1 then Some(w[|w| - 1]) else None
  }

  function PreviousSample(w: seq<DailyLog>): (r: Option<DailyLog>)
    ensures r.Some? <==> |w| >= 2
    ensures r.Some? ==> r.value == w[|w| - 2]
  {
    if |w| >= 2 then Some(w[|w| - 2]) else None
  }

  /** `parseFloat(sample.avgWeight || settings.initialAvgWeight || '0')`: a
      sample's weight is positive, so only a missing sample falls back. */
  function SampleWeight(sample: Option<DailyLog>, initialAvgWeight: real): real
  {
    match sample
    case Some(l) => l.avgWeight
    case None => initialAvgWeight
  }

  /** Whole days from a date to today, or 0 when the date does not parse:
      `Math.floor((now - date) / 86400000)` with both on the local calendar. */
  function DaysSince(dateText: string, todayDay: int): int
  {
    match ParseDateString(dateText)
    case Some(d) => todayDay - DayNumber(d)
    case None => 0
  }

  /** `daysBetweenSamples`: the days between the two samples when both dates
      parse, otherwise the days since stocking, or 1 when that is 0. */
  function DaysBetweenSamples(latest: Option<DailyLog>, previous: Option<DailyLog>, daysSinceStocking: int): real
  {
    if latest.Some? && previous.Some?
       && ParseDateString(latest.value.date).Some? && ParseDateString(previous.value.date).Some?
    then (DateKey(latest.value.date) - DateKey(previous.value.date)) as real
    else if daysSinceStocking != 0 then daysSinceStocking as real
    else 1.0
  }

  /** `weightGain / (daysBetweenSamples || 1)`: the divisor is never 0. */
  function GrowthRate(gain: real, daysBetween: real): (r: real)
    ensures daysBetween != 0.0 ==> r * daysBetween == gain
    ensures daysBetween == 0.0 ==> r == gain
  {
    gain / (if daysBetween != 0.0 then daysBetween else 1.0)
  }

  /** The biomass gained since stocking, in kg: the stock at the latest
      weight less the initial stock at the stocking weight. */
  function BiomassGainKg(settings: Settings, w: seq<DailyLog>): real
  {
    settings.currentStock * SampleWeight(LatestSample(w), settings.farm.initialAvgWeight) / 1000.0
      - settings.initialStock * settings.farm.initialAvgWeight / 1000.0
  }

  /** The fish dashboard's KPI record from today's log, the weight samples
      in date order, the feed used over all logs and the days since stocking. */
  function FishData(settings: Settings, todayLog: DailyLog, w: seq<DailyLog>, totalFeedUsed: real,
                    daysSinceStocking: int): (d: FishFarmData)
    ensures d.waterPH == todayLog.waterPH && d.waterTemp == todayLog.waterTemp
    ensures d.daysSinceStocking == daysSinceStocking
    ensures d.mortalityRate == MortalityRate(todayLog, settings.currentStock)
    ensures d.fcr == Fcr(totalFeedUsed, BiomassGainKg(settings, w))
    ensures d.growthRate == GrowthRate(
              SampleWeight(LatestSample(w), settings.farm.initialAvgWeight)
                - SampleWeight(PreviousSample(w), settings.farm.initialAvgWeight),
              DaysBetweenSamples(LatestSample(w), PreviousSample(w), daysSinceStocking))
  {
    var latest := LatestSample(w);
    var previous := PreviousSample(w);
    var gain := SampleWeight(latest, settings.farm.initialAvgWeight)
                - SampleWeight(previous, settings.farm.initialAvgWeight);
    FishFarmData(
      MortalityRate(todayLog, settings.currentStock),
      Fcr(totalFeedUsed, BiomassGainKg(settings, w)),
      GrowthRate(gain, DaysBetweenSamples(latest, previous, daysSinceStocking)),
      daysSinceStocking,
      todayLog.waterPH,
      todayLog.waterTemp)
  }

  /** `updateFishDashboard`'s figures over the stored logs. */
  function FishKpis(settings: Settings, logs: seq<DailyLog>, todayText: string, todayDay: int): FishFarmData
  {
    FishData(settings, LogOfDay(logs, todayText), WeightLogs(logs), Sum(logs, FeedUsed),
             DaysSince(settings.farm.stockingDate, todayDay))
  }

  /** The latest sample is a weighed log, and no weighed log `l` is dated
      after it (so a weighed log means there is a latest sample). */
  lemma LatestSampleIsLatest(logs: seq<DailyLog>, l: DailyLog)
    ensures var latest := LatestSample(WeightLogs(logs));
      && (latest.Some? ==> latest.value in logs && Weighed(latest.value))
      && (l in logs && Weighed(l) ==> latest.Some? && Key(l) <= Key(latest.value))
  {
    var w := WeightLogs(logs);
    if |w| >= 1 {
      var last := w[|w| - 1];
      assert last in w;
      WeightLogsMember(logs, last);
    }
    if l in logs && Weighed(l) {
      WeightLogsMember(logs, l);
      SortedLastIsMax(w, Key, l);
    }
  }

  /** The previous sample is a weighed log not dated after the latest one. */
  lemma PreviousSampleNotLater(logs: seq<DailyLog>)
    ensures var w := WeightLogs(logs);
      PreviousSample(w).Some? ==>
        && PreviousSample(w).value in logs && Weighed(PreviousSample(w).value)
        && Key(PreviousSample(w).value) <= Key(LatestSample(w).value)
  {
    var w := WeightLogs(logs);
    if |w| >= 2 {
      var previous := w[|w| - 2];
      assert previous in w;
      WeightLogsMember(logs, previous);
      assert Key(previous) <= Key(w[|w| - 1]);
    }
  }

  /** When both sample dates parse, the days between them are never
      negative; otherwise the fallback is the days since stocking, or 1. */
  lemma DaysBetweenSamplesNonNegative(logs: seq<DailyLog>, daysSinceStocking: int)
    ensures var w := WeightLogs(logs);
      var days := DaysBetweenSamples(LatestSample(w), PreviousSample(w), daysSinceStocking);
      days >= 0.0 || (daysSinceStocking < 0 && days == daysSinceStocking as real)
  {
    var w := WeightLogs(logs);
    if |w| >= 2 {
      assert Key(w[|w| - 2]) <= Key(w[|w| - 1]);
    }
  }

  /** With no weighed log there is no weight sample. */
  lemma NoWeighedNoSamples(logs: seq<DailyLog>)
    requires forall i :: 0 <= i < |logs| ==> !Weighed(logs[i])
    ensures WeightLogs(logs) == []
  {
    FilterNone(logs, IsWeighed());
  }

  /** Without any weight sample the latest weight is the stocking weight,
      growth is 0, and the advisor reports stagnation exactly when more than
      a week has passed since stocking. */
  lemma NoSamplesMeansStagnation(settings: Settings, todayLog: DailyLog, totalFeedUsed: real, days: int)
    ensures var d := FishData(settings, todayLog, [], totalFeedUsed, days);
      && d.growthRate == 0.0
      && (Fired(FishRules(d), FishStagnant) <==> days > 7)
  {
    var d := FishData(settings, todayLog, [], totalFeedUsed, days);
    FishStagnation(d);
  }

  /** The fish FCR is 0 whenever the biomass did not grow, and otherwise
      the feed used per kg gained; without growth neither FCR message shows. */
  lemma FishFcrNeedsGain(settings: Settings, todayLog: DailyLog, w: seq<DailyLog>, totalFeedUsed: real, days: int)
    ensures var d := FishData(settings, todayLog, w, totalFeedUsed, days);
      && (BiomassGainKg(settings, w) <= 0.0 ==>
            d.fcr == 0.0 && !Fired(FishRules(d), FishHighFcr) && !Fired(FishRules(d), FishExcellentFcr))
      && (BiomassGainKg(settings, w) > 0.0 ==> d.fcr * BiomassGainKg(settings, w) == totalFeedUsed)
  {
    var d := FishData(settings, todayLog, w, totalFeedUsed, days);
    var gain := BiomassGainKg(settings, w);
    assert d.fcr == Fcr(totalFeedUsed, gain);
    FishFcrAdvice(d);
  }

  // ---------------------------------------------------------------------------
  // Flock age
  // ---------------------------------------------------------------------------

  /** `updateFlockAgeKPI`: whole days since the flock start date when the
      card is switched on and the date parses, otherwise 0. */
  function FlockAge(farm: FarmSettings, todayDay: int): int
  {
    if farm.showFlockAge && farm.flockStartDate != "" then DaysSince(farm.flockStartDate, todayDay) else 0
  }

  /** For a start date saved by the date picker (an ISO date), the age is the
      number of days from it to today, and it grows by one each day. */
  lemma FlockAgeOfIsoStart(farm: FarmSettings, start: CalendarDate, todayDay: int)
    requires farm.showFlockAge && ValidDate(start) && 100 <= start.year <= 9999
    requires farm.flockStartDate == IsoDate(start)
    ensures FlockAge(farm, todayDay) == todayDay - DayNumber(start)
    ensures FlockAge(farm, todayDay + 1) == FlockAge(farm, todayDay) + 1
  {
    ParseIsoDate(start);
  }

  /** With the card switched off, or no start date, the age is 0. */
  lemma FlockAgeHidden(farm: FarmSettings, todayDay: int)
    requires !farm.showFlockAge || farm.flockStartDate == ""
    ensures FlockAge(farm, todayDay) == 0
  {
  }
}
