/** The application object: the farm type being managed, the ids of the log
    and income entry being edited, and the browser storage its handlers read
    and write. Storage keys are prefixed by farm type (`layers_dailyLogs`,
    ...), except the feed purchases and the shared settings, which all farm
    types see. The clock enters as parameters: `now` for `Date.now()`, the
    ISO texts of today and yesterday, today's day number, the calendar date
    of today, and the day number from which the 7-day window starts. */
module Store {
  import opened Seqs
  import opened Dates
  import opened Sorting
  import opened Records
  import opened Eggs
  import opened Ledger
  import opened Advisory
  import opened Kpi

  /** One value per farm type: what a farm-type-prefixed storage key holds. */
  datatype PerFarm<T> = PerFarm(layers: T, broilers: T, fish: T)
  {
    function Get(ft: FarmType): T
    {
      match ft
      case Layers => layers
      case Broilers => broilers
      case Fish => fish
    }

    function Set(ft: FarmType, v: T): (r: PerFarm<T>)
      ensures r.Get(ft) == v
      ensures forall other :: other != ft ==> r.Get(other) == Get(other)
    {
      match ft
      case Layers => this.(layers := v)
      case Broilers => this.(broilers := v)
      case Fish => this.(fish := v)
    }
  }

  /** The browser storage the app keeps its records in. */
  datatype Storage = Storage(
    savedFarmType: Option<FarmType>,
    dailyLogs: PerFarm<seq<DailyLog>>,
    incomeEntries: PerFarm<seq<IncomeEntry>>,
    eggPrices: PerFarm<seq<EggPrice>>,
    farmSettings: PerFarm<FarmSettings>,
    shared: SharedSettings,
    feedPurchases: seq<FeedPurchase>)

  /** The daily-log form as read on save; a blank number reads as 0, and an
      egg size without inputs as 0 crates and 0 eggs. */
  datatype LogForm = LogForm(
    date: string,
    mortality: real,
    eggCounts: map<string, EggCount>,
    feedUsed: real,
    miscCost: real,
    avgWeight: real,
    feedType: string,
    waterPH: real,
    waterTemp: real)

  /** The income form as read on save, with the category select of the
      current farm type. */
  datatype IncomeForm = IncomeForm(
    date: string,
    category: string,
    quantity: real,
    weight: real,
    amount: real,
    notes: string)

  /** The feed purchase form; `None` is a weight or cost field left blank. */
  datatype PurchaseForm = PurchaseForm(date: string, bags: real, weight: Option<real>, cost: Option<real>)

  /** The log `saveDailyLog` stores: each farm type keeps the fields its form
      has; layers keep one crate-equivalent per egg size on the price list. */
  function NewLog(ft: FarmType, form: LogForm, prices: seq<EggPrice>, id: int): (l: DailyLog)
    ensures l.id == id && l.date == form.date && l.mortality == form.mortality
    ensures l.feedUsed == form.feedUsed && l.miscCost == form.miscCost
    ensures ft == Layers ==> l.eggs == EggsOf(prices, form.eggCounts) && l.avgWeight == 0.0
    ensures ft != Layers ==> l.eggs == [] && l.avgWeight == form.avgWeight
    ensures ft == Fish ==> l.waterPH == form.waterPH && l.waterTemp == form.waterTemp
    ensures ft != Fish ==> l.waterPH == 0.0 && l.waterTemp == 0.0
  {
    match ft
    case Layers =>
      DailyLog(id, form.date, form.mortality, form.miscCost, form.feedUsed,
               EggsOf(prices, form.eggCounts), 0.0, "", 0.0, 0.0)
    case Broilers =>
      DailyLog(id, form.date, form.mortality, form.miscCost, form.feedUsed,
               [], form.avgWeight, form.feedType, 0.0, 0.0)
    case Fish =>
      DailyLog(id, form.date, form.mortality, form.miscCost, form.feedUsed,
               [], form.avgWeight, "", form.waterPH, form.waterTemp)
  }

  /** `Date.now()` as the id unless an entry is being edited. */
  function NewIncome(form: IncomeForm, id: int): IncomeEntry
  {
    IncomeEntry(id, form.date, form.category, form.quantity, form.weight, form.amount, form.notes)
  }

  /** Date, weight and cost must be filled in; bags may be left blank. */
  predicate PurchaseComplete(form: PurchaseForm)
  {
    form.date != "" && form.weight.Some? && form.cost.Some?
  }

  /** `Number(x.feedUsed || 0)` summed over the logs of every farm type. */
  function PoolOf(s: Storage): FeedStock
  {
    GetFeedStock(s.feedPurchases, s.dailyLogs.Get(Layers), s.dailyLogs.Get(Broilers), s.dailyLogs.Get(Fish))
  }

  function SettingsOf(s: Storage, ft: FarmType): Settings
  {
    GetSettings(ft, s.shared, s.farmSettings.Get(ft), s.dailyLogs.Get(ft))
  }

  /** The `forEach` of `saveDailyLog` over the egg price list:
      `eggsData[egg.name] = crates + loose / 30`, one egg size at a time. */
  method BuildEggs(prices: seq<EggPrice>, counts: map<string, EggCount>) returns (eggs: seq<EggTally>)
    ensures eggs == EggsOf(prices, counts)
  {
    eggs := [];
    var i := 0;
    while i < |prices|
      invariant 0 <= i <= |prices|
      invariant eggs == EggsOf(prices[..i], counts)
    {
      var name := prices[i].name;
      assert prices[..i + 1][..i] == prices[..i];
      eggs := Put(eggs, name, CrateEquivalent(CountOf(counts, name)));
      i := i + 1;
    }
    assert prices[..|prices|] == prices;
  }

  /** The edit-or-append step of the save handlers: with an edit id,
      `findIndex` and overwrite when found; without one, `push`. */
  method UpsertList<T>(s: seq<T>, entry: T, editId: Option<int>, idOf: T -> int) returns (r: seq<T>)
    ensures r == Upsert(s, entry, editId, idOf)
  {
    r := s;
    if IsEditing(editId) {
      var index := FindIndex(r, IdIs(idOf, editId.value));
      if index.Some? {
        r := r[index.value := entry];
      }
    } else {
      r := r + [entry];
    }
  }

  /** The `forEach` of `updateLayersDashboard` over the egg price list:
      `revenue += (eggs[egg.name] || 0) * egg.price`. */
  method EggSales(eggs: seq<EggTally>, prices: seq<EggPrice>) returns (revenue: real)
    ensures revenue == EggRevenue(eggs, prices)
  {
    revenue := 0.0;
    var i := 0;
    while i < |prices|
      invariant 0 <= i <= |prices|
      invariant revenue == Sum(prices[..i], PriceLine(eggs))
    {
      SumStep(prices, i, PriceLine(eggs));
      revenue := revenue + EggValue(eggs, prices[i].name) * prices[i].price;
      i := i + 1;
    }
    assert prices[..|prices|] == prices;
  }

  /** `slice().reverse().forEach(...)`: the list walked from its last
      element to its first. */
  method NewestFirst<T>(s: seq<T>) returns (r: seq<T>)
    ensures r == Reverse(s)
  {
    r := [];
    var i := |s|;
    while i > 0
      invariant 0 <= i <= |s|
      invariant r == Reverse(s[i..])
    {
      i := i - 1;
      assert s[i..][1..] == s[i + 1..];
      r := r + [s[i]];
    }
  }

  /** The entries of the period, newest first, and their total amount. */
  method IncomeLedger(entries: seq<IncomeEntry>, filter: LedgerFilter, today: CalendarDate)
    returns (listed: seq<IncomeEntry>, revenue: real)
    requires ValidDate(today)
    ensures listed == Reverse(FilterLedger(entries, filter, today))
    ensures revenue == LedgerRevenue(entries, filter, today)
  {
    var kept := FilterLedger(entries, filter, today);
    revenue := Sum(kept, Amount);
    listed := NewestFirst(kept);
  }

  class FarmStore {
    var currentFarmType: FarmType
    var currentEditLogId: Option<int>
    var currentEditIncomeId: Option<int>
    var storage: Storage

    /** No edit in progress. The constructor starts here and no handler ever
        sets an edit id to anything but null, so every log and income entry
        saved is a new one. */
    predicate Valid()
      reads this
    {
      currentEditLogId == None && currentEditIncomeId == None
    }

    /** Start-up: the farm type saved last time, or layers. */
    constructor (storage: Storage)
      ensures Valid()
      ensures currentFarmType == if storage.savedFarmType.Some? then storage.savedFarmType.value else Layers
      ensures this.storage == storage
    {
      currentFarmType := if storage.savedFarmType.Some? then storage.savedFarmType.value else Layers;
      currentEditLogId := None;
      currentEditIncomeId := None;
      this.storage := storage;
    }

    /** Switch the farm type and remember the choice for the next start. */
    method SwitchFarmType(ft: FarmType)
      modifies this
      ensures old(Valid()) ==> Valid()
      ensures currentFarmType == ft
      ensures currentEditLogId == old(currentEditLogId) && currentEditIncomeId == old(currentEditIncomeId)
      ensures storage == old(storage).(savedFarmType := Some(ft))
    {
      currentFarmType := ft;
      storage := storage.(savedFarmType := Some(ft));
    }

    /** Opening the daily-log form clears the edit id. */
    method OpenLogModal()
      modifies this
      ensures old(Valid()) ==> Valid()
      ensures currentEditLogId == None
      ensures currentFarmType == old(currentFarmType) && currentEditIncomeId == old(currentEditIncomeId)
      ensures storage == old(storage)
    {
      currentEditLogId := None;
    }

    /** Opening the income form clears the edit id. */
    method OpenIncomeModal()
      modifies this
      ensures old(Valid()) ==> Valid()
      ensures currentEditIncomeId == None
      ensures currentFarmType == old(currentFarmType) && currentEditLogId == old(currentEditLogId)
      ensures storage == old(storage)
    {
      currentEditIncomeId := None;
    }

    /** `saveDailyLog`: build the log from the form (for layers, one
        crate-equivalent per egg size on the price list), upsert it into
        the current farm type's logs and sort them by date. Only those logs
        change; without an entry being edited, the list gains exactly the
        new log. */
    method SaveDailyLog(form: LogForm, now: int)
      modifies this
      ensures old(Valid()) ==> Valid()
      ensures currentFarmType == old(currentFarmType)
      ensures currentEditLogId == old(currentEditLogId) && currentEditIncomeId == old(currentEditIncomeId)
      ensures var ft := currentFarmType;
        var entry := NewLog(ft, form, old(storage).eggPrices.Get(ft), EntryId(old(currentEditLogId), now));
        storage == old(storage).(dailyLogs := old(storage).dailyLogs.Set(ft,
                     SavedLogs(old(storage).dailyLogs.Get(ft), entry, old(currentEditLogId))))
      ensures !IsEditing(currentEditLogId) ==>
        var logs := storage.dailyLogs.Get(currentFarmType);
        && SortedBy(logs, Key)
        && multiset(logs) == multiset(old(storage).dailyLogs.Get(currentFarmType))
                             + multiset{NewLog(currentFarmType, form, storage.eggPrices.Get(currentFarmType), now)}
    {
      var ft := currentFarmType;
      var id := EntryId(currentEditLogId, now);
      var entry: DailyLog;
      if ft == Layers {
        var eggs := BuildEggs(storage.eggPrices.Get(ft), form.eggCounts);
        entry := DailyLog(id, form.date, form.mortality, form.miscCost, form.feedUsed, eggs, 0.0, "", 0.0, 0.0);
      } else if ft == Broilers {
        entry := DailyLog(id, form.date, form.mortality, form.miscCost, form.feedUsed,
                          [], form.avgWeight, form.feedType, 0.0, 0.0);
      } else {
        entry := DailyLog(id, form.date, form.mortality, form.miscCost, form.feedUsed,
                          [], form.avgWeight, "", form.waterPH, form.waterTemp);
      }
      var logs := UpsertList(storage.dailyLogs.Get(ft), entry, currentEditLogId, LogId);
      logs := SortByDate(logs);
      storage := storage.(dailyLogs := storage.dailyLogs.Set(ft, logs));
    }

    /** `saveIncomeEntry`: upsert the entry into the current farm type's
        income list, which is not sorted. Only that list changes; without an
        entry being edited, it gains the new entry at the end. */
    method SaveIncomeEntry(form: IncomeForm, now: int)
      modifies this
      ensures old(Valid()) ==> Valid()
      ensures currentFarmType == old(currentFarmType)
      ensures currentEditLogId == old(currentEditLogId) && currentEditIncomeId == old(currentEditIncomeId)
      ensures storage == old(storage).(incomeEntries := old(storage).incomeEntries.Set(currentFarmType,
                Upsert(old(storage).incomeEntries.Get(currentFarmType),
                       NewIncome(form, EntryId(old(currentEditIncomeId), now)), old(currentEditIncomeId), IncomeId)))
      ensures !IsEditing(currentEditIncomeId) ==>
        storage.incomeEntries.Get(currentFarmType)
          == old(storage).incomeEntries.Get(currentFarmType) + [NewIncome(form, now)]
    {
      var ft := currentFarmType;
      var entry := NewIncome(form, EntryId(currentEditIncomeId, now));
      var entries := UpsertList(storage.incomeEntries.Get(ft), entry, currentEditIncomeId, IncomeId);
      storage := storage.(incomeEntries := storage.incomeEntries.Set(ft, entries));
    }

    /** The feed form's save button: refused unless date, weight and cost are
        filled in; otherwise the purchase is appended to the shared list. */
    method SaveFeedPurchase(form: PurchaseForm, now: int) returns (saved: bool)
      modifies this
      ensures old(Valid()) ==> Valid()
      ensures saved <==> PurchaseComplete(form)
      ensures saved ==> storage == old(storage).(feedPurchases := old(storage).feedPurchases +
                [FeedPurchase(now, form.date, form.bags, form.weight.value, form.cost.value)])
      ensures !saved ==> storage == old(storage)
      ensures currentFarmType == old(currentFarmType)
      ensures currentEditLogId == old(currentEditLogId) && currentEditIncomeId == old(currentEditIncomeId)
    {
      if form.date == "" || form.weight.None? || form.cost.None? {
        return false;
      }
      var purchase := FeedPurchase(now, form.date, form.bags, form.weight.value, form.cost.value);
      storage := storage.(feedPurchases := storage.feedPurchases + [purchase]);
      saved := true;
    }

    /** `deleteFeedPurchase`: drop every purchase carrying the id. */
    method DeleteFeedPurchase(id: int)
      modifies this
      ensures old(Valid()) ==> Valid()
      ensures storage == old(storage).(feedPurchases := RemoveById(old(storage).feedPurchases, id))
      ensures currentFarmType == old(currentFarmType)
      ensures currentEditLogId == old(currentEditLogId) && currentEditIncomeId == old(currentEditIncomeId)
    {
      storage := storage.(feedPurchases := Filter(storage.feedPurchases, IdIsNot(id)));
    }

    /** `loadIncomeLedger`: the current farm type's entries in the period,
        listed newest first, and their total amount. */
    method LoadIncomeLedger(filter: LedgerFilter, today: CalendarDate) returns (listed: seq<IncomeEntry>, revenue: real)
      requires ValidDate(today)
      ensures listed == Reverse(FilterLedger(storage.incomeEntries.Get(currentFarmType), filter, today))
      ensures revenue == LedgerRevenue(storage.incomeEntries.Get(currentFarmType), filter, today)
    {
      listed, revenue := IncomeLedger(storage.incomeEntries.Get(currentFarmType), filter, today);
    }

    /** `updateLayersDashboard`: today's egg revenue summed size by size over
        the price list, the layers KPIs over the shared feed pool, then the
        advisor's messages as the panel shows them: at least one, at most six,
        critical ones first. */
    method LayersDashboard(todayText: string, cutoff: int) returns (shown: seq<AdviceMessage>)
      requires currentFarmType == Layers
      ensures shown == Displayed(LayerRules(LayerKpis(SettingsOf(storage, Layers), storage.eggPrices.Get(Layers),
                storage.dailyLogs.Get(Layers), storage.incomeEntries.Get(Layers), storage.feedPurchases,
                PoolOf(storage), todayText, cutoff)))
      ensures 1 <= |shown| <= 6 && SeverityOrdered(shown)
    {
      var logs := storage.dailyLogs.Get(Layers);
      var todayLog := LogOfDay(logs, todayText);
      var eggSaleRevenue := EggSales(todayLog.eggs, storage.eggPrices.Get(Layers));
      var d := LayerData(SettingsOf(storage, Layers), todayLog, LastDays(logs, cutoff), eggSaleRevenue,
                         IncomeOfDay(storage.incomeEntries.Get(Layers), todayText),
                         AvgFeedCostPerKg(storage.feedPurchases), PoolOf(storage));
      var advice := LayerAdvice(d);
      LayerOrdered(d);
      LayerLength(d);
      shown := Displayed(advice);
    }

    /** `updateBroilersDashboard`: the broilers KPIs from today's and
        yesterday's logs, then the advisor's messages as the panel shows them:
        at least one, at most three, critical ones first. */
    method BroilersDashboard(todayText: string, yesterdayText: string) returns (shown: seq<AdviceMessage>)
      requires currentFarmType == Broilers
      ensures shown == Displayed(BroilerRules(BroilerKpis(SettingsOf(storage, Broilers),
                storage.dailyLogs.Get(Broilers), todayText, yesterdayText)))
      ensures 1 <= |shown| <= 3 && SeverityOrdered(shown)
    {
      var d := BroilerKpis(SettingsOf(storage, Broilers), storage.dailyLogs.Get(Broilers), todayText, yesterdayText);
      var advice := BroilerAdvice(d);
      BroilerOrdered(d);
      BroilerLength(d);
      shown := Displayed(advice);
    }

    /** `updateFishDashboard`: the fish KPIs from the weight samples, then the
        advisor's messages as the panel shows them: at least one, at most
        six, critical ones first. */
    method FishDashboard(todayText: string, todayDay: int) returns (shown: seq<AdviceMessage>)
      requires currentFarmType == Fish
      ensures shown == Displayed(FishRules(FishKpis(SettingsOf(storage, Fish),
                storage.dailyLogs.Get(Fish), todayText, todayDay)))
      ensures 1 <= |shown| <= 6 && SeverityOrdered(shown)
    {
      var d := FishKpis(SettingsOf(storage, Fish), storage.dailyLogs.Get(Fish), todayText, todayDay);
      var advice := FishAdvice(d);
      FishOrdered(d);
      FishLength(d);
      shown := Displayed(advice);
    }

    /** `updateDashboard`: the dashboard of the current farm type. */
    method UpdateDashboard(todayText: string, yesterdayText: string, todayDay: int, cutoff: int)
      returns (shown: seq<AdviceMessage>)
      ensures currentFarmType == Layers ==>
        shown == Displayed(LayerRules(LayerKpis(SettingsOf(storage, Layers), storage.eggPrices.Get(Layers),
                   storage.dailyLogs.Get(Layers), storage.incomeEntries.Get(Layers), storage.feedPurchases,
                   PoolOf(storage), todayText, cutoff)))
      ensures currentFarmType == Broilers ==>
        shown == Displayed(BroilerRules(BroilerKpis(SettingsOf(storage, Broilers),
                   storage.dailyLogs.Get(Broilers), todayText, yesterdayText)))
      ensures currentFarmType == Fish ==>
        shown == Displayed(FishRules(FishKpis(SettingsOf(storage, Fish),
                   storage.dailyLogs.Get(Fish), todayText, todayDay)))
      ensures 1 <= |shown| <= 6 && SeverityOrdered(shown)
      ensures currentFarmType == Broilers ==> |shown| <= 3
    {
      match currentFarmType
      case Layers => shown := LayersDashboard(todayText, cutoff);
      case Broilers => shown := BroilersDashboard(todayText, yesterdayText);
      case Fish => shown := FishDashboard(todayText, todayDay);
    }
  }
}
