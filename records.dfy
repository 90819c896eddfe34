/** The stored records of a farm and the list operations the save and delete
    handlers apply to them: upsert by id, the stable sort by parsed date, and
    removal by id. */
module Records {
  import opened Seqs
  import opened Dates
  import opened Sorting

  datatype FarmType = Layers | Broilers | Fish

  /** One value of a log's `eggs` object: the crate-equivalent laid today of
      one egg size. The sequence keeps the object's insertion order. */
  datatype EggTally = EggTally(name: string, crates: real)

  /** A daily log. The three farm types store different fields; a field the
      farm type does not record is 0 (or empty), which is how every reader
      treats a missing field. */
  datatype DailyLog = DailyLog(
    id: int,
    date: string,
    mortality: real,
    miscCost: real,
    feedUsed: real,
    eggs: seq<EggTally>,
    avgWeight: real,
    feedType: string,
    waterPH: real,
    waterTemp: real)

  datatype IncomeEntry = IncomeEntry(
    id: int,
    date: string,
    category: string,
    quantity: real,
    weight: real,
    amount: real,
    notes: string)

  datatype FeedPurchase = FeedPurchase(id: int, date: string, bags: real, weight: real, cost: real)

  datatype EggPrice = EggPrice(name: string, price: real)

  /** The log `find` falls back to (`|| {}`): every numeric field reads as 0. */
  const EmptyLog := DailyLog(0, "", 0.0, 0.0, 0.0, [], 0.0, "", 0.0, 0.0)

  // ---------------------------------------------------------------------------
  // Upsert by id (the edit-or-append step of saveDailyLog and saveIncomeEntry)
  // ---------------------------------------------------------------------------

  function LogId(l: DailyLog): int
  {
    l.id
  }

  function IncomeId(e: IncomeEntry): int
  {
    e.id
  }

  /** `if (currentEditId)`: null and 0 are both falsy. */
  predicate IsEditing(editId: Option<int>)
  {
    editId.Some? && editId.value != 0
  }

  /** `currentEditId || Date.now()`. */
  function EntryId(editId: Option<int>, now: int): (id: int)
    ensures IsEditing(editId) ==> id == editId.value
    ensures !IsEditing(editId) ==> id == now
  {
    if IsEditing(editId) then editId.value else now
  }

  function IdIs<T>(idOf: T -> int, id: int): T -> bool
  {
    x => idOf(x) == id
  }

  /** Without an edit id, push `entry`; with one, overwrite the first element
      carrying that id, or leave the list alone when there is none. */
  function Upsert<T>(s: seq<T>, entry: T, editId: Option<int>, idOf: T -> int): (r: seq<T>)
    ensures !IsEditing(editId) ==> |r| == |s| + 1 && r[..|s|] == s && r[|s|] == entry
    ensures IsEditing(editId) ==> |r| == |s|
    ensures IsEditing(editId) && FindIndex(s, IdIs(idOf, editId.value)).Some? ==>
      var i := FindIndex(s, IdIs(idOf, editId.value)).value;
      idOf(s[i]) == editId.value && r[i] == entry &&
      (forall j :: 0 <= j < i ==> idOf(s[j]) != editId.value) &&
      (forall j :: 0 <= j < |s| && j != i ==> r[j] == s[j])
    ensures IsEditing(editId) && (forall j :: 0 <= j < |s| ==> idOf(s[j]) != editId.value) ==> r == s
  {
    if !IsEditing(editId) then s + [entry]
    else
      match FindIndex(s, IdIs(idOf, editId.value))
      case None => s
      case Some(i) => s[i := entry]
  }

  /** The contents after an upsert: one element more, one element swapped
      for the entry, or nothing changed. */
  lemma UpsertContents<T>(s: seq<T>, entry: T, editId: Option<int>, idOf: T -> int)
    ensures var r := Upsert(s, entry, editId, idOf);
      || (!IsEditing(editId) && multiset(r) == multiset(s) + multiset{entry})
      || (IsEditing(editId) &&
          (exists i :: 0 <= i < |s| && idOf(s[i]) == editId.value &&
             multiset(r) == multiset(s) - multiset{s[i]} + multiset{entry}))
      || (IsEditing(editId) && r == s)
  {
    var r := Upsert(s, entry, editId, idOf);
    if !IsEditing(editId) {
      assert r == s + [entry];
    } else {
      match FindIndex(s, IdIs(idOf, editId.value))
      case None =>
      case Some(i) =>
        assert r == s[i := entry];
        assert s == s[..i] + [s[i]] + s[i + 1..];
        assert r == s[..i] + [entry] + s[i + 1..];
    }
  }

  // ---------------------------------------------------------------------------
  // The stable sort by parsed date
  // ---------------------------------------------------------------------------

  /** The comparator key `parseDateString(date)?.getTime() || 0`, in days:
      an unparseable date sorts like 1970-01-01. */
  function DateKey(date: string): int
  {
    match ParseDateString(date)
    case Some(d) => DayNumber(d)
    case None => 0
  }

  function Key(l: DailyLog): int
  {
    DateKey(l.date)
  }

  /** `dailyLogs.sort(...)` with the date comparator: stable and ascending. */
  function SortByDate(s: seq<DailyLog>): (r: seq<DailyLog>)
    ensures SortedBy(r, Key)
    ensures multiset(r) == multiset(s)
  {
    SortBy(s, Key)
  }

  /** The list `saveDailyLog` writes back: the upsert, then the sort. */
  function SavedLogs(logs: seq<DailyLog>, entry: DailyLog, editId: Option<int>): (r: seq<DailyLog>)
    ensures SortedBy(r, Key)
    ensures multiset(r) == multiset(Upsert(logs, entry, editId, LogId))
  {
    SortByDate(Upsert(logs, entry, editId, LogId))
  }

  /** Any total over the logs (mortality, feed used) moves by exactly the
      saved entry: added when appended, swapped for the overwritten log when
      editing, unchanged when the edited id is gone. */
  lemma SumAfterSave(logs: seq<DailyLog>, entry: DailyLog, editId: Option<int>, f: DailyLog -> real)
    ensures !IsEditing(editId) ==>
      Sum(SavedLogs(logs, entry, editId), f) == Sum(logs, f) + f(entry)
    ensures IsEditing(editId) && FindIndex(logs, IdIs(LogId, editId.value)).Some? ==>
      var i := FindIndex(logs, IdIs(LogId, editId.value)).value;
      Sum(SavedLogs(logs, entry, editId), f) == Sum(logs, f) - f(logs[i]) + f(entry)
    ensures IsEditing(editId) && FindIndex(logs, IdIs(LogId, editId.value)).None? ==>
      Sum(SavedLogs(logs, entry, editId), f) == Sum(logs, f)
  {
    var upserted := Upsert(logs, entry, editId, LogId);
    SumPermutation(SavedLogs(logs, entry, editId), upserted, f);
    if !IsEditing(editId) {
      SumAppend(logs, [entry], f);
    } else {
      match FindIndex(logs, IdIs(LogId, editId.value))
      case None =>
      case Some(i) =>
        SumUpdate(logs, i, entry, f);
    }
  }

  // ---------------------------------------------------------------------------
  // deleteFeedPurchase
  // ---------------------------------------------------------------------------

  function IdIsNot(id: int): FeedPurchase -> bool
  {
    (p: FeedPurchase) => p.id != id
  }

  /** `purchases.filter(p => p.id !== id)`. */
  function RemoveById(purchases: seq<FeedPurchase>, id: int): (r: seq<FeedPurchase>)
    ensures forall p :: p in r <==> p in purchases && p.id != id
  {
    Filter(purchases, IdIsNot(id))
  }

  /** Deleting keeps the survivors in their original order: it works piece
      by piece over a concatenation, and a single purchase stays exactly
      when its id differs. */
  lemma RemoveByIdAppend(a: seq<FeedPurchase>, b: seq<FeedPurchase>, id: int)
    ensures RemoveById(a + b, id) == RemoveById(a, id) + RemoveById(b, id)
    ensures forall p :: RemoveById([p], id) == if p.id != id then [p] else []
  {
    FilterAppend(a, b, IdIsNot(id));
    forall p
      ensures RemoveById([p], id) == if p.id != id then [p] else []
    {
      assert [p][1..] == [];
    }
  }

  /** Deleting removes exactly the purchases carrying the id: everything
      else is kept, with its multiplicity. */
  lemma RemoveByIdKeepsRest(purchases: seq<FeedPurchase>, id: int)
    ensures multiset(RemoveById(purchases, id)) + multiset(Filter(purchases, Not(IdIsNot(id))))
            == multiset(purchases)
    ensures forall p :: p in Filter(purchases, Not(IdIsNot(id))) ==> p.id == id
    ensures (forall j :: 0 <= j < |purchases| ==> purchases[j].id != id) ==>
            RemoveById(purchases, id) == purchases
  {
    FilterSplit(purchases, IdIsNot(id));
    if forall j :: 0 <= j < |purchases| ==> purchases[j].id != id {
      FilterKeepsAll(purchases, IdIsNot(id));
    }
  }

  /** Deleting twice is deleting once. */
  lemma RemoveByIdIdempotent(purchases: seq<FeedPurchase>, id: int)
    ensures RemoveById(RemoveById(purchases, id), id) == RemoveById(purchases, id)
  {
    var r := RemoveById(purchases, id);
    assert forall j :: 0 <= j < |r| ==> r[j] in r;
    FilterKeepsAll(r, IdIsNot(id));
  }
}
