/** Egg counts: the crate-equivalent stored per egg size when a layers log is
    saved, the `eggs` object that holds them, and the sums the dashboard takes
    over it. */
module Eggs {
  import opened Seqs
  import opened Records

  /** What the log form holds for one egg size: whole crates and loose eggs. */
  datatype EggCount = EggCount(crates: real, loose: real)

  const EggsPerCrate: real := 30.0

  /** `crates + (loose / 30)`. */
  function CrateEquivalent(c: EggCount): (r: real)
    ensures r * EggsPerCrate == c.crates * EggsPerCrate + c.loose
  {
    c.crates + c.loose / EggsPerCrate
  }

  /** Loose eggs add less than one crate as long as they are fewer than 30. */
  lemma CrateEquivalentBounds(c: EggCount)
    requires 0.0 <= c.loose < EggsPerCrate
    ensures c.crates <= CrateEquivalent(c) < c.crates + 1.0
  {
  }

  /** An egg size with no entry in the form counts as 0 crates and 0 eggs. */
  function CountOf(counts: map<string, EggCount>, name: string): EggCount
  {
    if name in counts then counts[name] else EggCount(0.0, 0.0)
  }

  predicate HasName(eggs: seq<EggTally>, name: string)
  {
    exists i :: 0 <= i < |eggs| && eggs[i].name == name
  }

  /** `eggs[name]` on the object the sequence stands for. */
  function Lookup(eggs: seq<EggTally>, name: string): (r: Option<real>)
    ensures r.None? <==> !HasName(eggs, name)
    ensures r.Some? ==> exists i :: 0 <= i < |eggs| && eggs[i] == EggTally(name, r.value)
  {
    if |eggs| == 0 then None
    else if eggs[0].name == name then Some(eggs[0].crates)
    else
      var r := Lookup(eggs[1..], name);
      assert r.Some? ==> exists i :: 0 <= i < |eggs[1..]| && eggs[1..][i] == EggTally(name, r.value);
      assert HasName(eggs[1..], name) ==> HasName(eggs, name) by {
        if HasName(eggs[1..], name) {
          var i :| 0 <= i < |eggs[1..]| && eggs[1..][i].name == name;
          assert eggs[i + 1].name == name;
        }
      }
      r
  }

  /** `eggs[name] || 0`. */
  function EggValue(eggs: seq<EggTally>, name: string): real
  {
    match Lookup(eggs, name)
    case Some(v) => v
    case None => 0.0
  }

  /** `eggs[name] = v`: overwrite the value of an existing key in place,
      otherwise add the key at the end. */
  function Put(eggs: seq<EggTally>, name: string, v: real): seq<EggTally>
  {
    if |eggs| == 0 then [EggTally(name, v)]
    else if eggs[0].name == name then [EggTally(name, v)] + eggs[1..]
    else [eggs[0]] + Put(eggs[1..], name, v)
  }

  /** After `eggs[name] = v`, reading `name` gives `v` and every other key
      reads as before. */
  lemma {:induction false} PutLookup(eggs: seq<EggTally>, name: string, v: real, n: string)
    ensures Lookup(Put(eggs, name, v), n) == if n == name then Some(v) else Lookup(eggs, n)
  {
    if |eggs| > 0 && eggs[0].name != name {
      PutLookup(eggs[1..], name, v, n);
      assert Put(eggs, name, v)[1..] == Put(eggs[1..], name, v);
    }
  }

  /** A key the object does not have yet is added at the end. */
  lemma {:induction false} PutNew(eggs: seq<EggTally>, name: string, v: real)
    requires !HasName(eggs, name)
    ensures Put(eggs, name, v) == eggs + [EggTally(name, v)]
  {
    if |eggs| > 0 {
      assert !HasName(eggs[1..], name);
      PutNew(eggs[1..], name, v);
      assert eggs == [eggs[0]] + eggs[1..];
    }
  }

  /** The `eggs` object saveDailyLog builds: for each egg size in the price
      list, in order, `eggsData[name] = crates + loose / 30`. */
  function EggsOf(prices: seq<EggPrice>, counts: map<string, EggCount>): seq<EggTally>
  {
    if |prices| == 0 then []
    else
      var name := prices[|prices| - 1].name;
      Put(EggsOf(prices[..|prices| - 1], counts), name, CrateEquivalent(CountOf(counts, name)))
  }

  predicate PriceNamed(prices: seq<EggPrice>, name: string)
  {
    exists i :: 0 <= i < |prices| && prices[i].name == name
  }

  /** Every egg size on the price list gets its crate-equivalent and nothing
      else gets a value; a repeated name is counted once. */
  lemma {:induction false} EggsOfLookup(prices: seq<EggPrice>, counts: map<string, EggCount>, name: string)
    ensures Lookup(EggsOf(prices, counts), name) ==
            if PriceNamed(prices, name) then Some(CrateEquivalent(CountOf(counts, name))) else None
  {
    if |prices| > 0 {
      var init, last := prices[..|prices| - 1], prices[|prices| - 1];
      EggsOfLookup(init, counts, name);
      PutLookup(EggsOf(init, counts), last.name, CrateEquivalent(CountOf(counts, last.name)), name);
      if prices[|prices| - 1].name != name {
        assert PriceNamed(prices, name) ==> PriceNamed(init, name) by {
          if PriceNamed(prices, name) {
            var i :| 0 <= i < |prices| && prices[i].name == name;
            assert init[i].name == name;
          }
        }
        assert PriceNamed(init, name) ==> PriceNamed(prices, name) by {
          if PriceNamed(init, name) {
            var i :| 0 <= i < |init| && init[i].name == name;
            assert prices[i].name == name;
          }
        }
      }
    }
  }

  function TallyCrates(t: EggTally): real
  {
    t.crates
  }

  /** `Object.values(eggs).reduce((a, b) => a + b, 0)`: all crates laid. */
  function TotalCrates(eggs: seq<EggTally>): real
  {
    Sum(eggs, TallyCrates)
  }

  predicate DistinctNames(prices: seq<EggPrice>)
  {
    forall i, j :: 0 <= i < j < |prices| ==> prices[i].name != prices[j].name
  }

  function CrateValue(counts: map<string, EggCount>): EggPrice -> real
  {
    (p: EggPrice) => CrateEquivalent(CountOf(counts, p.name))
  }

  /** With distinct egg sizes, the crates of the saved log are the
      crate-equivalents of the form, summed over the price list. */
  lemma {:induction false} EggsOfTotal(prices: seq<EggPrice>, counts: map<string, EggCount>)
    requires DistinctNames(prices)
    ensures TotalCrates(EggsOf(prices, counts)) == Sum(prices, CrateValue(counts))
  {
    if |prices| > 0 {
      var init, last := prices[..|prices| - 1], prices[|prices| - 1];
      assert DistinctNames(init);
      EggsOfTotal(init, counts);
      EggsOfLookup(init, counts, last.name);
      assert !PriceNamed(init, last.name);
      var prev := EggsOf(init, counts);
      var v := CrateEquivalent(CountOf(counts, last.name));
      PutNew(prev, last.name, v);
      assert EggsOf(prices, counts) == prev + [EggTally(last.name, v)];
      SumAppend(prev, [EggTally(last.name, v)], TallyCrates);
      assert prices == init + [last];
      SumAppend(init, [last], CrateValue(counts));
    }
  }

  function PriceLine(eggs: seq<EggTally>): EggPrice -> real
  {
    (p: EggPrice) => EggValue(eggs, p.name) * p.price
  }

  /** `eggPrices.forEach(egg => revenue += (eggs[egg.name] || 0) * egg.price)`. */
  function EggRevenue(eggs: seq<EggTally>, prices: seq<EggPrice>): real
  {
    Sum(prices, PriceLine(eggs))
  }

  function CrateRevenue(counts: map<string, EggCount>): EggPrice -> real
  {
    (p: EggPrice) => CrateEquivalent(CountOf(counts, p.name)) * p.price
  }

  lemma SavedEggValue(prices: seq<EggPrice>, counts: map<string, EggCount>, i: nat)
    requires i < |prices|
    ensures EggValue(EggsOf(prices, counts), prices[i].name) == CrateEquivalent(CountOf(counts, prices[i].name))
  {
    var name := prices[i].name;
    assert PriceNamed(prices, name);
    EggsOfLookup(prices, counts, name);
  }

  /** Priced against the list it was built from, a saved log earns each egg
      size's crate-equivalent times its price, even when sizes repeat. */
  lemma EggRevenueOfSavedLog(prices: seq<EggPrice>, counts: map<string, EggCount>)
    ensures EggRevenue(EggsOf(prices, counts), prices) == Sum(prices, CrateRevenue(counts))
  {
    var eggs := EggsOf(prices, counts);
    forall i | 0 <= i < |prices|
      ensures PriceLine(eggs)(prices[i]) == CrateRevenue(counts)(prices[i])
    {
      SavedEggValue(prices, counts, i);
    }
    SumCongruence(prices, PriceLine(eggs), CrateRevenue(counts));
  }

  /** A log without eggs (another farm type, or no log today) earns nothing. */
  lemma NoEggsNoRevenue(prices: seq<EggPrice>)
    ensures EggRevenue([], prices) == 0.0
  {
    SumBounds(prices, PriceLine([]), 0.0, 0.0);
  }
}
