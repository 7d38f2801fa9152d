/** `get_dashboard_data` of agro/business/dashboard.py: counts, area sums
    and two group-bys over the farm rows and the crop rows. The query reads
    the tables and writes nothing, so it is a function of their rows. */
module Dashboard {
  import opened Records
  import opened Ordering
  import Areas

  /** A crop row joined with its crop type's name. */
  datatype CropRow = CropRow(farm: Id, cropTypeName: string)

  /** One row of `count_by_state`. */
  datatype StateCount = StateCount(state: string, total: nat)

  /** One row of `farm_count_by_crop`. */
  datatype CropCount = CropCount(cropTypeName: string, total: nat)

  datatype DashboardData = DashboardData(
    farmCount: nat,
    totalArea: int,
    totalArable: int,
    totalVegetation: int,
    farmCountByCrop: seq<CropCount>,
    countByState: seq<StateCount>)

  // ---------------------------------------------------------------- sums

  /** The total area summed over all farm rows; no rows sum to 0. */
  function SumTotal(farms: seq<Farm>): (r: int)
    ensures (forall i :: 0 <= i < |farms| ==> farms[i].total >= 0) ==> r >= 0
    ensures (forall i :: 0 <= i < |farms| ==> farms[i].total >= 0) ==> forall i :: 0 <= i < |farms| ==> farms[i].total <= r
  {
    if farms == [] then 0 else farms[0].total + SumTotal(farms[1..])
  }

  /** The arable area summed over all farm rows. */
  function SumArable(farms: seq<Farm>): (r: int)
    ensures (forall i :: 0 <= i < |farms| ==> farms[i].arable >= 0) ==> r >= 0
    ensures (forall i :: 0 <= i < |farms| ==> farms[i].arable >= 0) ==> forall i :: 0 <= i < |farms| ==> farms[i].arable <= r
  {
    if farms == [] then 0 else farms[0].arable + SumArable(farms[1..])
  }

  /** The vegetation area summed over all farm rows. */
  function SumVegetation(farms: seq<Farm>): (r: int)
    ensures (forall i :: 0 <= i < |farms| ==> farms[i].vegetation >= 0) ==> r >= 0
    ensures (forall i :: 0 <= i < |farms| ==> farms[i].vegetation >= 0) ==> forall i :: 0 <= i < |farms| ==> farms[i].vegetation <= r
  {
    if farms == [] then 0 else farms[0].vegetation + SumVegetation(farms[1..])
  }

  /** The sums split over a division of the rows. */
  lemma {:induction false} SumsAppend(a: seq<Farm>, b: seq<Farm>)
    ensures SumTotal(a + b) == SumTotal(a) + SumTotal(b)
    ensures SumArable(a + b) == SumArable(a) + SumArable(b)
    ensures SumVegetation(a + b) == SumVegetation(a) + SumVegetation(b)
  {
    if a == [] {
      assert a + b == b;
    } else {
      assert (a + b)[1..] == a[1..] + b;
      SumsAppend(a[1..], b);
    }
  }

  /** A farm row's three areas, as the area rule reads them. */
  function RowAreas(f: Farm): Areas.AreaData {
    Areas.AreaData(f.total, f.arable, f.vegetation)
  }

  /** Farms that all keep the area rule give totals that keep it too. */
  lemma {:induction false} SumsKeepAreaRule(farms: seq<Farm>)
    requires forall i :: 0 <= i < |farms| ==>
               farms[i].arable >= 0 && farms[i].vegetation >= 0 &&
               Areas.ValidateTotalArea(RowAreas(farms[i]))
    ensures 0 <= SumArable(farms) && 0 <= SumVegetation(farms)
    ensures Areas.ValidateTotalArea(Areas.AreaData(SumTotal(farms), SumArable(farms), SumVegetation(farms)))
  {
    if farms != [] {
      SumsKeepAreaRule(farms[1..]);
    }
  }

  // -------------------------------------------------------- count by state

  function StatesOf(farms: seq<Farm>): seq<string> {
    seq(|farms|, i requires 0 <= i < |farms| => farms[i].state)
  }

  /** The number of farms in `state`. */
  function CountState(farms: seq<Farm>, state: string): nat {
    if farms == [] then 0
    else (if farms[0].state == state then 1 else 0) + CountState(farms[1..], state)
  }

  /** One entry per key, in key order. */
  function StateEntries(farms: seq<Farm>, keys: seq<string>): seq<StateCount> {
    if keys == [] then []
    else [StateCount(keys[0], CountState(farms, keys[0]))] + StateEntries(farms, keys[1..])
  }

  /** One entry per distinct state, in state order, with the number of
      farms in that state. */
  function CountByState(farms: seq<Farm>): seq<StateCount> {
    StateEntries(farms, Keys(StatesOf(farms)))
  }

  function StatesOfEntries(entries: seq<StateCount>): seq<string> {
    seq(|entries|, i requires 0 <= i < |entries| => entries[i].state)
  }

  function StateTotal(entries: seq<StateCount>): int {
    if entries == [] then 0 else entries[0].total + StateTotal(entries[1..])
  }

  lemma {:induction false} StateEntriesShape(farms: seq<Farm>, keys: seq<string>)
    ensures |StateEntries(farms, keys)| == |keys|
    ensures forall i :: 0 <= i < |keys| ==>
              StateEntries(farms, keys)[i] == StateCount(keys[i], CountState(farms, keys[i]))
  {
    if keys != [] {
      StateEntriesShape(farms, keys[1..]);
    }
  }

  /** Adding one farm adds one to the total of every listed copy of its state. */
  lemma {:induction false} StateTotalCons(f: Farm, rest: seq<Farm>, keys: seq<string>)
    ensures StateTotal(StateEntries([f] + rest, keys))
            == StateTotal(StateEntries(rest, keys)) + Occurrences(keys, f.state)
  {
    if keys != [] {
      assert ([f] + rest)[1..] == rest;
      StateTotalCons(f, rest, keys[1..]);
    }
  }

  lemma {:induction false} StateTotalEmpty(keys: seq<string>)
    ensures StateTotal(StateEntries([], keys)) == 0
  {
    if keys != [] {
      StateTotalEmpty(keys[1..]);
    }
  }

  /** Counting against distinct keys that cover every farm's state counts
      each farm exactly once. */
  lemma {:induction false} StateTotalCoversFarms(farms: seq<Farm>, keys: seq<string>)
    requires NoDuplicates(keys)
    requires forall i :: 0 <= i < |farms| ==> farms[i].state in keys
    ensures StateTotal(StateEntries(farms, keys)) == |farms|
  {
    if farms == [] {
      StateTotalEmpty(keys);
    } else {
      assert farms == [farms[0]] + farms[1..];
      StateTotalCoversFarms(farms[1..], keys);
      StateTotalCons(farms[0], farms[1..], keys);
      OccursOnce(keys, farms[0].state);
    }
  }

  /** The keys of the state column are exactly the states present. */
  lemma StatesPresent(farms: seq<Farm>)
    ensures forall s :: s in Keys(StatesOf(farms)) <==>
              exists i :: 0 <= i < |farms| && farms[i].state == s
  {
    KeysSorted(StatesOf(farms));
    forall s ensures s in StatesOf(farms) <==> exists i :: 0 <= i < |farms| && farms[i].state == s {
      if s in StatesOf(farms) {
        var i :| 0 <= i < |farms| && StatesOf(farms)[i] == s;
      }
      if exists i :: 0 <= i < |farms| && farms[i].state == s {
        var i :| 0 <= i < |farms| && farms[i].state == s;
        assert StatesOf(farms)[i] == s;
      }
    }
  }

  /** `count_by_state` lists each state present once, in ascending order. */
  lemma CountByStateSorted(farms: seq<Farm>)
    ensures Sorted(StatesOfEntries(CountByState(farms)))
    ensures forall s :: s in StatesOfEntries(CountByState(farms)) <==>
              exists i :: 0 <= i < |farms| && farms[i].state == s
  {
    var keys := Keys(StatesOf(farms));
    KeysSorted(StatesOf(farms));
    StateEntriesShape(farms, keys);
    assert StatesOfEntries(CountByState(farms)) == keys;
    StatesPresent(farms);
  }

  /** Each entry of `count_by_state` holds the number of farms in its state. */
  lemma CountByStateEntries(farms: seq<Farm>)
    ensures forall e :: e in CountByState(farms) ==> e.total == CountState(farms, e.state) && e.total > 0
  {
    var keys := Keys(StatesOf(farms));
    StateEntriesShape(farms, keys);
    StatesPresent(farms);
    forall e | e in CountByState(farms) ensures e.total == CountState(farms, e.state) && e.total > 0 {
      var i :| 0 <= i < |keys| && CountByState(farms)[i] == e;
      assert keys[i] in keys;
      var j :| 0 <= j < |farms| && farms[j].state == keys[i];
      CountStatePositive(farms, j);
    }
  }

  /** There are as many entries as distinct states among the farms. */
  lemma CountByStateLength(farms: seq<Farm>)
    ensures |CountByState(farms)| == |set f | f in farms :: f.state|
  {
    var keys := Keys(StatesOf(farms));
    KeysSorted(StatesOf(farms));
    SortedNoDuplicates(keys);
    StateEntriesShape(farms, keys);
    StatesPresent(farms);
    forall s ensures s in keys <==> s in (set f | f in farms :: f.state) {
      if s in keys {
        var i :| 0 <= i < |farms| && farms[i].state == s;
        assert farms[i] in farms;
      }
    }
    DistinctCardinality(keys, set f | f in farms :: f.state);
  }

  /** The totals of `count_by_state` add up to the farm count. */
  lemma CountByStateSum(farms: seq<Farm>)
    ensures StateTotal(CountByState(farms)) == |farms|
  {
    var keys := Keys(StatesOf(farms));
    KeysSorted(StatesOf(farms));
    SortedNoDuplicates(keys);
    forall i | 0 <= i < |farms| ensures farms[i].state in keys {
      assert StatesOf(farms)[i] == farms[i].state;
    }
    StateTotalCoversFarms(farms, keys);
  }

  lemma {:induction false} CountStatePositive(farms: seq<Farm>, j: int)
    requires 0 <= j < |farms|
    ensures CountState(farms, farms[j].state) > 0
  {
    if j > 0 {
      CountStatePositive(farms[1..], j - 1);
    }
  }

  // --------------------------------------------------------- count by crop

  function CropNamesOf(crops: seq<CropRow>): seq<string> {
    seq(|crops|, i requires 0 <= i < |crops| => crops[i].cropTypeName)
  }

  /** The distinct farms growing the crop type `name`. */
  function FarmsGrowing(crops: seq<CropRow>, name: string): set<Id> {
    set c | c in crops && c.cropTypeName == name :: c.farm
  }

  function CropEntries(crops: seq<CropRow>, keys: seq<string>): seq<CropCount> {
    seq(|keys|, i requires 0 <= i < |keys| => CropCount(keys[i], |FarmsGrowing(crops, keys[i])|))
  }

  /** One entry per distinct crop-type name, in name order, with the number
      of distinct farms growing a crop of that type. */
  function CountByCrop(crops: seq<CropRow>): seq<CropCount> {
    CropEntries(crops, Keys(CropNamesOf(crops)))
  }

  function NamesOfEntries(entries: seq<CropCount>): seq<string> {
    seq(|entries|, i requires 0 <= i < |entries| => entries[i].cropTypeName)
  }

  function FarmIds(farms: seq<Farm>): set<Id> {
    set f | f in farms :: f.id
  }

  lemma {:induction false} FarmIdsBound(farms: seq<Farm>)
    ensures |FarmIds(farms)| <= |farms|
  {
    if farms != [] {
      FarmIdsBound(farms[1..]);
      assert FarmIds(farms) == FarmIds(farms[1..]) + {farms[0].id} by {
        assert farms == [farms[0]] + farms[1..];
      }
    }
  }

  /** `farm_count_by_crop` lists each crop-type name present once,
      ascending, with the number of distinct farms growing it; no total
      exceeds the number of farms. */
  lemma CountByCropProperties(farms: seq<Farm>, crops: seq<CropRow>)
    requires forall c :: c in crops ==> c.farm in FarmIds(farms)
    ensures Sorted(NamesOfEntries(CountByCrop(crops)))
    ensures forall n :: n in NamesOfEntries(CountByCrop(crops)) <==>
              exists i :: 0 <= i < |crops| && crops[i].cropTypeName == n
    ensures forall e :: e in CountByCrop(crops) ==> e.total == |FarmsGrowing(crops, e.cropTypeName)|
    ensures forall e :: e in CountByCrop(crops) ==> 1 <= e.total <= |farms|
  {
    var keys := Keys(CropNamesOf(crops));
    KeysSorted(CropNamesOf(crops));
    assert NamesOfEntries(CountByCrop(crops)) == keys;
    forall n ensures n in keys <==> exists i :: 0 <= i < |crops| && crops[i].cropTypeName == n {
      if n in CropNamesOf(crops) {
        var i :| 0 <= i < |crops| && CropNamesOf(crops)[i] == n;
      }
      if exists i :: 0 <= i < |crops| && crops[i].cropTypeName == n {
        var i :| 0 <= i < |crops| && crops[i].cropTypeName == n;
        assert CropNamesOf(crops)[i] == n;
      }
    }
    FarmIdsBound(farms);
    forall e | e in CountByCrop(crops) ensures 1 <= e.total <= |farms| {
      var k :| 0 <= k < |keys| && CountByCrop(crops)[k] == e;
      assert keys[k] in keys;
      var i :| 0 <= i < |crops| && crops[i].cropTypeName == keys[k];
      assert crops[i].farm in FarmsGrowing(crops, keys[k]);
      assert FarmsGrowing(crops, keys[k]) <= FarmIds(farms);
      SubsetCardinality(FarmsGrowing(crops, keys[k]), FarmIds(farms));
    }
  }

  lemma SubsetCardinality(a: set<Id>, b: set<Id>)
    requires a <= b
    ensures |a| <= |b|
  {
    assert b == a + (b - a);
  }

  /** `farm_count_by_crop` is ascending, and empty exactly when there
      are no crops. */
  lemma CountByCropSorted(crops: seq<CropRow>)
    ensures Sorted(NamesOfEntries(CountByCrop(crops)))
    ensures crops == [] <==> CountByCrop(crops) == []
  {
    KeysSorted(CropNamesOf(crops));
    assert NamesOfEntries(CountByCrop(crops)) == Keys(CropNamesOf(crops));
    if crops != [] {
      assert CropNamesOf(crops)[0] in Keys(CropNamesOf(crops));
    }
  }

  /** There are as many entries as distinct crop-type names among the crops. */
  lemma CountByCropLength(crops: seq<CropRow>)
    ensures |CountByCrop(crops)| == |set c | c in crops :: c.cropTypeName|
  {
    var keys := Keys(CropNamesOf(crops));
    KeysSorted(CropNamesOf(crops));
    SortedNoDuplicates(keys);
    forall n ensures n in keys <==> n in (set c | c in crops :: c.cropTypeName) {
      if n in keys {
        var i :| 0 <= i < |crops| && CropNamesOf(crops)[i] == n;
        assert crops[i] in crops;
      }
      if n in (set c | c in crops :: c.cropTypeName) {
        var c :| c in crops && c.cropTypeName == n;
        var i :| 0 <= i < |crops| && crops[i] == c;
        assert CropNamesOf(crops)[i] == n;
      }
    }
    DistinctCardinality(keys, set c | c in crops :: c.cropTypeName);
  }

  /** Crops of a single type give exactly one entry. */
  lemma SingleCropType(crops: seq<CropRow>, name: string)
    requires crops != [] && forall i :: 0 <= i < |crops| ==> crops[i].cropTypeName == name
    ensures CountByCrop(crops) == [CropCount(name, |FarmsGrowing(crops, name)|)]
  {
    KeysOfConstant(CropNamesOf(crops), name);
  }

  // ------------------------------------------------------------ dashboard

  /** The dashboard over the farm rows and the crop rows. */
  function GetDashboardData(farms: seq<Farm>, crops: seq<CropRow>): (d: DashboardData)
    ensures d.farmCount == |farms|
    ensures StateTotal(d.countByState) == d.farmCount
    ensures Sorted(StatesOfEntries(d.countByState)) && Sorted(NamesOfEntries(d.farmCountByCrop))
    ensures farms == [] ==> d.totalArea == 0 && d.totalArable == 0 && d.totalVegetation == 0
    ensures farms == [] <==> d.countByState == []
    ensures crops == [] <==> d.farmCountByCrop == []
  {
    CountByStateSorted(farms);
    CountByStateSum(farms);
    CountByCropSorted(crops);
    DashboardData(
      |farms|,
      SumTotal(farms),
      SumArable(farms),
      SumVegetation(farms),
      CountByCrop(crops),
      CountByState(farms))
  }
}
