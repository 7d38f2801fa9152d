/** The two views of app/agro/views.py with logic of their own: the crop
    listing that groups crops under their farms, and the dashboard view
    that turns any failure into a generic server error. */
module Views {
  import opened Results
  import opened Records
  import opened Ordering
  import opened Dashboard

  // ------------------------------------------------------ crops by farm

  /** A crop as the listing reads it: its farm row and its crop type row. */
  datatype CropEntry = CropEntry(farm: Farm, cropType: CropType)

  /** One element of the listing: a farm and the crop types it grows. */
  datatype Group = Group(farm: Farm, crops: seq<CropType>)

  function FarmIdsOf(crops: seq<CropEntry>): set<Id> {
    set c | c in crops :: c.farm.id
  }

  /** The farms of the crops, each once, in order of first appearance. */
  function FarmOrder(crops: seq<CropEntry>): seq<Id> {
    if crops == [] then []
    else
      var order := FarmOrder(crops[..|crops| - 1]);
      var f := crops[|crops| - 1].farm.id;
      if f in order then order else order + [f]
  }

  /** The farm row of the first crop on farm `f`. */
  function FirstFarm(crops: seq<CropEntry>, f: Id): Farm
    requires f in FarmIdsOf(crops)
  {
    var n := |crops| - 1;
    assert crops == crops[..n] + [crops[n]];
    if f in FarmIdsOf(crops[..n]) then FirstFarm(crops[..n], f) else crops[n].farm
  }

  /** The crop types of the crops on farm `f`, in input order. */
  function CropTypesOf(crops: seq<CropEntry>, f: Id): seq<CropType> {
    if crops == [] then []
    else
      var n := |crops| - 1;
      CropTypesOf(crops[..n], f) + (if crops[n].farm.id == f then [crops[n].cropType] else [])
  }

  lemma {:induction false} FarmOrderMembers(crops: seq<CropEntry>)
    ensures NoDuplicates(FarmOrder(crops))
    ensures forall f :: f in FarmOrder(crops) <==> f in FarmIdsOf(crops)
  {
    if crops != [] {
      var n := |crops| - 1;
      assert crops == crops[..n] + [crops[n]];
      FarmOrderMembers(crops[..n]);
    }
  }

  /** The groups of a prefix of the crops come first in the groups of all
      of them: a farm's group sits where its first crop appeared. */
  lemma {:induction false} FarmOrderPrefix(crops: seq<CropEntry>, k: nat)
    requires k <= |crops|
    ensures FarmOrder(crops[..k]) <= FarmOrder(crops)
    decreases |crops| - k
  {
    if k < |crops| {
      var n := |crops| - 1;
      assert crops[..n][..k] == crops[..k];
      FarmOrderPrefix(crops[..n], k);
    } else {
      assert crops[..k] == crops;
    }
  }

  /** The groups for a list of farms. */
  function GroupsFor(crops: seq<CropEntry>, keys: seq<Id>): seq<Group>
    requires forall k :: k in keys ==> k in FarmIdsOf(crops)
  {
    if keys == [] then []
    else [Group(FirstFarm(crops, keys[0]), CropTypesOf(crops, keys[0]))] + GroupsFor(crops, keys[1..])
  }

  /** What the listing returns: one group per farm, in first-appearance order. */
  function Grouped(crops: seq<CropEntry>): seq<Group> {
    FarmOrderMembers(crops);
    GroupsFor(crops, FarmOrder(crops))
  }

  lemma {:induction false} GroupsForShape(crops: seq<CropEntry>, keys: seq<Id>)
    requires forall k :: k in keys ==> k in FarmIdsOf(crops)
    ensures |GroupsFor(crops, keys)| == |keys|
    ensures forall j :: 0 <= j < |keys| ==>
              GroupsFor(crops, keys)[j] == Group(FirstFarm(crops, keys[j]), CropTypesOf(crops, keys[j]))
  {
    if keys != [] {
      GroupsForShape(crops, keys[1..]);
    }
  }

  /** `CropViewSet.list`: one pass over the crops fills a dictionary keyed
      by farm id, kept here as its key order and its entries; a farm's
      entry is created at its first crop and every crop appends its crop
      type to its own farm's entry. */
  method ListCropsByFarm(crops: seq<CropEntry>) returns (groups: seq<Group>)
    ensures groups == Grouped(crops)
  {
    var order: seq<Id> := [];
    var farms: map<Id, Group> := map[];
    for i := 0 to |crops|
      invariant order == FarmOrder(crops[..i])
      invariant forall f :: f in farms <==> f in FarmIdsOf(crops[..i])
      invariant forall f :: f in farms ==>
                  farms[f] == Group(FirstFarm(crops[..i], f), CropTypesOf(crops[..i], f))
    {
      FarmOrderMembers(crops[..i]);
      FarmOrderSnoc(crops[..i], crops[i]);
      assert crops[..i + 1] == crops[..i] + [crops[i]];
      ghost var before := farms;
      var farmId := crops[i].farm.id;
      if farmId !in farms {
        farms := farms[farmId := Group(crops[i].farm, [])];
        order := order + [farmId];
      }
      var group := farms[farmId];
      farms := farms[farmId := group.(crops := group.crops + [crops[i].cropType])];
      ListingStep(crops[..i], crops[i], before, farms);
    }
    assert crops[..|crops|] == crops;
    FarmOrderMembers(crops);
    groups := seq(|order|, j requires 0 <= j < |order| => farms[order[j]]);
    ListingAssembled(crops, farms, groups);
  }

  /** One more crop keeps the dictionary in step with the crops read so far:
      its farm's entry gains the crop type, created first if new, and no
      other entry changes. */
  lemma ListingStep(xs: seq<CropEntry>, c: CropEntry, before: map<Id, Group>, after: map<Id, Group>)
    requires forall f :: f in before <==> f in FarmIdsOf(xs)
    requires forall f :: f in before ==> before[f] == Group(FirstFarm(xs, f), CropTypesOf(xs, f))
    requires c.farm.id in after
    requires after[c.farm.id] == if c.farm.id in before
                                 then before[c.farm.id].(crops := before[c.farm.id].crops + [c.cropType])
                                 else Group(c.farm, [c.cropType])
    requires forall f :: f != c.farm.id ==> (f in after <==> f in before)
    requires forall f :: f != c.farm.id && f in before ==> after[f] == before[f]
    ensures forall f :: f in after <==> f in FarmIdsOf(xs + [c])
    ensures forall f :: f in after ==> after[f] == Group(FirstFarm(xs + [c], f), CropTypesOf(xs + [c], f))
  {
    SnocFacts(xs, c);
    assert [] + [c.cropType] == [c.cropType];
  }

  /** Reading the dictionary's entries in key order gives the groups. */
  lemma ListingAssembled(crops: seq<CropEntry>, farms: map<Id, Group>, groups: seq<Group>)
    requires forall f :: f in farms <==> f in FarmIdsOf(crops)
    requires forall f :: f in farms ==> farms[f] == Group(FirstFarm(crops, f), CropTypesOf(crops, f))
    requires |groups| == |FarmOrder(crops)|
    requires forall j :: 0 <= j < |groups| ==> FarmOrder(crops)[j] in farms && groups[j] == farms[FarmOrder(crops)[j]]
    ensures groups == Grouped(crops)
  {
    FarmOrderMembers(crops);
    GroupsForShape(crops, FarmOrder(crops));
  }

  /** The key order grows by the crop's farm exactly when that farm is new. */
  lemma FarmOrderSnoc(xs: seq<CropEntry>, c: CropEntry)
    ensures FarmOrder(xs + [c]) == if c.farm.id in FarmOrder(xs) then FarmOrder(xs) else FarmOrder(xs) + [c.farm.id]
  {
    assert (xs + [c])[..|xs|] == xs;
  }

  /** How the dictionary's keys and entries grow by one more crop. */
  lemma SnocFacts(xs: seq<CropEntry>, c: CropEntry)
    ensures FarmIdsOf(xs + [c]) == FarmIdsOf(xs) + {c.farm.id}
    ensures forall f :: f != c.farm.id ==> CropTypesOf(xs + [c], f) == CropTypesOf(xs, f)
    ensures CropTypesOf(xs + [c], c.farm.id) == CropTypesOf(xs, c.farm.id) + [c.cropType]
    ensures c.farm.id !in FarmIdsOf(xs) ==> CropTypesOf(xs, c.farm.id) == []
    ensures forall f :: f in FarmIdsOf(xs) ==> FirstFarm(xs + [c], f) == FirstFarm(xs, f)
    ensures c.farm.id !in FarmIdsOf(xs) ==> FirstFarm(xs + [c], c.farm.id) == c.farm
  {
    assert (xs + [c])[..|xs|] == xs;
    forall f | f != c.farm.id ensures CropTypesOf(xs + [c], f) == CropTypesOf(xs, f) {
      assert CropTypesOf(xs, f) + [] == CropTypesOf(xs, f);
    }
    if c.farm.id !in FarmIdsOf(xs) {
      CropTypesOfAbsent(xs, c.farm.id);
    }
  }

  lemma {:induction false} CropTypesOfAbsent(xs: seq<CropEntry>, f: Id)
    requires f !in FarmIdsOf(xs)
    ensures CropTypesOf(xs, f) == []
  {
    if xs != [] {
      var n := |xs| - 1;
      assert xs == xs[..n] + [xs[n]];
      CropTypesOfAbsent(xs[..n], f);
    }
  }

  /** The number of crop-type entries over all groups. */
  function EntryCount(groups: seq<Group>): nat {
    if groups == [] then 0 else |groups[0].crops| + EntryCount(groups[1..])
  }

  function SizesFor(crops: seq<CropEntry>, keys: seq<Id>): nat {
    if keys == [] then 0 else |CropTypesOf(crops, keys[0])| + SizesFor(crops, keys[1..])
  }

  lemma {:induction false} EntryCountSizes(crops: seq<CropEntry>, keys: seq<Id>)
    requires forall k :: k in keys ==> k in FarmIdsOf(crops)
    ensures EntryCount(GroupsFor(crops, keys)) == SizesFor(crops, keys)
  {
    if keys != [] {
      EntryCountSizes(crops, keys[1..]);
    }
  }

  lemma {:induction false} SizesForSnoc(crops: seq<CropEntry>, c: CropEntry, keys: seq<Id>)
    ensures SizesFor(crops + [c], keys) == SizesFor(crops, keys) + Occurrences(keys, c.farm.id)
  {
    if keys != [] {
      assert (crops + [c])[..|crops|] == crops;
      SizesForSnoc(crops, c, keys[1..]);
    }
  }

  lemma {:induction false} SizesForEmpty(keys: seq<Id>)
    ensures SizesFor([], keys) == 0
  {
    if keys != [] {
      SizesForEmpty(keys[1..]);
    }
  }

  lemma {:induction false} SizesForCover(crops: seq<CropEntry>, keys: seq<Id>)
    requires NoDuplicates(keys)
    requires forall i :: 0 <= i < |crops| ==> crops[i].farm.id in keys
    ensures SizesFor(crops, keys) == |crops|
  {
    if crops == [] {
      SizesForEmpty(keys);
    } else {
      var n := |crops| - 1;
      assert crops == crops[..n] + [crops[n]];
      SizesForCover(crops[..n], keys);
      SizesForSnoc(crops[..n], crops[n], keys);
      OccursOnce(keys, crops[n].farm.id);
    }
  }

  /** One group per distinct farm among the crops, and every crop adds one
      entry: the entries add up to the number of crops. */
  lemma GroupedCounts(crops: seq<CropEntry>)
    ensures |Grouped(crops)| == |FarmOrder(crops)| == |FarmIdsOf(crops)|
    ensures forall j :: 0 <= j < |Grouped(crops)| ==> Grouped(crops)[j].farm.id == FarmOrder(crops)[j]
    ensures EntryCount(Grouped(crops)) == |crops|
  {
    var order := FarmOrder(crops);
    FarmOrderMembers(crops);
    GroupsForShape(crops, order);
    DistinctCardinality(order, FarmIdsOf(crops));
    forall j | 0 <= j < |order| ensures FirstFarm(crops, order[j]).id == order[j] {
      FirstFarmId(crops, order[j]);
    }
    EntryCountSizes(crops, order);
    forall i | 0 <= i < |crops| ensures crops[i].farm.id in order {
      assert crops[i] in crops;
    }
    SizesForCover(crops, order);
  }

  lemma {:induction false} FirstFarmId(crops: seq<CropEntry>, f: Id)
    requires f in FarmIdsOf(crops)
    ensures FirstFarm(crops, f).id == f
  {
    var n := |crops| - 1;
    assert crops == crops[..n] + [crops[n]];
    if f in FarmIdsOf(crops[..n]) {
      FirstFarmId(crops[..n], f);
    }
  }

  /** No crops give an empty listing. */
  lemma NoCropsNoGroups()
    ensures Grouped([]) == []
  {
  }

  /** One farm with two crops gives one group with both crop types, in order. */
  lemma OneFarmTwoCrops(f: Farm, t1: CropType, t2: CropType)
    ensures Grouped([CropEntry(f, t1), CropEntry(f, t2)]) == [Group(f, [t1, t2])]
  {
    var crops := [CropEntry(f, t1), CropEntry(f, t2)];
    assert crops[..1] == [CropEntry(f, t1)];
    assert crops[..1][..0] == [];
    assert FarmOrder(crops[..1]) == [f.id];
    assert FarmOrder(crops) == [f.id];
    assert FarmIdsOf(crops[..1]) == {f.id};
    assert FirstFarm(crops, f.id) == f;
    assert CropTypesOf(crops[..1], f.id) == [t1];
    assert CropTypesOf(crops, f.id) == [t1, t2];
    assert GroupsFor(crops, [f.id]) == [Group(f, [t1, t2])] + GroupsFor(crops, []);
  }

  // ------------------------------------------------------------ dashboard

  const GenericErrorMessage := "Ocorreu um erro ao processar sua solicitação."

  datatype Body = DashboardBody(data: DashboardData) | ErrorBody(error: string)

  datatype Response = Response(status: nat, body: Body)

  /** `DashboardAPIView.get`: the aggregation is returned as computed; any
      failure, whatever its text, becomes status 500 with a fixed message. */
  function DashboardGet(outcome: Result<DashboardData, string>): (r: Response)
    ensures r.status == 200 <==> outcome.Ok?
    ensures r.status == 200 || r.status == 500
    ensures outcome.Ok? ==> r.body == DashboardBody(outcome.value)
    ensures outcome.Err? ==> r.body == ErrorBody(GenericErrorMessage)
  {
    match outcome
    case Ok(data) => Response(200, DashboardBody(data))
    case Err(_) => Response(500, ErrorBody(GenericErrorMessage))
  }

  /** No detail of a failure reaches the response. */
  lemma FailuresIndistinguishable(e1: string, e2: string)
    ensures DashboardGet(Err(e1)) == DashboardGet(Err(e2))
  {
  }

  /** A successful request reports the farm count of the rows it read. */
  lemma DashboardReportsRows(farms: seq<Farm>, crops: seq<CropRow>)
    ensures DashboardGet(Ok(GetDashboardData(farms, crops))).status == 200
    ensures DashboardGet(Ok(GetDashboardData(farms, crops))).body.data.farmCount == |farms|
  {
  }
}
