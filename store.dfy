/** The persistent record store of app/agro/models.py: four tables that
    inserts change in place, unique constraints that refuse a duplicate row,
    foreign keys whose `on_delete=CASCADE` removes dependent rows, and
    column length limits. Every operation leaves the store unchanged when it
    fails. */
module RecordStore {
  import opened Records
  import opened Results

  /** Which constraint an `IntegrityError` reports. */
  datatype Constraint = Unique | ForeignKey

  /** The storage layer's failures: a violated constraint, a value too long
      for its column, or a missing row. */
  datatype DbError = IntegrityError(constraint: Constraint) | DataError | DoesNotExist

  class Store {
    var farmers: map<Id, Farmer>
    var farms: map<Id, Farm>
    var cropTypes: map<Id, CropType>
    var crops: map<Id, Crop>
    /** The next fresh id; every id in use is below it. */
    var nextId: Id

    ghost predicate Valid()
      reads this
    {
      && Consistent(farmers, farms, cropTypes, crops)
      && (forall k :: k in farmers ==> k < nextId)
      && (forall k :: k in farms ==> k < nextId)
      && (forall k :: k in cropTypes ==> k < nextId)
      && (forall k :: k in crops ==> k < nextId)
    }

    constructor ()
      ensures Valid()
      ensures farmers == map[] && farms == map[] && cropTypes == map[] && crops == map[]
    {
      farmers, farms, cropTypes, crops := map[], map[], map[], map[];
      nextId := 0;
    }

    /** `Farmer.objects.create`: refused when a column is too long or the
        document is already registered. */
    method InsertFarmer(cpfCnpj: string, name: string) returns (r: Result<Id, DbError>)
      requires Valid()
      modifies this
      ensures Valid()
      ensures r == Err(DataError) <==> !FarmerFits(Farmer(0, cpfCnpj, name))
      ensures r == Err(IntegrityError(Unique)) <==>
                FarmerFits(Farmer(0, cpfCnpj, name)) && DocumentTaken(old(farmers), cpfCnpj)
      ensures r.Err? ==> r.error == DataError || r.error == IntegrityError(Unique)
      ensures r.Err? ==> unchanged(this)
      ensures r.Ok? ==> && r.value !in old(farmers)
                        && farmers == old(farmers)[r.value := Farmer(r.value, cpfCnpj, name)]
                        && farms == old(farms) && cropTypes == old(cropTypes) && crops == old(crops)
    {
      if !FarmerFits(Farmer(0, cpfCnpj, name)) {
        return Err(DataError);
      }
      if DocumentTaken(farmers, cpfCnpj) {
        return Err(IntegrityError(Unique));
      }
      var id := nextId;
      farmers := farmers[id := Farmer(id, cpfCnpj, name)];
      nextId := nextId + 1;
      r := Ok(id);
    }

    /** `Farm.objects.create`: refused when a column is too long or the
        farmer does not exist. The area rules are not the database's; they
        belong to the serializer. */
    method InsertFarm(farmer: Id, name: string, city: string, state: string,
                      total: int, arable: int, vegetation: int)
      returns (r: Result<Id, DbError>)
      requires Valid()
      modifies this
      ensures Valid()
      ensures r == Err(DataError) <==> !FarmFits(Farm(0, farmer, name, city, state, total, arable, vegetation))
      ensures r == Err(IntegrityError(ForeignKey)) <==>
                FarmFits(Farm(0, farmer, name, city, state, total, arable, vegetation)) && farmer !in old(farmers)
      ensures r.Err? ==> r.error == DataError || r.error == IntegrityError(ForeignKey)
      ensures r.Err? ==> unchanged(this)
      ensures r.Ok? ==> && r.value !in old(farms)
                        && farms == old(farms)[r.value := Farm(r.value, farmer, name, city, state, total, arable, vegetation)]
                        && farmers == old(farmers) && cropTypes == old(cropTypes) && crops == old(crops)
    {
      if !FarmFits(Farm(0, farmer, name, city, state, total, arable, vegetation)) {
        return Err(DataError);
      }
      if farmer !in farmers {
        return Err(IntegrityError(ForeignKey));
      }
      var id := nextId;
      farms := farms[id := Farm(id, farmer, name, city, state, total, arable, vegetation)];
      nextId := nextId + 1;
      r := Ok(id);
    }

    /** `CropType.objects.create`: refused when the name is longer than 100
        characters or already taken. */
    method InsertCropType(name: string) returns (r: Result<Id, DbError>)
      requires Valid()
      modifies this
      ensures Valid()
      ensures r == Err(DataError) <==> !CropTypeFits(CropType(0, name))
      ensures r == Err(IntegrityError(Unique)) <==>
                CropTypeFits(CropType(0, name)) && CropTypeNameTaken(old(cropTypes), name)
      ensures r.Err? ==> r.error == DataError || r.error == IntegrityError(Unique)
      ensures r.Err? ==> unchanged(this)
      ensures r.Ok? ==> && r.value !in old(cropTypes)
                        && cropTypes == old(cropTypes)[r.value := CropType(r.value, name)]
                        && farmers == old(farmers) && farms == old(farms) && crops == old(crops)
    {
      if !CropTypeFits(CropType(0, name)) {
        return Err(DataError);
      }
      if CropTypeNameTaken(cropTypes, name) {
        return Err(IntegrityError(Unique));
      }
      var id := nextId;
      cropTypes := cropTypes[id := CropType(id, name)];
      nextId := nextId + 1;
      r := Ok(id);
    }

    /** `Crop.objects.create`: refused when the farm or crop type does not
        exist, or the farm already grows that crop type. */
    method InsertCrop(farm: Id, cropType: Id) returns (r: Result<Id, DbError>)
      requires Valid()
      modifies this
      ensures Valid()
      ensures r == Err(IntegrityError(ForeignKey)) <==> farm !in old(farms) || cropType !in old(cropTypes)
      ensures r == Err(IntegrityError(Unique)) <==>
                farm in old(farms) && cropType in old(cropTypes) && CropPairTaken(old(crops), farm, cropType)
      ensures r.Err? ==> r.error == IntegrityError(ForeignKey) || r.error == IntegrityError(Unique)
      ensures r.Err? ==> r.error.IntegrityError? && unchanged(this)
      ensures r.Ok? ==> && r.value !in old(crops)
                        && crops == old(crops)[r.value := Crop(r.value, farm, cropType)]
                        && farmers == old(farmers) && farms == old(farms) && cropTypes == old(cropTypes)
    {
      if farm !in farms || cropType !in cropTypes {
        return Err(IntegrityError(ForeignKey));
      }
      if CropPairTaken(crops, farm, cropType) {
        return Err(IntegrityError(Unique));
      }
      var id := nextId;
      crops := crops[id := Crop(id, farm, cropType)];
      nextId := nextId + 1;
      r := Ok(id);
    }

    /** Saving an existing crop with a new farm and crop type: refused when
        the crop does not exist, a reference is missing, or another crop
        already holds the pair. Re-saving a crop's own pair succeeds. */
    method UpdateCrop(id: Id, farm: Id, cropType: Id) returns (r: Result<Id, DbError>)
      requires Valid()
      modifies this
      ensures Valid()
      ensures r == Err(DoesNotExist) <==> id !in old(crops)
      ensures r == Err(IntegrityError(ForeignKey)) <==>
                id in old(crops) && (farm !in old(farms) || cropType !in old(cropTypes))
      ensures r == Err(IntegrityError(Unique)) <==>
                && id in old(crops) && farm in old(farms) && cropType in old(cropTypes)
                && CropPairTakenByOther(old(crops), farm, cropType, id)
      ensures r.Err? ==> !r.error.DataError? && unchanged(this)
      ensures r.Ok? ==> && r.value == id
                        && crops == old(crops)[id := Crop(id, farm, cropType)]
                        && farmers == old(farmers) && farms == old(farms) && cropTypes == old(cropTypes)
    {
      if id !in crops {
        return Err(DoesNotExist);
      }
      if farm !in farms || cropType !in cropTypes {
        return Err(IntegrityError(ForeignKey));
      }
      if CropPairTakenByOther(crops, farm, cropType, id) {
        return Err(IntegrityError(Unique));
      }
      crops := crops[id := Crop(id, farm, cropType)];
      r := Ok(id);
    }

    /** Deleting a farmer deletes exactly its farms and the crops of those
        farms; nothing else changes. */
    method DeleteFarmer(id: Id) returns (r: Result<(), DbError>)
      requires Valid()
      modifies this
      ensures Valid()
      ensures r.Err? <==> id !in old(farmers)
      ensures r.Err? ==> r.error == DoesNotExist && unchanged(this)
      ensures r.Ok? ==> && farmers == old(farmers) - {id}
                        && farms == FarmsWithoutFarmer(old(farms), id)
                        && crops == CropsWithoutFarmer(old(crops), old(farms), id)
                        && cropTypes == old(cropTypes)
    {
      if id !in farmers {
        return Err(DoesNotExist);
      }
      DeleteFarmerConsistent(farmers, farms, cropTypes, crops, id);
      crops := CropsWithoutFarmer(crops, farms, id);
      farms := FarmsWithoutFarmer(farms, id);
      farmers := farmers - {id};
      r := Ok(());
    }

    /** Deleting a farm deletes exactly its crops; nothing else changes. */
    method DeleteFarm(id: Id) returns (r: Result<(), DbError>)
      requires Valid()
      modifies this
      ensures Valid()
      ensures r.Err? <==> id !in old(farms)
      ensures r.Err? ==> r.error == DoesNotExist && unchanged(this)
      ensures r.Ok? ==> && farms == old(farms) - {id} && |farms| == |old(farms)| - 1
                        && crops == CropsWithoutFarm(old(crops), id)
                        && farmers == old(farmers) && cropTypes == old(cropTypes)
    {
      if id !in farms {
        return Err(DoesNotExist);
      }
      DeleteFarmConsistent(farmers, farms, cropTypes, crops, id);
      crops := CropsWithoutFarm(crops, id);
      farms := farms - {id};
      r := Ok(());
    }

    /** Deleting a crop type deletes exactly the crops of that type. */
    method DeleteCropType(id: Id) returns (r: Result<(), DbError>)
      requires Valid()
      modifies this
      ensures Valid()
      ensures r.Err? <==> id !in old(cropTypes)
      ensures r.Err? ==> r.error == DoesNotExist && unchanged(this)
      ensures r.Ok? ==> && cropTypes == old(cropTypes) - {id}
                        && crops == CropsWithoutCropType(old(crops), id)
                        && farmers == old(farmers) && farms == old(farms)
    {
      if id !in cropTypes {
        return Err(DoesNotExist);
      }
      DeleteCropTypeConsistent(farmers, farms, cropTypes, crops, id);
      crops := CropsWithoutCropType(crops, id);
      cropTypes := cropTypes - {id};
      r := Ok(());
    }

    /** Deleting a crop removes that row only. */
    method DeleteCrop(id: Id) returns (r: Result<(), DbError>)
      requires Valid()
      modifies this
      ensures Valid()
      ensures r.Err? <==> id !in old(crops)
      ensures r.Err? ==> r.error == DoesNotExist && unchanged(this)
      ensures r.Ok? ==> && crops == old(crops) - {id}
                        && farmers == old(farmers) && farms == old(farms) && cropTypes == old(cropTypes)
    {
      if id !in crops {
        return Err(DoesNotExist);
      }
      crops := crops - {id};
      r := Ok(());
    }
  }
}
