/** The four tables of app/agro/models.py as plain records, with the column
    length limits and the table-level constraints (uniqueness, foreign keys)
    stated as predicates over the tables. A table maps each row's id to the
    row; ids stand for the UUIDs (and the crop type's serial key) and are
    drawn fresh from a counter. Areas are integer hundredths of a hectare. */
module Records {

  type Id = nat

  const MaxDocumentLength: nat := 18
  const MaxNameLength: nat := 255
  const MaxCityLength: nat := 255
  const MaxStateLength: nat := 2
  const MaxCropTypeNameLength: nat := 100

  datatype Farmer = Farmer(id: Id, cpfCnpj: string, name: string)

  datatype Farm = Farm(
    id: Id,
    farmer: Id,
    name: string,
    city: string,
    state: string,
    total: int,
    arable: int,
    vegetation: int)

  datatype CropType = CropType(id: Id, name: string)

  datatype Crop = Crop(id: Id, farm: Id, cropType: Id)

  /** Every row is stored under its own id. */
  predicate FarmerKeys(t: map<Id, Farmer>) {
    forall k :: k in t ==> t[k].id == k
  }

  predicate FarmKeys(t: map<Id, Farm>) {
    forall k :: k in t ==> t[k].id == k
  }

  predicate CropTypeKeys(t: map<Id, CropType>) {
    forall k :: k in t ==> t[k].id == k
  }

  predicate CropKeys(t: map<Id, Crop>) {
    forall k :: k in t ==> t[k].id == k
  }

  /** `cpf_cnpj` is unique. */
  predicate UniqueDocuments(t: map<Id, Farmer>) {
    forall a, b :: a in t && b in t && t[a].cpfCnpj == t[b].cpfCnpj ==> a == b
  }

  /** A crop type's name is unique. */
  predicate UniqueCropTypeNames(t: map<Id, CropType>) {
    forall a, b :: a in t && b in t && t[a].name == t[b].name ==> a == b
  }

  /** The pair (farm, crop_type) is unique among crops. */
  predicate UniqueCropPairs(t: map<Id, Crop>) {
    forall a, b :: a in t && b in t && t[a].farm == t[b].farm && t[a].cropType == t[b].cropType ==> a == b
  }

  /** Every farm's farmer exists. */
  predicate FarmsHaveFarmers(farms: map<Id, Farm>, farmers: map<Id, Farmer>) {
    forall k :: k in farms ==> farms[k].farmer in farmers
  }

  /** Every crop's farm and crop type exist. */
  predicate CropsHaveReferences(crops: map<Id, Crop>, farms: map<Id, Farm>, cropTypes: map<Id, CropType>) {
    forall k :: k in crops ==> crops[k].farm in farms && crops[k].cropType in cropTypes
  }

  predicate FarmerFits(f: Farmer) {
    |f.cpfCnpj| <= MaxDocumentLength && |f.name| <= MaxNameLength
  }

  predicate FarmFits(f: Farm) {
    |f.name| <= MaxNameLength && |f.city| <= MaxCityLength && |f.state| <= MaxStateLength
  }

  predicate CropTypeFits(c: CropType) {
    |c.name| <= MaxCropTypeNameLength
  }

  /** All constraints of the schema hold of the four tables. */
  predicate Consistent(
    farmers: map<Id, Farmer>, farms: map<Id, Farm>,
    cropTypes: map<Id, CropType>, crops: map<Id, Crop>)
  {
    && FarmerKeys(farmers) && FarmKeys(farms) && CropTypeKeys(cropTypes) && CropKeys(crops)
    && UniqueDocuments(farmers) && UniqueCropTypeNames(cropTypes) && UniqueCropPairs(crops)
    && FarmsHaveFarmers(farms, farmers) && CropsHaveReferences(crops, farms, cropTypes)
    && (forall k :: k in farmers ==> FarmerFits(farmers[k]))
    && (forall k :: k in farms ==> FarmFits(farms[k]))
    && (forall k :: k in cropTypes ==> CropTypeFits(cropTypes[k]))
  }

  /** Some farmer already holds the document. */
  predicate DocumentTaken(t: map<Id, Farmer>, cpfCnpj: string) {
    exists k :: k in t && t[k].cpfCnpj == cpfCnpj
  }

  /** Some crop type already has the name. */
  predicate CropTypeNameTaken(t: map<Id, CropType>, name: string) {
    exists k :: k in t && t[k].name == name
  }

  /** Some crop already pairs the farm with the crop type. */
  predicate CropPairTaken(t: map<Id, Crop>, farm: Id, cropType: Id) {
    exists k :: k in t && t[k].farm == farm && t[k].cropType == cropType
  }

  /** Some crop other than `current` already pairs the farm with the crop type. */
  predicate CropPairTakenByOther(t: map<Id, Crop>, farm: Id, cropType: Id, current: Id) {
    exists k :: k in t && k != current && t[k].farm == farm && t[k].cropType == cropType
  }

  /** The farms left when a farmer's farms cascade away. */
  function FarmsWithoutFarmer(farms: map<Id, Farm>, farmer: Id): map<Id, Farm> {
    map k | k in farms && farms[k].farmer != farmer :: farms[k]
  }

  /** The crops left when the farms of `farmer` cascade away. */
  function CropsWithoutFarmer(crops: map<Id, Crop>, farms: map<Id, Farm>, farmer: Id): map<Id, Crop>
    requires forall k :: k in crops ==> crops[k].farm in farms
  {
    map k | k in crops && farms[crops[k].farm].farmer != farmer :: crops[k]
  }

  /** The crops left when a farm cascades away. */
  function CropsWithoutFarm(crops: map<Id, Crop>, farm: Id): map<Id, Crop> {
    map k | k in crops && crops[k].farm != farm :: crops[k]
  }

  /** The crops left when a crop type cascades away. */
  function CropsWithoutCropType(crops: map<Id, Crop>, cropType: Id): map<Id, Crop> {
    map k | k in crops && crops[k].cropType != cropType :: crops[k]
  }

  /** Deleting a farmer with its cascade keeps every constraint. */
  lemma DeleteFarmerConsistent(
    farmers: map<Id, Farmer>, farms: map<Id, Farm>,
    cropTypes: map<Id, CropType>, crops: map<Id, Crop>, id: Id)
    requires Consistent(farmers, farms, cropTypes, crops)
    ensures Consistent(farmers - {id}, FarmsWithoutFarmer(farms, id), cropTypes,
                       CropsWithoutFarmer(crops, farms, id))
  {
    var farmers', farms', crops' := farmers - {id}, FarmsWithoutFarmer(farms, id), CropsWithoutFarmer(crops, farms, id);
    assert FarmsHaveFarmers(farms', farmers') by {
      forall k | k in farms' ensures farms'[k].farmer in farmers' {
        assert farms'[k] == farms[k];
      }
    }
    assert CropsHaveReferences(crops', farms', cropTypes) by {
      forall k | k in crops' ensures crops'[k].farm in farms' && crops'[k].cropType in cropTypes {
        assert crops'[k] == crops[k];
      }
    }
  }

  /** Deleting a farm with its cascade keeps every constraint. */
  lemma DeleteFarmConsistent(
    farmers: map<Id, Farmer>, farms: map<Id, Farm>,
    cropTypes: map<Id, CropType>, crops: map<Id, Crop>, id: Id)
    requires Consistent(farmers, farms, cropTypes, crops)
    ensures Consistent(farmers, farms - {id}, cropTypes, CropsWithoutFarm(crops, id))
  {
  }

  /** Deleting a crop type with its cascade keeps every constraint. */
  lemma DeleteCropTypeConsistent(
    farmers: map<Id, Farmer>, farms: map<Id, Farm>,
    cropTypes: map<Id, CropType>, crops: map<Id, Crop>, id: Id)
    requires Consistent(farmers, farms, cropTypes, crops)
    ensures Consistent(farmers, farms, cropTypes - {id}, CropsWithoutCropType(crops, id))
  {
  }
}
