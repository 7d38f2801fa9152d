/** The validation rules and the crop write path of agro/serializers.py.
    Each field check returns its value or an error message; the farm's
    checks run field by field and, only when every field passed, the
    object-level area check runs, as the serializer framework does. */
module Serializers {
  import opened Results
  import opened Documents
  import opened Areas
  import opened Records
  import opened RecordStore

  /** An error attached to one input field. */
  datatype FieldError = FieldError(field: string, message: string)

  /** What a rejected request reports: errors per field, errors of the whole
      object (`non_field_errors`), or a plain list raised while saving. */
  datatype ValidationError =
    | FieldErrors(errors: seq<FieldError>)
    | NonFieldErrors(messages: seq<string>)
    | Detail(messages: seq<string>)

  const InvalidDocumentMessage := "Enter a valid CPF or CNPJ."
  const InvalidStateMessage := "Invalid value for the state. Please set a valid state, e.g.: SP"
  const TotalAreaMessage := "The total area cannot be negative or zero."
  const ArableAreaMessage := "The arable area cannot be negative."
  const VegetationAreaMessage := "The vegetation area cannot be negative."
  const AreaSumMessage := "The sum of the arable area and vegetation cannot exceed the total area of the farm."
  const IntegrityErrorMessage := "A crop with this farm and type of crop already exists."

  // ---------------------------------------------------------------- farmer

  /** `FarmerSerializer.validate_cpf_cnpj`: a valid document is replaced by
      its digits; an invalid one is a field error on `cpf_cnpj`. */
  function ValidateFarmerDocument(value: string): (r: Result<string, FieldError>)
    ensures r.Ok? <==> ValidateCpfCnpj(value)
    ensures r.Ok? ==> AllDigits(r.value) && (|r.value| == 11 || |r.value| == 14)
    ensures r.Ok? ==> r.value == DigitsOnly(value)
    ensures r.Err? ==> r.error == FieldError("cpf_cnpj", InvalidDocumentMessage)
  {
    if !ValidateCpfCnpj(value) then Err(FieldError("cpf_cnpj", InvalidDocumentMessage))
    else Ok(DigitsOnly(value))
  }

  /** Normalisation is idempotent: the stored form validates to itself. */
  lemma NormalisedDocumentIsFixed(value: string)
    requires ValidateFarmerDocument(value).Ok?
    ensures ValidateFarmerDocument(ValidateFarmerDocument(value).value) == ValidateFarmerDocument(value)
  {
    OnlyDigitsMatter(value);
    DigitsOnlyIdempotent(value);
  }

  /** A bare-digit valid document is stored exactly as given. */
  lemma DigitDocumentUnchanged(value: string)
    requires AllDigits(value) && ValidateCpfCnpj(value)
    ensures ValidateFarmerDocument(value) == Ok(value)
  {
    DigitsOnlyOfDigits(value);
  }

  /** Formatting does not change what is stored: punctuation inserted
      anywhere gives the same outcome. */
  lemma StoredDocumentIgnoresPunctuation(a: string, p: string, b: string)
    requires forall i :: 0 <= i < |p| ==> !IsDigit(p[i])
    ensures ValidateFarmerDocument(a + p + b) == ValidateFarmerDocument(a + b)
  {
    PunctuationIrrelevant(a, p, b);
    DigitsOnlyAppend(a + p, b);
    DigitsOnlyAppend(a, p);
    DigitsOnlyAppend(a, b);
    DigitsFromOfNoDigits(p, 0);
    assert DigitsOnly(a) + [] == DigitsOnly(a);
  }

  // ------------------------------------------------------------------ farm

  /** The fields of a farm create or update request. */
  datatype FarmPayload = FarmPayload(
    farmer: Id,
    name: string,
    city: string,
    state: string,
    total: int,
    arable: int,
    vegetation: int)

  function AreasOf(p: FarmPayload): AreaData {
    AreaData(p.total, p.arable, p.vegetation)
  }

  /** What every accepted farm satisfies. `states` are the keys of the
      fixed table of federative-unit codes. */
  predicate FarmInvariant(p: FarmPayload, states: set<string>) {
    && p.state in states
    && p.total > 0
    && p.arable >= 0
    && p.vegetation >= 0
    && p.arable + p.vegetation <= p.total
  }

  /** `validate_state`. The field's generated choice check, which runs
      first with a message of its own, is not modelled. */
  function ValidateState(value: string, states: set<string>): (r: Result<string, string>)
    ensures r.Ok? <==> value in states
    ensures r.Ok? ==> r.value == value
    ensures r.Err? ==> r.error == InvalidStateMessage
  {
    if value !in states then Err(InvalidStateMessage) else Ok(value)
  }

  function ValidateTotalAreaHectares(value: int): (r: Result<int, string>)
    ensures r.Ok? <==> value > 0
    ensures r.Ok? ==> r.value == value
    ensures r.Err? ==> r.error == TotalAreaMessage
  {
    if value <= 0 then Err(TotalAreaMessage) else Ok(value)
  }

  function ValidateArableAreaHectares(value: int): (r: Result<int, string>)
    ensures r.Ok? <==> value >= 0
    ensures r.Ok? ==> r.value == value
    ensures r.Err? ==> r.error == ArableAreaMessage
  {
    if value < 0 then Err(ArableAreaMessage) else Ok(value)
  }

  function ValidateVegetationAreaHectares(value: int): (r: Result<int, string>)
    ensures r.Ok? <==> value >= 0
    ensures r.Ok? ==> r.value == value
    ensures r.Err? ==> r.error == VegetationAreaMessage
  {
    if value < 0 then Err(VegetationAreaMessage) else Ok(value)
  }

  /** `FarmSerializer.validate`, the object-level check. */
  function ValidateObject(data: FarmPayload): (r: Result<FarmPayload, string>)
    ensures r.Ok? <==> data.arable + data.vegetation <= data.total
    ensures r.Ok? ==> r.value == data
    ensures r.Err? ==> r.error == AreaSumMessage
  {
    if !ValidateTotalArea(AreasOf(data)) then Err(AreaSumMessage) else Ok(data)
  }

  /** One field's outcome as a list of at most one error. */
  function ErrorOf<T>(field: string, r: Result<T, string>): seq<FieldError> {
    if r.Err? then [FieldError(field, r.error)] else []
  }

  /** The field errors, in the serializer's field order. */
  function FieldErrorsOf(p: FarmPayload, states: set<string>): seq<FieldError> {
    ErrorOf("state", ValidateState(p.state, states))
    + ErrorOf("total_area_hectares", ValidateTotalAreaHectares(p.total))
    + ErrorOf("arable_area_hectares", ValidateArableAreaHectares(p.arable))
    + ErrorOf("vegetation_area_hectares", ValidateVegetationAreaHectares(p.vegetation))
  }

  /** The names of the fields that a list of errors reports. */
  function FieldsOf(errors: seq<FieldError>): set<string> {
    set e | e in errors :: e.field
  }

  /** The fields whose own rule the payload breaks. */
  function FailingFields(p: FarmPayload, states: set<string>): set<string> {
    (if p.state !in states then {"state"} else {})
    + (if p.total <= 0 then {"total_area_hectares"} else {})
    + (if p.arable < 0 then {"arable_area_hectares"} else {})
    + (if p.vegetation < 0 then {"vegetation_area_hectares"} else {})
  }

  /** Validating a farm payload: every field rule, then the area sum. The
      payload is accepted unchanged exactly when it satisfies the farm
      invariant; a field error names exactly the failing fields; the area
      error comes alone, and only when every field passed. */
  function ValidateFarm(p: FarmPayload, states: set<string>): (r: Result<FarmPayload, ValidationError>)
    ensures r.Ok? <==> FarmInvariant(p, states)
    ensures r.Ok? ==> r.value == p
    ensures r.Err? && r.error.FieldErrors? ==>
              r.error.errors != [] && FieldsOf(r.error.errors) == FailingFields(p, states)
    ensures r.Err? && !r.error.FieldErrors? ==>
              r.error == NonFieldErrors([AreaSumMessage]) && FailingFields(p, states) == {}
    ensures FailingFields(p, states) != {} ==> r.Err? && r.error.FieldErrors?
  {
    var errors := FieldErrorsOf(p, states);
    FieldErrorsMatchFailingFields(p, states);
    if errors != [] then Err(FieldErrors(errors))
    else match ValidateObject(p)
      case Ok(data) => Ok(data)
      case Err(message) => Err(NonFieldErrors([message]))
  }

  lemma FieldErrorsMatchFailingFields(p: FarmPayload, states: set<string>)
    ensures FieldsOf(FieldErrorsOf(p, states)) == FailingFields(p, states)
    ensures FieldErrorsOf(p, states) == [] <==> FailingFields(p, states) == {}
  {
    var e1 := ErrorOf("state", ValidateState(p.state, states));
    var e2 := ErrorOf("total_area_hectares", ValidateTotalAreaHectares(p.total));
    var e3 := ErrorOf("arable_area_hectares", ValidateArableAreaHectares(p.arable));
    var e4 := ErrorOf("vegetation_area_hectares", ValidateVegetationAreaHectares(p.vegetation));
    ErrorOfFields("state", ValidateState(p.state, states));
    ErrorOfFields("total_area_hectares", ValidateTotalAreaHectares(p.total));
    ErrorOfFields("arable_area_hectares", ValidateArableAreaHectares(p.arable));
    ErrorOfFields("vegetation_area_hectares", ValidateVegetationAreaHectares(p.vegetation));
    FieldsOfAppend(e1, e2);
    FieldsOfAppend(e1 + e2, e3);
    FieldsOfAppend(e1 + e2 + e3, e4);
    FieldsOfEmpty(FieldErrorsOf(p, states));
  }

  lemma ErrorOfFields<T>(field: string, r: Result<T, string>)
    ensures FieldsOf(ErrorOf(field, r)) == if r.Err? then {field} else {}
  {
    if r.Err? {
      assert ErrorOf(field, r)[0].field == field;
    }
  }

  lemma FieldsOfAppend(a: seq<FieldError>, b: seq<FieldError>)
    ensures FieldsOf(a + b) == FieldsOf(a) + FieldsOf(b)
  {
  }

  lemma FieldsOfEmpty(errors: seq<FieldError>)
    ensures FieldsOf(errors) == {} <==> errors == []
  {
    if errors != [] {
      assert errors[0].field in FieldsOf(errors);
    }
  }

  /** A farm whose areas fit is accepted as given. */
  lemma AcceptedFarmExample(states: set<string>)
    requires "BA" in states
    ensures ValidateFarm(FarmPayload(0, "Fazenda BA", "Juazeiro", "BA", 10000, 5000, 3000), states)
              == Ok(FarmPayload(0, "Fazenda BA", "Juazeiro", "BA", 10000, 5000, 3000))
  {
  }

  /** Sub-areas that exactly fill the total are accepted. */
  lemma BoundaryFarmExample(states: set<string>)
    requires "BA" in states
    ensures ValidateFarm(FarmPayload(0, "F", "C", "BA", 20000, 10000, 10000), states).Ok?
  {
  }

  /** A zero total area is a field error on the total alone. */
  lemma ZeroTotalExample(states: set<string>)
    requires "BA" in states
    ensures ValidateFarm(FarmPayload(0, "F", "C", "BA", 0, 0, 0), states)
              == Err(FieldErrors([FieldError("total_area_hectares", TotalAreaMessage)]))
  {
    var p := FarmPayload(0, "F", "C", "BA", 0, 0, 0);
    assert ErrorOf("state", ValidateState(p.state, states)) == [];
    assert ErrorOf("arable_area_hectares", ValidateArableAreaHectares(p.arable)) == [];
    assert ErrorOf("vegetation_area_hectares", ValidateVegetationAreaHectares(p.vegetation)) == [];
    assert FieldErrorsOf(p, states) == [FieldError("total_area_hectares", TotalAreaMessage)];
  }

  /** Sub-areas above the total are an object-level error. */
  lemma ExcessAreaExample(states: set<string>)
    requires "BA" in states
    ensures ValidateFarm(FarmPayload(0, "F", "C", "BA", 10000, 6000, 5000), states)
              == Err(NonFieldErrors([AreaSumMessage]))
  {
    var p := FarmPayload(0, "F", "C", "BA", 10000, 6000, 5000);
    assert FieldErrorsOf(p, states) == [];
  }

  /** Changing only the arable area of an accepted farm, to more than the
      vegetation leaves of the total, passes every field check and fails
      the object-level area rule alone. */
  lemma ArableRaisedPastSlackRejected(p: FarmPayload, states: set<string>, arable: int)
    requires FarmInvariant(p, states)
    requires arable > p.total - p.vegetation
    ensures ValidateFarm(p.(arable := arable), states) == Err(NonFieldErrors([AreaSumMessage]))
  {
    var q := p.(arable := arable);
    assert FieldErrorsOf(q, states) == [];
  }

  /** An unknown state is a field error on the state alone; the message is
      `validate_state`'s. */
  lemma UnknownStateExample(states: set<string>)
    requires "XX" !in states
    ensures ValidateFarm(FarmPayload(0, "F", "C", "XX", 5000, 3000, 3000), states)
              == Err(FieldErrors([FieldError("state", InvalidStateMessage)]))
  {
    var p := FarmPayload(0, "F", "C", "XX", 5000, 3000, 3000);
    assert ErrorOf("total_area_hectares", ValidateTotalAreaHectares(p.total)) == [];
    assert ErrorOf("arable_area_hectares", ValidateArableAreaHectares(p.arable)) == [];
    assert ErrorOf("vegetation_area_hectares", ValidateVegetationAreaHectares(p.vegetation)) == [];
    assert FieldErrorsOf(p, states) == [FieldError("state", InvalidStateMessage)];
  }

  /** Three negative areas are three field errors, in field order. */
  lemma NegativeAreasExample(states: set<string>)
    requires "BA" in states
    ensures ValidateFarm(FarmPayload(0, "F", "C", "BA", -10000, -5000, -3000), states)
              == Err(FieldErrors([FieldError("total_area_hectares", TotalAreaMessage),
                                  FieldError("arable_area_hectares", ArableAreaMessage),
                                  FieldError("vegetation_area_hectares", VegetationAreaMessage)]))
  {
    var p := FarmPayload(0, "F", "C", "BA", -10000, -5000, -3000);
    assert ErrorOf("state", ValidateState(p.state, states)) == [];
    assert FieldErrorsOf(p, states)
      == [FieldError("total_area_hectares", TotalAreaMessage),
          FieldError("arable_area_hectares", ArableAreaMessage),
          FieldError("vegetation_area_hectares", VegetationAreaMessage)];
  }

  // ------------------------------------------------------------------ crop

  /** `CropSerializer.create`: the validated farm and crop type exist; a
      duplicate pair raised by the store becomes a validation error with
      the fixed message, and the store is left as it was. */
  method CreateCrop(store: Store, farm: Id, cropType: Id) returns (r: Result<Id, ValidationError>)
    requires store.Valid()
    requires farm in store.farms && cropType in store.cropTypes
    modifies store
    ensures store.Valid()
    ensures r.Err? <==> CropPairTaken(old(store.crops), farm, cropType)
    ensures r.Err? ==> r.error == Detail([IntegrityErrorMessage]) && unchanged(store)
    ensures r.Ok? ==> && r.value !in old(store.crops)
                      && store.crops == old(store.crops)[r.value := Crop(r.value, farm, cropType)]
                      && store.farmers == old(store.farmers) && store.farms == old(store.farms)
                      && store.cropTypes == old(store.cropTypes)
  {
    var saved := store.InsertCrop(farm, cropType);
    match saved
    case Ok(id) =>
      r := Ok(id);
    case Err(e) =>
      assert e == IntegrityError(e.constraint);
      assert e.constraint == Unique;
      r := Err(Detail([IntegrityErrorMessage]));
  }

  /** `CropSerializer.update`: moving a crop onto a pair another crop holds
      fails the same way; keeping its own pair succeeds. */
  method UpdateCrop(store: Store, id: Id, farm: Id, cropType: Id) returns (r: Result<Id, ValidationError>)
    requires store.Valid()
    requires id in store.crops && farm in store.farms && cropType in store.cropTypes
    modifies store
    ensures store.Valid()
    ensures r.Err? <==> CropPairTakenByOther(old(store.crops), farm, cropType, id)
    ensures r.Err? ==> r.error == Detail([IntegrityErrorMessage]) && unchanged(store)
    ensures r.Ok? ==> && r.value == id
                      && store.crops == old(store.crops)[id := Crop(id, farm, cropType)]
                      && store.farmers == old(store.farmers) && store.farms == old(store.farms)
                      && store.cropTypes == old(store.cropTypes)
  {
    var saved := store.UpdateCrop(id, farm, cropType);
    match saved
    case Ok(updated) =>
      r := Ok(updated);
    case Err(e) =>
      assert e == IntegrityError(e.constraint);
      assert e.constraint == Unique;
      r := Err(Detail([IntegrityErrorMessage]));
  }
}
