# brain-ag-teste in Dafny

A model of the farm registry back end of brain-ag-teste, a Django REST service for Brazilian rural producers. Producers are identified by a CPF (individual taxpayer number, 11 digits) or a CNPJ (entity taxpayer number, 14 digits). They own farms with a state, a total area, an arable area and a vegetation area. Farms grow crops of named crop types. The model covers:

- **Documents** (`documents.dfy`): the CPF/CNPJ validator. It strips everything but digits, dispatches on 11 or 14 digits and checks both check digits with the modulo-11 weighted sums.
- **Areas** (`areas.dfy`): the rule that arable plus vegetation area must not exceed the total area.
- **Records** and **RecordStore** (`records.dfy`, `store.dfy`): the four tables of the data model. They hold unique documents, unique crop-type names and unique (farm, crop type) pairs, foreign keys with cascading deletes, and column length limits. `RecordStore.Store` is a class whose methods change the tables in place. Every method keeps the schema's constraints and leaves the store unchanged when it fails.
- **Serializers** (`serializers.dfy`): the request validation.
  - The farmer document is normalised to its digits.
  - The farm's state and area field checks run first, then the object-level area check.
  - Creating or updating a crop maps a duplicate pair to a validation error.
- **Ordering** and **Dashboard** (`ordering.dfy`, `dashboard.dfy`): the dashboard aggregate. It holds the farm count, the three area sums, farms per state and distinct farms per crop-type name. Both group-bys are sorted by key.
- **Views** (`views.dfy`): the crop listing and the dashboard endpoint. The listing groups crops under their farm in a single loop over a dictionary. The endpoint turns any failure into a status 500 with a fixed message.

Modelling choices:

- Areas are decimals with two places, so they are modelled as integers counting hundredths of a hectare.
- Ids are natural numbers drawn from a counter. They stand for the UUIDs and for the crop type's serial key.
- The valid state codes are a parameter `states`, because the table of federative units is not part of this model.
- A query's rows are a sequence in an unspecified order. The dashboard and the listing are stated for every order.
- Strings are compared by code point (`Ordering.Less`).
- The CPF/CNPJ check belongs to an external library that is not part of this model. It is modelled by the published Receita Federal rule:
  - the weights are 10..2 and 11..2 for CPF, and 5,4,3,2,9..2 and 6,5,4,3,2,9..2 for CNPJ;
  - the check digit is 0 when the remainder is below 2, else 11 minus the remainder;
  - a number made of one repeated digit is rejected.

The expected outcomes come from agro/tests/test_utils.py; the example lemmas in `documents.dfy` prove each of them about the model.

Where the code and its documented behaviour can part:

- agro/utils.py:13 catches only `ValueError` around the library call. Whether the library signals a bad number that way is not visible here. The model follows the outcome the tests require: a bad number yields `False`.
- Passing `None` (agro/tests/test_utils.py:43) is outside the model, which takes strings.

## Model

| member | source | states |
|---|---|---|
| Documents.DigitsOnly | agro/utils.py:5 | the normalised document holds only digits and is never longer than the input |
| Documents.DigitsOnlyOfDigits | agro/utils.py:5 | a string of digits is its own normal form |
| Documents.DigitsOnlyIdempotent | agro/utils.py:5 | normalising twice is normalising once |
| Documents.DigitsOnlyAppend | agro/utils.py:5 | the digits of a concatenation are the concatenated digits |
| Documents.DigitValue | agro/utils.py:8-10 | a digit character has a value from 0 to 9 |
| Documents.CheckDigit | agro/utils.py:8-10 | the check digit is a decimal digit; it is 0 when the sum leaves remainder 1, otherwise it brings the sum to a multiple of 11 |
| Documents.CheckDigitUnique | agro/utils.py:8-10 | no other digit meets the check-digit condition for the same sum |
| Documents.WeightedSumPrefix | agro/utils.py:8-10 | the weighted sum depends only on the positions its weight table covers |
| Documents.ValidCpf | agro/utils.py:8 | the CPF rule: both check digits match their weighted sums and the digits are not all equal |
| Documents.ValidCnpj | agro/utils.py:10 | the CNPJ rule: both check digits match their weighted sums and the digits are not all equal |
| Documents.ValidateCpfCnpj | agro/utils.py:4-15 | an accepted document has exactly 11 or 14 digits |
| Documents.OnlyDigitsMatter | agro/utils.py:5-10 | validity depends only on the digits of the input |
| Documents.PunctuationIrrelevant | agro/utils.py:5 | inserting any run of non-digits anywhere does not change validity |
| Documents.WrongLengthInvalid | agro/utils.py:11-12 | any digit count other than 11 or 14 is rejected |
| Documents.ElevenDigitsIsCpf | agro/utils.py:7-8 | with 11 digits, accepted exactly when they form a valid CPF |
| Documents.FourteenDigitsIsCnpj | agro/utils.py:9-10 | with 14 digits, accepted exactly when they form a valid CNPJ |
| Documents.CheckDigitsDetermined | agro/utils.py:8-10 | two numbers that agree before the check digits and both pass the check are equal |
| Documents.CpfCheckDigitsDetermined | agro/utils.py:8 | a valid CPF is fixed by its first nine digits, so a changed check digit is invalid |
| Documents.CnpjCheckDigitsDetermined | agro/utils.py:10 | a valid CNPJ is fixed by its first twelve digits |
| Documents.Cpf95181040004Example | agro/tests/test_utils.py:7-9 | 95181040004 is accepted bare and formatted |
| Documents.Cnpj77759188000180Example | agro/tests/test_utils.py:12-14 | 77759188000180 is accepted bare and formatted |
| Documents.Cpf12345678901Example | agro/tests/test_utils.py:18-20 | 12345678901 is rejected |
| Documents.Cpf95181040099Example | agro/tests/test_utils.py:18-20 | 951.810.400-99 is rejected |
| Documents.Cnpj12345678901234Example | agro/tests/test_utils.py:23-25 | 12345678901234 is rejected |
| Documents.Cnpj77759188000199Example | agro/tests/test_utils.py:23-25 | 77.759.188/0001-99 is rejected |
| Documents.AllZeroCpfRejected | agro/tests/test_utils.py:32-33 | the all-zero CPF passes the check-digit test and is still rejected, bare and formatted |
| Documents.AllZeroCnpjRejected | agro/tests/test_utils.py:35-36 | the all-zero CNPJ passes the check-digit test and is still rejected, bare and formatted |
| Documents.MalformedExamples | agro/tests/test_utils.py:34-42 | empty, blank, alphabetic, short and punctuation-only inputs are rejected |
| Areas.ValidateTotalArea | brain-ag-teste/agro/business/validators.py:1-2 | arable plus vegetation area does not exceed the total area |
| Areas.AcceptanceMonotone | brain-ag-teste/agro/business/validators.py:1-2 | shrinking a part or growing the total keeps an accepted farm accepted |
| Areas.Examples | agro/tests/test_business/test_validators.py:5-26 | equality is accepted; exceeding the total by one hundredth is rejected |
| Records.Consistent | app/agro/models.py:8-57 | the schema constraints: unique documents and crop-type names, unique (farm, crop type) pairs, every farm's farmer and every crop's farm and crop type present, and the column length limits |
| Records.FarmsWithoutFarmer | app/agro/models.py:21 | the farms left after a farmer's farms cascade away |
| Records.CropsWithoutFarmer | app/agro/models.py:21-46 | the crops left after the crops of a farmer's farms cascade away |
| Records.CropsWithoutFarm | app/agro/models.py:46 | the crops left after a farm's crops cascade away |
| Records.CropsWithoutCropType | app/agro/models.py:47-49 | the crops left after a crop type's crops cascade away |
| Records.DeleteFarmerConsistent | app/agro/models.py:21-48 | removing a farmer with its farms and their crops keeps every schema constraint |
| Records.DeleteFarmConsistent | app/agro/models.py:46 | removing a farm with its crops keeps every schema constraint |
| Records.DeleteCropTypeConsistent | app/agro/models.py:47-49 | removing a crop type with its crops keeps every schema constraint |
| RecordStore.Store.Valid | app/agro/models.py:8-57 | the tables meet every schema constraint and every id is below the next fresh id |
| RecordStore.Store.constructor | app/agro/models.py:8-60 | a new store is empty and consistent |
| RecordStore.Store.InsertFarmer | app/agro/models.py:10-11 | fails with a data error exactly when a column is too long and with a unique violation exactly when the document is taken, and with no other error, so a fitting new document is always stored; success adds exactly one fresh farmer; failure changes nothing |
| RecordStore.Store.InsertFarm | app/agro/models.py:21-24 | fails with a data error exactly on an over-long column and with a foreign-key violation exactly on a missing farmer, and with no other error; success adds exactly one fresh farm |
| RecordStore.Store.InsertCropType | app/agro/models.py:36 | fails with a data error exactly on a name over 100 characters and with a unique violation exactly on a taken name, and with no other error; success adds exactly one fresh crop type |
| RecordStore.Store.InsertCrop | app/agro/models.py:46-57 | fails with a foreign-key violation exactly on a missing farm or crop type and with a unique violation exactly on a (farm, crop type) pair already present, and with no other error; success adds exactly one fresh crop |
| RecordStore.Store.UpdateCrop | app/agro/models.py:46-57 | re-pointing a crop fails when another crop holds the pair; re-saving its own pair succeeds; only that crop changes |
| RecordStore.Store.DeleteFarmer | app/agro/models.py:21-46 | removes exactly the farmer, its farms and their crops; crop types stay |
| RecordStore.Store.DeleteFarm | app/agro/models.py:46 | removes exactly the farm and its crops, so the farm count drops by one; farmers and crop types stay |
| RecordStore.Store.DeleteCropType | app/agro/models.py:47-49 | removes exactly the crop type and its crops |
| RecordStore.Store.DeleteCrop | app/agro/models.py:44-49 | removes exactly that crop |
| Serializers.ValidateFarmerDocument | agro/serializers.py:16-20 | accepted exactly when the validator accepts; the stored value is the digits of the input, 11 or 14 of them; rejection is a `cpf_cnpj` field error with the fixed message |
| Serializers.NormalisedDocumentIsFixed | agro/serializers.py:19-20 | the stored document validates to itself |
| Serializers.DigitDocumentUnchanged | agro/tests/test_serializers.py:17-27 | a valid bare-digit document is stored as given |
| Serializers.StoredDocumentIgnoresPunctuation | agro/serializers.py:19 | formatting characters do not change the outcome or the stored value |
| Serializers.ValidateState | agro/serializers.py:44-49 | `validate_state`'s own check: accepted exactly when the code is a known state, returned unchanged, otherwise its own message |
| Serializers.ValidateTotalAreaHectares | agro/serializers.py:51-56 | accepted exactly when positive; returned unchanged |
| Serializers.ValidateArableAreaHectares | agro/serializers.py:58-63 | accepted exactly when non-negative; returned unchanged |
| Serializers.ValidateVegetationAreaHectares | agro/serializers.py:65-70 | accepted exactly when non-negative; returned unchanged |
| Serializers.ValidateObject | agro/serializers.py:72-77 | accepted exactly when arable plus vegetation does not exceed total |
| Serializers.FieldErrorsMatchFailingFields | agro/serializers.py:44-70 | the field errors name exactly the fields whose own rule fails |
| Serializers.ValidateFarm | agro/serializers.py:44-77 | accepted, unchanged, exactly when the farm invariant holds; field errors name exactly the failing fields; the area-sum error comes alone and only when every field passed |
| Serializers.ZeroTotalExample | agro/tests/test_views/test_farm_view.py:146-162 | a zero total area is one error on the total field |
| Serializers.ExcessAreaExample | agro/serializers.py:72-77 | parts above the total give the object-level error |
| Serializers.UnknownStateExample | agro/serializers.py:44-49 | with every other field valid, state XX is one error on the state field and on no other field |
| Serializers.ArableRaisedPastSlackRejected | agro/serializers.py:72-77 | changing only the arable area of an accepted farm past what the vegetation leaves of the total fails with the object-level area error alone, no field error |
| Serializers.NegativeAreasExample | agro/tests/test_serializers.py:74-86 | three negative areas give three field errors in field order |
| Serializers.AcceptedFarmExample | agro/tests/test_serializers.py:49-64 | a farm whose areas fit is accepted as given |
| Serializers.CreateCrop | agro/serializers.py:104-108 | fails exactly on a duplicate pair, with the fixed integrity message and the store unchanged; otherwise adds one crop |
| Serializers.UpdateCrop | agro/serializers.py:110-114 | fails exactly when another crop holds the pair, with the fixed message and the store unchanged; otherwise only that crop changes |
| Ordering.LessTotal | agro/business/dashboard.py:8-9 | two different keys are ordered one way or the other |
| Ordering.LessTransitive | agro/business/dashboard.py:8-9 | the key order is transitive |
| Ordering.KeysSorted | agro/business/dashboard.py:8-9 | the keys of a column are strictly ascending and are exactly the values present |
| Ordering.DistinctCardinality | agro/business/dashboard.py:8-9 | a duplicate-free key list is as long as the set of values it enumerates |
| Dashboard.SumsAppend | agro/business/dashboard.py:7-12 | each area sum splits over any division of the rows |
| Dashboard.SumTotal | agro/business/dashboard.py:7 | the total area of non-negative rows is non-negative and at least each row's own |
| Dashboard.SumArable | agro/business/dashboard.py:11 | the arable area of non-negative rows is non-negative and at least each row's own |
| Dashboard.SumVegetation | agro/business/dashboard.py:12 | the vegetation area of non-negative rows is non-negative and at least each row's own |
| Dashboard.SumsKeepAreaRule | agro/business/dashboard.py:7-12 | when every farm row passes `validate_total_area` with non-negative parts, the three sums pass it too |
| Dashboard.CountByState | agro/business/dashboard.py:8 | one entry per distinct state in state order with the number of farms in it (properties in the rows below) |
| Dashboard.CountByStateSorted | agro/business/dashboard.py:8 | `count_by_state` is ascending by state and lists exactly the states present |
| Dashboard.CountByStateEntries | agro/business/dashboard.py:8 | each state's total is the number of farms in it, at least one |
| Dashboard.CountByStateLength | agro/tests/test_business/test_dashboard.py:71-85 | there is one entry per distinct state |
| Dashboard.CountByStateSum | agro/business/dashboard.py:6-8 | the state totals add up to the farm count |
| Dashboard.StateTotalCoversFarms | agro/business/dashboard.py:8 | counting against distinct keys that cover all states counts each farm once |
| Dashboard.CountByCrop | agro/business/dashboard.py:9-10 | one entry per distinct crop-type name in name order with the number of distinct farms growing it (properties in the rows below) |
| Dashboard.CountByCropProperties | agro/business/dashboard.py:9-10 | `farm_count_by_crop` is ascending, lists exactly the crop-type names present, and each total is the number of distinct farms, between 1 and the farm count |
| Dashboard.CountByCropSorted | agro/business/dashboard.py:9-10 | the crop list is ascending, and empty exactly when there are no crops |
| Dashboard.CountByCropLength | agro/business/dashboard.py:9-10 | there is one entry per distinct crop-type name |
| Dashboard.SingleCropType | app/agro/tests/test_views/test_dashboard_view.py:77-93 | crops of a single type give exactly one entry |
| Dashboard.GetDashboardData | agro/business/dashboard.py:5-23 | the farm count is the number of farms; the state totals add up to it; both lists are sorted; no farms gives zero sums and no states; no crops gives no crop entries |
| Views.Grouped | app/agro/views.py:44-50 | the listing: one group per farm in the order its first crop appears, holding its crop types in input order (properties in the rows below) |
| Views.FarmOrderMembers | app/agro/views.py:44-48 | the group keys are free of duplicates and are exactly the farms of the crops |
| Views.FarmOrderPrefix | app/agro/views.py:45-50 | the groups of a prefix of the crops come first, so groups follow first appearance |
| Views.ListCropsByFarm | app/agro/views.py:42-51 | the loop over the dictionary returns one group per farm in first-appearance order, holding the farm's crop types in input order |
| Views.GroupedCounts | app/agro/views.py:44-50 | one group per distinct farm, and the entries of all groups add up to the number of crops |
| Views.NoCropsNoGroups | app/agro/views.py:44-50 | no crops give an empty listing |
| Views.OneFarmTwoCrops | agro/tests/test_views/test_crop_view.py:18-28 | one farm with two crops gives one group with both crop types |
| Views.DashboardGet | app/agro/views.py:55-64 | status 200 exactly on success, with the aggregate unchanged; any failure gives status 500 with the fixed message |
| Views.FailuresIndistinguishable | app/agro/views.py:59-64 | no detail of a failure reaches the response |
| Views.DashboardReportsRows | app/agro/views.py:56-58 | a successful request reports the farm count of the rows read |

## Left out

- Unicode digits: Python's `str.isdigit` also accepts non-ASCII digits; the model keeps `'0'..'9'` only.
- The CPF/CNPJ library's internals are not part of this model; its rule is modelled directly.
- The framework's own field machinery is not shown in the source, so it is not modelled. This covers required and blank fields, whitespace trimming, `max_digits`, the generated unique validators, the primary-key lookups that turn unknown ids into 400 responses, and the choice check generated for `state` from `STATE_CHOICES` (app/agro/models.py:24). That choice check runs before `validate_state` and rejects an unknown code with the framework's own message, so `Serializers.ValidateState` and `Serializers.UnknownStateExample` state which field fails and not the exact text the client sees. `Serializers.CreateCrop` and `Serializers.UpdateCrop` therefore require the farm and crop type to exist, as the validated data guarantees.
- Serializers.ValidateFarm: runs on a complete payload. A partial update that omits an area field is not modelled. Reading the source, `validate` then passes the partial data to `validate_total_area` (brain-ag-teste/agro/business/validators.py:2), whose dictionary lookup of the missing key raises `KeyError`, so such a request fails with a server error rather than a validation error.
- RecordStore.Store: the length limits are a data error of the storage layer. The serializer's own length validators, which report them as field errors, are framework machinery and are left out.
- Updates of farmer, farm and crop-type rows, and the plain serializer round trips (`FarmerSerializer(farmer).data`): generic create/read/update code with no logic of the repository's own.
- Timestamps (`created_at`, `updated_at`) and the `-updated_at` list ordering: clock-dependent.
- UUID generation: ids are fresh naturals.
- Pagination, URL routing, admin registration, JSON rendering and HTTP plumbing other than the error-to-500 mapping.
- Views.DashboardGet: treats the whole aggregate as computed inside the `try`. The per-state grouping is a lazy query that is only evaluated when the response is rendered (agro/business/dashboard.py:8 and :21), outside the `try`, so a failure there does not become the 500 response.
- Logging of the dashboard failure (app/agro/views.py:60): output only.
- Database transactions, isolation, and races between concurrent requests.
- Database collation: keys sort by code point.
- Dashboard.GetDashboardData: the rows are passed in. That the query writes nothing holds because it is a function, not a proved statement about the store.
- Views.ListCropsByFarm: a group holds the farm and crop-type records, not their serialized JSON.
