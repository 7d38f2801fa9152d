/** The area constraint of a farm (`validate_total_area`,
    brain-ag-teste/agro/business/validators.py). Areas are decimals with two
    places, so every area here is an integer count of hundredths of a
    hectare: 12.34 ha is 1234. */
module Areas {

  /** The three area entries the validator reads from a farm payload. */
  datatype AreaData = AreaData(total: int, arable: int, vegetation: int)

  /** Arable plus vegetation area does not exceed the total area. */
  predicate ValidateTotalArea(data: AreaData) {
    data.arable + data.vegetation <= data.total
  }

  /** Shrinking a part or growing the total never turns acceptance into
      rejection. */
  lemma AcceptanceMonotone(data: AreaData, other: AreaData)
    requires ValidateTotalArea(data)
    requires other.arable <= data.arable && other.vegetation <= data.vegetation
    requires other.total >= data.total
    ensures ValidateTotalArea(other)
  {
  }

  /** Boundary cases: equality is accepted, exceeding by one hundredth is not,
      and the all-zero triple passes this check alone. */
  lemma Examples()
    ensures ValidateTotalArea(AreaData(10000, 5000, 3000))
    ensures ValidateTotalArea(AreaData(10000, 7000, 3000))
    ensures ValidateTotalArea(AreaData(10000, 10000, 0))
    ensures ValidateTotalArea(AreaData(10000, 0, 10000))
    ensures ValidateTotalArea(AreaData(10000, 5000, 5000))
    ensures ValidateTotalArea(AreaData(0, 0, 0))
    ensures !ValidateTotalArea(AreaData(10000, 6000, 5000))
    ensures !ValidateTotalArea(AreaData(10000, 10100, 0))
    ensures !ValidateTotalArea(AreaData(10000, 10000, 1))
  {
  }
}
