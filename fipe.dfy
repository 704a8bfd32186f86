/**
 * The FIPE price lookup page: a vehicle type, then a brand, a model and a
 * year chosen in turn. Changing one choice clears the choices after it, and
 * each catalogue query runs only once the choices before it are made.
 */
module Fipe {
  datatype VehicleType = Cars | Motorcycles | Trucks

  class FipeSelection {
    var vehicleType: VehicleType
    var brandId: string
    var modelId: string
    var yearId: string

    /** Every choice has the choice before it made. */
    predicate Cascaded()
      reads this
    {
      (modelId != "" ==> brandId != "") && (yearId != "" ==> modelId != "")
    }

    constructor ()
      ensures vehicleType == Cars && brandId == "" && modelId == "" && yearId == ""
      ensures Cascaded()
    {
      vehicleType := Cars;
      brandId := "";
      modelId := "";
      yearId := "";
    }

    /** The models query needs a brand. */
    predicate ModelsEnabled()
      reads this
    {
      brandId != ""
    }

    /** The years query needs a brand and a model. */
    predicate YearsEnabled()
      reads this
    {
      brandId != "" && modelId != ""
    }

    /** The price query needs all three. */
    predicate PriceEnabled()
      reads this
    {
      brandId != "" && modelId != "" && yearId != ""
    }

    /** The clear button appears while any of the three choices is made. */
    predicate ShowsClear()
      reads this
    {
      brandId != "" || modelId != "" || yearId != ""
    }

    /** `handleVehicleTypeChange`: the type changes and the three choices are cleared. */
    method ChangeVehicleType(t: VehicleType)
      modifies this
      ensures vehicleType == t && brandId == "" && modelId == "" && yearId == ""
      ensures Cascaded() && !ModelsEnabled() && !ShowsClear()
    {
      vehicleType := t;
      brandId := "";
      modelId := "";
      yearId := "";
    }

    /** `handleBrandChange`: the brand changes and model and year are cleared. */
    method ChangeBrand(value: string)
      modifies this
      ensures brandId == value && modelId == "" && yearId == "" && vehicleType == old(vehicleType)
      ensures Cascaded() && !YearsEnabled() && !PriceEnabled()
      ensures ModelsEnabled() <==> value != ""
    {
      brandId := value;
      modelId := "";
      yearId := "";
    }

    /**
     * `handleModelChange`: the model changes and the year is cleared. The
     * model selector is disabled while no brand is chosen, so through the
     * page a model is only ever picked under a brand.
     */
    method ChangeModel(value: string)
      modifies this
      ensures modelId == value && yearId == ""
      ensures brandId == old(brandId) && vehicleType == old(vehicleType)
      ensures old(Cascaded()) && (old(brandId) != "" || value == "") ==> Cascaded()
      ensures !PriceEnabled()
    {
      modelId := value;
      yearId := "";
    }

    /** The year selector (`setYearId`), disabled while no model is chosen. */
    method ChangeYear(value: string)
      modifies this
      ensures yearId == value && brandId == old(brandId) && modelId == old(modelId)
      ensures vehicleType == old(vehicleType)
      ensures old(Cascaded()) && (old(modelId) != "" || value == "") ==> Cascaded()
    {
      yearId := value;
    }

    /** `handleClear`: the three choices are cleared and the type kept. */
    method Clear()
      modifies this
      ensures brandId == "" && modelId == "" && yearId == "" && vehicleType == old(vehicleType)
      ensures Cascaded() && !ShowsClear()
    {
      brandId := "";
      modelId := "";
      yearId := "";
    }
  }

  /** With the choices cascaded, each later query runs only with the earlier ones, and the price query runs exactly when a year is chosen. */
  lemma QueriesNest(s: FipeSelection)
    requires s.Cascaded()
    ensures s.PriceEnabled() ==> s.YearsEnabled() && s.ModelsEnabled()
    ensures s.YearsEnabled() ==> s.ModelsEnabled()
    ensures s.PriceEnabled() <==> s.yearId != ""
    ensures s.YearsEnabled() <==> s.modelId != ""
    ensures s.ShowsClear() <==> s.brandId != ""
  {
  }
}
