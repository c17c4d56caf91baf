/** The vehicle list (pages/customer-vehicle/VehiclesPage.tsx): a search over
    owner name, car number and model, and the mileage column. */
module Vehicles {
  import opened Seqs
  import opened Text
  import opened Types

  /** The search test: the term occurs, ignoring case, in the owner's name,
      the car number or the car model. */
  function VehicleMatches(term: string): Vehicle -> bool
  {
    (v: Vehicle) => IncludesIgnoringCase(v.customerName, term)
      || IncludesIgnoringCase(v.carNumber, term)
      || IncludesIgnoringCase(v.carModel, term)
  }

  /** The effect on `[searchTerm, vehicles]`: every vehicle for an empty term,
      otherwise the matching ones. */
  function SearchVehicles(vehicles: seq<Vehicle>, term: string): seq<Vehicle>
  {
    if term != "" then Filter(VehicleMatches(term), vehicles) else vehicles
  }

  /** The result keeps list order, holds exactly the vehicles whose name,
      car number or model contains the term, and is everything for ''. */
  lemma SearchVehiclesSpec(vehicles: seq<Vehicle>, term: string)
    ensures var r := SearchVehicles(vehicles, term);
      IsSubsequence(r, vehicles)
      && (term == "" ==> r == vehicles)
      && (forall i :: 0 <= i < |r| ==> term == "" || VehicleMatches(term)(r[i]))
      && (forall i :: 0 <= i < |vehicles| && VehicleMatches(term)(vehicles[i]) ==> vehicles[i] in r)
  {
    if term == "" {
      SubsequenceReflexive(vehicles);
    } else {
      FilterIsSubsequence(VehicleMatches(term), vehicles);
    }
  }

  /** `formatMileage`: '-' for a missing or zero mileage, otherwise the
      number followed by ' km'. */
  function FormatMileage(mileage: Option<int>): string
  {
    if mileage.None? || mileage.value == 0 then "-" else IntToString(mileage.value) + " km"
  }

  /** The column shows '-' exactly for a falsy mileage; otherwise the number
      it shows reads back as the mileage. */
  lemma FormatMileageSpec(mileage: Option<int>)
    ensures FormatMileage(mileage) == "-" <==> mileage.None? || mileage.value == 0
    ensures mileage.Some? && mileage.value != 0 ==>
      var r := FormatMileage(mileage);
      |r| > 3 && r[|r| - 3..] == " km" && JsNumber(r[..|r| - 3]) == Some(mileage.value)
  {
    if mileage.Some? && mileage.value != 0 {
      var n := IntToString(mileage.value);
      var r := n + " km";
      assert r[..|r| - 3] == n && r[|r| - 3..] == " km";
      JsNumberOfIntToString(mileage.value);
    }
  }
}
