/** The price rule of a freight quote (app.py, lines 106-146): a base tariff
    looked up by cargo class and zone, the profit margin, optional 21% VAT,
    a quantity multiplier for every class except the minimum package, and an
    insurance premium on the declared value. Money is an exact `real`. */
module Pricing {
  import opened Common
  import Text

  type ZoneId = int

  /** One row of the tariff table: zone, cargo-class label, base rate, code. */
  datatype Tariff = Tariff(zone: ZoneId, description: string, baseRate: real, code: string)

  /** One row of the zone/locality directory. */
  datatype Locality = Locality(zone: ZoneId, zoneName: string, name: string,
                               surcharge: real, latitude: real, longitude: real)

  /** The global pricing parameters: fuel litres per km, fuel price, cost per
      km and profit margin. */
  datatype Parameters = Parameters(fuelPerKm: real, fuelPrice: real, costPerKm: real, margin: real)

  /** The two ways the computation fails once the form is complete: the
      parameter list is empty (`parametros[0]` raises), or no tariff matches
      (the base rate is `None` and the multiplication raises). */
  datatype PricingError = NoParameters | NoTariff

  /** The outcome of pricing: `Incomplete` is the source's `None` return for a
      form that is not filled in; `Failed` is a raised exception. */
  datatype Quote = Incomplete | Priced(cost: real) | Failed(error: PricingError)

  /** The one class priced per shipment rather than per unit. */
  const MinimumPackage: string := "BULTO MINIMO (MAXIMO 20 KG)"

  const VatFactor: real := 1.21
  const InsuranceRate: real := 0.008

  /** Python truthiness of an optional string: present and not empty. */
  predicate TextGiven(s: Option<string>) {
    s.Some? && s.value != []
  }

  /** Python truthiness of an optional number: present and not zero. */
  predicate NumberGiven(x: Option<real>) {
    x.Some? && x.value != 0.0
  }

  /** The form is complete when class, distance and locality are all truthy:
      none of them is `None`, an empty string or a zero distance. */
  predicate Complete(cargoClass: Option<string>, distance: Option<real>, locality: Option<string>)
    ensures Complete(cargoClass, distance, locality) <==>
              cargoClass !in {None, Some("")} && distance !in {None, Some(0.0)} && locality !in {None, Some("")}
  {
    TextGiven(cargoClass) && NumberGiven(distance) && TextGiven(locality)
  }

  /** The tariff row that prices a class in a zone: the first row with that
      exact label and zone. */
  function BaseRate(tariffs: seq<Tariff>, description: string, zone: ZoneId): (r: Option<real>)
    ensures r.None? <==>
      forall i :: 0 <= i < |tariffs| ==> !(tariffs[i].description == description && tariffs[i].zone == zone)
    ensures r.Some? ==>
      exists i :: 0 <= i < |tariffs| && tariffs[i].description == description && tariffs[i].zone == zone
                  && r.value == tariffs[i].baseRate
                  && forall j :: 0 <= j < i ==> !(tariffs[j].description == description && tariffs[j].zone == zone)
  {
    match FirstIndex(tariffs, (t: Tariff) => t.description == description && t.zone == zone)
    case None => None
    case Some(i) => Some(tariffs[i].baseRate)
  }

  /** The locality surcharge: that of the first locality whose stripped name
      equals the stripped query, and 0 when none does. The price rule looks
      it up but does not add it. */
  function LocalitySurcharge(localities: seq<Locality>, name: string): (r: real)
    ensures (forall i :: 0 <= i < |localities| ==> Text.Strip(localities[i].name) != Text.Strip(name))
            ==> r == 0.0
    ensures (exists i :: 0 <= i < |localities| && Text.Strip(localities[i].name) == Text.Strip(name))
            ==> exists i :: 0 <= i < |localities| && Text.Strip(localities[i].name) == Text.Strip(name)
                            && r == localities[i].surcharge
                            && forall j :: 0 <= j < i ==> Text.Strip(localities[j].name) != Text.Strip(name)
  {
    match FirstIndex(localities, (l: Locality) => Text.Strip(l.name) == Text.Strip(name))
    case None => 0.0
    case Some(i) => localities[i].surcharge
  }

  /** The insurance premium: 0.8% of a truthy declared value, else nothing.
      It has the sign of the declared value. */
  function Insurance(declared: Option<real>): (r: real)
    ensures !NumberGiven(declared) ==> r == 0.0
    ensures NumberGiven(declared) ==> r * 125.0 == declared.value
    ensures declared.Some? ==> (r > 0.0 <==> declared.value > 0.0) && (r < 0.0 <==> declared.value < 0.0)
  {
    if NumberGiven(declared) then declared.value * InsuranceRate else 0.0
  }

  /** The final quoted cost. `zone` is the zone currently selected in the
      form; `wantsInsurance` is accepted but never read, as in the source. */
  function FinalCost(tariffs: seq<Tariff>, localities: seq<Locality>, params: seq<Parameters>,
                     zone: ZoneId, cargoClass: Option<string>, distance: Option<real>,
                     locality: Option<string>, withVat: bool, wantsInsurance: bool,
                     quantity: int, declared: Option<real>): (q: Quote)
    ensures q.Incomplete? <==> !Complete(cargoClass, distance, locality)
    ensures q.Failed? <==>
      Complete(cargoClass, distance, locality) && (params == [] || BaseRate(tariffs, cargoClass.value, zone).None?)
    ensures q.Failed? ==> (q.error == NoParameters <==> params == [])
    ensures q.Priced? ==>
      q.cost == BaseRate(tariffs, cargoClass.value, zone).value * (1.0 + params[0].margin)
                * (if withVat then VatFactor else 1.0)
                * (if cargoClass.value == MinimumPackage then 1.0 else quantity as real)
                + Insurance(declared)
  {
    if !Complete(cargoClass, distance, locality) then Incomplete
    else
      var rate := BaseRate(tariffs, cargoClass.value, zone);
      if params == [] then Failed(NoParameters)
      else if rate.None? then Failed(NoTariff)
      else
        var cost := rate.value * (1.0 + params[0].margin);
        var cost := if withVat then cost * VatFactor else cost;
        var cost := if cargoClass.value != MinimumPackage then cost * quantity as real else cost;
        Priced(cost + Insurance(declared))
  }

  /** Once the distance is truthy its value does not affect the price. */
  lemma DistanceDoesNotAffectCost(tariffs: seq<Tariff>, localities: seq<Locality>, params: seq<Parameters>,
                                  zone: ZoneId, cargoClass: Option<string>, d1: real, d2: real,
                                  locality: Option<string>, withVat: bool, wantsInsurance: bool,
                                  quantity: int, declared: Option<real>)
    requires d1 != 0.0 && d2 != 0.0
    ensures FinalCost(tariffs, localities, params, zone, cargoClass, Some(d1), locality, withVat, wantsInsurance, quantity, declared)
         == FinalCost(tariffs, localities, params, zone, cargoClass, Some(d2), locality, withVat, wantsInsurance, quantity, declared)
  {
  }

  /** Locality surcharges, fuel and per-km parameters and the insurance flag
      do not affect the price: only the margin of the first parameter row
      is read. */
  lemma UnusedInputsDoNotAffectCost(tariffs: seq<Tariff>, l1: seq<Locality>, l2: seq<Locality>,
                                    p1: seq<Parameters>, p2: seq<Parameters>, zone: ZoneId,
                                    cargoClass: Option<string>, distance: Option<real>, locality: Option<string>,
                                    withVat: bool, f1: bool, f2: bool, quantity: int, declared: Option<real>)
    requires (p1 == []) == (p2 == [])
    requires p1 != [] ==> p1[0].margin == p2[0].margin
    ensures FinalCost(tariffs, l1, p1, zone, cargoClass, distance, locality, withVat, f1, quantity, declared)
         == FinalCost(tariffs, l2, p2, zone, cargoClass, distance, locality, withVat, f2, quantity, declared)
  {
  }

  /** The minimum package is flat-rate: the quantity does not affect its price. */
  lemma MinimumPackageIgnoresQuantity(tariffs: seq<Tariff>, localities: seq<Locality>, params: seq<Parameters>,
                                      zone: ZoneId, distance: Option<real>, locality: Option<string>,
                                      withVat: bool, wantsInsurance: bool, q1: int, q2: int, declared: Option<real>)
    ensures FinalCost(tariffs, localities, params, zone, Some(MinimumPackage), distance, locality, withVat, wantsInsurance, q1, declared)
         == FinalCost(tariffs, localities, params, zone, Some(MinimumPackage), distance, locality, withVat, wantsInsurance, q2, declared)
  {
  }

  /** For every other class the price less insurance is linear in the
      quantity: `quantity` units cost `quantity` times one unit, and the
      insurance premium is added once, not per unit. */
  lemma CostLinearInQuantity(tariffs: seq<Tariff>, localities: seq<Locality>, params: seq<Parameters>,
                             zone: ZoneId, cargoClass: string, distance: Option<real>, locality: Option<string>,
                             withVat: bool, wantsInsurance: bool, quantity: int, declared: Option<real>)
    requires cargoClass != MinimumPackage
    requires FinalCost(tariffs, localities, params, zone, Some(cargoClass), distance, locality, withVat, wantsInsurance, 1, declared).Priced?
    ensures FinalCost(tariffs, localities, params, zone, Some(cargoClass), distance, locality, withVat, wantsInsurance, quantity, declared).Priced?
    ensures FinalCost(tariffs, localities, params, zone, Some(cargoClass), distance, locality, withVat, wantsInsurance, quantity, declared).cost
            - Insurance(declared)
         == quantity as real
            * (FinalCost(tariffs, localities, params, zone, Some(cargoClass), distance, locality, withVat, wantsInsurance, 1, declared).cost
               - Insurance(declared))
  {
  }

  /** The insurance premium is the whole difference between declaring a
      value and declaring none. */
  lemma InsuranceAddedOnce(tariffs: seq<Tariff>, localities: seq<Locality>, params: seq<Parameters>,
                           zone: ZoneId, cargoClass: Option<string>, distance: Option<real>, locality: Option<string>,
                           withVat: bool, wantsInsurance: bool, quantity: int, declared: real)
    requires FinalCost(tariffs, localities, params, zone, cargoClass, distance, locality, withVat, wantsInsurance, quantity, None).Priced?
    ensures FinalCost(tariffs, localities, params, zone, cargoClass, distance, locality, withVat, wantsInsurance, quantity, Some(declared)).cost
         == FinalCost(tariffs, localities, params, zone, cargoClass, distance, locality, withVat, wantsInsurance, quantity, None).cost
            + declared * InsuranceRate
  {
  }

  /** Without insurance, the price with VAT is the price without VAT times 1.21. */
  lemma VatScalesCost(tariffs: seq<Tariff>, localities: seq<Locality>, params: seq<Parameters>,
                      zone: ZoneId, cargoClass: Option<string>, distance: Option<real>, locality: Option<string>,
                      wantsInsurance: bool, quantity: int, declared: Option<real>)
    requires !NumberGiven(declared)
    requires FinalCost(tariffs, localities, params, zone, cargoClass, distance, locality, false, wantsInsurance, quantity, declared).Priced?
    ensures FinalCost(tariffs, localities, params, zone, cargoClass, distance, locality, true, wantsInsurance, quantity, declared).cost
         == FinalCost(tariffs, localities, params, zone, cargoClass, distance, locality, false, wantsInsurance, quantity, declared).cost
            * VatFactor
  {
  }

  /** Worked quotes: 1000 base, 20% margin, three units of 21-100 kg, without
      and with VAT; and the minimum package with 10000 declared. */
  lemma ExampleQuotes()
    ensures var tariffs := [Tariff(1, "DE 21 KG A 100 KG", 1000.0, "2"), Tariff(1, MinimumPackage, 500.0, "1")];
            var params := [Parameters(0.3, 1100.0, 150.0, 0.20)];
            && FinalCost(tariffs, [], params, 1, Some("DE 21 KG A 100 KG"), Some(12.5), Some("Centro"),
                         false, false, 3, None) == Priced(3600.0)
            && FinalCost(tariffs, [], params, 1, Some("DE 21 KG A 100 KG"), Some(12.5), Some("Centro"),
                         true, false, 3, Some(0.0)) == Priced(4356.0)
            && FinalCost(tariffs, [], params, 1, Some(MinimumPackage), Some(12.5), Some("Centro"),
                         false, true, 5, Some(10000.0)) == Priced(680.0)
            && FinalCost(tariffs, [], params, 2, Some(MinimumPackage), Some(12.5), Some("Centro"),
                         false, true, 5, Some(10000.0)) == Failed(NoTariff)
            && FinalCost(tariffs, [], params, 1, Some(MinimumPackage), Some(0.0), Some("Centro"),
                         false, true, 5, Some(10000.0)) == Incomplete
  {
    var tariffs := [Tariff(1, "DE 21 KG A 100 KG", 1000.0, "2"), Tariff(1, MinimumPackage, 500.0, "1")];
    assert "DE 21 KG A 100 KG" != MinimumPackage by {
      assert "DE 21 KG A 100 KG"[0] != MinimumPackage[0];
    }
    assert BaseRate(tariffs, "DE 21 KG A 100 KG", 1) == Some(1000.0);
    assert tariffs[0].description != MinimumPackage;
    assert tariffs[1].description == MinimumPackage && tariffs[1].zone == 1;
    assert BaseRate(tariffs, MinimumPackage, 1).Some?;
    assert BaseRate(tariffs, MinimumPackage, 1) == Some(500.0);
    assert BaseRate(tariffs, MinimumPackage, 2) == None;
  }
}
