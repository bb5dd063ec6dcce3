# Freight quote core: price rule, distance cache, quantity ranges, form reset

A Dafny model of the logic inside the freight-quoting form `app.py`. The rest of the file is user-interface wiring, HTTP, persistence and document rendering. The model has four parts.

- **Price rule** (`Pricing`, `calcular_costo_final`). If the form is incomplete there is no quote. Otherwise the base tariff is looked up by cargo class and the selected zone. The price is that tariff times (1 + profit margin), times 1.21 when VAT is included, and times the quantity unless the class is `"BULTO MINIMO (MAXIMO 20 KG)"`. Last, an insurance premium of 0.8% of a non-zero declared value is added once. The locality surcharge, the fuel and per-km parameters and the distance are looked up or passed in, but they are commented out of the formula. The model keeps that, and lemmas prove the price does not depend on them. Money is an exact `real`.
- **Distance cache** (`DistanceCache`, `calcular_distancia`, `cargar_cache_distancias`, `guardar_cache_distancias`). The cache file is a `CacheStore` object holding a missing, corrupt or stored map. A missing file, or one that is not valid JSON, reads as empty. The route service is a `RouteService` object. It records every request and answers from a fixed function. `Distance` is the get-or-fetch method:
  - on a hit it returns the stored value, sends nothing and writes nothing;
  - on a miss it sends exactly one request, with longitude first in both points;
  - only a status-200 answer that carries a route length is rounded to 0.01 km, stored under the key and returned;
  - any other answer returns nothing and leaves the file as it was.
- **Quantity ranges** (`QuantityRanges`, lines 372-406). The cargo-class table is re-keyed by `strip().upper()` of each label and looked up under the normalised selection. An unknown class gets min 1 with no maximum. A quantity is accepted when it lies in the inclusive range.
- **Form reset** (`Session`, `resetear_formulario`). The session is a map. The reset loop deletes each listed key that is present, and every other entry is left as it was.

`Common` holds `Option` and `FirstIndex`, the "first element that matches" search behind Python's `next(..., default)`. `Text` holds Python's `str.strip()` and `str.upper()`.

Behaviours of `app.py` the model keeps:
- The insurance premium applies whenever the declared value is truthy (non-zero), not only when it is positive. A negative value gives a negative premium.
- The insurance-requested flag is a parameter of the price rule, but the rule never reads it. Only the declared value decides the premium.
- A cargo class with no tariff for the zone does not make the result "absent". The multiplication on `None` raises, which the model gives as `Failed(NoTariff)`. An empty parameter list raises first, as `Failed(NoParameters)`.
- The completeness test is Python truthiness. An empty string, a distance of exactly 0 and `None` count as missing. A locality of only blanks counts as present.

## Model

| member | source | states |
|---|---|---|
| Common.FirstIndex | app.py:111-115 | The result is absent exactly when no element matches. Otherwise it is an in-range index of a matching element with no match before it, which is the element `next(...)` yields. |
| Text.Strip | app.py:117-120 | The result neither starts nor ends with white space (Python's `isspace` set). It is an infix of the input, and everything dropped on either side is white space. |
| Text.StripIdempotent | app.py:389-393 | Stripping twice is stripping once. |
| Text.StripFixesStripped | app.py:389-393 | A string with no white space at either end is its own strip. |
| Text.Upper | app.py:389-391 | Upper-casing keeps the length and the positions of white space. Each small letter (a–z, and Latin-1 U+00E0–U+00FE except U+00F7) becomes the capital 0x20 code points below it, and every other character is kept. No small letter is left. |
| Text.UpperFixesCapitals | app.py:389-391 | A string without small letters is its own upper-case form. |
| Text.Normalize | app.py:389-391 | `strip().upper()` leaves no white space at either end and no small letter. It has the length of the stripped input, and at each position it holds that character upper-cased (a small letter moved 0x20 down, anything else kept). |
| Text.NormalFormFixed | app.py:389-391 | A string with no white space at either end and no small letter is its own `strip().upper()` form. |
| Text.NormalizeEqualIff | app.py:389-396 | Two strings get the same key exactly when their stripped forms agree position by position up to letter case. |
| Text.StripPadding | app.py:389 | Stripping a non-empty stripped string padded with white space on both sides returns that string. |
| Text.NormalizeIdempotent | app.py:389-393 | `strip().upper()` applied twice equals applying it once. |
| QuantityRanges.Table | app.py:373-386 | The twelve classes in source order. Every minimum is at least 1, and every bounded entry has min ≤ max. |
| QuantityRanges.Rekeyed | app.py:390-393 | The table re-keyed by a key function, later labels winning. It has at most one key per label. The lookup applies it with `strip().upper()`. |
| QuantityRanges.RekeyedLookup | app.py:390-393 | For any key function, a key that some label maps to is present, with the range of the last such label (later insertions win). |
| QuantityRanges.RekeyedMissing | app.py:390-393 | A key that no label maps to is absent from the re-keyed table. |
| QuantityRanges.RekeyedValueFromTable | app.py:390-393 | Every range in the re-keyed table is the range of some table label that maps to its key. |
| QuantityRanges.RangeFor | app.py:389-398 | The range is the default, or the range of a table label that normalises like the selection. When no label normalises like it, the range is the default. |
| QuantityRanges.Accepts | app.py:400-406 | A range that accepts any quantity is well formed. The initial value `min` is accepted exactly when the range is well formed. |
| QuantityRanges.RangeForAcceptsMin | app.py:395-406 | Every range the lookup returns is well formed, so the input's initial value `min` is always an accepted quantity. |
| QuantityRanges.UnknownClassGetsDefault | app.py:395-398 | A selection that no table label matches after normalisation gets min 1 and no maximum. |
| QuantityRanges.KnownClassGetsItsRange | app.py:389-398 | A selection that normalises to the same key as a table label (the last such label) gets that label's range. |
| QuantityRanges.RangeForIgnoresCaseAndPadding | app.py:389-398 | A selection and its `strip().upper()` form get the same range. |
| QuantityRanges.LabelsStripped | app.py:373-384 | No table label starts or ends with white space. |
| QuantityRanges.FirstLabelsCapitalised | app.py:373-376 | The first four table labels hold no small letter. |
| QuantityRanges.MiddleLabelsCapitalised | app.py:377-380 | The next four table labels hold no small letter. |
| QuantityRanges.LastLabelsCapitalised | app.py:381-384 | The last four table labels hold no small letter. |
| QuantityRanges.LabelsNormal | app.py:373-393 | Every table label is its own `strip().upper()` form, so the re-keyed table is keyed by the labels themselves. |
| QuantityRanges.LabelsDistinct | app.py:373-384 | No two table labels are equal, so re-keying overwrites no entry. |
| QuantityRanges.SelectionGetsLabelRange | app.py:389-398 | A selection whose stripped form equals a table label up to letter case gets that label's range. |
| QuantityRanges.UnmatchedSelectionGetsDefault | app.py:389-398 | A selection whose stripped form matches no table label up to letter case gets min 1 and no maximum. |
| QuantityRanges.PaddedLowerCaseSelection | app.py:374-398 | The selection " de 21 kg a 100 kg " gets the range 21..100 of "DE 21 KG A 100 KG". |
| Pricing.BaseRate | app.py:111-115 | Absent exactly when no tariff row has both the class label and the zone. Otherwise it is the base rate of the first such row. |
| Pricing.LocalitySurcharge | app.py:117-120 | 0 when no locality's stripped name equals the stripped query. Otherwise it is the surcharge of the first such locality. |
| Pricing.Complete | app.py:108-109 | The form is complete exactly when none of class, distance and locality is `None`, an empty string or a zero distance. |
| Pricing.Insurance | app.py:143 | 0 without a truthy declared value. Otherwise exactly 1/125 (0.8%) of the declared value, with its sign. |
| Pricing.FinalCost | app.py:107-146 | Incomplete exactly when class, distance or locality is falsy. A complete form fails exactly when the parameter list is empty (that error first) or no tariff matches. A priced form costs rate × (1 + margin) × (1.21 with VAT) × (quantity unless minimum package) + insurance. |
| Pricing.DistanceDoesNotAffectCost | app.py:127-134 | Any two non-zero distances give the same result. |
| Pricing.UnusedInputsDoNotAffectCost | app.py:117-134 | The result depends neither on the locality directory nor on the insurance flag. It also ignores the fuel and per-km parameters: only the first row's margin is read. |
| Pricing.MinimumPackageIgnoresQuantity | app.py:139-141 | For the minimum-package class the result is the same for every quantity. |
| Pricing.CostLinearInQuantity | app.py:139-144 | For any other class, cost minus insurance at quantity q is q times cost minus insurance at quantity 1. |
| Pricing.InsuranceAddedOnce | app.py:143-144 | Declaring value v adds exactly v × 0.008 to the price without a declared value, whatever the quantity. |
| Pricing.VatScalesCost | app.py:136-137 | Without insurance, the price with VAT is exactly 1.21 times the price without. |
| Pricing.ExampleQuotes | app.py:127-146 | Base 1000 at 20% margin for three units of "DE 21 KG A 100 KG" costs 3600, or 4356 with VAT. The minimum package at base 500 with 10000 declared costs 680 for any quantity. The wrong zone fails with no tariff. A zero distance is incomplete. |
| DistanceCache.CacheKey | app.py:65 | The key is origin latitude, origin longitude, destination latitude and destination longitude, each in its own slot in that order, separated by three commas. |
| DistanceCache.RouteRequest | app.py:75-78 | Both points are sent as longitude, comma, latitude. |
| DistanceCache.CacheKeyInjective | app.py:65 | For coordinates without commas, equal cache keys mean equal coordinates, so no two routes share an entry. |
| DistanceCache.Round2 | app.py:85 | The result is a whole number of hundredths within 0.005 of the input. |
| DistanceCache.ResponseKm | app.py:80-93 | A distance comes back exactly when the status is 200 and the body carries a route length. It is a whole number of hundredths of a km, within 0.005 of metres / 1000 (`round(..., 2)`). |
| DistanceCache.Resolved | app.py:64-93 | The reference definition that `Distance` is proved against. A lookup yields a value exactly when the key is cached or the service answers with a distance. |
| DistanceCache.Updated | app.py:64-93 | The contents after a lookup are the old ones plus the key exactly when the lookup yielded a value. Old entries keep their values, and the key holds the yielded value. |
| DistanceCache.HitReturnsStored | app.py:67-68 | On a hit the stored value is returned and the cache contents stay the same, whatever the service would answer. |
| DistanceCache.UpdateTouchesOnlyKey | app.py:85 | A lookup leaves every other key's presence and value unchanged. |
| DistanceCache.UpdateOnlyOnAnsweredMiss | app.py:80-93 | The contents change exactly on a miss that the service answers with a distance. The key is then present with the returned value. |
| DistanceCache.SecondLookupHits | app.py:64-87 | After a successful lookup, a second lookup of the same key is a hit and returns the same value, whatever the service would answer. |
| DistanceCache.CacheStore.Load | app.py:35-40 | A stored file reads as its map. A missing or corrupt file reads as the empty map. |
| DistanceCache.CacheStore.Save | app.py:42-44 | The file is replaced by the given map, and reading it back gives that map. |
| DistanceCache.RouteService.Directions | app.py:81 | Each call is appended to the log of requests sent and is answered by the service. |
| DistanceCache.Distance | app.py:63-93 | Returns the stored value on a hit, else the answered distance. A hit sends no request; a miss sends exactly one, longitude first. The file is rewritten, as the old contents plus the new entry, only on an answered miss; otherwise it is untouched. |
| DistanceCache.DistanceTwice | app.py:63-93 | Looking up the same route twice: if the first lookup succeeds, the second returns the same value and sends nothing. In all, a cached route costs no request and an uncached one exactly one longitude-first request. |
| Session.SessionState.Delete | app.py:104 | Removes a present key. Every other entry keeps its value. |
| Session.SessionState.ResetForm | app.py:96-104 | The keys afterwards are the old keys minus the eight listed ones, and every remaining entry keeps its value. In particular `valor_mercaderia` survives. |

## Left out

- Streamlit widgets, layout, spinners and error messages. The selected zone is a parameter of the price rule, and the session is an explicit map.
- The HTTP request to the directions service: URL, headers, API key and JSON parsing. The service is a fixed function from request to response. A body without a readable route length is `Http(200, None)`, which the source's `except` turns into "no distance".
- DistanceCache.Coordinate: coordinates are their decimal text. How Python prints a float into the key and the request is not modelled.
- DistanceCache.Round2: rounds the exact real half-to-even. Python's `round` works on the binary float, so results can differ from the model at decimal ties.
- Floating point throughout: prices and distances are exact reals, so the ×1.21 and +0.8% relations hold exactly here but only approximately in the source.
- Text.Upper: maps only ASCII and Latin-1 small letters. Python also upper-cases the rest of Unicode, and maps 'ß' to "SS", 'ÿ' to 'Ÿ' and 'µ' to 'Μ'. A few letters outside Latin-1 upper-case to ASCII capitals in Python ('ı' to 'I', 'ſ' to 'S'), so a selection holding one, such as "METROS CUBıCOS", matches a label in the source but gets the default range, with no maximum, here. The form's selections come from the tariff table.
- The quote document, QR payload, PDF conversion, database insert, file upload, messaging link, identifiers and timestamps. These are rendering and external services. This includes the tariff-code check done before the database insert.
- DistanceCache.CacheStore.Load: a cache file that exists but cannot be opened (no permission, a directory) or is not valid text is not modelled. The source catches only a missing file and invalid JSON, and it reads the cache outside its `try`, so there the lookup raises instead of returning.
- A failure while writing the cache file, and the non-atomic read-then-write of that file by two processes.
- Reference-table rows missing a field (a `KeyError` in the source), and a cache file that parses to something other than a JSON object.
