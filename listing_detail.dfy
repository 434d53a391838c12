/** The listing page's price estimate and concierge add-ons
    (vitereact/src/components/views/UV_ListingDetail.tsx). Instants are integer
    milliseconds; a date left unselected (`null` or empty) is None. Prices are reals. */
module ListingDetail {
  import opened Common

  datatype Addon = Addon(id: string, name: string, price: real, perGuest: bool)

  const DayMs: real := 86400000.0

  /** `averageNightly`: the villa's nightly base price, 0 while no villa is loaded. */
  function AverageNightly(basePrice: Option<real>): (r: real)
    ensures basePrice.None? ==> r == 0.0
    ensures basePrice.Some? ==> r == basePrice.value
  {
    basePrice.GetOr(0.0)
  }

  /** What one add-on adds: its price per guest, or once. */
  function AddonCost(a: Addon, guests: real): real {
    if a.perGuest then a.price * guests else a.price
  }

  predicate PricesNonNegative(addons: seq<Addon>) {
    forall i :: 0 <= i < |addons| ==> addons[i].price >= 0.0
  }

  /** The add-ons' total, summed in list order: nothing without add-ons, and never
      negative while no price is. */
  function AddonSum(addons: seq<Addon>, guests: real): (r: real)
    ensures addons == [] ==> r == 0.0
    ensures PricesNonNegative(addons) && guests >= 0.0 ==> r >= 0.0
    decreases |addons|
  {
    if addons == [] then 0.0
    else AddonSum(addons[..|addons| - 1], guests) + AddonCost(addons[|addons| - 1], guests)
  }

  /** The nights between two instants, fractional and possibly negative or zero. */
  function Nights(checkIn: int, checkOut: int): real {
    (checkOut - checkIn) as real / DayMs
  }

  /** The estimate as a formula: 0 without both dates, otherwise the nights at the
      average nightly price plus every add-on. */
  function Estimate(checkIn: Option<int>, checkOut: Option<int>, nightly: real, guests: real,
                    addons: seq<Addon>): (r: real)
    ensures checkIn.None? || checkOut.None? ==> r == 0.0
    ensures checkIn.Some? && checkOut.Some? && PricesNonNegative(addons) && guests >= 0.0 ==>
              r >= Nights(checkIn.value, checkOut.value) * nightly
  {
    if checkIn.None? || checkOut.None? then 0.0
    else Nights(checkIn.value, checkOut.value) * nightly + AddonSum(addons, guests)
  }

  /** `totalEstimate`: the `forEach` loop that adds the add-ons to the nights' cost. */
  method TotalEstimate(checkIn: Option<int>, checkOut: Option<int>, nightly: real, guests: real,
                       addons: seq<Addon>) returns (total: real)
    ensures total == Estimate(checkIn, checkOut, nightly, guests, addons)
    ensures checkIn.None? || checkOut.None? ==> total == 0.0
  {
    if checkIn.None? || checkOut.None? {
      return 0.0;
    }
    var nights := Nights(checkIn.value, checkOut.value);
    total := nights * nightly;
    var i := 0;
    while i < |addons|
      invariant 0 <= i <= |addons|
      invariant total == nights * nightly + AddonSum(addons[..i], guests)
    {
      assert addons[..i + 1][..i] == addons[..i];
      total := total + AddonCost(addons[i], guests);
      i := i + 1;
    }
    assert addons[..i] == addons;
  }

  /** Adding an add-on to the end of the list raises the estimate by that add-on's cost. */
  lemma AddonSumAppend(addons: seq<Addon>, a: Addon, guests: real)
    ensures AddonSum(addons + [a], guests) == AddonSum(addons, guests) + AddonCost(a, guests)
  {
    assert (addons + [a])[..|addons|] == addons;
  }

  /** The sum of a concatenation is the sum of its parts. */
  lemma {:induction false} AddonSumConcat(s: seq<Addon>, t: seq<Addon>, guests: real)
    ensures AddonSum(s + t, guests) == AddonSum(s, guests) + AddonSum(t, guests)
    decreases |t|
  {
    if t == [] {
      assert s + t == s;
    } else {
      var n := |t| - 1;
      assert (s + t)[..|s + t| - 1] == s + t[..n];
      AddonSumConcat(s, t[..n], guests);
    }
  }

  /** Without add-ons, the estimate for the loaded villa is the nights at its base price,
      and 0 when no villa is loaded; the nights are not clamped, so reversed dates give a
      negative estimate although the page shows at least one night. */
  lemma EstimateNights(checkIn: int, checkOut: int, basePrice: Option<real>, guests: real)
    ensures Estimate(Some(checkIn), Some(checkOut), AverageNightly(basePrice), guests, [])
         == if basePrice.None? then 0.0 else Nights(checkIn, checkOut) * basePrice.value
    ensures checkOut < checkIn && basePrice.Some? && basePrice.value > 0.0 ==>
              Estimate(Some(checkIn), Some(checkOut), AverageNightly(basePrice), guests, []) < 0.0
              && DisplayedNights(Some(checkIn), Some(checkOut)) == Some(1.0)
  {
    if checkOut < checkIn && basePrice.Some? && basePrice.value > 0.0 {
      assert Nights(checkIn, checkOut) < 0.0;
    }
  }

  /** The night count under the mobile price: `max(1, nights)` once a check-in is chosen,
      with a missing check-out read as the instant 0; None stands for "select dates". */
  function DisplayedNights(checkIn: Option<int>, checkOut: Option<int>): (r: Option<real>)
    ensures r.Some? <==> checkIn.Some?
    ensures r.Some? ==> r.value >= 1.0
    ensures r.Some? ==> r.value == 1.0 || r.value == Nights(checkIn.value, checkOut.GetOr(0))
    ensures r.Some? && Nights(checkIn.value, checkOut.GetOr(0)) >= 1.0 ==> r.value == Nights(checkIn.value, checkOut.GetOr(0))
  {
    if checkIn.None? then None
    else
      var n := Nights(checkIn.value, checkOut.GetOr(0));
      Some(if n > 1.0 then n else 1.0)
  }

  // ---------------------------------------------------------------------------
  // The add-on checkboxes

  predicate HasAddon(addons: seq<Addon>, id: string) {
    exists i :: 0 <= i < |addons| && addons[i].id == id
  }

  /** The checkbox handler: an add-on already chosen (by id) is removed, every entry with
      that id; otherwise it is appended. */
  function Toggle(addons: seq<Addon>, a: Addon): (r: seq<Addon>)
    ensures HasAddon(addons, a.id) ==> r == Filter(addons, (x: Addon) => x.id != a.id) && !HasAddon(r, a.id)
    ensures !HasAddon(addons, a.id) ==> r == addons + [a]
  {
    if First(addons, (x: Addon) => x.id == a.id).Some? then
      var r := Filter(addons, (x: Addon) => x.id != a.id);
      assert forall i :: 0 <= i < |r| ==> r[i] in r;
      r
    else addons + [a]
  }

  /** Checking and then unchecking an add-on gives the original list back. */
  lemma ToggleTwice(addons: seq<Addon>, a: Addon)
    requires !HasAddon(addons, a.id)
    ensures Toggle(Toggle(addons, a), a) == addons
  {
    var once := addons + [a];
    assert once[|addons|].id == a.id;
    assert HasAddon(once, a.id);
    FilterConcat(addons, [a], (x: Addon) => x.id != a.id);
    FilterAll(addons, (x: Addon) => x.id != a.id);
    assert Filter([a], (x: Addon) => x.id != a.id) == [];
  }

  /** Checking an add-on raises the estimate by its cost, once both dates are chosen. */
  lemma ToggleOnRaisesEstimate(checkIn: int, checkOut: int, nightly: real, guests: real, addons: seq<Addon>, a: Addon)
    requires !HasAddon(addons, a.id)
    ensures Estimate(Some(checkIn), Some(checkOut), nightly, guests, Toggle(addons, a))
         == Estimate(Some(checkIn), Some(checkOut), nightly, guests, addons) + AddonCost(a, guests)
  {
    AddonSumAppend(addons, a, guests);
  }
}
