/**
 * A villa listing as the listings endpoint returns it, and the fallbacks a
 * result card applies to its missing fields (src/components/VillaList.jsx,
 * the card markup). Every field of a listing may be absent.
 */
module Listing {
  import opened JsRuntime

  /**
   * One listing record. `price` is a number when present; `amenities` is
   * `None` whenever the field is not an array.
   */
  datatype Villa = Villa(
    id: Option<int>,
    name: Option<string>,
    location: Option<string>,
    price: Option<int>,
    description: Option<string>,
    amenities: Option<seq<string>>,
    image: Option<string>,
    premium: bool)

  const UnnamedVilla := "Unnamed Villa"
  const NoLocation := "Location not specified"
  const NoDescription := "No description available"
  const PlaceholderImage := "https://via.placeholder.com/400x300?text=No+Image"
  const DescriptionLimit := 120
  const Ellipsis := "..."
  const AmenityChipLimit := 4

  /** `s || fallback` for an optional string. */
  function OrElse(s: Option<string>, fallback: string): (r: string)
    ensures Truthy(s) ==> r == s.value
    ensures !Truthy(s) ==> r == fallback
    ensures fallback != "" ==> r != ""
  {
    if Truthy(s) then s.value else fallback
  }

  /** The card title: the listing's name, never blank. */
  function DisplayName(v: Villa): (r: string)
    ensures r != ""
    ensures Truthy(v.name) ==> r == v.name.value
    ensures !Truthy(v.name) ==> r == UnnamedVilla
  {
    OrElse(v.name, UnnamedVilla)
  }

  /** The card's location line, never blank. */
  function DisplayLocation(v: Villa): (r: string)
    ensures r != ""
    ensures Truthy(v.location) ==> r == v.location.value
    ensures !Truthy(v.location) ==> r == NoLocation
  {
    OrElse(v.location, NoLocation)
  }

  /** The image source: the listing's own image, else the placeholder URL. */
  function ImageSource(v: Villa): (r: string)
    ensures r != ""
    ensures Truthy(v.image) ==> r == v.image.value
    ensures !Truthy(v.image) ==> r == PlaceholderImage
  {
    OrElse(v.image, PlaceholderImage)
  }

  /** What the price line shows after the rupee sign. */
  datatype PriceDisplay = Amount(value: int) | OnRequest

  /**
   * A falsy price (absent or 0) shows "Price on request"; any other price is
   * shown as that amount.
   */
  function PriceLabel(price: Option<int>): (r: PriceDisplay)
    ensures r.OnRequest? <==> (price == None || price == Some(0))
    ensures r.Amount? ==> r.value == price.value && r.value != 0
  {
    if price.Some? && price.value != 0 then Amount(price.value) else OnRequest
  }

  /**
   * The description line: the whole text up to 120 characters, the first 120
   * characters and "..." beyond that, and a fixed sentence when there is none.
   */
  function DescriptionText(d: Option<string>): (r: string)
    ensures r != ""
    ensures !Truthy(d) ==> r == NoDescription
    ensures Truthy(d) && |d.value| <= DescriptionLimit ==> r == d.value
    ensures Truthy(d) && |d.value| > DescriptionLimit ==>
      |r| == DescriptionLimit + |Ellipsis| && r[..DescriptionLimit] == d.value[..DescriptionLimit]
      && r[DescriptionLimit..] == Ellipsis
  {
    if !Truthy(d) then NoDescription
    else if |d.value| > DescriptionLimit then d.value[..DescriptionLimit] + Ellipsis
    else d.value
  }

  /**
   * The amenity chips: the first four amenities, and a "+N more" chip when
   * there are more than four; nothing when the field is not an array.
   */
  datatype Chips = Chips(shown: seq<string>, more: Option<string>)

  function AmenityChips(amenities: Option<seq<string>>): (r: Chips)
    ensures amenities.None? ==> r == Chips([], None)
    ensures amenities.Some? ==>
      |r.shown| == (if |amenities.value| < AmenityChipLimit then |amenities.value| else AmenityChipLimit)
      && r.shown == amenities.value[..|r.shown|]
    ensures r.more.Some? <==> amenities.Some? && |amenities.value| > AmenityChipLimit
    ensures r.more.Some? ==>
      (|r.shown| == AmenityChipLimit
       && r.more.value == "+" + DecimalString(|amenities.value| - |r.shown|) + " more")
  {
    match amenities
    case None => Chips([], None)
    case Some(a) =>
      if |a| > AmenityChipLimit then
        Chips(a[..AmenityChipLimit], Some("+" + DecimalString(|a| - AmenityChipLimit) + " more"))
      else Chips(a, None)
  }

  /**
   * The "+N more" chip and the shown chips together account for every
   * amenity: the number in the chip is exactly how many are not shown.
   */
  lemma MoreChipCountsHidden(a: seq<string>)
    requires |a| > AmenityChipLimit
    ensures var r := AmenityChips(Some(a));
      r.more.Some? && |r.more.value| >= 7
      && ParseInt(r.more.value[1..|r.more.value| - 5]) == Some(|a| - |r.shown|)
  {
    var r := AmenityChips(Some(a));
    var n := |a| - |r.shown|;
    var m := r.more.value;
    assert m[1..|m| - 5] == DecimalString(n);
    ParseDecimalString(n);
  }

  /** The cards the grid renders: the non-null entries, in order. */
  function Cards(villas: seq<Option<Villa>>): (r: seq<Villa>)
    ensures |r| <= |villas|
    ensures forall v :: v in r ==> Some(v) in villas
    ensures forall k :: 0 <= k < |villas| && villas[k].Some? ==> villas[k].value in r
    ensures |villas| == 1 ==> r == (if villas[0].Some? then [villas[0].value] else [])
  {
    if villas == [] then []
    else
      var rest := Cards(villas[1..]);
      assert forall k :: 1 <= k < |villas| ==> villas[k] == villas[1..][k - 1];
      if villas[0].Some? then [villas[0].value] + rest else rest
  }

  /**
   * The grid renders the entries of a concatenation as the cards of the
   * first part followed by the cards of the second: order and repeats are
   * kept, entry by entry.
   */
  lemma {:induction false} CardsAppend(xs: seq<Option<Villa>>, ys: seq<Option<Villa>>)
    ensures Cards(xs + ys) == Cards(xs) + Cards(ys)
  {
    if xs == [] {
      assert xs + ys == ys;
    } else {
      CardsAppend(xs[1..], ys);
      assert (xs + ys)[0] == xs[0];
      assert (xs + ys)[1..] == xs[1..] + ys;
    }
  }

  /**
   * The pair of listings `{id:1, name:"A", price:1000}` and `{id:2, name:"B"}`
   * renders a price for the first and the placeholder for the second.
   */
  lemma MissingPriceShowsPlaceholder()
    ensures var a := Villa(Some(1), Some("A"), None, Some(1000), None, None, None, false);
      var b := Villa(Some(2), Some("B"), None, None, None, None, None, false);
      PriceLabel(a.price) == Amount(1000) && PriceLabel(b.price) == OnRequest
      && Cards([Some(a), Some(b)]) == [a, b]
  {
  }
}
