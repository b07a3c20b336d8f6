/**
  The catalogue records of the shop and what their `save` methods derive:
  selling and discount prices from the offer percentage, the package quantity
  and the display strings from the unit and weight, collision-free slugs, the
  OTP expiry rule and the image-size validator.

  Prices are exact decimals (`real`); the two-decimal storage rounding of the
  database columns is not modelled.  `slugify(name)` and the random uuid
  suffixes are parameters.
*/
module Catalog {
  import opened Wrappers
  import opened Text

  // ---------------------------------------------------------------------------
  // Prices
  // ---------------------------------------------------------------------------

  datatype Prices = Prices(newPrice: real, discountPrice: real)

  /**
    The selling price and the discount that `Product.save` derives from the
    list price and the offer percentage.
  */
  function DerivePrices(price: real, offer: real): (p: Prices)
    ensures p.newPrice + p.discountPrice == price
    ensures offer > 0.0 ==> p.discountPrice == price * offer / 100.0
    ensures offer <= 0.0 ==> p.newPrice == price && p.discountPrice == 0.0
    ensures price >= 0.0 && 0.0 <= offer <= 100.0 ==> 0.0 <= p.newPrice <= price
    ensures price > 0.0 && offer > 100.0 ==> p.newPrice < 0.0
  {
    if offer > 0.0 then
      var np := price - price * offer / 100.0;
      assert price > 0.0 && offer > 100.0 ==> price * offer > price * 100.0;
      Prices(np, price - np)
    else
      Prices(price, 0.0)
  }

  // ---------------------------------------------------------------------------
  // Units, packages and display strings
  // ---------------------------------------------------------------------------

  /** The unit choices of a product: stored value and human label. */
  const UnitChoices: seq<(string, string)> :=
    [("pcs", "Pieces"), ("tablet", "Tablet"), ("capsule", "Capsule"), ("bottle", "Bottle")]

  const PackageChoices: set<string> := {"strip", "box", "pack"}

  /** The package quantity `Product.save` assigns for a unit. */
  function PackageQuantity(unit: string): (q: Option<string>)
    ensures q == Some("strip") <==> (unit == "tablet" || unit == "capsule")
    ensures q == Some("box") <==> unit == "bottle"
    ensures q.None? <==> unit !in {"tablet", "capsule", "bottle"}
    ensures q.Some? ==> q.value in PackageChoices
  {
    if unit == "tablet" || unit == "capsule" then Some("strip")
    else if unit == "bottle" then Some("box")
    else None
  }

  /**
    `get_unit_display()`: the label of the unit's choice, or the stored value
    itself when it is not one of the choices.
  */
  function UnitLabel(unit: string): (shown: string)
    ensures forall i :: 0 <= i < |UnitChoices| && UnitChoices[i].0 == unit ==> shown == UnitChoices[i].1
    ensures (forall i :: 0 <= i < |UnitChoices| ==> UnitChoices[i].0 != unit) ==> shown == unit
  {
    LabelIn(UnitChoices, unit)
  }

  function LabelIn(choices: seq<(string, string)>, value: string): (shown: string)
    ensures forall i :: (0 <= i < |choices| && choices[i].0 == value
      && (forall k :: 0 <= k < i ==> choices[k].0 != value)) ==> shown == choices[i].1
    ensures (forall i :: 0 <= i < |choices| ==> choices[i].0 != value) ==> shown == value
  {
    if choices == [] then value
    else if choices[0].0 == value then choices[0].1
    else LabelIn(choices[1..], value)
  }

  /** Python truthiness of an optional string: `None` and `""` are falsy. */
  predicate Filled(s: Option<string>) {
    s.Some? && s.value != ""
  }

  /**
    `display_weight()` (and the `weight_display` column `save` stores): the
    weight and its unit separated by a space when both are truthy.
  */
  function WeightDisplay(weightValue: Option<nat>, weightUnit: Option<string>): (d: Option<string>)
    ensures d.Some? <==> weightValue.Some? && weightValue.value != 0 && Filled(weightUnit)
    ensures d.Some? ==> d.value == NatToString(weightValue.value) + " " + weightUnit.value
  {
    if weightValue.Some? && weightValue.value != 0 && Filled(weightUnit) then
      Some(NatToString(weightValue.value) + " " + weightUnit.value)
    else None
  }

  /** `display_unit()`: the unit label, preceded by the unit value and a space when there is one. */
  function DisplayUnit(unitValue: Option<string>, unit: string): (d: string)
    ensures |d| >= |UnitLabel(unit)| && d[|d| - |UnitLabel(unit)|..] == UnitLabel(unit)
    ensures Filled(unitValue) ==> |d| == |unitValue.value| + 1 + |UnitLabel(unit)|
    ensures Filled(unitValue) ==> d[..|unitValue.value|] == unitValue.value && d[|unitValue.value|] == ' '
    ensures !Filled(unitValue) ==> d == UnitLabel(unit)
  {
    if Filled(unitValue) then unitValue.value + " " + UnitLabel(unit) else UnitLabel(unit)
  }

  /**
    The `unit_display` column that `save` stores: absent only for a blank
    unit, and otherwise the same text as `display_unit()`.
  */
  function UnitDisplay(unitValue: Option<string>, unit: string): (d: Option<string>)
    ensures unit == "" <==> d.None?
    ensures unit != "" ==> d == Some(DisplayUnit(unitValue, unit))
  {
    if Filled(unitValue) && unit != "" then Some(unitValue.value + " " + UnitLabel(unit))
    else if unit != "" then Some(UnitLabel(unit))
    else None
  }

  // ---------------------------------------------------------------------------
  // Slugs
  // ---------------------------------------------------------------------------

  predicate IsLowerHex(c: char) {
    ('0' <= c <= '9') || ('a' <= c <= 'f')
  }

  /** The first six characters of `uuid4().hex`. */
  predicate IsHexSuffix(d: string) {
    |d| == 6 && forall i :: 0 <= i < |d| ==> IsLowerHex(d[i])
  }

  predicate AllHexSuffixes(draws: seq<string>) {
    forall j :: 0 <= j < |draws| ==> IsHexSuffix(draws[j])
  }

  function Suffixed(base: string, draw: string): string {
    base + "-" + draw
  }

  /** Some draw from index `i` on gives a slug nobody holds yet. */
  predicate HasFree(taken: set<string>, base: string, draws: seq<string>, i: nat) {
    exists j :: i <= j < |draws| && Suffixed(base, draws[j]) !in taken
  }

  /** The slug the collision loop settles on when it starts at draw `i`. */
  function FreeSuffixed(taken: set<string>, base: string, draws: seq<string>, i: nat): (r: string)
    requires i <= |draws| && HasFree(taken, base, draws, i)
    ensures r !in taken
    ensures exists j :: (i <= j < |draws| && r == Suffixed(base, draws[j])
      && forall k :: i <= k < j ==> Suffixed(base, draws[k]) in taken)
    decreases |draws| - i
  {
    if Suffixed(base, draws[i]) !in taken then Suffixed(base, draws[i])
    else FreeSuffixed(taken, base, draws, i + 1)
  }

  /**
    The slug chosen for a record with a blank slug: the base slug when it is
    free, otherwise the base slug, a dash and the first uuid suffix that makes
    it free.
  */
  function ChosenSlug(taken: set<string>, base: string, draws: seq<string>): (r: string)
    requires base in taken ==> HasFree(taken, base, draws, 0)
    ensures r !in taken
    ensures base !in taken ==> r == base
    ensures base in taken ==> exists j :: 0 <= j < |draws| && r == Suffixed(base, draws[j])
  {
    if base !in taken then base else FreeSuffixed(taken, base, draws, 0)
  }

  /** The slug after `save`: a non-blank slug is kept, a blank one is chosen. */
  function SlugFor(slug: string, taken: set<string>, base: string, draws: seq<string>): (r: string)
    requires slug == "" && base in taken ==> HasFree(taken, base, draws, 0)
    ensures slug != "" ==> r == slug
    ensures slug == "" ==> r !in taken
    ensures slug == "" && base != "" ==> r != ""
  {
    if slug != "" then slug else ChosenSlug(taken, base, draws)
  }

  lemma {:induction false} SuffixedSlugShape(taken: set<string>, base: string, draws: seq<string>)
    requires AllHexSuffixes(draws)
    requires base in taken && HasFree(taken, base, draws, 0)
    ensures var r := ChosenSlug(taken, base, draws);
      |r| == |base| + 7 && r[..|base|] == base && r[|base|] == '-' && IsHexSuffix(r[|base| + 1..])
  {
    var r := ChosenSlug(taken, base, draws);
    var j :| 0 <= j < |draws| && r == Suffixed(base, draws[j]);
    assert r[|base| + 1..] == draws[j];
  }

  /**
    The collision loop of `Product.save`: start from the base slug and draw a
    new suffix for as long as the candidate is already taken.
  */
  method PickSlug(taken: set<string>, base: string, draws: seq<string>) returns (s: string)
    requires base in taken ==> HasFree(taken, base, draws, 0)
    ensures s == ChosenSlug(taken, base, draws)
  {
    s := base;
    var i := 0;
    while s in taken
      invariant 0 <= i <= |draws|
      invariant s in taken ==> (HasFree(taken, base, draws, i)
        && FreeSuffixed(taken, base, draws, i) == ChosenSlug(taken, base, draws))
      invariant s !in taken ==> s == ChosenSlug(taken, base, draws)
      decreases |draws| - i
    {
      s := Suffixed(base, draws[i]);
      i := i + 1;
    }
  }

  /**
    `Brand.save` as written: the assignment to `self.slug` sits inside the
    collision loop, so a brand whose base slug is free keeps a blank slug.
  */
  function BrandSlugAsWritten(slug: string, taken: set<string>, base: string, draws: seq<string>): (r: string)
    requires slug == "" && base in taken ==> HasFree(taken, base, draws, 0)
    ensures slug == "" && base !in taken ==> r == ""
    ensures slug == "" && base in taken ==> r == ChosenSlug(taken, base, draws)
    ensures slug != "" ==> r == slug
  {
    if slug != "" then slug
    else if base !in taken then ""
    else FreeSuffixed(taken, base, draws, 0)
  }

  /** A fresh brand named so that its base slug is free is stored with an empty slug. */
  lemma BrandBlankSlugWitness()
    ensures BrandSlugAsWritten("", {}, "acme", []) == ""
    ensures SlugFor("", {}, "acme", []) == "acme"
  {
  }

  /** `Category.save`: a blank slug becomes the base slug, without any collision check. */
  function CategorySlug(slug: string, base: string): (r: string)
    ensures slug != "" ==> r == slug
    ensures slug == "" ==> r == base
  {
    if slug == "" then base else slug
  }

  // ---------------------------------------------------------------------------
  // OTP expiry
  // ---------------------------------------------------------------------------

  /** Five minutes in microseconds, the resolution of the timestamps. */
  const OtpLifetime: int := 5 * 60 * 1_000_000

  /** `EmailOTP.is_expired()` at the instant `now`: strictly later than five minutes after creation. */
  predicate IsExpired(now: int, createdAt: int): (expired: bool)
    ensures expired <==> now - createdAt > OtpLifetime
    ensures now <= createdAt ==> !expired
  {
    now > createdAt + OtpLifetime
  }

  /** A code is still valid at exactly five minutes, expired one microsecond later, and stays expired. */
  lemma ExpiryBoundary(createdAt: int, now: int, later: int)
    ensures !IsExpired(createdAt + OtpLifetime, createdAt)
    ensures IsExpired(createdAt + OtpLifetime + 1, createdAt)
    ensures IsExpired(now, createdAt) && now <= later ==> IsExpired(later, createdAt)
  {
  }

  // ---------------------------------------------------------------------------
  // Image size validator
  // ---------------------------------------------------------------------------

  const MaxImageBytes: nat := 2 * 1024 * 1024

  /** What the validator learns about an image from the media service. */
  datatype ImageLookup =
    | NoImage                   // the field is empty
    | NotFound                  // the service does not know the image yet
    | LookupFailed              // the service call raised
    | Found(bytes: nat)         // metadata with a byte count (0 when absent)

  /**
    `validate_image_size` as written: the `ValidationError` raised for an
    oversized image is caught by the generic `except Exception` handler, so the
    validator returns normally for every image.
  */
  function ValidateImageSizeAsWritten(image: ImageLookup): (r: Result<(), string>)
    ensures r.Ok?
  {
    match image
    case NoImage => Ok(())
    case NotFound => Ok(())
    case LookupFailed => Ok(())
    case Found(bytes) =>
      var raised: Result<(), string> :=
        if bytes > MaxImageBytes then Err("Image size must be 2 MB or less.") else Ok(());
      // the handler for every other exception swallows the validation error
      if raised.Err? then Ok(()) else raised
  }

  /** The validator as intended: an image known to be larger than 2 MB is refused, all else passes. */
  function ValidateImageSize(image: ImageLookup): (r: Result<(), string>)
    ensures r.Err? <==> image.Found? && image.bytes > MaxImageBytes
    ensures r.Err? ==> r.error == "Image size must be 2 MB or less."
  {
    match image
    case Found(bytes) =>
      if bytes > MaxImageBytes then Err("Image size must be 2 MB or less.") else Ok(())
    case _ => Ok(())
  }

  /** A 3 MB image passes the validator as written and is refused by the intended one. */
  lemma OversizedImageAccepted()
    ensures ValidateImageSizeAsWritten(Found(3 * 1024 * 1024)).Ok?
    ensures ValidateImageSize(Found(3 * 1024 * 1024)).Err?
  {
  }

  // ---------------------------------------------------------------------------
  // The records and their `save` methods
  // ---------------------------------------------------------------------------

  class Product {
    var name: string
    var slug: string
    var price: real
    var offerPrice: real
    var newPrice: real
    var discountPrice: real
    var unit: string
    var unitValue: Option<string>
    var weightValue: Option<nat>
    var weightUnit: Option<string>
    var weightDisplay: Option<string>
    var unitDisplay: Option<string>
    var packageQuantity: Option<string>

    /** A new, unsaved product with the column defaults for its derived fields. */
    constructor (name: string, slug: string, price: real, offerPrice: real, unit: string,
                 unitValue: Option<string>, weightValue: Option<nat>, weightUnit: Option<string>)
      ensures this.name == name && this.slug == slug && this.price == price && this.offerPrice == offerPrice
      ensures this.unit == unit && this.unitValue == unitValue
      ensures this.weightValue == weightValue && this.weightUnit == weightUnit
      ensures newPrice == 0.0 && discountPrice == 0.0
      ensures weightDisplay.None? && unitDisplay.None? && packageQuantity.None?
    {
      this.name := name;
      this.slug := slug;
      this.price := price;
      this.offerPrice := offerPrice;
      this.unit := unit;
      this.unitValue := unitValue;
      this.weightValue := weightValue;
      this.weightUnit := weightUnit;
      newPrice := 0.0;
      discountPrice := 0.0;
      weightDisplay := None;
      unitDisplay := None;
      packageQuantity := None;
    }

    /**
      `Product.save`: choose a slug when it is blank (`base` is `slugify(name)`,
      `taken` the slugs already stored, `draws` the uuid suffixes drawn in
      turn), then overwrite every derived column.
    */
    method Save(taken: set<string>, base: string, draws: seq<string>)
      requires slug == "" && base in taken ==> HasFree(taken, base, draws, 0)
      modifies this`slug, this`newPrice, this`discountPrice, this`packageQuantity, this`weightDisplay, this`unitDisplay
      ensures slug == SlugFor(old(slug), taken, base, draws)
      ensures Prices(newPrice, discountPrice) == DerivePrices(price, offerPrice)
      ensures packageQuantity == PackageQuantity(unit)
      ensures weightDisplay == WeightDisplay(weightValue, weightUnit)
      ensures unitDisplay == UnitDisplay(unitValue, unit)
    {
      if slug == "" {
        slug := PickSlug(taken, base, draws);
      }

      ApplyOffer();

      ApplyPackage();
      ApplyDisplays();
    }

    /**
      `ProductAdmin.save_model`: the admin screen sets the package column from
      the unit and then saves, so the stored row is the one `Save` produces.
    */
    method SaveModel(taken: set<string>, base: string, draws: seq<string>)
      requires slug == "" && base in taken ==> HasFree(taken, base, draws, 0)
      modifies this`slug, this`newPrice, this`discountPrice, this`packageQuantity, this`weightDisplay, this`unitDisplay
      ensures slug == SlugFor(old(slug), taken, base, draws)
      ensures Prices(newPrice, discountPrice) == DerivePrices(price, offerPrice)
      ensures packageQuantity == PackageQuantity(unit)
      ensures weightDisplay == WeightDisplay(weightValue, weightUnit)
      ensures unitDisplay == UnitDisplay(unitValue, unit)
      ensures name == old(name) && price == old(price) && offerPrice == old(offerPrice)
      ensures unit == old(unit) && unitValue == old(unitValue)
      ensures weightValue == old(weightValue) && weightUnit == old(weightUnit)
    {
      ApplyPackage();
      Save(taken, base, draws);
    }

    /** The package block of `Product.save`. */
    method ApplyPackage()
      modifies this`packageQuantity
      ensures packageQuantity == PackageQuantity(unit)
    {
      if unit == "tablet" || unit == "capsule" {
        packageQuantity := Some("strip");
      } else if unit == "bottle" {
        packageQuantity := Some("box");
      } else {
        packageQuantity := None;
      }
    }

    /** The display block of `Product.save`. */
    method ApplyDisplays()
      modifies this`weightDisplay, this`unitDisplay
      ensures weightDisplay == WeightDisplay(weightValue, weightUnit)
      ensures unitDisplay == UnitDisplay(unitValue, unit)
    {
      if weightValue.Some? && weightValue.value != 0 && Filled(weightUnit) {
        weightDisplay := Some(NatToString(weightValue.value) + " " + weightUnit.value);
      } else {
        weightDisplay := None;
      }

      if Filled(unitValue) && unit != "" {
        unitDisplay := Some(unitValue.value + " " + UnitLabel(unit));
      } else if unit != "" {
        unitDisplay := Some(UnitLabel(unit));
      } else {
        unitDisplay := None;
      }
    }

    /** The price block of `Product.save`. */
    method ApplyOffer()
      modifies this`newPrice, this`discountPrice
      ensures Prices(newPrice, discountPrice) == DerivePrices(price, offerPrice)
    {
      if offerPrice > 0.0 {
        newPrice := price - price * offerPrice / 100.0;
        discountPrice := price - newPrice;
      } else {
        newPrice := price;
        discountPrice := 0.0;
      }
    }
  }

  class Brand {
    var name: string
    var slug: string

    constructor (name: string, slug: string)
      ensures this.name == name && this.slug == slug
    {
      this.name := name;
      this.slug := slug;
    }

    /** `Brand.save` with the slug assigned after the collision loop, as for products. */
    method Save(taken: set<string>, base: string, draws: seq<string>)
      requires slug == "" && base in taken ==> HasFree(taken, base, draws, 0)
      modifies this`slug
      ensures slug == SlugFor(old(slug), taken, base, draws)
    {
      if slug == "" {
        slug := PickSlug(taken, base, draws);
      }
    }
  }

  class Category {
    var name: string
    var slug: string
    var parent: Option<nat>

    constructor (name: string, slug: string, parent: Option<nat>)
      ensures this.name == name && this.slug == slug && this.parent == parent
    {
      this.name := name;
      this.slug := slug;
      this.parent := parent;
    }

    /** `Category.save` with `base` the value of `slugify(name)`. */
    method Save(base: string)
      modifies this`slug
      ensures slug == CategorySlug(old(slug), base)
    {
      if slug == "" {
        slug := base;
      }
    }
  }
}
