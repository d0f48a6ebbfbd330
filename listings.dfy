/** A car listing as both car pages receive it, and the display rules the
    two pages share: JavaScript truthiness of optional fields, the choice
    between a field and its Arabic variant, and the number-format locale. */
module Listings {
  import opened Wrappers
  import opened Localization

  /** One row of the `cars` table. Fields the row may lack (optional props,
      nullable columns) are options; `None` stands for both `undefined` and
      `null`. Numbers are integers. */
  datatype Car = Car(
    id: string,
    title: string,
    titleAr: Option<string>,
    brand: string,
    model: string,
    year: int,
    price: int,
    mileage: Option<int>,
    condition: string,
    transmission: string,
    fuelType: string,
    color: Option<string>,
    colorAr: Option<string>,
    imageUrl: Option<string>,
    location: Option<string>,
    locationAr: Option<string>,
    isFeatured: Option<bool>,
    description: Option<string>,
    descriptionAr: Option<string>,
    sellerName: Option<string>,
    phone: Option<string>,
    email: Option<string>)

  /** An optional string is truthy when it is present and not empty. */
  predicate Truthy(s: Option<string>)
  {
    s.Some? && s.value != ""
  }

  /** An optional number is truthy when it is present and not zero. */
  predicate NumberTruthy(n: Option<int>)
  {
    n.Some? && n.value != 0
  }

  /** The Arabic variant of a field in place of the base field, shown only
      under Arabic and only when it is non-empty. */
  function Prefer(l: Language, variant: Option<string>, base: Option<string>): (r: Option<string>)
    ensures r == base || r == variant
    ensures l == En ==> r == base
    ensures l == Ar && Truthy(variant) ==> r == variant
    ensures !Truthy(variant) ==> r == base
    ensures Truthy(r) <==> Truthy(base) || (l == Ar && Truthy(variant))
  {
    if l == Ar && Truthy(variant) then variant else base
  }

  /** The title a page shows: `title_ar` under Arabic when it is
      non-empty, otherwise `title`. */
  function DisplayTitle(l: Language, car: Car): (r: string)
    ensures r == car.title || Some(r) == car.titleAr
    ensures l == Ar && Truthy(car.titleAr) ==> r == car.titleAr.value
    ensures !(l == Ar && Truthy(car.titleAr)) ==> r == car.title
    ensures r != "" <==> car.title != "" || (l == Ar && Truthy(car.titleAr))
  {
    Prefer(l, car.titleAr, Some(car.title)).value
  }

  /** The location a page shows: `location_ar` under Arabic when it is
      non-empty, otherwise `location` (possibly absent). */
  function DisplayLocation(l: Language, car: Car): (r: Option<string>)
    ensures l == Ar && Truthy(car.locationAr) ==> r == car.locationAr
    ensures !(l == Ar && Truthy(car.locationAr)) ==> r == car.location
    ensures Truthy(car.location) ==> Truthy(r)
  {
    Prefer(l, car.locationAr, car.location)
  }

  /** The car's own picture when it has a non-empty one, the page's
      placeholder otherwise. */
  function ImageSource(car: Car, placeholder: string): (src: string)
    ensures Truthy(car.imageUrl) ==> src == car.imageUrl.value
    ensures !Truthy(car.imageUrl) ==> src == placeholder
    ensures placeholder != "" ==> src != ""
  {
    if Truthy(car.imageUrl) then car.imageUrl.value else placeholder
  }

  /** The location row: drawn only when the base location is non-empty,
      and showing the location chosen by the `location_ar` rule. */
  function LocationRow(car: Car, l: Language): (row: Option<string>)
    ensures row.Some? <==> Truthy(car.location)
    ensures row.Some? && l == Ar && Truthy(car.locationAr) ==> row.value == car.locationAr.value
    ensures row.Some? && !(l == Ar && Truthy(car.locationAr)) ==> row.value == car.location.value
    ensures row.Some? ==> row.value != ""
  {
    if Truthy(car.location) then Some(DisplayLocation(l, car).value) else None
  }

  /** A location row needs the base location: an Arabic location alone
      shows nothing, whatever the language. */
  lemma ArabicLocationAloneHidden(car: Car, l: Language)
    requires !Truthy(car.location) && Truthy(car.locationAr)
    ensures LocationRow(car, l) == None
  {
  }

  /** The locale tag handed to `Intl.NumberFormat`. */
  function LocaleTag(isRTL: bool): (tag: string)
    ensures tag == "ar-EG" <==> isRTL
    ensures tag == "en-EG" <==> !isRTL
  {
    if isRTL then "ar-EG" else "en-EG"
  }

  /** A number as the page prints it: the value and the locale it is
      formatted for (`None`: the runtime's default locale). The characters
      the formatter produces are not modelled. */
  datatype Formatted = Formatted(locale: Option<string>, value: int)

  /** A number formatted for the locale that follows the layout direction. */
  function FormatNumber(isRTL: bool, n: int): (f: Formatted)
    ensures f.value == n
    ensures f.locale == Some(if isRTL then "ar-EG" else "en-EG")
  {
    Formatted(Some(LocaleTag(isRTL)), n)
  }
}
