/** The listing card (components/CarCard.tsx): what one card shows for a
    car under the current language context. */
module CarCard {
  import opened Wrappers
  import opened Localization
  import opened Listings

  /** The image shown when a car has no picture of its own. */
  const Placeholder := "https://images.unsplash.com/photo-1544636331-e26879cd4d9b?auto=format&fit=crop&w=800&q=80"

  /** What the mileage slot of the specs grid holds: nothing, the mileage
      row, or a bare piece of text React prints for a falsy number. */
  datatype Mileage = Hidden | Row(amount: Formatted, unit: string) | Stray(text: string)

  /** The content of one card, part by part. */
  datatype Card = Card(
    badge: Option<string>,
    imageSrc: string,
    imageAlt: string,
    price: Formatted,
    currency: string,
    condition: string,
    title: string,
    year: int,
    fuel: string,
    mileage: Mileage,
    transmission: string,
    location: Option<string>,
    link: string,
    action: string)

  /** The featured badge, in the page's language, drawn only when the
      car's featured flag is set. */
  function Badge(car: Car, isRTL: bool): (b: Option<string>)
    ensures b.Some? <==> car.isFeatured == Some(true)
    ensures b.Some? ==> b.value == (if isRTL then "مميز" else "Featured")
  {
    if car.isFeatured == Some(true) then Some(if isRTL then "مميز" else "Featured") else None
  }

  /** The mileage slot as the source writes it, guarded by the mileage
      value itself: a mileage of 0 is falsy, so the guard evaluates to the
      number 0, which React prints. */
  function MileageSlotAsWritten(car: Car, c: Context): (s: Mileage)
    ensures s.Hidden? <==> car.mileage.None?
    ensures s.Stray? <==> car.mileage == Some(0)
    ensures s.Stray? ==> s.text == "0"
    ensures s.Row? <==> NumberTruthy(car.mileage)
    ensures s.Row? ==> s == Row(FormatNumber(c.isRTL, car.mileage.value), c.t("km"))
  {
    match car.mileage
    case None => Hidden
    case Some(m) => if m == 0 then Stray("0") else Row(FormatNumber(c.isRTL, m), c.t("km"))
  }

  /** As written, a car with zero mileage puts a stray "0" on its card. */
  lemma MileageZeroAsWritten(car: Car, c: Context)
    requires car.mileage == Some(0)
    ensures MileageSlotAsWritten(car, c) == Stray("0")
  {
  }

  /** The mileage slot as intended: the row for a present, non-zero
      mileage, and nothing otherwise. */
  function MileageSlot(car: Car, c: Context): (s: Mileage)
    ensures s.Row? <==> NumberTruthy(car.mileage)
    ensures !s.Stray?
    ensures s.Row? ==> s == Row(FormatNumber(c.isRTL, car.mileage.value), c.t("km"))
  {
    if NumberTruthy(car.mileage) then Row(FormatNumber(c.isRTL, car.mileage.value), c.t("km")) else Hidden
  }

  /** The corrected slot differs from the written one only for a zero
      mileage. */
  lemma MileageSlotCorrection(car: Car, c: Context)
    ensures MileageSlot(car, c) == MileageSlotAsWritten(car, c) <==> car.mileage != Some(0)
  {
  }

  /** The whole card for a car under a language context. Its mileage slot
      is the corrected `MileageSlot`, not the one the source writes. */
  function Render(car: Car, c: Context): (card: Card)
    ensures card.badge == Badge(car, c.isRTL)
    ensures card.badge.Some? <==> car.isFeatured == Some(true)
    ensures card.imageSrc == ImageSource(car, Placeholder)
    ensures card.imageAlt == card.title == DisplayTitle(c.language, car)
    ensures card.year == car.year
    ensures card.price == FormatNumber(c.isRTL, car.price)
    ensures card.currency == c.t("currency")
    ensures card.mileage == MileageSlot(car, c)
    ensures card.mileage.Row? ==> card.mileage.amount.locale == card.price.locale
    ensures card.condition == c.t(car.condition)
    ensures card.fuel == c.t(car.fuelType)
    ensures card.transmission == c.t(car.transmission)
    ensures card.location == LocationRow(car, c.language)
    ensures card.location.Some? <==> Truthy(car.location)
    ensures card.link == "/car/" + car.id && card.action == c.t("viewDetails")
  {
    Card(
      Badge(car, c.isRTL),
      ImageSource(car, Placeholder),
      DisplayTitle(c.language, car),
      FormatNumber(c.isRTL, car.price),
      c.t("currency"),
      c.t(car.condition),
      DisplayTitle(c.language, car),
      car.year,
      c.t(car.fuelType),
      MileageSlot(car, c),
      c.t(car.transmission),
      LocationRow(car, c.language),
      "/car/" + car.id,
      c.t("viewDetails"))
  }

  /** The card agrees with the one the source draws except in the mileage
      slot of a car with zero mileage: there the source prints a stray "0"
      and the card shows nothing. */
  lemma RenderAgainstWritten(car: Car, c: Context)
    ensures Render(car, c).mileage == MileageSlotAsWritten(car, c) <==> car.mileage != Some(0)
    ensures car.mileage == Some(0) ==> Render(car, c).mileage == Hidden && MileageSlotAsWritten(car, c) == Stray("0")
  {
    MileageSlotCorrection(car, c);
  }

  /** Price and mileage are formatted for the same locale, `ar-EG` exactly
      when the layout is right-to-left. */
  lemma NumbersShareLocale(car: Car, c: Context)
    requires NumberTruthy(car.mileage)
    ensures Render(car, c).mileage.Row?
    ensures Render(car, c).mileage.amount.locale == Render(car, c).price.locale
    ensures Render(car, c).price.locale == Some("ar-EG") <==> c.isRTL
  {
  }

  /** Under the provided context each label is `t` of the raw value, so a
      value the table does not list is shown verbatim. */
  lemma LabelsThroughTable(car: Car, l: Language)
    ensures Render(car, Provide(l)).condition == T(l, car.condition)
    ensures Render(car, Provide(l)).fuel == T(l, car.fuelType)
    ensures Render(car, Provide(l)).transmission == T(l, car.transmission)
    ensures Render(car, Provide(l)).action == T(l, "viewDetails")
  {
  }
}
