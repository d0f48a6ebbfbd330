/** The car details page (pages/CarDetails.tsx): the loading and not-found
    screens, and the details of a fetched car under the language context.
    The query result is an input. */
module CarDetails {
  import opened Wrappers
  import opened Localization
  import opened Listings

  /** The page's own picture placeholder, larger than the card's. */
  const Placeholder := "https://images.unsplash.com/photo-1544636331-e26879cd4d9b?auto=format&fit=crop&w=1200&q=80"

  /** The description section: its heading and its text. */
  datatype Section = Section(heading: string, text: string)

  /** The seller block: its heading and one optional line per field. */
  datatype Contact = Contact(heading: string, seller: Option<string>, phone: Option<string>, email: Option<string>)

  /** The mileage cell: the mileage formatted for the runtime's default
      locale (absent when there is no mileage) followed by the unit. */
  datatype MileageCell = MileageCell(amount: Option<Formatted>, unit: string)

  /** The content of the details view, part by part. */
  datatype Details = Details(
    imageSrc: string,
    imageAlt: string,
    badge: string,
    heading: string,
    price: Formatted,
    currency: string,
    year: int,
    fuel: string,
    mileage: MileageCell,
    transmission: string,
    location: Option<string>,
    description: Option<Section>,
    contact: Option<Contact>,
    buyLink: string,
    buyLabel: string)

  /** What the page renders. */
  datatype Page = Loading(text: string) | NotFound(text: string) | Shown(details: Details)

  /** A line drawn only for a non-empty field, holding that field. */
  function Line(field: Option<string>): (line: Option<string>)
    ensures line.Some? <==> Truthy(field)
    ensures line.Some? ==> line == field
  {
    if Truthy(field) then field else None
  }

  /** The description section, drawn only for a non-empty description:
      the `description` heading over the text, `description_ar` under Arabic
      when that is non-empty. */
  function DescriptionSection(car: Car, c: Context): (s: Option<Section>)
    ensures s.Some? <==> Truthy(car.description)
    ensures s.Some? ==> s.value.heading == c.t("description")
    ensures s.Some? ==> s.value.text == Prefer(c.language, car.descriptionAr, car.description).value
    ensures s.Some? && c.language == En ==> s.value.text == car.description.value
    ensures s.Some? ==> s.value.text != ""
  {
    if Truthy(car.description)
    then Some(Section(c.t("description"), Prefer(c.language, car.descriptionAr, car.description).value))
    else None
  }

  /** The seller block, drawn when any of the seller's name, phone or
      email is non-empty, with one line per non-empty field. */
  function ContactBlock(car: Car, c: Context): (b: Option<Contact>)
    ensures b.Some? <==> Truthy(car.sellerName) || Truthy(car.phone) || Truthy(car.email)
    ensures b.Some? ==> b.value.heading == c.t("contactSeller")
    ensures b.Some? ==> b.value.seller == Line(car.sellerName)
    ensures b.Some? ==> b.value.phone == Line(car.phone)
    ensures b.Some? ==> b.value.email == Line(car.email)
  {
    if Truthy(car.sellerName) || Truthy(car.phone) || Truthy(car.email)
    then Some(Contact(c.t("contactSeller"), Line(car.sellerName), Line(car.phone), Line(car.email)))
    else None
  }

  /** A block that is shown has at least one line. */
  lemma ContactBlockNotEmpty(car: Car, c: Context)
    requires ContactBlock(car, c).Some?
    ensures var b := ContactBlock(car, c).value; b.seller.Some? || b.phone.Some? || b.email.Some?
  {
  }

  /** The details of a fetched car. */
  function View(car: Car, c: Context): (d: Details)
    ensures d.imageSrc == ImageSource(car, Placeholder) && d.imageAlt == car.title
    ensures d.badge == c.t(car.condition)
    ensures d.heading == DisplayTitle(c.language, car)
    ensures d.price == FormatNumber(c.isRTL, car.price) && d.currency == c.t("currency")
    ensures d.year == car.year
    ensures d.fuel == c.t(car.fuelType) && d.transmission == c.t(car.transmission)
    ensures d.mileage.amount.Some? <==> car.mileage.Some?
    ensures d.mileage.amount.Some? ==> d.mileage.amount.value == Formatted(None, car.mileage.value)
    ensures d.mileage.unit == c.t("km")
    ensures d.location == LocationRow(car, c.language)
    ensures d.location.Some? <==> Truthy(car.location)
    ensures d.description == DescriptionSection(car, c)
    ensures d.description.Some? <==> Truthy(car.description)
    ensures d.contact == ContactBlock(car, c)
    ensures d.contact.Some? <==> Truthy(car.sellerName) || Truthy(car.phone) || Truthy(car.email)
    ensures d.buyLink == "/buy/" + car.id && d.buyLabel == c.t("buyNow")
  {
    Details(
      ImageSource(car, Placeholder),
      car.title,
      c.t(car.condition),
      DisplayTitle(c.language, car),
      FormatNumber(c.isRTL, car.price),
      c.t("currency"),
      car.year,
      c.t(car.fuelType),
      MileageCell(if car.mileage.Some? then Some(Formatted(None, car.mileage.value)) else None, c.t("km")),
      c.t(car.transmission),
      LocationRow(car, c.language),
      DescriptionSection(car, c),
      ContactBlock(car, c),
      "/buy/" + car.id,
      c.t("buyNow"))
  }

  /** The page: the loading text while the query runs, whatever it holds;
      then the not-found text when it found no car; else the details. */
  function Render(isLoading: bool, car: Option<Car>, c: Context): (p: Page)
    ensures isLoading ==> p == Loading(c.t("loading"))
    ensures !isLoading && car.None? ==> p == NotFound(c.t("noResults"))
    ensures p.Shown? <==> !isLoading && car.Some?
    ensures p.Shown? ==> p.details == View(car.value, c)
  {
    if isLoading then Loading(c.t("loading"))
    else if car.None? then NotFound(c.t("noResults"))
    else Shown(View(car.value, c))
  }

  /** Loading takes precedence: the result of the query does not matter
      while it runs. */
  lemma LoadingIgnoresResult(a: Option<Car>, b: Option<Car>, c: Context)
    ensures Render(true, a, c) == Render(true, b, c)
  {
  }

  /** The heading and the picture's alternative text agree except when the
      page shows the Arabic title, since the alternative text is always the
      base title. */
  lemma HeadingVersusAlt(car: Car, c: Context)
    ensures View(car, c).heading != View(car, c).imageAlt ==>
      c.language == Ar && Truthy(car.titleAr) && car.titleAr.value != car.title
  {
  }

  /** The page's price uses the card's locale rule: `ar-EG` exactly when the
      layout is right-to-left. */
  lemma PriceLocale(car: Car, c: Context)
    ensures View(car, c).price.locale == Some("ar-EG") <==> c.isRTL
    ensures View(car, c).price.locale == Some("en-EG") <==> !c.isRTL
  {
  }
}
