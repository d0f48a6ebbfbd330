/** The localization layer of the storefront: the English/Arabic translation
    table, the lookup `t` that falls back to its key, the current language with
    its derived right-to-left flag, and the document attributes that follow it. */
module Localization {
  import opened Wrappers

  /** The two languages the storefront speaks. */
  datatype Language = En | Ar

  /** The texts of one key: English and Arabic. */
  datatype Pair = Pair(en: string, ar: string)

  /** One property `key: { en, ar }` of the table's object literal. */
  datatype Entry = Entry(key: string, texts: Pair)

  /** The variant of an entry for a language. */
  function Variant(p: Pair, l: Language): string
  {
    match l
    case En => p.en
    case Ar => p.ar
  }

  /** No entry of a table has an empty variant. */
  ghost predicate WellFormed(table: map<string, Pair>)
  {
    forall k :: k in table ==> table[k].en != "" && table[k].ar != ""
  }

  /** Every property of a list was written with both texts non-empty. */
  ghost predicate Authored(entries: seq<Entry>)
  {
    forall i :: 0 <= i < |entries| ==> entries[i].texts.en != "" && entries[i].texts.ar != ""
  }

  /** The object an object literal with these properties evaluates to: a
      later property with the same key replaces an earlier one. */
  function TableOf(entries: seq<Entry>): map<string, Pair>
  {
    if entries == [] then map[]
    else map[entries[0].key := entries[0].texts] + TableOf(entries[1..])
  }

  /** `translations[key]` on that object, read off the property list: the
      texts of the last property with that key, or nothing. */
  function Find(entries: seq<Entry>, key: string): Option<Pair>
  {
    if entries == [] then None
    else match Find(entries[1..], key)
      case Some(p) => Some(p)
      case None => if entries[0].key == key then Some(entries[0].texts) else None
  }

  /** Reading the property list agrees with indexing the object. */
  lemma {:induction false} FindIsTableOf(entries: seq<Entry>, key: string)
    ensures Find(entries, key).Some? <==> key in TableOf(entries)
    ensures key in TableOf(entries) ==> Find(entries, key) == Some(TableOf(entries)[key])
  {
    if entries != [] {
      FindIsTableOf(entries[1..], key);
    }
  }

  /** A key is found exactly when some property has it. */
  lemma {:induction false} FindListed(entries: seq<Entry>, key: string)
    ensures Find(entries, key).Some? <==> exists i :: 0 <= i < |entries| && entries[i].key == key
  {
    if entries != [] {
      FindListed(entries[1..], key);
      assert forall i :: 1 <= i < |entries| ==> entries[i] == entries[1..][i - 1];
    }
  }

  /** The last property with a key is the one found. */
  lemma {:induction false} FindLast(entries: seq<Entry>, key: string, i: nat)
    requires i < |entries| && entries[i].key == key
    requires forall j :: i < j < |entries| ==> entries[j].key != key
    ensures Find(entries, key) == Some(entries[i].texts)
  {
    if i == 0 {
      FindListed(entries[1..], key);
      assert forall j :: 0 <= j < |entries[1..]| ==> entries[1..][j] == entries[j + 1];
    } else {
      FindLast(entries[1..], key, i - 1);
    }
  }

  /** What is found is the texts of a property with that key. */
  lemma {:induction false} FindFromProperty(entries: seq<Entry>, key: string)
    requires Find(entries, key).Some?
    ensures Entry(key, Find(entries, key).value) in entries
  {
    if Find(entries[1..], key).Some? {
      FindFromProperty(entries[1..], key);
    }
  }

  /** Reading two lists written one after the other: a property of the
      second list overrides the first. */
  lemma {:induction false} FindAppend(a: seq<Entry>, b: seq<Entry>, key: string)
    ensures Find(a + b, key) == if Find(b, key).Some? then Find(b, key) else Find(a, key)
  {
    if a == [] {
      assert a + b == b;
    } else {
      assert (a + b)[1..] == a[1..] + b;
      FindAppend(a[1..], b, key);
    }
  }

  /** The object of an authored property list has no empty text. */
  lemma TableOfWellFormed(entries: seq<Entry>)
    requires Authored(entries)
    ensures WellFormed(TableOf(entries))
  {
    forall k | k in TableOf(entries)
      ensures TableOf(entries)[k].en != "" && TableOf(entries)[k].ar != ""
    {
      FindIsTableOf(entries, k);
      FindFromProperty(entries, k);
      var i :| 0 <= i < |entries| && entries[i] == Entry(k, TableOf(entries)[k]);
    }
  }

  /** Concatenating authored lists gives an authored list. */
  lemma AuthoredAppend(a: seq<Entry>, b: seq<Entry>)
    requires Authored(a) && Authored(b)
    ensures Authored(a + b)
  {
    forall i | 0 <= i < |a + b|
      ensures (a + b)[i].texts.en != "" && (a + b)[i].texts.ar != ""
    {
      if i >= |a| {
        assert (a + b)[i] == b[i - |a|];
      }
    }
  }

  /** Navigation (LanguageContext.tsx:14-17). */
  function Navigation(): seq<Entry>
  {
    [
      Entry("home", Pair("Home", "الرئيسية")),
      Entry("cars", Pair("All Cars", "جميع السيارات")),
      Entry("sell", Pair("Sell Car", "بيع سيارة")),
      Entry("buy", Pair("Buy", "شراء"))
    ]
  }

  /** Texts of the hero section (LanguageContext.tsx:20-24). */
  function HeroTexts(): seq<Entry>
  {
    [
      Entry("heroTitle", Pair("Safer El3arbiat", "سفير العربيات")),
      Entry("heroSubtitle", Pair("Your Premium Car Marketplace", "سوقك المميز للسيارات")),
      Entry("heroDescription", Pair("Buy and sell cars with confidence. The most trusted automotive marketplace in the region.", "اشترِ وبع السيارات بثقة. أكثر سوق سيارات موثوق في المنطقة.")),
      Entry("browseCars", Pair("Browse Cars", "تصفح السيارات")),
      Entry("sellYourCar", Pair("Sell Your Car", "بع سيارتك"))
    ]
  }

  /** Features (LanguageContext.tsx:27-32). */
  function Features(): seq<Entry>
  {
    [
      Entry("trustedDealers", Pair("Trusted Dealers", "تجار موثوقون")),
      Entry("trustedDealersDesc", Pair("Verified sellers with quality guarantee", "بائعون معتمدون مع ضمان الجودة")),
      Entry("bestPrices", Pair("Best Prices", "أفضل الأسعار")),
      Entry("bestPricesDesc", Pair("Competitive prices in the market", "أسعار تنافسية في السوق")),
      Entry("secureDeals", Pair("Secure Deals", "صفقات آمنة")),
      Entry("secureDealsDesc", Pair("Safe and transparent transactions", "معاملات آمنة وشفافة"))
    ]
  }

  /** Car Listings (LanguageContext.tsx:35-49). */
  function CarListings(): seq<Entry>
  {
    [
      Entry("allCars", Pair("All Cars", "جميع السيارات")),
      Entry("featuredCars", Pair("Featured Cars", "سيارات مميزة")),
      Entry("filterBy", Pair("Filter By", "تصفية حسب")),
      Entry("sortBy", Pair("Sort By", "ترتيب حسب")),
      Entry("price", Pair("Price", "السعر")),
      Entry("year", Pair("Year", "السنة")),
      Entry("mileage", Pair("Mileage", "المسافة المقطوعة")),
      Entry("brand", Pair("Brand", "الماركة")),
      Entry("model", Pair("Model", "الموديل")),
      Entry("condition", Pair("Condition", "الحالة")),
      Entry("transmission", Pair("Transmission", "ناقل الحركة")),
      Entry("fuelType", Pair("Fuel Type", "نوع الوقود")),
      Entry("color", Pair("Color", "اللون")),
      Entry("location", Pair("Location", "الموقع")),
      Entry("viewDetails", Pair("View Details", "عرض التفاصيل"))
    ]
  }

  /** Condition types (LanguageContext.tsx:52-54). */
  function ConditionTypes(): seq<Entry>
  {
    [
      Entry("new", Pair("New", "جديد")),
      Entry("used", Pair("Used", "مستعمل")),
      Entry("certified", Pair("Certified", "معتمد"))
    ]
  }

  /** Transmission types (LanguageContext.tsx:57-58). */
  function TransmissionTypes(): seq<Entry>
  {
    [
      Entry("automatic", Pair("Automatic", "أوتوماتيك")),
      Entry("manual", Pair("Manual", "يدوي"))
    ]
  }

  /** Fuel types (LanguageContext.tsx:61-64). */
  function FuelTypes(): seq<Entry>
  {
    [
      Entry("petrol", Pair("Petrol", "بنزين")),
      Entry("diesel", Pair("Diesel", "ديزل")),
      Entry("electric", Pair("Electric", "كهربائي")),
      Entry("hybrid", Pair("Hybrid", "هجين"))
    ]
  }

  /** Sell Car Form (LanguageContext.tsx:67-75). */
  function SellCarForm(): seq<Entry>
  {
    [
      Entry("sellCarTitle", Pair("Sell Your Car", "بع سيارتك")),
      Entry("sellCarSubtitle", Pair("List your car and reach thousands of buyers", "أدرج سيارتك وتواصل مع آلاف المشترين")),
      Entry("carTitle", Pair("Car Title", "عنوان السيارة")),
      Entry("description", Pair("Description", "الوصف")),
      Entry("phone", Pair("Phone", "الهاتف")),
      Entry("email", Pair("Email", "البريد الإلكتروني")),
      Entry("sellerName", Pair("Seller Name", "اسم البائع")),
      Entry("uploadImages", Pair("Image URL", "رابط الصورة")),
      Entry("submitListing", Pair("Submit Listing", "إرسال الإعلان"))
    ]
  }

  /** Car Details (LanguageContext.tsx:78-81). */
  function CarDetailsTexts(): seq<Entry>
  {
    [
      Entry("specifications", Pair("Specifications", "المواصفات")),
      Entry("contactSeller", Pair("Contact Seller", "تواصل مع البائع")),
      Entry("buyNow", Pair("Buy Now", "اشترِ الآن")),
      Entry("interestedInCar", Pair("I'm interested in this car", "أنا مهتم بهذه السيارة"))
    ]
  }

  /** Buy Form (LanguageContext.tsx:84-89). */
  function BuyForm(): seq<Entry>
  {
    [
      Entry("buyCarTitle", Pair("Complete Your Purchase", "أكمل عملية الشراء")),
      Entry("yourName", Pair("Your Name", "اسمك")),
      Entry("yourEmail", Pair("Your Email", "بريدك الإلكتروني")),
      Entry("yourPhone", Pair("Your Phone", "هاتفك")),
      Entry("message", Pair("Message", "رسالة")),
      Entry("sendInquiry", Pair("Send Inquiry", "إرسال الاستفسار"))
    ]
  }

  /** Common (LanguageContext.tsx:92-97). */
  function Common(): seq<Entry>
  {
    [
      Entry("loading", Pair("Loading...", "جاري التحميل...")),
      Entry("noResults", Pair("No cars found", "لم يتم العثور على سيارات")),
      Entry("success", Pair("Success!", "تم بنجاح!")),
      Entry("error", Pair("Error occurred", "حدث خطأ")),
      Entry("currency", Pair("EGP", "ج.م")),
      Entry("km", Pair("km", "كم"))
    ]
  }

  /** Texts of the footer (LanguageContext.tsx:100-104). */
  function FooterTexts(): seq<Entry>
  {
    [
      Entry("footerText", Pair("© 2024 Safer El3arbiat. All rights reserved.", "© 2024 سفير العربيات. جميع الحقوق محفوظة.")),
      Entry("aboutUs", Pair("About Us", "من نحن")),
      Entry("contactUs", Pair("Contact Us", "اتصل بنا")),
      Entry("privacyPolicy", Pair("Privacy Policy", "سياسة الخصوصية")),
      Entry("terms", Pair("Terms & Conditions", "الشروط والأحكام"))
    ]
  }

  /** The properties of the translation table, in the order they are written. */
  function Entries(): seq<Entry>
  {
    Navigation() + HeroTexts() + Features() + CarListings() + ConditionTypes()
    + TransmissionTypes() + FuelTypes() + SellCarForm() + CarDetailsTexts()
    + BuyForm() + Common() + FooterTexts()
  }
  /** The translation table: the object the literal evaluates to. */
  ghost function Translations(): map<string, Pair>
  {
    TableOf(Entries())
  }

  lemma NavigationAuthored() ensures Authored(Navigation()) {}
  lemma HeroTextsAuthored() ensures Authored(HeroTexts()) {}
  lemma FeaturesAuthored() ensures Authored(Features()) {}
  lemma CarListingsAuthored() ensures Authored(CarListings()) {}
  lemma ConditionTypesAuthored() ensures Authored(ConditionTypes()) {}
  lemma TransmissionTypesAuthored() ensures Authored(TransmissionTypes()) {}
  lemma FuelTypesAuthored() ensures Authored(FuelTypes()) {}
  lemma SellCarFormAuthored() ensures Authored(SellCarForm()) {}
  lemma CarDetailsTextsAuthored() ensures Authored(CarDetailsTexts()) {}
  lemma BuyFormAuthored() ensures Authored(BuyForm()) {}
  lemma CommonAuthored() ensures Authored(Common()) {}
  lemma FooterTextsAuthored() ensures Authored(FooterTexts()) {}

  /** Every property of the table was written with both texts non-empty. */
  lemma EntriesAuthored()
    ensures Authored(Entries())
  {
    var s := Navigation();
    NavigationAuthored();
    HeroTextsAuthored();
    AuthoredAppend(s, HeroTexts());
    s := s + HeroTexts();
    FeaturesAuthored();
    AuthoredAppend(s, Features());
    s := s + Features();
    CarListingsAuthored();
    AuthoredAppend(s, CarListings());
    s := s + CarListings();
    ConditionTypesAuthored();
    AuthoredAppend(s, ConditionTypes());
    s := s + ConditionTypes();
    TransmissionTypesAuthored();
    AuthoredAppend(s, TransmissionTypes());
    s := s + TransmissionTypes();
    FuelTypesAuthored();
    AuthoredAppend(s, FuelTypes());
    s := s + FuelTypes();
    SellCarFormAuthored();
    AuthoredAppend(s, SellCarForm());
    s := s + SellCarForm();
    CarDetailsTextsAuthored();
    AuthoredAppend(s, CarDetailsTexts());
    s := s + CarDetailsTexts();
    BuyFormAuthored();
    AuthoredAppend(s, BuyForm());
    s := s + BuyForm();
    CommonAuthored();
    AuthoredAppend(s, Common());
    s := s + Common();
    FooterTextsAuthored();
    AuthoredAppend(s, FooterTexts());
    s := s + FooterTexts();
  }
  /** Every entry of the table has both texts. */
  lemma TranslationsWellFormed()
    ensures WellFormed(Translations())
  {
    EntriesAuthored();
    TableOfWellFormed(Entries());
  }

  /** `t(key)`: the entry's variant for the current language, or the key
      itself when the table has no such entry. */
  function T(l: Language, key: string): string
  {
    match Find(Entries(), key)
    case None => key
    case Some(p) => Variant(p, l)
  }

  /** `t` against the table: a listed key resolves to its entry's variant for
      the language, which is never empty; any other key to the key itself. */
  lemma TLookup(l: Language, key: string)
    ensures key in Translations() ==> T(l, key) == Variant(Translations()[key], l) != ""
    ensures key !in Translations() ==> T(l, key) == key
  {
    FindIsTableOf(Entries(), key);
    if key in Translations() {
      TranslationsWellFormed();
    }
  }

  /** A key other than a group's own keys is not found in that group. */
  lemma NavigationLacks(key: string)
    requires key != "home" && key != "cars" && key != "sell" && key != "buy"
    ensures Find(Navigation(), key).None?
  {
    FindListed(Navigation(), key);
  }

  lemma HeroTextsLacks(key: string)
    requires key != "heroTitle" && key != "heroSubtitle" && key != "heroDescription"
    requires key != "browseCars" && key != "sellYourCar"
    ensures Find(HeroTexts(), key).None?
  {
    FindListed(HeroTexts(), key);
  }

  lemma FeaturesLacks(key: string)
    requires key != "trustedDealers" && key != "trustedDealersDesc" && key != "bestPrices"
    requires key != "bestPricesDesc" && key != "secureDeals" && key != "secureDealsDesc"
    ensures Find(Features(), key).None?
  {
    FindListed(Features(), key);
  }

  lemma CarListingsLacks(key: string)
    requires key != "allCars" && key != "featuredCars" && key != "filterBy" && key != "sortBy"
    requires key != "price" && key != "year" && key != "mileage" && key != "brand" && key != "model"
    requires key != "condition" && key != "transmission" && key != "fuelType" && key != "color"
    requires key != "location" && key != "viewDetails"
    ensures Find(CarListings(), key).None?
  {
    FindListed(CarListings(), key);
  }

  lemma ConditionTypesLacks(key: string)
    requires key != "new" && key != "used" && key != "certified"
    ensures Find(ConditionTypes(), key).None?
  {
    FindListed(ConditionTypes(), key);
  }

  lemma TransmissionTypesLacks(key: string)
    requires key != "automatic" && key != "manual"
    ensures Find(TransmissionTypes(), key).None?
  {
    FindListed(TransmissionTypes(), key);
  }

  lemma FuelTypesLacks(key: string)
    requires key != "petrol" && key != "diesel" && key != "electric" && key != "hybrid"
    ensures Find(FuelTypes(), key).None?
  {
    FindListed(FuelTypes(), key);
  }

  lemma SellCarFormLacks(key: string)
    requires key != "sellCarTitle" && key != "sellCarSubtitle" && key != "carTitle"
    requires key != "description" && key != "phone" && key != "email" && key != "sellerName"
    requires key != "uploadImages" && key != "submitListing"
    ensures Find(SellCarForm(), key).None?
  {
    FindListed(SellCarForm(), key);
  }

  lemma CarDetailsTextsLacks(key: string)
    requires key != "specifications" && key != "contactSeller" && key != "buyNow"
    requires key != "interestedInCar"
    ensures Find(CarDetailsTexts(), key).None?
  {
    FindListed(CarDetailsTexts(), key);
  }

  lemma BuyFormLacks(key: string)
    requires key != "buyCarTitle" && key != "yourName" && key != "yourEmail" && key != "yourPhone"
    requires key != "message" && key != "sendInquiry"
    ensures Find(BuyForm(), key).None?
  {
    FindListed(BuyForm(), key);
  }

  lemma CommonLacks(key: string)
    requires key != "loading" && key != "noResults" && key != "success" && key != "error"
    requires key != "currency" && key != "km"
    ensures Find(Common(), key).None?
  {
    FindListed(Common(), key);
  }

  lemma FooterTextsLacks(key: string)
    requires key != "footerText" && key != "aboutUs" && key != "contactUs" && key != "privacyPolicy"
    requires key != "terms"
    ensures Find(FooterTexts(), key).None?
  {
    FindListed(FooterTexts(), key);
  }

  /** A key no later group has is read from the groups before them: the
      table is read group by group, from the last one back. */
  lemma FindSkipsLaterGroups(key: string)
    requires Find(HeroTexts(), key).None? && Find(Features(), key).None?
    requires Find(CarListings(), key).None? && Find(ConditionTypes(), key).None?
    requires Find(TransmissionTypes(), key).None? && Find(FuelTypes(), key).None?
    requires Find(SellCarForm(), key).None? && Find(CarDetailsTexts(), key).None?
    requires Find(BuyForm(), key).None? && Find(Common(), key).None?
    requires Find(FooterTexts(), key).None?
    ensures Find(Entries(), key) == Find(Navigation(), key)
  {
    var s := Navigation();
    FindAppend(s, HeroTexts(), key);
    s := s + HeroTexts();
    FindAppend(s, Features(), key);
    s := s + Features();
    FindAppend(s, CarListings(), key);
    s := s + CarListings();
    FindAppend(s, ConditionTypes(), key);
    s := s + ConditionTypes();
    FindAppend(s, TransmissionTypes(), key);
    s := s + TransmissionTypes();
    FindAppend(s, FuelTypes(), key);
    s := s + FuelTypes();
    FindAppend(s, SellCarForm(), key);
    s := s + SellCarForm();
    FindAppend(s, CarDetailsTexts(), key);
    s := s + CarDetailsTexts();
    FindAppend(s, BuyForm(), key);
    s := s + BuyForm();
    FindAppend(s, Common(), key);
    s := s + Common();
    FindAppend(s, FooterTexts(), key);
    s := s + FooterTexts();
    assert s == Entries();
  }

  /** No key "home" in the hero texts. */
  lemma HomeOutsideHero()
    ensures Find(HeroTexts(), "home").None?
  {
    HeroTextsLacks("home");
  }

  /** No key "home" in the feature and listing texts. */
  lemma HomeOutsideFeatures()
    ensures Find(Features(), "home").None?
    ensures Find(CarListings(), "home").None?
  {
    FeaturesLacks("home");
    CarListingsLacks("home");
  }

  /** No key "home" in the type names and the sell form. */
  lemma HomeOutsideForms()
    ensures Find(ConditionTypes(), "home").None?
    ensures Find(TransmissionTypes(), "home").None?
    ensures Find(FuelTypes(), "home").None?
    ensures Find(SellCarForm(), "home").None?
  {
    ConditionTypesLacks("home");
    TransmissionTypesLacks("home");
    FuelTypesLacks("home");
    SellCarFormLacks("home");
  }

  /** No key "home" in the details, buy form, common and footer texts. */
  lemma HomeOutsideRest()
    ensures Find(CarDetailsTexts(), "home").None?
    ensures Find(BuyForm(), "home").None?
    ensures Find(Common(), "home").None?
    ensures Find(FooterTexts(), "home").None?
  {
    CarDetailsTextsLacks("home");
    BuyFormLacks("home");
    CommonLacks("home");
    FooterTextsLacks("home");
  }

  /** No key "nonexistentKey" in the hero texts. */
  lemma UnlistedOutsideHero()
    ensures Find(HeroTexts(), "nonexistentKey").None?
  {
    HeroTextsLacks("nonexistentKey");
  }

  /** No key "nonexistentKey" in the feature and listing texts. */
  lemma UnlistedOutsideFeatures()
    ensures Find(Features(), "nonexistentKey").None?
    ensures Find(CarListings(), "nonexistentKey").None?
  {
    FeaturesLacks("nonexistentKey");
    CarListingsLacks("nonexistentKey");
  }

  /** No key "nonexistentKey" in the type names and the sell form. */
  lemma UnlistedOutsideForms()
    ensures Find(ConditionTypes(), "nonexistentKey").None?
    ensures Find(TransmissionTypes(), "nonexistentKey").None?
    ensures Find(FuelTypes(), "nonexistentKey").None?
    ensures Find(SellCarForm(), "nonexistentKey").None?
  {
    ConditionTypesLacks("nonexistentKey");
    TransmissionTypesLacks("nonexistentKey");
    FuelTypesLacks("nonexistentKey");
    SellCarFormLacks("nonexistentKey");
  }

  /** No key "nonexistentKey" in the details, buy form, common and footer texts, nor in the navigation texts. */
  lemma UnlistedOutsideRest()
    ensures Find(CarDetailsTexts(), "nonexistentKey").None?
    ensures Find(BuyForm(), "nonexistentKey").None?
    ensures Find(Common(), "nonexistentKey").None?
    ensures Find(FooterTexts(), "nonexistentKey").None?
    ensures Find(Navigation(), "nonexistentKey").None?
  {
    CarDetailsTextsLacks("nonexistentKey");
    BuyFormLacks("nonexistentKey");
    CommonLacks("nonexistentKey");
    FooterTextsLacks("nonexistentKey");
    NavigationLacks("nonexistentKey");
  }

  /** "home" is read from the navigation texts, the only group that has it. */
  lemma HomeFromNavigation()
    ensures Find(Entries(), "home") == Find(Navigation(), "home")
  {
    HomeOutsideHero();
    HomeOutsideFeatures();
    HomeOutsideForms();
    HomeOutsideRest();
    FindSkipsLaterGroups("home");
  }

  /** `t('home')` reads the first property of the table, under either
      language. */
  lemma HomeLookup()
    ensures T(En, "home") == "Home"
    ensures T(Ar, "home") == "الرئيسية"
  {
    HomeFromNavigation();
  }

  /** No group has "nonexistentKey", so the table does not have it. */
  lemma UnlistedNotFound()
    ensures Find(Entries(), "nonexistentKey") == None
  {
    UnlistedOutsideHero();
    UnlistedOutsideFeatures();
    UnlistedOutsideForms();
    UnlistedOutsideRest();
    FindSkipsLaterGroups("nonexistentKey");
  }

  /** A key the table does not list comes back unchanged, under either
      language. */
  lemma UnlistedLookup()
    ensures T(En, "nonexistentKey") == "nonexistentKey"
    ensures T(Ar, "nonexistentKey") == "nonexistentKey"
  {
    UnlistedNotFound();
  }

  /** `isRTL`: the layout is right-to-left exactly under Arabic. */
  predicate IsRTL(l: Language)
  {
    l == Ar
  }

  /** The language code written to the document's `lang` attribute. */
  function Code(l: Language): (c: string)
    ensures c == "en" <==> l == En
    ensures c == "ar" <==> l == Ar
  {
    match l
    case En => "en"
    case Ar => "ar"
  }

  /** The text direction written to the document's `dir` attribute. */
  function Dir(l: Language): (d: string)
    ensures d == "rtl" <==> IsRTL(l)
    ensures d == "ltr" <==> !IsRTL(l)
  {
    if l == Ar then "rtl" else "ltr"
  }

  /** What a consumer of the language context receives: the current
      language, the lookup `t` and the `isRTL` flag (`setLanguage` is the
      provider's method). */
  datatype Context = Context(language: Language, t: string -> string, isRTL: bool)

  /** The flag agrees with the language, as it does in every provided value. */
  predicate Coherent(c: Context)
  {
    c.isRTL == IsRTL(c.language)
  }

  /** The value the provider passes down while its language is `l`. */
  function Provide(l: Language): (c: Context)
    ensures c.language == l && Coherent(c)
    ensures c.isRTL <==> l == Ar
  {
    Context(l, k => T(l, k), IsRTL(l))
  }

  /** The provided lookup is `t` under the provided language: a listed key
      gives that language's text, any other key comes back unchanged. */
  lemma ProvideLookup(l: Language, key: string)
    ensures key in Translations() ==> Provide(l).t(key) == Variant(Translations()[key], l) != ""
    ensures key !in Translations() ==> Provide(l).t(key) == key
  {
    TLookup(l, key);
  }

  /** The observable state of the provider: its language and the two
      document attributes the effect keeps in step with it. */
  datatype State = State(language: Language, dir: string, lang: string)

  /** The state is in step: both attributes follow the language. */
  predicate InStep(s: State)
  {
    s.dir == Dir(s.language) && s.lang == Code(s.language)
  }

  /** The state after `setLanguage(l)` and the effect it triggers. */
  function AfterSetLanguage(s: State, l: Language): (s': State)
    ensures InStep(s') && s'.language == l
    ensures s'.dir == (if l == Ar then "rtl" else "ltr")
  {
    State(l, Dir(l), Code(l))
  }

  /** `setLanguage` is idempotent: a second call with the same value changes
      nothing observable. */
  lemma SetLanguageIdempotent(s: State, l: Language)
    ensures AfterSetLanguage(AfterSetLanguage(s, l), l) == AfterSetLanguage(s, l)
  {
  }

  /** The in-step states are exactly those `setLanguage` can leave behind. */
  lemma InStepIsReachable(s: State)
    ensures InStep(s) <==> exists p: State, l: Language :: AfterSetLanguage(p, l) == s
  {
    if InStep(s) {
      assert AfterSetLanguage(s, s.language) == s;
    }
  }

  /** The initial state: English, left-to-right, tagged "en". */
  const Initial := State(En, "ltr", "en")

  /** The language provider: React state `language`, initially English, and
      the `dir` and `lang` attributes of the document element, which an
      effect copies from the language (the effect is taken to run at once). */
  class LanguageProvider {
    var language: Language
    var dir: string
    var lang: string

    /** The provider's observable state. */
    function Observed(): State
      reads this
    {
      State(language, dir, lang)
    }

    ghost predicate Valid()
      reads this
    {
      InStep(Observed())
    }

    /** Mounting: English, so the document is left-to-right and tagged "en". */
    constructor ()
      ensures Valid() && Observed() == Initial
      ensures !IsRightToLeft()
    {
      language := En;
      dir := "ltr";
      lang := "en";
    }

    /** `setLanguage(l)` followed by the direction/lang effect. */
    method SetLanguage(l: Language)
      requires Valid()
      modifies this
      ensures Valid()
      ensures Observed() == AfterSetLanguage(old(Observed()), l)
    {
      language := l;
      dir := Dir(l);
      lang := Code(l);
    }

    /** The provider's `t`: resolves a key under the current language. */
    method Translate(key: string) returns (r: string)
      ensures key !in Translations() ==> r == key
      ensures key in Translations() ==> r == Variant(Translations()[key], language) && r != ""
    {
      r := T(language, key);
      TLookup(language, key);
    }

    /** The provider's `isRTL`. */
    function IsRightToLeft(): (b: bool)
      reads this
      ensures b <==> language == Ar
    {
      IsRTL(language)
    }

    /** The value the provider passes down to its consumers. */
    function Value(): (c: Context)
      reads this
      ensures c == Provide(language)
      ensures c.language == language && Coherent(c)
      ensures c.isRTL <==> IsRightToLeft()
    {
      Provide(language)
    }
  }

  const ProviderMissing := "useLanguage must be used within a LanguageProvider"

  /** `useLanguage`: the nearest provider's value, or the error it throws
      when no provider encloses the caller. */
  function UseLanguage(nearest: Option<Context>): (r: Result<Context, string>)
    ensures r.Failure? <==> nearest.None?
    ensures r.Failure? ==> r.error == ProviderMissing
    ensures nearest.Some? ==> r == Success(nearest.value)
  {
    match nearest
    case None => Failure(ProviderMissing)
    case Some(c) => Success(c)
  }
}
