# Safer El3arbiat storefront: localization core in Dafny

The storefront is a bilingual (English/Arabic) car marketplace front-end.
This project models the logic it contains and proves properties of it:

- **`Localization`** models `contexts/LanguageContext.tsx`. It holds:
  - the translation table, the 69 properties of the `translations` object literal in source order;
  - `t`, which falls back to the key itself;
  - the `en`/`ar` language state and the `isRTL` flag derived from it;
  - the effect that copies the language into the document's `dir` and `lang` attributes;
  - the `useLanguage` guard.

  The provider is a class with fields `language`, `dir` and `lang`. Its `SetLanguage` method keeps `dir` and `lang` in step with `language`.
- **`Listings`** holds what both car pages share:
  - the listing record;
  - JavaScript truthiness of optional fields;
  - the rule "show the Arabic variant only under Arabic and only when it is non-empty";
  - the image fallback, the location-row guard, and the number-format locale tag.
- **`CarCard`** models `components/CarCard.tsx`: everything one listing card shows, as a pure function of the car and the language context.
- **`CarDetails`** models `pages/CarDetails.tsx`. It covers the precedence of loading over not-found, and the details view with its guarded rows, description section and contact block.
- **`Navbar`** models `components/Navbar.tsx`. It covers:
  - the three nav items and which one is active;
  - the logo, the language toggle and its label;
  - the mobile-menu flag, kept as a class whose handlers flip it and clear it.
- **`Wrappers`** defines `Option` and `Result`.

How the model represents the source:
- **The table.** It is the list of properties of the object literal. `Find` reads it the way indexing the object does: the last property with a key wins. `TableOf` is the object as a map, and `FindIsTableOf` proves the two agree. `Translations()` is the map of the actual table.
- **Optional fields.** An optional or nullable field is an `Option`, and `None` stands for both `undefined` and `null`. A string field counts as shown (truthy) when it is present and non-empty. A number field counts as shown when it is present and non-zero.
- **Number formatting.** A formatted number is modelled by the value and the locale tag chosen for it. The characters a formatter prints are not modelled.

## Model

| member | source | states |
|---|---|---|
| Localization.Entries | contexts/LanguageContext.tsx:12-105 | the 69 properties of the `translations` literal, group by group and in the order written; `EntriesAuthored` states that every text is non-empty |
| Localization.TableOf | contexts/LanguageContext.tsx:12-105 | the object that a list of properties evaluates to, where a later property overrides an earlier one with the same key; `FindIsTableOf` states how it agrees with `Find` |
| Localization.Find | contexts/LanguageContext.tsx:125 | `translations[key]` read off the property list; `FindListed`, `FindLast` and `FindFromProperty` state what it finds |
| Localization.FindIsTableOf | contexts/LanguageContext.tsx:12-105 | reading the property list (last property wins) finds a key exactly when the object built from the literal has it, and finds that property's texts |
| Localization.FindListed | contexts/LanguageContext.tsx:124-126 | `translations[key]` is found exactly when some property of the literal has that key |
| Localization.FindLast | contexts/LanguageContext.tsx:12-105 | when a key occurs more than once, the last property with that key is the one found |
| Localization.FindFromProperty | contexts/LanguageContext.tsx:124-127 | what the lookup finds is the `{en, ar}` pair of a property with that key |
| Localization.FindAppend | contexts/LanguageContext.tsx:12-105 | reading two lists written one after the other, a property of the second overrides the first, and the first is read only when the second lacks the key |
| Localization.TableOfWellFormed | contexts/LanguageContext.tsx:5-10 | the object of a property list whose texts are all non-empty has no empty variant |
| Localization.EntriesAuthored | contexts/LanguageContext.tsx:14-104 | every property of the table, in all twelve groups, has a non-empty `en` text and a non-empty `ar` text |
| Localization.TranslationsWellFormed | contexts/LanguageContext.tsx:5-105 | every entry of the translation table has non-empty English and Arabic texts |
| Localization.T | contexts/LanguageContext.tsx:124-128 | `t` itself: the key's variant for the language, or the key when the table lacks it; `TLookup`, `HomeLookup` and `UnlistedLookup` state it |
| Localization.TLookup | contexts/LanguageContext.tsx:124-128 | `t` on a listed key returns that entry's variant for the language, which is never empty; on any other key it returns the key unchanged, under either language |
| Localization.FindSkipsLaterGroups | contexts/LanguageContext.tsx:12-105 | when no group after the navigation texts has a key, reading the whole table gives what the navigation texts give |
| Localization.HomeLookup | contexts/LanguageContext.tsx:14 | `t('home')` is "Home" under English and "الرئيسية" under Arabic |
| Localization.UnlistedLookup | contexts/LanguageContext.tsx:124-126 | `t('nonexistentKey')` returns "nonexistentKey" under either language, since no property has that key |
| Localization.IsRTL | contexts/LanguageContext.tsx:130 | `isRTL` is `language === 'ar'`; `Provide`, `Dir` and `LanguageProvider.IsRightToLeft` state it for the value passed down and for the document direction |
| Localization.Code | contexts/LanguageContext.tsx:121 | the `lang` code is "en" exactly for English and "ar" exactly for Arabic |
| Localization.Dir | contexts/LanguageContext.tsx:120 | `dir` is "rtl" exactly when the layout is right-to-left, else "ltr" |
| Localization.Provide | contexts/LanguageContext.tsx:130-133 | the provided value carries the language, and its `isRTL` holds exactly when the language is Arabic |
| Localization.ProvideLookup | contexts/LanguageContext.tsx:124-133 | a consumer's `t` gives the listed entry's non-empty variant for the provided language, and gives any other key back unchanged |
| Localization.AfterSetLanguage | contexts/LanguageContext.tsx:117-122 | after `setLanguage(l)` and its effect, the language is `l`, `dir` is "rtl" for Arabic and "ltr" otherwise, and `lang` is `l`'s code |
| Localization.SetLanguageIdempotent | contexts/LanguageContext.tsx:117-122 | a second `setLanguage` with the same language changes nothing |
| Localization.InStepIsReachable | contexts/LanguageContext.tsx:119-122 | the states whose attributes follow the language are exactly the states `setLanguage` leaves behind |
| Localization.LanguageProvider.constructor | contexts/LanguageContext.tsx:117-130 | a fresh provider is English, left-to-right, tagged "en", with `isRTL` false |
| Localization.LanguageProvider.SetLanguage | contexts/LanguageContext.tsx:117-122 | the new state is the old state after `setLanguage(l)`: all three fields are set, and the attributes stay in step with the language |
| Localization.LanguageProvider.Translate | contexts/LanguageContext.tsx:124-128 | the provider's `t` under its current language gives a listed key's non-empty variant, and any other key back unchanged |
| Localization.LanguageProvider.IsRightToLeft | contexts/LanguageContext.tsx:130 | `isRTL` holds exactly when the language is Arabic |
| Localization.LanguageProvider.Value | contexts/LanguageContext.tsx:133 | the value passed down is `Provide` of the provider's language: its `t` is `t` under that language, as `ProvideLookup` states, and its `isRTL` is coherent |
| Localization.UseLanguage | contexts/LanguageContext.tsx:139-145 | `useLanguage` fails, with the provider-missing message, exactly when no provider encloses the caller, and otherwise returns the provider's value |
| Listings.Prefer | components/CarCard.tsx:43-51 | the Arabic variant is chosen only under Arabic and only when it is non-empty, otherwise the base field; the shown text is non-empty exactly when the base is, or when the Arabic variant is and is chosen |
| Listings.DisplayTitle | components/CarCard.tsx:43-46 | the title is `title_ar` under Arabic when it is non-empty, otherwise `title`; it is non-empty exactly when one of these applies |
| Listings.DisplayLocation | components/CarCard.tsx:48-51 | the location is `location_ar` under Arabic when it is non-empty, otherwise `location` |
| Listings.ImageSource | components/CarCard.tsx:75 | the picture is `image_url` when it is non-empty, and the page's placeholder otherwise |
| Listings.LocationRow | components/CarCard.tsx:126-131 | the location row appears exactly when the base `location` is non-empty, and shows the location by the `location_ar` rule |
| Listings.ArabicLocationAloneHidden | pages/CarDetails.tsx:52 | an Arabic location with no base location shows no row under either language |
| Listings.LocaleTag | components/CarCard.tsx:35-41 | the locale tag is "ar-EG" exactly when the layout is right-to-left, and "en-EG" otherwise |
| Listings.FormatNumber | pages/CarDetails.tsx:26 | a price is formatted as its own value for the locale the tag rule picks |
| CarCard.Badge | components/CarCard.tsx:64-70 | the featured badge appears exactly when `is_featured` is true, reading "مميز" right-to-left and "Featured" otherwise |
| CarCard.MileageSlotAsWritten | components/CarCard.tsx:113-118 | the slot as written: nothing without a mileage, the bare text "0" exactly for mileage 0, and the row with the card's locale and `t('km')` exactly for a non-zero mileage |
| CarCard.MileageZeroAsWritten | components/CarCard.tsx:113 | as written, a card for a car with mileage 0 shows the stray text "0" |
| CarCard.MileageSlot | components/CarCard.tsx:113-118 | the mileage row appears exactly when the mileage is present and non-zero, formatted with the card's locale and followed by `t('km')`; no stray text ever appears |
| CarCard.MileageSlotCorrection | components/CarCard.tsx:113 | the corrected slot differs from the written one exactly for a zero mileage |
| CarCard.Render | components/CarCard.tsx:53-138 | the whole card, part by part: the badge; the image fallback; the title and alt text by the `title_ar` rule; the year; the price locale, shared by the mileage; `t('currency')`; the corrected mileage slot, not the as-written one; the condition, fuel and transmission labels through `t`; the location row by the `location_ar` rule; and the link "/car/" + id labelled `t('viewDetails')` |
| CarCard.RenderAgainstWritten | components/CarCard.tsx:113-118 | the modelled card's mileage slot matches the as-written slot exactly when the mileage is not 0; for mileage 0 the card shows nothing where the source prints "0" |
| CarCard.NumbersShareLocale | components/CarCard.tsx:35-41 | a shown mileage uses the price's locale, which is "ar-EG" exactly when the layout is right-to-left |
| CarCard.LabelsThroughTable | components/CarCard.tsx:91-136 | under the provided context, the condition, fuel and transmission labels and the button text are `t` of their raw values |
| CarDetails.Line | pages/CarDetails.tsx:60-62 | a contact line appears exactly for its own non-empty field, and shows that field |
| CarDetails.DescriptionSection | pages/CarDetails.tsx:55 | the description section appears exactly when `description` is non-empty, under the `t('description')` heading, with text `description_ar` under Arabic when that is non-empty and `description` otherwise |
| CarDetails.ContactBlock | pages/CarDetails.tsx:57-63 | the contact block appears exactly when one of seller name, phone and email is non-empty, under `t('contactSeller')`, with each line guarded by its own field |
| CarDetails.ContactBlockNotEmpty | pages/CarDetails.tsx:57-63 | a contact block that appears has at least one line |
| CarDetails.View | pages/CarDetails.tsx:39-66 | the details view, part by part: the placeholder fallback, with the base title as alt text; the `title_ar` heading rule; the price locale and `t('currency')`; the year; the fuel and transmission labels; the mileage in the default locale (absent when there is none) followed by `t('km')`; the location row by the `location_ar` rule; the description section with its `description_ar` text; the contact block; and the link "/buy/" + id labelled `t('buyNow')` |
| CarDetails.Render | pages/CarDetails.tsx:29-30 | while loading, the page shows `t('loading')` whatever the query holds; otherwise it shows `t('noResults')` when there is no car, and the details exactly when there is one |
| CarDetails.LoadingIgnoresResult | pages/CarDetails.tsx:29 | loading takes precedence: while loading, the page is the same whatever the query returned |
| CarDetails.HeadingVersusAlt | pages/CarDetails.tsx:39-44 | the heading differs from the picture's alt text only when it shows a differing Arabic title |
| CarDetails.PriceLocale | pages/CarDetails.tsx:26 | the price locale is "ar-EG" exactly when the layout is right-to-left, and "en-EG" exactly otherwise |
| Navbar.NavItems | components/Navbar.tsx:13-17 | the items are exactly "/", "/cars" and "/sell" in that order, labelled `t('home')`, `t('cars')` and `t('sell')` |
| Navbar.IsActive | components/Navbar.tsx:19 | a path is active exactly when it is the current location's path; `AtMostOneActive` and `Links` state what follows for the bar |
| Navbar.AtMostOneActive | components/Navbar.tsx:13-19 | at most one item is active, and one is active exactly when the location is one of the three paths |
| Navbar.Toggled | components/Navbar.tsx:22 | the toggle always switches to the other language |
| Navbar.ToggleTwice | components/Navbar.tsx:21-23 | toggling twice restores the original language |
| Navbar.ToggleLabel | components/Navbar.tsx:88 | the toggle reads "عربي" under English and "EN" under Arabic |
| Navbar.ToggleLabelNamesTarget | components/Navbar.tsx:88 | the toggle's label is the name of the language a click switches to, never the current one |
| Navbar.LogoFor | components/Navbar.tsx:46-49 | the logo reads "سفير العربيات" with an empty subtitle right-to-left, and "SAFER" over "EL3ARBIAT" otherwise |
| Navbar.Links | components/Navbar.tsx:56-76 | each item is drawn as a link to its path with its label, highlighted exactly when it is active |
| Navbar.Render | components/Navbar.tsx:46-123 | the bar shows the logo for its direction, the desktop links, and the toggle label; it shows the mobile links only while the menu is open |
| Navbar.OneHighlight | components/Navbar.tsx:64-69 | at most one drawn link is highlighted |
| Navbar.NavigationBar.constructor | components/Navbar.tsx:10 | the menu starts closed |
| Navbar.NavigationBar.ToggleMenu | components/Navbar.tsx:93 | the menu button flips `isOpen` |
| Navbar.NavigationBar.CloseMenu | components/Navbar.tsx:116 | clicking a mobile link closes the menu, whatever its state |
| Navbar.NavigationBar.ToggleLanguage | components/Navbar.tsx:21-23 | the toggle switches the provider to the other language, with `dir` and `lang` following it |

## Left out

- Remote store calls are inputs, not modelled behaviour. The details page takes the query's loading flag and its result as parameters. The Supabase query, its error path and the lists other pages fetch are not part of this model.
- The characters printed by `Intl.NumberFormat(...).format` and `toLocaleString()` are left out, because they depend on locale data outside the repository. The model records only the value and the locale tag chosen.
- Animation and styling are left out: framer-motion settings, the card's `index * 0.1` delay, and CSS classes are decorative.
- The `onError` handlers that swap a broken picture for the placeholder are left out. They are DOM events, and the placeholder they set is the same one `ImageSource` falls back to.
- HeroSection and Footer are left out. They only compose calls to `t` and `isRTL`. Index is left out too: it only composes components.
- The car list pages are left out with the store calls they depend on. This covers what Cars and FeaturedCars do with the fetched list: the query (FeaturedCars limits it to six cars), the loading skeletons, the grid of cards and the empty `t('noResults')` text. Each card is `CarCard.Render`.
- The sell and buy forms are left out, because they are form plumbing and store calls outside the localization core. This covers their field state (the sell form starts with `mileage: 0`) and their submit handlers: the loading flag, the insert through the store, the error and success toasts, and the navigation after a successful submit.
- CarCard.Render: the card uses the corrected mileage slot, so for a car with mileage 0 it shows nothing where the source prints "0". The as-written slot is `MileageSlotAsWritten`; `RenderAgainstWritten` states where the two differ.
- Distinct keys: no lemma proves that all 69 keys of the table are distinct. That would take a pairwise comparison of every two literal keys, which is beyond the resource limit the project is verified under. Single keys are resolved: `HomeLookup` and `UnlistedLookup` compare one key with the others, group by group.
- Keys inherited by a plain JavaScript object, such as `toString`, are left out. The table holds exactly the keys listed in the literal.
- React effect scheduling is left out. The `dir`/`lang` effect is taken to run as part of `setLanguage`.
- A car's numbers are integers. NaN and fractional prices or mileages are not modelled.
- The `index` prop of the card only drives the animation delay and is not modelled.
- When a car has no mileage, the details page still prints the unit: the cell holds no amount, followed by `t('km')`. This is modelled as the source does it; it is not treated as a defect.

## Findings

| source | as written | input that shows it | evidently intended | confidence | as-written member | corrected member |
|---|---|---|---|---|---|---|
| components/CarCard.tsx:113 | `{car.mileage && (...)}` evaluates to the number 0 for a zero mileage, and React prints it, so the specs grid shows a stray "0" | a car with `mileage: 0` | no mileage row and no stray text unless the mileage is present and non-zero | not executed | CarCard.MileageZeroAsWritten | CarCard.MileageSlot |
