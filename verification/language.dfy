/** Interface language: the current language, its persisted choice, and key
    lookup with its fallback chain over the two shipped dictionaries. */
module Language {
  import opened Models

  /** `LanguageCode`. */
  datatype Lang = En | Ta

  /** The storage slot that persists the choice. */
  const StorageKey: string := "tms_language"

  /** The code persisted for a language. */
  function Code(l: Lang): string
  {
    match l
    case En => "en"
    case Ta => "ta"
  }

  /** The English dictionary as shipped; `None` marks a key it does not define. */
  function English(key: string): Option<string>
  {
    match key
    case "app.name" => Some("Sentraya Perumal Temple")
    case "app.subtitle" => Some("Temple Management Platform")
    case "app.adminUser" => Some("Admin User")
    case "app.administrator" => Some("Administrator")
    case "app.logout" => Some("Logout")
    case "app.language" => Some("Language")
    case "app.ledger" => Some("Narayana Seva Ledger")
    case "nav.main" => Some("Main")
    case "nav.masters" => Some("Masters")
    case "nav.transactions" => Some("Transactions")
    case "nav.reports" => Some("Reports")
    case "nav.dashboard" => Some("Dashboard")
    case "nav.villageMaster" => Some("Village Master")
    case "nav.devotees" => Some("Devotees")
    case "nav.taxMaster" => Some("Tax Master")
    case "nav.donationMaster" => Some("Donation Master")
    case "nav.pettyCashMaster" => Some("Petty Cash Master")
    case "nav.taxEntry" => Some("Tax Entry")
    case "nav.donationScreen" => Some("Donation Screen")
    case "nav.interest" => Some("Interest")
    case "nav.payment" => Some("Payment")
    case "nav.taxReport" => Some("Tax Report")
    case "nav.donationReport" => Some("Donation Report")
    case "nav.paymentReport" => Some("Payment Report")
    case "nav.overallReport" => Some("Overall Report")
    case "route.dashboard" => Some("Dashboard")
    case "route.villageMaster" => Some("Village Master")
    case "route.devotees" => Some("Devotees")
    case "route.taxMaster" => Some("Tax Master")
    case "route.donationMaster" => Some("Donation Master")
    case "route.pettyCashMaster" => Some("Petty Cash Master")
    case "route.taxEntry" => Some("Tax Entry")
    case "route.donationScreen" => Some("Donation Screen")
    case "route.interest" => Some("Interest")
    case "route.payment" => Some("Payment")
    case "route.taxReport" => Some("Tax Report")
    case "route.donationReport" => Some("Donation Report")
    case "route.paymentReport" => Some("Payment Report")
    case "route.overallReport" => Some("Overall Report")
    case "login.om" => Some("Om Namo Narayanaya")
    case "login.title" => Some("Sentraya Perumal Temple")
    case "login.subtitle" => Some("Temple Management System")
    case "login.email" => Some("Email")
    case "login.password" => Some("Password")
    case "login.remember" => Some("Remember me")
    case "login.button" => Some("Login")
    case "login.footer" => Some("May Lord Perumal Bless You")
    case "login.emailPlaceholder" => Some("Enter admin email")
    case "login.passwordPlaceholder" => Some("Enter password")
    case "login.error" => Some("Login failed. Check Firebase Auth email/password.")
    case "language.english" => Some("English")
    case "language.tamil" => Some("Tamil")
    case _ => None
  }

  /** The Tamil dictionary as shipped. */
  function Tamil(key: string): Option<string>
  {
    match key
    case "app.name" => Some("சென்றாய பெருமாள் கோவில்")
    case "app.subtitle" => Some("கோவில் நிர்வாக தளம்")
    case "app.adminUser" => Some("நிர்வாக பயனர்")
    case "app.administrator" => Some("நிர்வாகி")
    case "app.logout" => Some("வெளியேறு")
    case "app.language" => Some("மொழி")
    case "app.ledger" => Some("நாராயண சேவை பதிவேடு")
    case "nav.main" => Some("முக்கியம்")
    case "nav.masters" => Some("முதன்மை பதிவுகள்")
    case "nav.transactions" => Some("பரிவர்த்தனைகள்")
    case "nav.reports" => Some("அறிக்கைகள்")
    case "nav.dashboard" => Some("டாஷ்போர்டு")
    case "nav.villageMaster" => Some("ஊர் பதிவு")
    case "nav.devotees" => Some("பக்தர்கள்")
    case "nav.taxMaster" => Some("வரி பதிவு")
    case "nav.donationMaster" => Some("தான பதிவு")
    case "nav.pettyCashMaster" => Some("சிறு செலவு பதிவு")
    case "nav.taxEntry" => Some("வரி பதிவு உள்ளீடு")
    case "nav.donationScreen" => Some("தான உள்ளீடு")
    case "nav.interest" => Some("வட்டி")
    case "nav.payment" => Some("கட்டணம்")
    case "nav.taxReport" => Some("வரி அறிக்கை")
    case "nav.donationReport" => Some("தான அறிக்கை")
    case "nav.paymentReport" => Some("கட்டண அறிக்கை")
    case "nav.overallReport" => Some("மொத்த அறிக்கை")
    case "route.dashboard" => Some("டாஷ்போர்டு")
    case "route.villageMaster" => Some("ஊர் பதிவு")
    case "route.devotees" => Some("பக்தர்கள்")
    case "route.taxMaster" => Some("வரி பதிவு")
    case "route.donationMaster" => Some("தான பதிவு")
    case "route.pettyCashMaster" => Some("சிறு செலவு பதிவு")
    case "route.taxEntry" => Some("வரி பதிவு உள்ளீடு")
    case "route.donationScreen" => Some("தான உள்ளீடு")
    case "route.interest" => Some("வட்டி")
    case "route.payment" => Some("கட்டணம்")
    case "route.taxReport" => Some("வரி அறிக்கை")
    case "route.donationReport" => Some("தான அறிக்கை")
    case "route.paymentReport" => Some("கட்டண அறிக்கை")
    case "route.overallReport" => Some("மொத்த அறிக்கை")
    case "login.om" => Some("ஓம் நமோ நாராயணாய")
    case "login.title" => Some("சென்றாய பெருமாள் கோவில்")
    case "login.subtitle" => Some("கோவில் நிர்வாக அமைப்பு")
    case "login.email" => Some("மின்னஞ்சல்")
    case "login.password" => Some("கடவுச்சொல்")
    case "login.remember" => Some("என்னை நினைவில் கொள்ளவும்")
    case "login.button" => Some("உள்நுழை")
    case "login.footer" => Some("பெருமாள் உங்களை ஆசீர்வதிப்பாராக")
    case "login.emailPlaceholder" => Some("நிர்வாக மின்னஞ்சலை உள்ளிடவும்")
    case "login.passwordPlaceholder" => Some("கடவுச்சொல்லை உள்ளிடவும்")
    case "login.error" => Some("உள்நுழைவு தோல்வி. Firebase Auth விவரங்களை சரிபார்க்கவும்.")
    case "language.english" => Some("ஆங்கிலம்")
    case "language.tamil" => Some("தமிழ்")
    case _ => None
  }

  function Dictionary(l: Lang): string -> Option<string>
  {
    match l
    case En => English
    case Ta => Tamil
  }

  /** The two dictionaries define the same keys, so no Tamil lookup of a known
      key falls back to English. */
  lemma TamilCoversEnglish(key: string)
    ensures English(key).Some? ==> Tamil(key).Some?
  {
  }

  lemma EnglishCoversTamil(key: string)
    ensures Tamil(key).Some? ==> English(key).Some?
  {
  }

  /** The names every object literal inherits from `Object.prototype`
      (section 20.1.3 of ECMA-262, with the accessors of its Annex B). */
  const InheritedNames: set<string> := {
    "constructor", "hasOwnProperty", "isPrototypeOf", "propertyIsEnumerable", "toLocaleString",
    "toString", "valueOf", "__proto__", "__defineGetter__", "__defineSetter__",
    "__lookupGetter__", "__lookupSetter__"}

  /** What a lookup hands the template: a text, or the member a dictionary
      inherits under that name (a function, or `Object.prototype` itself). */
  datatype Shown = Text(text: string) | Inherited(name: string)

  /** `dictionary[key]` on an object literal: an own entry, else an inherited
      member, else `undefined` (`None`), the only outcome `??` passes on. */
  function Index(d: string -> Option<string>, key: string): Option<Shown>
  {
    match d(key)
    case Some(text) => Some(Text(text))
    case None => if key in InheritedNames then Some(Inherited(key)) else None
  }

  // The English dictionary defines none of the inherited names (the Tamil one
  // follows by `EnglishCoversTamil`), stated in three groups of four.

  lemma EnglishLacksObjectMethods()
    ensures English("constructor").None?
    ensures English("hasOwnProperty").None?
    ensures English("isPrototypeOf").None?
    ensures English("propertyIsEnumerable").None?
  {
  }

  lemma EnglishLacksConversions()
    ensures English("toLocaleString").None?
    ensures English("toString").None?
    ensures English("valueOf").None?
    ensures English("__proto__").None?
  {
  }

  lemma EnglishLacksAccessors()
    ensures English("__defineGetter__").None?
    ensures English("__defineSetter__").None?
    ensures English("__lookupGetter__").None?
    ensures English("__lookupSetter__").None?
  {
  }

  /** No shipped key is an inherited name, so no dictionary entry hides one. */
  lemma NoKeyIsInherited(key: string)
    ensures key in InheritedNames ==> English(key).None? && Tamil(key).None?
  {
    EnglishLacksObjectMethods();
    EnglishLacksConversions();
    EnglishLacksAccessors();
    EnglishCoversTamil(key);
  }

  /** `t(key)`: the current dictionary, else the English one, else the key
      itself. An inherited name stops the chain at the first lookup. */
  function Translate(current: Lang, key: string): (r: Shown)
    ensures Dictionary(current)(key).Some? ==> r == Text(Dictionary(current)(key).value)
    ensures Dictionary(current)(key).None? && key in InheritedNames ==> r == Inherited(key)
    ensures Dictionary(current)(key).None? && key !in InheritedNames && English(key).Some? ==>
      r == Text(English(key).value)
    ensures Dictionary(current)(key).None? && key !in InheritedNames && English(key).None? ==> r == Text(key)
  {
    match Index(Dictionary(current), key)
    case Some(shown) => shown
    case None =>
      match Index(English, key)
      case Some(shown) => shown
      case None => Text(key)
  }

  /** A key either dictionary knows is translated in the current language; an
      inherited name yields its inherited member; any other key is shown as
      itself. */
  lemma TranslateNeverFallsBack(current: Lang, key: string)
    ensures English(key).Some? ==>
      Dictionary(current)(key).Some? && Translate(current, key) == Text(Dictionary(current)(key).value)
    ensures key in InheritedNames ==> Translate(current, key) == Inherited(key)
    ensures English(key).None? && key !in InheritedNames ==> Translate(current, key) == Text(key)
  {
    TamilCoversEnglish(key);
    EnglishCoversTamil(key);
    NoKeyIsInherited(key);
  }

  /** `readStoredLanguage`: exactly the stored value "ta" selects Tamil; an absent
      or any other value selects English. */
  function ReadStoredLanguage(stored: Option<string>): (l: Lang)
    ensures l == Ta <==> stored == Some("ta")
  {
    if stored == Some("ta") then Ta else En
  }

  /** The service: the language signal and the storage slot behind it. */
  datatype LanguageService = LanguageService(current: Lang, stored: Option<string>)

  /** Construction reads the persisted choice. */
  function NewLanguageService(stored: Option<string>): (s: LanguageService)
    ensures s.stored == stored
    ensures s.current == Ta <==> stored == Some("ta")
  {
    LanguageService(ReadStoredLanguage(stored), stored)
  }

  function CurrentLanguage(s: LanguageService): Lang
  {
    s.current
  }

  /** `setLanguage`: switches the signal and persists the code. */
  function SetLanguage(s: LanguageService, l: Lang): (r: LanguageService)
    ensures CurrentLanguage(r) == l
    ensures r.stored == Some(Code(l))
  {
    LanguageService(l, Some(Code(l)))
  }

  /** A choice survives a reload: a new service over the persisted slot starts in it. */
  lemma ChoicePersists(s: LanguageService, l: Lang)
    ensures CurrentLanguage(NewLanguageService(SetLanguage(s, l).stored)) == l
  {
  }
}
