/**
 * The enhanced end-user dashboard: the consent policy catalog resolved from
 * the selected business type, the session holding the ledger, and the
 * notification text produced by a toggle.
 */
module EnhancedClient {

  import opened Options
  import opened Consent

  /** One consent category's definition as the dashboard displays it. */
  datatype Policy = Policy(title: string, description: string, required: bool, details: string)

  /** A resolved catalog: category key to definition. */
  type Catalog = map<ConsentKey, Policy>

  /** The business types offered by the business selector. */
  const BusinessTypes: seq<string> :=
    ["ecommerce", "banking", "healthcare", "education", "saas", "media", "retail", "government"]

  /** The base title of each category. */
  function BaseTitle(k: ConsentKey): string {
    match k
    case Essential => "Essential Cookies"
    case Analytics => "Analytics & Performance"
    case Marketing => "Marketing & Advertising"
    case Personalization => "Personalization"
    case ThirdParty => "Third-Party Services"
    case Location => "Location Services"
    case Communication => "Communication"
    case Profiling => "User Profiling"
  }

  /** The base description of each category. */
  function BaseDescription(k: ConsentKey): string {
    match k
    case Essential => "Required for basic website functionality and security"
    case Analytics => "Help us understand how you use our services"
    case Marketing => "Personalized advertisements and marketing content"
    case Personalization => "Customize your experience based on your preferences"
    case ThirdParty => "Integration with external services and APIs"
    case Location => "Access to your geographical location"
    case Communication => "Email notifications and communication preferences"
    case Profiling => "Create profiles for personalized services"
  }

  /** The base detail text of each category. */
  function BaseDetails(k: ConsentKey): string {
    match k
    case Essential => "Session management, security, basic functionality"
    case Analytics => "Google Analytics, performance monitoring, usage statistics"
    case Marketing => "Ad targeting, campaign tracking, social media integration"
    case Personalization => "Content recommendations, UI preferences, saved settings"
    case ThirdParty => "Social login, payment processing, external widgets"
    case Location => "GPS data, IP-based location, location-based services"
    case Communication => "Email updates, SMS notifications, in-app messages"
    case Profiling => "Behavioral analysis, preference modeling, demographic data"
  }

  /** The base definition of a category; only essential is required. */
  function BasePolicy(k: ConsentKey): Policy {
    Policy(BaseTitle(k), BaseDescription(k), k == Essential, BaseDetails(k))
  }

  /** `basePolicies`: the base definitions of all eight categories. */
  function BasePolicies(): (c: Catalog)
    ensures forall k: ConsentKey :: k in c
  {
    var c := map k | k in Keys :: BasePolicy(k);
    assert forall k: ConsentKey :: k in c by {
      forall k: ConsentKey ensures k in c {
        KeyListed(k);
      }
    }
    c
  }

  /** The cases of the `switch` on the business type: the three types with
      overrides, and every other type. */
  datatype Sector = Banking | Healthcare | Ecommerce | OtherSector

  /** Which case of the `switch` a business type falls into. */
  function SectorOf(businessType: string): (sector: Sector)
    ensures sector == Banking <==> businessType == "banking"
    ensures sector == Healthcare <==> businessType == "healthcare"
    ensures sector == Ecommerce <==> businessType == "ecommerce"
  {
    if businessType == "banking" then Banking
    else if businessType == "healthcare" then Healthcare
    else if businessType == "ecommerce" then Ecommerce
    else OtherSector
  }

  /** The override table's keys: the categories whose description each case
      replaces. */
  function OverriddenKeys(sector: Sector): (ks: set<ConsentKey>)
    ensures sector == OtherSector <==> ks == {}
    ensures sector != OtherSector ==> |ks| == 3 && Essential !in ks
  {
    match sector
    case Banking => {Analytics, Location, Profiling}
    case Healthcare => {Analytics, Communication, Profiling}
    case Ecommerce => {Marketing, Personalization, Location}
    case OtherSector => {}
  }

  /** The override table's texts: the description a case puts in place of
      the base one. */
  function OverrideText(sector: Sector, k: ConsentKey): string
    requires k in OverriddenKeys(sector)
  {
    match (sector, k)
    case (Banking, Analytics) => "Financial analytics and fraud detection"
    case (Banking, Location) => "Branch locator and fraud prevention"
    case (Banking, Profiling) => "Credit scoring and risk assessment"
    case (Healthcare, Analytics) => "Medical analytics for improved patient care"
    case (Healthcare, Communication) => "Appointment reminders and health notifications"
    case (Healthcare, Profiling) => "Medical history and treatment personalization"
    case (Ecommerce, Marketing) => "Product recommendations and promotional offers"
    case (Ecommerce, Personalization) => "Shopping preferences and wishlists"
    case (Ecommerce, Location) => "Delivery tracking and local store finder"
  }

  /** The definition of one category for a case of the switch. */
  function PolicyFor(sector: Sector, k: ConsentKey): Policy {
    if k in OverriddenKeys(sector) then BasePolicy(k).(description := OverrideText(sector, k))
    else BasePolicy(k)
  }

  /** `getConsentPolicies`: a definition for every category, resolved for
      the business type's case of the switch (see ResolvedPolicy). */
  function GetConsentPolicies(businessType: string): (c: Catalog)
    ensures forall k: ConsentKey :: k in c
  {
    var sector := SectorOf(businessType);
    var c := map k | k in Keys :: PolicyFor(sector, k);
    assert forall k: ConsentKey :: k in c by {
      forall k: ConsentKey ensures k in c {
        KeyListed(k);
      }
    }
    c
  }

  /** `consentCategories`: nothing while no business is selected (the empty
      string), otherwise the policies of the selected type. */
  function ConsentCategories(selectedBusiness: string): (c: Catalog)
    ensures c == map[] <==> selectedBusiness == ""
    ensures selectedBusiness != "" ==> forall k: ConsentKey :: k in c
  {
    if selectedBusiness == "" then map[]
    else
      var c := GetConsentPolicies(selectedBusiness);
      assert Essential in c;
      c
  }

  /** A transient notification. */
  datatype Toast = Toast(title: string, description: string)

  /** The category's title, or "Consent" when the key has no category or an
      empty title (the `?.title || 'Consent'` fallback). */
  function CategoryName(categories: Catalog, key: ConsentKey): (name: string)
    ensures name != ""
    ensures key in categories && categories[key].title != "" ==> name == categories[key].title
    ensures !(key in categories && categories[key].title != "") ==> name == "Consent"
  {
    if key in categories && categories[key].title != "" then categories[key].title else "Consent"
  }

  /** The word for a ledger value: "granted" for true, "withdrawn" for false. */
  function StateWord(granted: bool): string {
    if granted then "granted" else "withdrawn"
  }

  /** The notification shown after a toggle, built from the value the key had
      BEFORE the toggle: a granted key is reported withdrawn and vice versa. */
  function ToggleToast(categories: Catalog, key: ConsentKey, wasGranted: bool): (t: Toast)
    ensures t.title == "Consent Updated"
  {
    Toast("Consent Updated",
          CategoryName(categories, key) + " has been " + (if wasGranted then "withdrawn" else "granted"))
  }

  /**
   * The session state of the dashboard: the selected business type and the
   * consent ledger. Both are updated in place by the UI's event handlers.
   */
  class ClientSession {
    var selectedBusiness: string
    var consents: Ledger

    /** The ledger holds every key, and essential stays granted. */
    ghost predicate Valid()
      reads this
    {
      WellFormed(consents) && consents[Essential]
    }

    constructor ()
      ensures Valid()
      ensures selectedBusiness == "" && consents == Initial()
    {
      selectedBusiness := "";
      consents := Initial();
    }

    /** The business selector's change handler. */
    method SelectBusiness(value: string)
      requires Valid()
      modifies this`selectedBusiness
      ensures Valid()
      ensures selectedBusiness == value
    {
      selectedBusiness := value;
    }

    /**
     * `toggleConsent`: essential returns at once with no notification;
     * any other key is flipped and a notification reports the change.
     */
    method ToggleConsent(key: ConsentKey) returns (toast: Option<Toast>)
      requires Valid()
      modifies this`consents
      ensures Valid()
      ensures consents == Toggle(old(consents), key)
      ensures key == Essential ==> toast == None
      ensures key != Essential ==>
        toast == Some(ToggleToast(ConsentCategories(selectedBusiness), key, old(consents)[key]))
    {
      if key == Essential {
        return None;
      }
      var wasGranted := consents[key];
      consents := Toggle(consents, key);
      toast := Some(ToggleToast(ConsentCategories(selectedBusiness), key, wasGranted));
    }

    /** `activeConsents`. */
    function ActiveConsents(): (n: nat)
      reads this
      requires Valid()
      ensures 1 <= n <= 8
      ensures n == |Granted(consents)|
    {
      ActiveCountIsGranted(consents);
      assert Essential in Granted(consents);
      ActiveCount(consents)
    }

    /** `totalConsents`. */
    function TotalConsents(): (n: nat)
      reads this
      requires Valid()
      ensures n == 8
    {
      TotalIsEight(consents);
      TotalCount(consents)
    }
  }

  // ---------------------------------------------------------------------------
  // Properties of the catalog and the notification

  /**
   * What `getConsentPolicies` resolves for one key: the base title, details
   * and required flag (required only for essential), whatever the business
   * type; the override text as description if the type overrides the key;
   * and otherwise the base definition unchanged.
   */
  lemma ResolvedPolicy(businessType: string, k: ConsentKey)
    ensures k in GetConsentPolicies(businessType)
    ensures var p := GetConsentPolicies(businessType)[k];
      p.title == BaseTitle(k) && p.details == BaseDetails(k) && (p.required <==> k == Essential)
    ensures var sector := SectorOf(businessType);
      if k in OverriddenKeys(sector) then GetConsentPolicies(businessType)[k].description == OverrideText(sector, k)
      else GetConsentPolicies(businessType)[k] == BasePolicy(k)
  {
    KeyListed(k);
    var sector := SectorOf(businessType);
    assert GetConsentPolicies(businessType)[k] == PolicyFor(sector, k);
    PolicyForKeepsBase(sector, k);
    PolicyForOverrides(sector, k);
  }

  /** Every case of the switch keeps the base title, details and required flag. */
  lemma PolicyForKeepsBase(sector: Sector, k: ConsentKey)
    ensures var p := PolicyFor(sector, k);
      p.title == BaseTitle(k) && p.details == BaseDetails(k) && (p.required <==> k == Essential)
  {
    var b := BasePolicy(k);
    if k in OverriddenKeys(sector) {
      assert PolicyFor(sector, k) == b.(description := OverrideText(sector, k));
    } else {
      assert PolicyFor(sector, k) == b;
    }
  }

  /** A case of the switch replaces the description exactly for the keys it
      overrides. */
  lemma PolicyForOverrides(sector: Sector, k: ConsentKey)
    ensures if k in OverriddenKeys(sector) then PolicyFor(sector, k).description == OverrideText(sector, k)
      else PolicyFor(sector, k) == BasePolicy(k)
  {
  }

  /** A business type outside the override table resolves to the base
      catalog itself. */
  lemma OtherTypesGetBaseCatalog(businessType: string)
    requires businessType != "banking" && businessType != "healthcare" && businessType != "ecommerce"
    ensures GetConsentPolicies(businessType) == BasePolicies()
  {
    var c := GetConsentPolicies(businessType);
    forall k | k in Keys ensures k in c && c[k] == BasePolicies()[k] {
      ResolvedPolicy(businessType, k);
    }
    forall k | k in c ensures k in Keys {
      KeyListed(k);
    }
  }

  /** Every override really replaces the base description. */
  lemma OverridesChangeDescription(sector: Sector, k: ConsentKey)
    requires k in OverriddenKeys(sector)
    ensures OverrideText(sector, k) != BaseDescription(k)
  {
    match (sector, k)
    case (Banking, Analytics) =>
    case (Banking, Location) =>
    case (Banking, Profiling) =>
    case (Healthcare, Analytics) =>
    case (Healthcare, Communication) =>
    case (Healthcare, Profiling) =>
    case (Ecommerce, Marketing) =>
    case (Ecommerce, Personalization) =>
    case (Ecommerce, Location) =>
  }

  /** Banking and healthcare describe analytics and profiling differently. */
  lemma BankingVersusHealthcare(k: ConsentKey)
    requires k == Analytics || k == Profiling
    ensures GetConsentPolicies("banking")[k].description != GetConsentPolicies("healthcare")[k].description
  {
    ResolvedPolicy("banking", k);
    ResolvedPolicy("healthcare", k);
  }

  /** A row of the resolved catalog: its switch is disabled exactly when a
      toggle of its key would be ignored, whatever the business type, and
      its "Active" badge shows exactly for granted optional keys. */
  lemma CatalogRowsAgreeWithToggle(businessType: string, l: Ledger, k: ConsentKey)
    requires WellFormed(l)
    ensures k in GetConsentPolicies(businessType)
    ensures var v := Row(GetConsentPolicies(businessType)[k].required, l[k]);
      (v.disabled <==> Toggle(l, k) == l) && (v.activeBadge <==> l[k] && k != Essential)
  {
    ResolvedRequired(businessType, k);
    DisabledIffToggleIgnored(l, k, GetConsentPolicies(businessType)[k].required);
  }

  /** In every resolved catalog only essential is required. */
  lemma ResolvedRequired(businessType: string, k: ConsentKey)
    ensures k in GetConsentPolicies(businessType)
    ensures GetConsentPolicies(businessType)[k].required <==> k == Essential
  {
    ResolvedPolicy(businessType, k);
  }

  /** Once a business is selected, a notification names the category by its
      base title: the "Consent" fallback appears only with no selection. */
  lemma SelectedCategoryName(selectedBusiness: string, key: ConsentKey)
    requires selectedBusiness != ""
    ensures CategoryName(ConsentCategories(selectedBusiness), key) == BaseTitle(key)
  {
    ResolvedPolicy(selectedBusiness, key);
    BaseTitleNonEmpty(key);
  }

  /** Every base title is non-empty. */
  lemma BaseTitleNonEmpty(k: ConsentKey)
    ensures BaseTitle(k) != ""
  {
    match k
    case Essential =>
    case Analytics =>
    case Marketing =>
    case Personalization =>
    case ThirdParty =>
    case Location =>
    case Communication =>
    case Profiling =>
  }

  /** Of the eight offered business types, the first three have overrides and
      the other five get the base catalog. */
  lemma OfferedTypes()
    ensures SectorOf(BusinessTypes[0]) == Ecommerce
    ensures SectorOf(BusinessTypes[1]) == Banking
    ensures SectorOf(BusinessTypes[2]) == Healthcare
    ensures forall i :: 3 <= i < |BusinessTypes| ==> GetConsentPolicies(BusinessTypes[i]) == BasePolicies()
  {
    forall i | 3 <= i < |BusinessTypes|
      ensures GetConsentPolicies(BusinessTypes[i]) == BasePolicies()
    {
      var bt := BusinessTypes[i];
      OtherTypesGetBaseCatalog(bt);
    }
  }

  /** The notification, though built from the pre-toggle value, names the
      state the key is in after the toggle. */
  lemma ToastNamesNewState(categories: Catalog, l: Ledger, key: ConsentKey)
    requires WellFormed(l) && key != Essential
    ensures ToggleToast(categories, key, l[key]).description ==
      CategoryName(categories, key) + " has been " + StateWord(Toggle(l, key)[key])
  {
  }

  /** Without a resolved catalog (no business selected) every notification
      says "Consent". */
  lemma ToastWithoutCatalog(key: ConsentKey, wasGranted: bool)
    ensures ToggleToast(map[], key, wasGranted).description == "Consent has been " + StateWord(!wasGranted)
  {
  }
}
