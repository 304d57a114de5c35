/**
 * The older end-user dashboard: the same consent ledger and toggle rule, a
 * static list of category definitions, and the per-row badges and switch.
 */
module LegacyClient {

  import opened Consent
  import EnhancedClient

  /** One entry of the static category list. */
  datatype Category = Category(key: ConsentKey, title: string, description: string, required: bool, details: string)

  /** The title of each entry of the static list. */
  function LegacyTitle(k: ConsentKey): string {
    match k
    case Essential => "Essential Cookies"
    case Analytics => "Analytics & Performance"
    case Marketing => "Marketing & Advertising"
    case Personalization => "Personalization"
    case ThirdParty => "Third-Party Services"
    case Location => "Location Services"
    case Communication => "Communication"
    case Profiling => "User Profiling"
  }

  /** The description of each entry of the static list. */
  function LegacyDescription(k: ConsentKey): string {
    match k
    case Essential => "Required for basic website functionality and security"
    case Analytics => "Help us understand how you use our services"
    case Marketing => "Personalized advertisements and marketing content"
    case Personalization => "Customize your experience based on your preferences"
    case ThirdParty => "Integration with external services and APIs"
    case Location => "Access to your geographical location"
    case Communication => "Email notifications and communication preferences"
    case Profiling => "Create profiles for personalized services"
  }

  /** The detail text of each entry of the static list. */
  function LegacyDetails(k: ConsentKey): string {
    match k
    case Essential => "Session management, security, basic functionality"
    case Analytics => "Google Analytics, performance monitoring, usage statistics"
    case Marketing => "Ad targeting, campaign tracking, social media integration"
    case Personalization => "Content recommendations, UI preferences, saved settings"
    case ThirdParty => "Social login, payment processing, external widgets"
    case Location => "GPS data, IP-based location, location-based services"
    case Communication => "Email updates, SMS notifications, in-app messages"
    case Profiling => "Behavioral analysis, preference modeling, demographic data"
  }

  /** The required flag of each entry of the static list. */
  function LegacyRequired(k: ConsentKey): bool {
    match k
    case Essential => true
    case _ => false
  }

  /** The entry of the static category list for each key. */
  function CategoryEntry(k: ConsentKey): Category {
    Category(k, LegacyTitle(k), LegacyDescription(k), LegacyRequired(k), LegacyDetails(k))
  }

  /** `consentCategories`: the eight entries, in the ledger's key order. */
  function ConsentCategories(): (cs: seq<Category>)
    ensures |cs| == |Keys|
  {
    seq(|Keys|, i requires 0 <= i < |Keys| => CategoryEntry(Keys[i]))
  }

  /** The keys of the category list, in order. */
  function CategoryKeys(cs: seq<Category>): (ks: seq<ConsentKey>)
    ensures |ks| == |cs|
    ensures forall i :: 0 <= i < |cs| ==> ks[i] == cs[i].key
  {
    seq(|cs|, i requires 0 <= i < |cs| => cs[i].key)
  }

  /** The rows the list renders against a ledger, one per category. */
  function Rows(l: Ledger, cs: seq<Category>): (rows: seq<RowView>)
    requires WellFormed(l)
    ensures |rows| == |cs|
    ensures forall i :: 0 <= i < |cs| ==>
      rows[i].checked == l[cs[i].key] &&
      (rows[i].requiredBadge <==> cs[i].required) &&
      (rows[i].disabled <==> cs[i].required) &&
      (rows[i].activeBadge <==> l[cs[i].key] && !cs[i].required)
  {
    seq(|cs|, i requires 0 <= i < |cs| => Row(cs[i].required, l[cs[i].key]))
  }

  /**
   * The session state of the older dashboard: just the consent ledger,
   * updated in place by the switches.
   */
  class LegacySession {
    var consents: Ledger

    /** The ledger holds every key, and essential stays granted. */
    ghost predicate Valid()
      reads this
    {
      WellFormed(consents) && consents[Essential]
    }

    constructor ()
      ensures Valid()
      ensures consents == Initial()
    {
      consents := Initial();
    }

    /** `toggleConsent`: essential is ignored, any other key is flipped. */
    method ToggleConsent(key: ConsentKey)
      requires Valid()
      modifies this
      ensures Valid()
      ensures consents == Toggle(old(consents), key)
    {
      if key == Essential {
        return;
      }
      consents := Toggle(consents, key);
    }

    /** `activeConsents`: always at least the essential consent. */
    function ActiveConsents(): (n: nat)
      reads this
      requires Valid()
      ensures 1 <= n <= 8
      ensures n == |Granted(consents)|
    {
      ActiveCountIsGranted(consents);
      assert Essential in Granted(consents);
      ActiveCount(consents)
    }

    /** `totalConsents`. */
    function TotalConsents(): (n: nat)
      reads this
      requires Valid()
      ensures n == 8
    {
      TotalIsEight(consents);
      TotalCount(consents)
    }
  }

  // ---------------------------------------------------------------------------
  // Properties of the category list and the rows

  /** The category list names each ledger key exactly once, in the ledger's
      order. */
  lemma CategoriesMatchLedger()
    ensures CategoryKeys(ConsentCategories()) == Keys
    ensures Distinct(CategoryKeys(ConsentCategories()))
  {
    var cs := ConsentCategories();
    var ks := CategoryKeys(cs);
    forall i | 0 <= i < |Keys| ensures ks[i] == Keys[i] {
      EntryShape(Keys[i]);
    }
    KeysDistinct();
  }

  /** Each entry is filed under its own key, and only the essential entry is
      required. */
  lemma EntryShape(k: ConsentKey)
    ensures CategoryEntry(k).key == k
    ensures CategoryEntry(k).required <==> k == Essential
  {
  }

  /** The older list carries exactly the base definitions of the enhanced
      dashboard's catalog. */
  lemma CategoriesMatchBaseCatalog(k: ConsentKey)
    ensures var c := CategoryEntry(k);
      EnhancedClient.BasePolicy(k) == EnhancedClient.Policy(c.title, c.description, c.required, c.details)
  {
  }

  /** On every row the switch is disabled exactly when the category is
      required, which is exactly when toggling it would be ignored; the
      "Active" badge shows exactly for granted optional categories. */
  lemma RowsAgreeWithToggle(l: Ledger, i: nat)
    requires WellFormed(l)
    requires i < |ConsentCategories()|
    ensures var c := ConsentCategories()[i];
      var row := Rows(l, ConsentCategories())[i];
      (row.disabled <==> c.required) &&
      (row.disabled <==> Toggle(l, c.key) == l) &&
      (row.activeBadge <==> l[c.key] && !c.required)
  {
    var c := ConsentCategories()[i];
    EntryShape(Keys[i]);
    DisabledIffToggleIgnored(l, c.key, c.required);
  }
}
