/**
 * The application's entry page: the selected role, set by the landing
 * page's role choice and cleared by every dashboard's back button, decides
 * which screen is shown.
 */
module Navigation {

  import opened Options

  datatype Role = Client | Business | Admin

  /** The screens the entry page can show. The client screen is the
      enhanced end-user dashboard. */
  datatype Screen = LandingScreen | ClientScreen | BusinessScreen | AdminScreen

  /** The render dispatch on the selected role. */
  function Render(selectedRole: Option<Role>): (s: Screen)
    ensures s == LandingScreen <==> selectedRole == None
  {
    match selectedRole
    case None => LandingScreen
    case Some(Client) => ClientScreen
    case Some(Business) => BusinessScreen
    case Some(Admin) => AdminScreen
  }

  /** The role a screen belongs to; the landing page belongs to none. */
  function RoleOf(s: Screen): Option<Role> {
    match s
    case LandingScreen => None
    case ClientScreen => Some(Client)
    case BusinessScreen => Some(Business)
    case AdminScreen => Some(Admin)
  }

  /** The entry page's state. */
  class IndexPage {
    var selectedRole: Option<Role>

    constructor ()
      ensures selectedRole == None
    {
      selectedRole := None;
    }

    /** `handleRoleSelect`. */
    method HandleRoleSelect(role: Role)
      modifies this
      ensures selectedRole == Some(role)
    {
      selectedRole := Some(role);
    }

    /** `handleBack`. */
    method HandleBack()
      modifies this
      ensures selectedRole == None
    {
      selectedRole := None;
    }

    /** The screen currently shown. */
    function CurrentScreen(): (s: Screen)
      reads this
      ensures RoleOf(s) == selectedRole
    {
      RenderShowsRole(selectedRole);
      Render(selectedRole)
    }
  }

  /** Each screen shows exactly one role's dashboard, or the landing page for
      no role: the dispatch loses nothing and is inverted by RoleOf. */
  lemma RenderShowsRole(selectedRole: Option<Role>)
    ensures RoleOf(Render(selectedRole)) == selectedRole
  {
  }

  /** Different selections show different screens. */
  lemma RenderInjective(r1: Option<Role>, r2: Option<Role>)
    requires Render(r1) == Render(r2)
    ensures r1 == r2
  {
    RenderShowsRole(r1);
    RenderShowsRole(r2);
  }

  /** A fresh page shows the landing page; selecting a role shows that role's
      dashboard; going back from it shows the landing page again, in the
      same state as a fresh page. */
  method SelectThenBack(role: Role) returns (first: Screen, chosen: Screen, afterBack: Screen)
    ensures first == LandingScreen
    ensures RoleOf(chosen) == Some(role)
    ensures afterBack == first
  {
    var page := new IndexPage();
    first := page.CurrentScreen();
    page.HandleRoleSelect(role);
    chosen := page.CurrentScreen();
    page.HandleBack();
    afterBack := page.CurrentScreen();
  }
}
