/**
 * The application shell: the login gate, the page shown for the active tab
 * and the header title for it.
 */
module App {

  const AppName := "SafetyApp"

  /** The configured header title of each known tab. */
  const PageTitles: map<string, string> := map[
    "home" := "SafetyApp",
    "location" := "Location Tracking",
    "contacts" := "Emergency Contacts",
    "safety" := "Safety Features",
    "profile" := "Profile"
  ]

  /** The tab selected when the shell first renders. */
  const InitialTab := "home"

  datatype Page = HomePage | LocationPage | ContactsPage | SafetyPage | ProfilePage

  /** What the shell renders: the login page, or the header title above a page. */
  datatype Screen = LoginScreen | Shell(title: string, page: Page)

  /** The configured title of the tab, or the application's name when it has none. */
  function PageTitle(activeTab: string): string
  {
    if activeTab in PageTitles && PageTitles[activeTab] != "" then PageTitles[activeTab] else AppName
  }

  /** The page for the tab; an unknown tab shows the home page. */
  function RenderPage(activeTab: string): Page
  {
    match activeTab
    case "home" => HomePage
    case "location" => LocationPage
    case "contacts" => ContactsPage
    case "safety" => SafetyPage
    case "profile" => ProfilePage
    case _ => HomePage
  }

  /** The shell: without a user only the login page, whatever the tab. */
  function AppContent(signedIn: bool, activeTab: string): Screen
  {
    if !signedIn then LoginScreen else Shell(PageTitle(activeTab), RenderPage(activeTab))
  }

  /** The title that belongs to each page. */
  function TitleOf(p: Page): string
  {
    match p
    case HomePage => "SafetyApp"
    case LocationPage => "Location Tracking"
    case ContactsPage => "Emergency Contacts"
    case SafetyPage => "Safety Features"
    case ProfilePage => "Profile"
  }

  /** Each of the five known tabs has its configured title and its own page. */
  lemma KnownTabs()
    ensures PageTitle("home") == "SafetyApp" && RenderPage("home") == HomePage
    ensures PageTitle("location") == "Location Tracking" && RenderPage("location") == LocationPage
    ensures PageTitle("contacts") == "Emergency Contacts" && RenderPage("contacts") == ContactsPage
    ensures PageTitle("safety") == "Safety Features" && RenderPage("safety") == SafetyPage
    ensures PageTitle("profile") == "Profile" && RenderPage("profile") == ProfilePage
  {
  }

  /** Any other tab is titled with the application's name and shows the home page. */
  lemma UnknownTab(activeTab: string)
    requires activeTab !in PageTitles
    ensures PageTitle(activeTab) == AppName
    ensures RenderPage(activeTab) == HomePage
  {
  }

  /** For every tab, the header title is the title of the page shown below it. */
  lemma TitleMatchesPage(activeTab: string)
    ensures PageTitle(activeTab) == TitleOf(RenderPage(activeTab))
  {
    if activeTab !in PageTitles {
      UnknownTab(activeTab);
    }
  }

  /** Without a user the login page is shown, whatever the active tab. */
  lemma LoginGate(activeTab: string)
    ensures AppContent(false, activeTab) == LoginScreen
    ensures AppContent(true, activeTab) == Shell(TitleOf(RenderPage(activeTab)), RenderPage(activeTab))
  {
    TitleMatchesPage(activeTab);
  }

  /** A signed-in user first sees the home page under the application's name. */
  lemma InitialScreen()
    ensures AppContent(true, InitialTab) == Shell(AppName, HomePage)
  {
  }
}
