/** Route resolution: which page the router shows for a path, given whether
    authentication is still loading, whether a user is signed in, and the
    backend user record. */
module AppRoutes {
  import opened JsonValue

  /** A `navigate(path, { state })` call made by a page. */
  datatype Navigation = Navigate(path: string, state: Option<Json>)

  datatype Page =
    | Home | CompanyProfile | Analytics | History
    | ReviewSummary | Processing | ProposalResult | Profile
    | NoMatch   // the layout, with no inner route matching the path

  datatype Screen =
    | Nothing              // `return null`
    | LoginPage
    | RedirectToLogin      // `<Navigate to="/login" replace />`
    | InLayout(page: Page)

  /** `backendUser && backendUser.companyProfile` is truthy. */
  predicate HasCompanyProfile(backendUser: Option<Json>) {
    IsTruthy(And(backendUser, Member(backendUser, "companyProfile")))
  }

  /** The paths whose page requires a company profile. */
  predicate Gated(path: string) {
    path in {"/", "/review", "/processing", "/proposal"}
  }

  /** The page a gated path shows once the profile exists. */
  function GatedPage(path: string): Page
    requires Gated(path)
  {
    if path == "/" then Home
    else if path == "/review" then ReviewSummary
    else if path == "/processing" then Processing
    else ProposalResult
  }

  /** The pages that need no company profile, with their paths. */
  predicate Ungated(path: string) {
    path in {"/company-profile", "/analytics", "/history", "/profile"}
  }

  /** The inner routes under the layout: a path of neither kind matches no
      inner route, and a company-profile screen stands in for a gated page
      exactly when the profile is missing. */
  function LayoutPage(path: string, backendUser: Option<Json>): (p: Page)
    ensures p == NoMatch <==> !Gated(path) && !Ungated(path)
    ensures Gated(path) && p != CompanyProfile ==> HasCompanyProfile(backendUser)
    ensures Gated(path) && HasCompanyProfile(backendUser) ==> p == GatedPage(path) && p != CompanyProfile
  {
    if Gated(path) then (if HasCompanyProfile(backendUser) then GatedPage(path) else CompanyProfile)
    else if path == "/company-profile" then CompanyProfile
    else if path == "/analytics" then Analytics
    else if path == "/history" then History
    else if path == "/profile" then Profile
    else NoMatch
  }

  function Resolve(loading: bool, user: bool, backendUser: Option<Json>, path: string): (s: Screen)
    ensures loading ==> s == Nothing
    ensures !loading && path == "/login" ==> s == LoginPage
    ensures !loading && path != "/login" && !user ==> s == RedirectToLogin
    ensures !loading && path != "/login" && user ==> s.InLayout?
  {
    if loading then Nothing
    else if path == "/login" then LoginPage
    else if !user then RedirectToLogin
    else InLayout(LayoutPage(path, backendUser))
  }

  /** A gated path shows its own page exactly when the backend user has a
      truthy company profile, and the company-profile page otherwise. */
  lemma GatingOnCompanyProfile(backendUser: Option<Json>, path: string)
    requires Gated(path)
    ensures Resolve(false, true, backendUser, path) == InLayout(GatedPage(path)) <==> HasCompanyProfile(backendUser)
    ensures !HasCompanyProfile(backendUser) ==> Resolve(false, true, backendUser, path) == InLayout(CompanyProfile)
  {
  }

  /** Each ungated path shows its own page whatever the backend user holds,
      and a path no route names shows the layout with no page. */
  lemma UngatedPages(backendUser: Option<Json>, path: string)
    requires path != "/login"
    ensures path == "/company-profile" ==> Resolve(false, true, backendUser, path) == InLayout(CompanyProfile)
    ensures path == "/analytics" ==> Resolve(false, true, backendUser, path) == InLayout(Analytics)
    ensures path == "/history" ==> Resolve(false, true, backendUser, path) == InLayout(History)
    ensures path == "/profile" ==> Resolve(false, true, backendUser, path) == InLayout(Profile)
    ensures !Gated(path) && !Ungated(path) ==> Resolve(false, true, backendUser, path) == InLayout(NoMatch)
  {
  }

  /** The ungated pages ignore the company profile. */
  lemma UngatedIgnoreProfile(b1: Option<Json>, b2: Option<Json>, path: string)
    requires Ungated(path)
    ensures Resolve(false, true, b1, path) == Resolve(false, true, b2, path)
    ensures Resolve(false, true, b1, path).page != NoMatch
  {
  }

  /** The profile exists exactly when the backend user is an object whose
      `companyProfile` field is truthy. */
  lemma CompanyProfilePresence(backendUser: Option<Json>)
    ensures HasCompanyProfile(backendUser) <==>
      backendUser.Some? && backendUser.value.Obj? && IsTruthy(Lookup(backendUser.value.fields, "companyProfile"))
  {
  }
}
