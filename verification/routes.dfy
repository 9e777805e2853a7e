/**
 * The route table: which screen a path shows, given the session's identity
 * and whether the session is still being restored.
 */
module Routes {
  import opened Seqs
  import opened AuthStore

  datatype Page =
    | AuthPage
    | LanguageSelectionPage
    | ProficiencyQuizPage
    | DashboardPage
    | ConversationPracticePage
    | ConversationHistoryPage
    | SettingsPage
    | NotFoundPage

  /** What the router shows: the loading screen, a page, or a redirect to another path. */
  datatype Screen = LoadingScreen | Render(page: Page) | Redirect(to: string)

  const AuthPath: string := "/auth"
  const DashboardPath: string := "/dashboard"

  /** The page behind each path that needs a signed-in identity. */
  function ProtectedPage(path: string): (r: Option<Page>)
    ensures r.Some? ==> r.value != AuthPage && r.value != NotFoundPage
  {
    if path == "/language-selection" then Some(LanguageSelectionPage)
    else if path == "/proficiency-quiz" then Some(ProficiencyQuizPage)
    else if path == DashboardPath then Some(DashboardPage)
    else if path == "/practice" then Some(ConversationPracticePage)
    else if path == "/history" then Some(ConversationHistoryPage)
    else if path == "/settings" then Some(SettingsPage)
    else None
  }

  /** `AppRoutes`: exact path matching, at most one route matches, `*` catches the rest. */
  function Route(path: string, user: Option<User>, isLoading: bool): (s: Screen)
    ensures isLoading <==> s == LoadingScreen
    ensures s == Render(AuthPage) ==> user.None?
    ensures s.Render? && s.page != AuthPage && s.page != NotFoundPage ==> user.Some?
    ensures !isLoading && ProtectedPage(path).Some? ==>
      (s == Render(ProtectedPage(path).value) <==> user.Some?) && (s == Redirect(AuthPath) <==> user.None?)
    ensures !isLoading && path == AuthPath ==> (s == Render(AuthPage) <==> user.None?)
    ensures !isLoading && path == AuthPath && user.Some? ==> s == Redirect(DashboardPath)
    ensures s.Redirect? ==> (s.to == DashboardPath && user.Some?) || (s.to == AuthPath && user.None?)
    ensures !isLoading && path != AuthPath && path != "/" && ProtectedPage(path).None? ==> s == Render(NotFoundPage)
  {
    if isLoading then LoadingScreen
    else if path == AuthPath then (if user.None? then Render(AuthPage) else Redirect(DashboardPath))
    else if ProtectedPage(path).Some? then (if user.Some? then Render(ProtectedPage(path).value) else Redirect(AuthPath))
    else if path == "/" then (if user.Some? then Redirect(DashboardPath) else Redirect(AuthPath))
    else Render(NotFoundPage)
  }

  /** Following a redirect once always lands on a page: redirects never chain or loop. */
  lemma RedirectSettles(path: string, user: Option<User>)
    ensures Route(path, user, false).Redirect? ==> Route(Route(path, user, false).to, user, false).Render?
  {
    assert ProtectedPage(DashboardPath) == Some(DashboardPage);
    assert ProtectedPage(AuthPath) == None;
  }

  /** The root sends a signed-in identity to the dashboard and anyone else to sign in. */
  lemma RootRedirects(user: Option<User>)
    ensures Route("/", user, false) == if user.Some? then Redirect(DashboardPath) else Redirect(AuthPath)
  {
    assert ProtectedPage("/") == None;
  }
}
