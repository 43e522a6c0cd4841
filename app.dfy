/// The app shell: a password gate in front of a router from page keys to
/// pages. The saved-page restore through `localStorage` is an outside write
/// of `currentPage`, covered by `Navigate` taking any string.
module App {

  /** What the shell renders. */
  datatype Page = PasswordPage | HomePage | CountdownPage | GalleryPage | VoiceNotesPage | QuizPage

  const CorrectPassword := "Shiru1407"
  const WrongPasswordMessage := "Oops! That\U{2019}s not the magical key. Try again, my love \U{1F494}"

  /** The page keys the home hub offers, in its order. */
  const HubPageKeys: seq<string> := ["letter", "gallery", "voice", "countdown", "quiz"]

  /** `renderPage`'s switch: the five known keys, and the home page for any other key. */
  function RenderPage(key: string): (p: Page)
    ensures p != PasswordPage
    ensures p == CountdownPage <==> key == "countdown"
    ensures p == GalleryPage <==> key == "gallery"
    ensures p == VoiceNotesPage <==> key == "voice"
    ensures p == QuizPage <==> key == "quiz"
    ensures p == HomePage <==> key !in {"countdown", "gallery", "voice", "quiz"}
  {
    match key
    case "home" => HomePage
    case "countdown" => CountdownPage
    case "gallery" => GalleryPage
    case "voice" => VoiceNotesPage
    case "quiz" => QuizPage
    case _ => HomePage
  }

  /** Every key the hub offers is routed; the love letter has no page and falls back to home. */
  lemma HubKeysRouted()
    ensures RenderPage("letter") == HomePage
    ensures RenderPage("home") == HomePage
    ensures forall k | k in HubPageKeys[1..] :: RenderPage(k) != HomePage
  {
  }

  class App {
    var isAuthenticated: bool
    var currentPage: string
    var error: string

    constructor ()
      ensures !isAuthenticated && currentPage == "home" && error == ""
    {
      isAuthenticated, currentPage, error := false, "home", "";
    }

    /** What the shell shows: the password page until the gate opens, then the routed page. */
    function Rendered(): (p: Page)
      reads this
      ensures !isAuthenticated ==> p == PasswordPage
      ensures isAuthenticated ==> p == RenderPage(currentPage) && p != PasswordPage
    {
      if !isAuthenticated then PasswordPage else RenderPage(currentPage)
    }

    /** `handlePasswordSubmit`. */
    method HandlePasswordSubmit(password: string)
      modifies this`isAuthenticated, this`error
      ensures password == CorrectPassword ==> isAuthenticated && error == ""
      ensures password != CorrectPassword ==>
        isAuthenticated == old(isAuthenticated) && error == WrongPasswordMessage
      ensures old(isAuthenticated) ==> isAuthenticated
    {
      if password == CorrectPassword {
        isAuthenticated := true;
        error := "";
      } else {
        error := WrongPasswordMessage;
      }
    }

    /** `setCurrentPage`, as the hub's `onNavigate` or the saved-page restore calls it. */
    method Navigate(page: string)
      modifies this`currentPage
      ensures currentPage == page
    {
      currentPage := page;
    }
  }

  /** Any page key before the right password still shows the password page. */
  method GateScenario(key: string, wrong: string) returns (locked: Page, unlocked: Page, again: Page)
    requires wrong != CorrectPassword
    ensures locked == PasswordPage
    ensures unlocked == RenderPage(key) && again == unlocked
  {
    var app := new App();
    app.Navigate(key);
    app.HandlePasswordSubmit(wrong);
    locked := app.Rendered();
    app.HandlePasswordSubmit(CorrectPassword);
    unlocked := app.Rendered();
    app.HandlePasswordSubmit(wrong);
    assert app.error == WrongPasswordMessage;
    again := app.Rendered();
  }
}
