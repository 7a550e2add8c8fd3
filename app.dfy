/** The app shell (`App`): which screen is shown, and the one uploaded document. */
module App {
  import opened Common
  import LandingPage

  datatype Screen = LandingScreen | OptionsScreen | ChatScreen | QuizScreen | FlashCardScreen

  /** The view value that selects a screen. */
  function ViewName(s: Screen): string
  {
    match s
    case LandingScreen => "landing"
    case OptionsScreen => "options"
    case ChatScreen => "chat"
    case QuizScreen => "quiz"
    case FlashCardScreen => "flashcard"
  }

  /** The screen rendered for a view value; any other value renders none. */
  function Rendered(view: string): (s: Option<Screen>)
    ensures s.Some? ==> ViewName(s.value) == view
  {
    if view == "landing" then Some(LandingScreen)
    else if view == "options" then Some(OptionsScreen)
    else if view == "chat" then Some(ChatScreen)
    else if view == "quiz" then Some(QuizScreen)
    else if view == "flashcard" then Some(FlashCardScreen)
    else None
  }

  /** Each of the five view values renders its own screen and nothing else; other values render
      no screen. */
  lemma RenderSelectsByName(view: string, s: Screen)
    ensures Rendered(view) == Some(s) <==> view == ViewName(s)
  {
  }

  class App {
    var currentView: string
    var uploadedDocument: Option<LandingPage.DocInfo>

    constructor ()
      ensures currentView == "landing" && uploadedDocument == None
    {
      currentView := "landing";
      uploadedDocument := None;
    }

    /** `handleDocumentUploaded`: keeps the document and shows the options. */
    method HandleDocumentUploaded(docInfo: LandingPage.DocInfo)
      modifies this
      ensures uploadedDocument == Some(docInfo) && currentView == "options"
    {
      uploadedDocument := Some(docInfo);
      currentView := "options";
    }

    /** `handleOptionSelect`: shows the chosen view; the document stays. */
    method HandleOptionSelect(option: string)
      modifies this`currentView
      ensures currentView == option
    {
      currentView := option;
    }

    /** `handleBackToOptions`: shows the options; the document stays. */
    method HandleBackToOptions()
      modifies this`currentView
      ensures currentView == "options"
    {
      currentView := "options";
    }

    /** `handleStartOver`: drops the document and shows the landing page. */
    method HandleStartOver()
      modifies this
      ensures uploadedDocument == None && currentView == "landing"
    {
      uploadedDocument := None;
      currentView := "landing";
    }
  }
}
