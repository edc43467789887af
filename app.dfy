/**
 * The application object and the session state it drives
 * (src/app/main.py, with the history clear of src/ui/components.py).
 * Streamlit reruns the script on every interaction: a new `RaavanApp` is
 * built each time, while the `SessionState` it is given persists. Rendering
 * is left out; each handler returns what it would show.
 */
module App {
  import opened Wrappers
  import Settings
  import Helpers
  import Services

  /** One exchange of the conversation. */
  datatype Turn = Turn(question: string, answer: string)

  /**
   * `st.session_state`: the keys the application uses. A key that has never
   * been set is absent, which the `has...` flags record.
   */
  class SessionState {
    var history: seq<Turn>
    var hasHistory: bool
    var sidebarOpen: bool
    var hasSidebarOpen: bool

    /** A new session: no key is set yet. */
    constructor ()
      ensures !hasHistory && !hasSidebarOpen
      ensures history == [] && !sidebarOpen
    {
      history, hasHistory := [], false;
      sidebarOpen, hasSidebarOpen := false, false;
    }

    /** The "Clear Chat History" button: every turn is discarded. */
    method ClearHistory()
      modifies this
      ensures hasHistory && history == []
      ensures sidebarOpen == old(sidebarOpen) && hasSidebarOpen == old(hasSidebarOpen)
    {
      history, hasHistory := [], true;
    }
  }

  /** What the assistant shows for a question: the answer, or the caught exception. */
  datatype Reply = Answered(answer: string) | Failed(message: string)

  /** What the horoscope button shows: the form's validation error, or the chart (empty when it failed). */
  datatype HoroscopeView =
    | ValidationError
    | ChartView(name: string, location: string, birth: Helpers.DateTime, planets: seq<(string, Helpers.Position)>)

  /** The horoscope form as submitted with its button: the name, the birth instant and the birth place. */
  datatype HoroscopeForm = HoroscopeForm(name: string, birth: Helpers.DateTime, location: string)

  /**
   * One pass of `run`: cut short by a rerun, or a page with or without the
   * welcome card and the sidebar, with what the horoscope button and the
   * chat input produced in it.
   */
  datatype Page =
    | Rerun
    | Rendered(welcome: bool, sidebar: bool, horoscope: Option<HoroscopeView>, reply: Option<Reply>)

  const ResponseErrorPrefix: string := "Error generating response: "

  /** `RaavanAIApp`: the services of one script run, bound to the session. */
  class RaavanApp {
    const session: SessionState
    const hasVectorService: bool
    const groq: Services.GroqService

    /** Once the application is built, the history key is present. */
    ghost predicate Valid()
      reads this, session
    {
      session.hasHistory
    }

    /**
     * Builds the services (whether the vector index could be opened is
     * `hasVectorService`; `apiKey` is GROQ_API_KEY) and initializes the
     * session. An existing history survives the rerun.
     */
    constructor (session: SessionState, hasVectorService: bool, apiKey: Option<string>)
      modifies session
      ensures Valid()
      ensures this.session == session && this.hasVectorService == hasVectorService
      ensures groq == Services.NewGroqService(apiKey)
      ensures session.history == if old(session.hasHistory) then old(session.history) else []
      ensures session.sidebarOpen == old(session.sidebarOpen)
      ensures session.hasSidebarOpen == old(session.hasSidebarOpen)
    {
      this.session := session;
      this.hasVectorService := hasVectorService;
      this.groq := Services.NewGroqService(apiKey);
      new;
      InitializeSessionState();
    }

    /** `initialize_session_state`: creates an empty history only when none exists. */
    method InitializeSessionState()
      modifies session
      ensures Valid()
      ensures session.history == if old(session.hasHistory) then old(session.history) else []
      ensures session.sidebarOpen == old(session.sidebarOpen)
      ensures session.hasSidebarOpen == old(session.hasSidebarOpen)
    {
      if !session.hasHistory {
        session.history, session.hasHistory := [], true;
      }
    }

    /** The opening lines of `run`: the sidebar starts open unless the session already decided. */
    method InitializeSidebar()
      modifies session
      ensures session.hasSidebarOpen
      ensures session.sidebarOpen == if old(session.hasSidebarOpen) then old(session.sidebarOpen) else true
      ensures session.history == old(session.history) && session.hasHistory == old(session.hasHistory)
    {
      if !session.hasSidebarOpen {
        session.sidebarOpen, session.hasSidebarOpen := true, true;
      }
    }

    /**
     * `render_sidebar_toggle`: one button, labelled for closing when the
     * sidebar is open and for opening when it is closed. A click flips the
     * flag and asks for a rerun.
     */
    method RenderSidebarToggle(clicked: bool) returns (rerun: bool)
      requires session.hasSidebarOpen
      modifies session
      ensures session.hasSidebarOpen
      ensures session.sidebarOpen == (old(session.sidebarOpen) != clicked)
      ensures rerun == clicked
      ensures session.history == old(session.history) && session.hasHistory == old(session.hasHistory)
    {
      rerun := false;
      if session.sidebarOpen {
        if clicked {
          session.sidebarOpen := false;
          rerun := true;
        }
      } else {
        if clicked {
          session.sidebarOpen := true;
          rerun := true;
        }
      }
    }

    /** `render_welcome_message`: the welcome card is shown exactly while nothing has been asked. */
    function ShowsWelcome(): (shown: bool)
      reads this, session
      requires Valid()
      ensures shown <==> session.history == []
    {
      |session.history| == 0
    }

    /** The context a question is answered from: retrieved when the vector index is available, empty otherwise. */
    function ContextFor(question: string, search: (string, int) -> Services.SearchOutcome): (context: string)
      reads this
      ensures !hasVectorService ==> context == ""
      ensures hasVectorService ==> context == Services.RetrieveContext(question, Settings.DefaultK, search)
    {
      if hasVectorService then Services.RetrieveContext(question, Settings.DefaultK, search) else ""
    }

    /** The answer the model gives to `question` with its context. */
    function AnswerTo(question: string,
                      search: (string, int) -> Services.SearchOutcome,
                      post: Services.HttpRequest -> Services.HttpOutcome): (answer: string)
      reads this
      ensures !hasVectorService ==> answer == Services.QueryLlama(groq, question, "", post)
      ensures hasVectorService ==>
        answer == Services.QueryLlama(groq, question, Services.RetrieveContext(question, Settings.DefaultK, search), post)
    {
      Services.QueryLlama(groq, question, ContextFor(question, search), post)
    }

    /**
     * `process_user_message`: retrieve the context, ask the model, show the
     * answer and append the turn. Neither service raises, so the answer may
     * be a warning-marked error text and is appended all the same. The only
     * exception left is a failure while showing the answer
     * (`displayFailure`), which is caught before the append: the history is
     * then unchanged.
     */
    method ProcessUserMessage(question: string,
                              search: (string, int) -> Services.SearchOutcome,
                              post: Services.HttpRequest -> Services.HttpOutcome,
                              displayFailure: Option<string>)
      returns (reply: Reply)
      requires Valid()
      modifies session
      ensures Valid()
      ensures var answer := AnswerTo(question, search, post);
        match displayFailure
        case None =>
          reply == Answered(answer) && session.history == old(session.history) + [Turn(question, answer)]
        case Some(message) =>
          reply == Failed(ResponseErrorPrefix + message) && session.history == old(session.history)
      ensures session.sidebarOpen == old(session.sidebarOpen)
      ensures session.hasSidebarOpen == old(session.hasSidebarOpen)
    {
      var context := ContextFor(question, search);
      var answer := Services.QueryLlama(groq, question, context, post);
      if displayFailure.Some? {
        return Failed(ResponseErrorPrefix + displayFailure.value);
      }
      session.history := session.history + [Turn(question, answer)];
      reply := Answered(answer);
    }

    /** `render_chat_interface`: only a submitted, non-empty question is processed. */
    method RenderChatInterface(input: Option<string>,
                               search: (string, int) -> Services.SearchOutcome,
                               post: Services.HttpRequest -> Services.HttpOutcome,
                               displayFailure: Option<string>)
      returns (reply: Option<Reply>)
      requires Valid()
      modifies session
      ensures Valid()
      ensures (input.None? || input.value == "") ==> reply.None? && session.history == old(session.history)
      ensures input.Some? && input.value != "" && displayFailure.None? ==>
        var answer := AnswerTo(input.value, search, post);
        reply == Some(Answered(answer)) && session.history == old(session.history) + [Turn(input.value, answer)]
      ensures input.Some? && input.value != "" && displayFailure.Some? ==>
        reply == Some(Failed(ResponseErrorPrefix + displayFailure.value)) && session.history == old(session.history)
      ensures session.sidebarOpen == old(session.sidebarOpen)
      ensures session.hasSidebarOpen == old(session.hasSidebarOpen)
    {
      reply := None;
      if input.Some? && input.value != "" {
        var r := ProcessUserMessage(input.value, search, post, displayFailure);
        reply := Some(r);
      }
    }

    /**
     * `handle_horoscope_generation`: with invalid input only the validation
     * error is shown and the ephemeris is never consulted (`calls` is the
     * list of bodies it was asked about); with valid input the chart is
     * computed for the Julian Day of the birth instant.
     */
    method HandleHoroscopeGeneration(name: string, birth: Helpers.DateTime, location: string, isValid: bool,
                                     julday: (int, int, int, real) -> real,
                                     calcUt: (real, Helpers.Body) -> Option<real>)
      returns (view: HoroscopeView, calls: seq<Helpers.Body>)
      ensures !isValid ==> view == ValidationError && calls == []
      ensures isValid ==>
        view == ChartView(name, location, birth, Helpers.Chart(Helpers.CalculateJulianDay(birth, julday), calcUt))
      ensures isValid ==> 1 <= |calls| <= 10 && calls == Helpers.PlanetIds[..|calls|]
      ensures isValid && view.planets != [] ==> |calls| == 10
      ensures isValid && view.planets == [] ==>
        Helpers.BodyPosition(Helpers.CalculateJulianDay(birth, julday), calcUt, |calls| - 1).None?
    {
      if isValid {
        var julianDay := Helpers.CalculateJulianDay(birth, julday);
        var planets;
        planets, calls := Helpers.GetPlanetaryPositions(julianDay, calcUt);
        view := ChartView(name, location, birth, planets);
      } else {
        view, calls := ValidationError, [];
      }
    }

    /**
     * The horoscope form and its button: the input is valid when both the
     * name and the birth place hold a non-blank character, and only valid
     * input reaches the calculator.
     */
    method GenerateHoroscope(name: string, birth: Helpers.DateTime, location: string,
                             julday: (int, int, int, real) -> real,
                             calcUt: (real, Helpers.Body) -> Option<real>)
      returns (view: HoroscopeView, calls: seq<Helpers.Body>)
      ensures (forall i :: 0 <= i < |name| ==> Helpers.IsSpace(name[i])) ==> view == ValidationError && calls == []
      ensures (forall i :: 0 <= i < |location| ==> Helpers.IsSpace(location[i])) ==> view == ValidationError && calls == []
      ensures view.ChartView? <==> Helpers.ValidateName(name) && Helpers.ValidateLocation(location)
      ensures Helpers.ValidateName(name) && Helpers.ValidateLocation(location) ==>
        |calls| >= 1 && view.planets == Helpers.Chart(Helpers.CalculateJulianDay(birth, julday), calcUt)
    {
      var isValid := Helpers.ValidateName(name) && Helpers.ValidateLocation(location);
      view, calls := HandleHoroscopeGeneration(name, birth, location, isValid, julday, calcUt);
    }

    /**
     * `run`: the sidebar default, the toggle, the welcome card, the sidebar
     * (only while it is open) and the chat interface. A toggle click or the
     * "Clear Chat History" button reruns the script at once: Streamlit's
     * rerun signal is not caught by `except Exception`. `clearClicked` is the
     * clear button, `generate` the horoscope form when its button was
     * clicked, `input` the chat input.
     */
    method Run(toggleClicked: bool, clearClicked: bool, generate: Option<HoroscopeForm>, input: Option<string>,
               julday: (int, int, int, real) -> real,
               calcUt: (real, Helpers.Body) -> Option<real>,
               search: (string, int) -> Services.SearchOutcome,
               post: Services.HttpRequest -> Services.HttpOutcome,
               displayFailure: Option<string>)
      returns (page: Page)
      requires Valid()
      modifies session
      ensures Valid() && session.hasSidebarOpen
      ensures session.sidebarOpen ==
        ((if old(session.hasSidebarOpen) then old(session.sidebarOpen) else true) != toggleClicked)
      ensures toggleClicked ==> page == Rerun && session.history == old(session.history)
      ensures !toggleClicked && session.sidebarOpen && clearClicked ==> page == Rerun && session.history == []
      ensures !toggleClicked && !(session.sidebarOpen && clearClicked) ==>
        page.Rendered? && page.welcome == (old(session.history) == []) && page.sidebar == session.sidebarOpen
      ensures page.Rendered? ==> (page.horoscope.Some? <==> page.sidebar && generate.Some?)
      ensures page.Rendered? && page.horoscope.Some? ==>
        (page.horoscope.value.ChartView? <==>
         Helpers.ValidateName(generate.value.name) && Helpers.ValidateLocation(generate.value.location))
      ensures page.Rendered? && page.horoscope.Some? && page.horoscope.value.ChartView? ==>
        page.horoscope.value.planets == Helpers.Chart(Helpers.CalculateJulianDay(generate.value.birth, julday), calcUt)
      ensures page.Rendered? && (input.None? || input.value == "") ==>
        page.reply.None? && session.history == old(session.history)
      ensures page.Rendered? && input.Some? && input.value != "" && displayFailure.None? ==>
        var answer := AnswerTo(input.value, search, post);
        page.reply == Some(Answered(answer)) && session.history == old(session.history) + [Turn(input.value, answer)]
      ensures page.Rendered? && input.Some? && input.value != "" && displayFailure.Some? ==>
        page.reply == Some(Failed(ResponseErrorPrefix + displayFailure.value)) && session.history == old(session.history)
    {
      InitializeSidebar();
      var rerun := RenderSidebarToggle(toggleClicked);
      if rerun {
        return Rerun;
      }
      var welcome := ShowsWelcome();
      var horoscope: Option<HoroscopeView> := None;
      if session.sidebarOpen {
        if clearClicked {
          session.ClearHistory();
          return Rerun;
        }
        if generate.Some? {
          var view, _ := GenerateHoroscope(generate.value.name, generate.value.birth, generate.value.location,
                                           julday, calcUt);
          horoscope := Some(view);
        }
      }
      var reply := RenderChatInterface(input, search, post, displayFailure);
      page := Rendered(welcome, session.sidebarOpen, horoscope, reply);
    }
  }

  /**
   * A conversation from a fresh session, without the vector index: three
   * questions give three turns in order, each holding what the model call
   * returned (an error text included), and the clear button empties the
   * history.
   */
  method ConversationThenClear(q1: string, q2: string, q3: string, apiKey: Option<string>,
                               post: Services.HttpRequest -> Services.HttpOutcome)
    returns (before: seq<Turn>, after: seq<Turn>)
    ensures var g := Services.NewGroqService(apiKey);
      before == [Turn(q1, Services.QueryLlama(g, q1, "", post)),
                 Turn(q2, Services.QueryLlama(g, q2, "", post)),
                 Turn(q3, Services.QueryLlama(g, q3, "", post))]
    ensures after == []
  {
    var session := new SessionState();
    var app := new RaavanApp(session, false, apiKey);
    var noIndex: (string, int) -> Services.SearchOutcome := (_, _) => Services.Hits([]);
    var r1 := app.ProcessUserMessage(q1, noIndex, post, None);
    var r2 := app.ProcessUserMessage(q2, noIndex, post, None);
    var r3 := app.ProcessUserMessage(q3, noIndex, post, None);
    before := session.history;
    assert before == [Turn(q1, r1.answer), Turn(q2, r2.answer), Turn(q3, r3.answer)];
    session.ClearHistory();
    after := session.history;
  }
}
