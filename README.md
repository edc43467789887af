# Raavan AI — a verified model of its logic

Raavan AI is a Streamlit chat assistant that answers questions about the
Ramayan. It retrieves context from a vector index, then asks a hosted LLaMA
model through the Groq chat-completion API. A sidebar computes a horoscope
with the Swiss Ephemeris. This project models the logic the repository itself
owns. That logic is:

- the configuration tables (`settings.dfy`, module `Settings`): the zodiac
  signs, the planet emojis, the request headers, the token limit, the
  retrieval depth and the persona prompt;
- the helpers (`helpers.dfy`, module `Helpers`):
  - name and place validation with Python's `str.strip` semantics;
  - `truncate_text` with Python's slicing;
  - the fractional hour passed to `julday`;
  - the 30-degree sign bucketing, with Python's `//`, float `%` and list indexing;
  - the planetary-positions loop, modelled as an imperative method that keeps
    Python's all-or-nothing failure policy;
- the services (`services.dfy`, module `Services`):
  - the completion request `query_llama` builds, and the way it maps the
    transport outcome and the shape of the JSON reply to an answer or to one
    of three warning-marked error texts;
  - the `"\n\n"` join of `retrieve_context`;
- the application (`app.dfy`, module `App`):
  - `st.session_state` as a class `SessionState`, whose history grows only by
    single appends and is emptied only by the clear button;
  - `RaavanAIApp` as a class `RaavanApp` whose handlers are methods:
    initialisation, the sidebar toggle, the welcome condition, message
    processing, and the horoscope gate.

External collaborators are parameters of the members that use them:

- the ephemeris (`julday`, and `calcUt`, which returns `None` where
  `swe.calc_ut` raises);
- the HTTP transport (`post`, from an `HttpRequest` to an `HttpOutcome`);
- the vector index (`search`, from a query and `k` to a `SearchOutcome`);
- the `GROQ_API_KEY` environment variable (`apiKey`);
- whether the vector index could be opened (`hasVectorService`).

`wrappers.dfy` holds `Option` and a substring predicate.

Two consequences of the code's sign lookup are worth stating:

- The code does not clamp longitudes. A longitude of 360 or more has sign
  index 12 or more, the table lookup raises, and the whole chart is empty.
- A longitude in [-360, 0) is accepted, because Python's negative indexing
  wraps it to the sign of the same direction.

## Model

| member | source | states |
|---|---|---|
| `Settings.GetHeaders` | src/config/settings.py:27-33 | exactly two headers; `Authorization` is `"Bearer "` followed by the key, and is `"Bearer None"` when the key is unset; `Content-Type` is `application/json` |
| `Settings.EnvText` | src/config/settings.py:31 | a set key is inserted unchanged; an unset key is rendered as the text `None` |
| `Settings.UnsetKeyReadsAsNone` | src/config/settings.py:31 | an unset key sends the same headers as a key whose value is the text `None` |
| `Settings.ZodiacSignsDistinct` | src/config/settings.py:62-65 | twelve pairwise distinct sign names, Aries at index 0 and Pisces at index 11 |
| `Settings.PlanetEmojiKeys` | src/config/settings.py:67-71 | the emoji table is keyed by exactly the ten bodies Sun through Pluto |
| `Settings.Limits` | src/config/settings.py:24-41 | `MAX_TOKENS` is 700 and `DEFAULT_K` is 7 |
| `Settings.SystemPromptHasFallback` | src/config/settings.py:77-90 | the persona prompt contains the fallback answer "This is outside the Ramayan, I know nothing of this.", bare and in quotes |
| `Helpers.IsSpace` | src/utils/helpers.py:45 | the characters `strip()` removes: among ASCII exactly the space, `\t` through `\r` and `\x1c` through `\x1f`; the zero-width space U+200B is not one of them |
| `Helpers.Strip` | src/utils/helpers.py:45 | `strip()` leaves nothing exactly when every character is whitespace |
| `Helpers.ValidateName` | src/utils/helpers.py:35-45 | a name is accepted if and only if it holds a non-whitespace character |
| `Helpers.ValidateLocation` | src/utils/helpers.py:48-58 | a place is accepted if and only if it holds a non-whitespace character |
| `Helpers.BlankInputRejected` | src/utils/helpers.py:35-58 | `""`, `"   "` and every all-whitespace string are rejected as name and as place |
| `Helpers.SliceTo` | src/utils/helpers.py:177 | `s[:stop]`: the first `stop` characters, clipped to the text; a negative `stop` counts from the end and clips at 0 |
| `Helpers.TruncateText` | src/utils/helpers.py:164-177 | unchanged when within the limit; otherwise a prefix of the text followed by `"..."`; for a limit of at least 3, exactly `text[:max_length-3] + "..."`, of length `max_length` |
| `Helpers.TruncateIdempotent` | src/utils/helpers.py:175-177 | for a limit of at least 3, the result never exceeds the limit and truncating it again changes nothing |
| `Helpers.TruncateSmallLimitOverflows` | src/utils/helpers.py:177 | below a limit of 3 the negative slice bound counts from the end: `truncate_text("abcdef", 1)` is `"abcd..."`, longer than the limit |
| `Helpers.FractionalHour` | src/utils/helpers.py:82 | the hour value is the second of the day divided by 3600, and lies in [0, 24) for every valid clock time |
| `Helpers.CalculateJulianDay` | src/utils/helpers.py:68-83 | the ephemeris is asked for the birth date at an hour in [0, 24) equal to the time of day in seconds over 3600 |
| `Helpers.SignIndex` | src/utils/helpers.py:110 | `int(degrees // 30)` is the k with 30k <= longitude < 30(k+1) |
| `Helpers.DegreeInSign` | src/utils/helpers.py:116 | `degrees % 30` lies in [0, 30) and `degrees == 30*sign + degree_in_sign` |
| `Helpers.SignName` | src/utils/helpers.py:115 | `zodiac_signs[sign]` succeeds exactly for indices in [-12, 11], and gives the sign at `sign mod 12` |
| `Helpers.PositionOf` | src/utils/helpers.py:108-117 | an entry exists exactly when the sign lookup succeeds; it holds the longitude, its bucket, the name of the sign at the bucket mod 12, a degree-in-sign in [0, 30) that recomposes the longitude, and the body's emoji |
| `Helpers.EmojiFor` | src/utils/helpers.py:117 | a name in the emoji table gets its table symbol; any other name gets the default 🪐, which is no table entry's symbol |
| `Helpers.SignBucketing` | src/utils/helpers.py:109-116 | for a longitude in [0, 360) the index is in [0, 11], the name is `zodiac_signs[index]`, and the degree-in-sign is in [0, 30) and recomposes the longitude |
| `Helpers.SignIndexUnique` | src/utils/helpers.py:110 | the index is the unique k with 30k <= longitude < 30(k+1) |
| `Helpers.SignExamples` | src/utils/helpers.py:110-116 | 47.5 is Taurus at 17.5; 0 is Aries at 0; 30 is index 1 at 0; 359.999 is Pisces |
| `Helpers.PositionDefinedRange` | src/utils/helpers.py:110-121 | an entry can be built exactly for longitudes in [-360, 360); outside that range the sign lookup raises |
| `Helpers.NegativeLongitudeWraps` | src/utils/helpers.py:115-116 | a longitude in [-360, 0) gets the sign name and degree-in-sign of the same longitude plus 360 |
| `Helpers.PlanetTablesAgree` | src/utils/helpers.py:96-117 | the name and id lists are parallel (same body at each index), the names are distinct, and each has an emoji, so the default symbol is never used |
| `Helpers.BodyPosition` | src/utils/helpers.py:108-118 | a failing ephemeris call gives no entry; otherwise the entry is the position of the returned longitude, with a degree-in-sign in [0, 30) and the body's symbol from the emoji table |
| `Helpers.Chart` | src/utils/helpers.py:95-123 | the chart is non-empty exactly when all ten bodies can be placed; then it has ten entries, the names in order, each entry the position of the same-index body |
| `Helpers.GetPlanetaryPositions` | src/utils/helpers.py:85-123 | the loop returns exactly the chart; the ephemeris is asked body by body, in order; on success all ten bodies were asked; on failure the last body asked is the first that failed, and every body before it was placed |
| `Helpers.ChartEmptyOnFailure` | src/utils/helpers.py:106-121 | a body whose ephemeris call fails, or whose sign lookup raises, has no entry and empties the chart |
| `Helpers.ChartInRange` | src/utils/helpers.py:106-118 | when every body yields a longitude in [0, 360), the chart has ten entries, each with a sign index in [0, 11], the matching sign name and a degree-in-sign in [0, 30) |
| `Helpers.ChartAllOrNothing` | src/utils/helpers.py:106-121 | one failing body, or one longitude of 360 or more, empties the whole chart; entries already computed are discarded |
| `Services.LastIndex` | src/api/services.py:57 | a present key's position is that of its last member, the one whose value `json.loads` keeps |
| `Services.Lookup` | src/api/services.py:57 | a key is found exactly when some member has it, and the value is that of the last member with the key, as `json.loads` keeps it |
| `Services.GetKey` | src/api/services.py:57 | subscripting an object by a present key gives the value of the last member with that key; by an absent key it raises KeyError, whose text is the quoted key; subscripting any other value raises another exception |
| `Services.GetFirst` | src/api/services.py:57 | `[0]` on a non-empty list gives its head; on an empty list it raises IndexError; on a JSON object it raises KeyError `0` |
| `Services.ExtractContent` | src/api/services.py:57 | a body that is not an object fails with an exception other than KeyError; a body without `choices` raises KeyError `'choices'`; an empty `choices` list raises IndexError; success implies `choices` is present |
| `Services.Text` | src/api/services.py:57-58 | a string reply is returned verbatim |
| `Services.FirstKeys` | src/api/services.py:57-58 | the keys of the dict `json.loads` builds: each key of the object exactly once, the first member's key first |
| `Services.FirstKeysOrder` | src/api/services.py:57-58 | the dict keeps first-occurrence order: a key listed before another occurs in the members before every occurrence of the later one |
| `Services.FirstKeysOfDistinct` | src/api/services.py:57-58 | an object without repeated keys keeps all its keys in document order |
| `Services.RepeatedKeyShownOnce` | src/api/services.py:57-58 | a reply content `{"a": 1, "a": 3}` is shown as `{'a': 3}`: one entry per key, with the last value |
| `Services.NewGroqService` | src/api/services.py:14-18 | the service copies the endpoint, the headers built from the key, the model name and the token limit |
| `Services.RequestShape` | src/api/services.py:43-54 | the request body has exactly the keys `model`, `messages` and `max_tokens`, in that order (no temperature); `max_tokens` is 700; the timeout is 30; the URL and headers come from the configuration |
| `Services.MessagesShape` | src/api/services.py:32-41 | exactly two messages: first the system persona, then the user message `"Question: " + q + "\n\nContext:\n" + c` |
| `Services.UserContent` | src/api/services.py:39 | the user message is `"Question: "`, the question, the context line and the context, each at its fixed offset |
| `Services.UserContentInjective` | src/api/services.py:39 | once the question's length is known, the user message determines both the question and the context |
| `Services.UserContentAmbiguous` | src/api/services.py:39 | without that length the template is ambiguous: a question that contains the context line gives the same message as a shorter question with a longer context |
| `Services.AnswerOf` | src/api/services.py:55-65 | a transport failure, a missing key and any other failure each give an answer that starts with its own `⚠`-marked prefix; a network failure's text follows its prefix unchanged |
| `Services.QueryLlama` | src/api/services.py:20-65 | `query_llama` never raises, and the answer to every failing outcome starts with `⚠` |
| `Services.ReplyContentVerbatim` | src/api/services.py:57-58 | for any reply, whatever its other members, whose `choices[0].message.content` exists: no failure, and the answer is that content's text, a string returned verbatim |
| `Services.FailureKinds` | src/api/services.py:57-65 | the classification `FailureOf` makes: a transport failure is a network failure; a reply is no failure exactly when its content can be read; a body without `choices` is a missing key; a body that is not an object falls to the catch-all branch |
| `Services.FailurePrefixesDistinct` | src/api/services.py:60-65 | no failure prefix is a prefix of another, so the failure kind can be read back from the text |
| `Services.EmptyChoicesIsOtherError` | src/api/services.py:57-65 | any reply whose `choices` is an empty list yields `"⚠ Error calling Groq LLaMA: list index out of range"` |
| `Services.MissingChoicesNamesKey` | src/api/services.py:57-63 | any reply object without `choices` yields `"⚠ API response error: Missing key 'choices'"` |
| `Services.ErrorIndistinguishableFromAnswer` | src/api/services.py:20-65 | for every network-error answer, some successful reply produces the identical string |
| `Services.Texts` | src/api/services.py:93 | one text per retrieved document, in the order the index ranked them |
| `Services.RetrieveContext` | src/api/services.py:80-96 | no hits give `""`; otherwise the context starts with the top-ranked chunk; a failed search gives `"Error retrieving context: "` followed by the exception's text |
| `Services.Join` | src/api/services.py:93 | no chunks join to `""`, one chunk to itself, and the joined text starts with the first chunk |
| `Services.JoinLength` | src/api/services.py:93 | for n >= 1 chunks, the joined length is the sum of their lengths plus the separator length times n-1 |
| `Services.JoinSnoc` | src/api/services.py:93 | joining one more chunk appends the separator and that chunk |
| `Services.JoinChunkAt` | src/api/services.py:93 | every chunk stands, unchanged, at its offset in the joined text, so rank order is preserved |
| `Services.JoinSeparatorAt` | src/api/services.py:93 | between two neighbouring chunks stands exactly the separator |
| `Services.RetrieveFewChunks` | src/api/services.py:92-94 | zero results give `""`; one result gives that chunk unchanged |
| `Services.RetrieveLength` | src/api/services.py:92-94 | for n >= 1 results, the context's length is the total chunk length plus 2(n-1) |
| `Services.RetrieveFailureLooksLikeContext` | src/api/services.py:95-96 | a failed search gives `"Error retrieving context: ..."`, which has no `⚠` marker and equals the context of an index that returned that text as its chunk |
| `App.SessionState.constructor` | src/app/main.py:99-102 | a new session has neither the `history` nor the `sidebar_open` key |
| `App.SessionState.ClearHistory` | src/ui/components.py:141-144 | the history becomes empty; the sidebar state is unchanged |
| `App.RaavanApp.constructor` | src/app/main.py:26-31 | building the application initializes the session; an existing history survives the rerun |
| `App.RaavanApp.InitializeSessionState` | src/app/main.py:99-102 | the history is created empty only when absent; an existing history is untouched |
| `App.RaavanApp.InitializeSidebar` | src/app/main.py:228-229 | `sidebar_open` becomes True only when absent; an existing value is kept |
| `App.RaavanApp.RenderSidebarToggle` | src/app/main.py:113-123 | a click flips `sidebar_open` and asks for a rerun; no click changes nothing |
| `App.RaavanApp.ShowsWelcome` | src/app/main.py:108-111 | the welcome card is shown exactly when the history is empty |
| `App.RaavanApp.Run` | src/app/main.py:224-249 | the sidebar defaults to open and a toggle click flips it and reruns with the history untouched; with the sidebar open, the clear button empties the history and reruns; otherwise the page shows the welcome card iff the history was empty and the sidebar iff it is open; a horoscope appears only from the open sidebar's button, as a chart exactly for a valid form; the chat input appends exactly the model's answer to a non-empty question, and leaves the history alone otherwise |
| `App.RaavanApp.ContextFor` | src/app/main.py:198-205 | the context is `""` without a vector service, and otherwise `retrieve_context(question, k=7)` |
| `App.RaavanApp.AnswerTo` | src/app/main.py:198-208 | without a vector index the question is sent with an empty context; with one, with the context retrieved for it at k = 7 |
| `App.RaavanApp.ProcessUserMessage` | src/app/main.py:182-222 | a completed turn appends exactly `(question, answer)` at the end, where the answer (possibly a `⚠` error text) is the model's reply to the question and its context; a failure before the append leaves the history unchanged and reports `"Error generating response: ..."` |
| `App.RaavanApp.RenderChatInterface` | src/app/main.py:168-180 | no input or an empty input changes nothing; a question gets the model's answer to it and its context, appended as one turn; a failure while showing it is reported and leaves the history unchanged |
| `App.RaavanApp.HandleHoroscopeGeneration` | src/app/main.py:141-166 | invalid input shows only the validation error and consults no ephemeris; valid input shows the chart for the Julian Day of the birth instant, having asked all ten bodies when the chart is full and stopped at the first failing body otherwise |
| `App.RaavanApp.GenerateHoroscope` | src/app/main.py:132-136 | with `is_valid` computed as in src/ui/components.py:96, a chart is shown exactly when both name and place hold a non-blank character; an all-whitespace name or place never reaches the calculator |
| `App.ConversationThenClear` | src/app/main.py:208-217 | three questions from a fresh session give three turns in order, each holding the model call's result; clearing then empties the history |

## Left out

- `src/styles/main.py` is not part of this model. It is CSS text with no behaviour.
- Streamlit rendering is not modelled. This covers every `st.*` display call, the components in
  `src/ui/components.py` other than the history clear and the `is_valid` expression,
  `format_planetary_display`, `format_datetime_display`, `get_default_birth_time` and `combine_date_time`.
  These are display formatting (`:.2f`, `strftime`) and library calls.
- `RaavanAIApp.initialize_services` is not modelled. It is a fallback chain of HuggingFace and Chroma
  constructors, which are foreign libraries. Its outcome is the `hasVectorService` flag.
- `setup_page_config` and `apply_styling` are not modelled. They are pure rendering.
- `get_database_stats` is not modelled. It reads a private attribute of the Chroma collection.
- The entry point `main.py` is not modelled. It does dotenv loading, `sys.path` setup and a top-level `except`.
- The HTTP call is not modelled. `requests.post`, its 30-second timeout (recorded in the request only),
  `raise_for_status` and JSON decoding all become the `HttpOutcome` the `post` parameter returns.
- `swe.julday`, `swe.calc_ut`, the embedding model and `similarity_search` are external. They are parameters.
- Longitudes are exact reals, not IEEE doubles. The model does not capture the rounding of `degrees % 30`.
  For example, a tiny negative double gives 30.0 in Python.
- `Helpers.FractionalHour`: the hour passed to `julday` is exact. In Python it is a double, so
  `hour * 3600 == seconds` need not hold exactly; `Helpers.CalculateJulianDay` inherits this.
- `Services.Text`: JSON floating-point numbers are not modelled. A non-string `content` (null, a
  boolean, an integer, a list or an object) is rendered as Python's `str()` of it, within the limits
  of `Services.Repr` below. Python returns that object itself, and the application displays it
  through `str()`.
- `Services.GetKey`: the TypeError and IndexError texts follow CPython 3.11 wording. Other Python
  versions word them differently.
- `Services.Repr`: strings inside a list or a dict are wrapped in single quotes and not escaped.
  Python's `repr` switches to double quotes for a string holding a single quote, and escapes
  backslashes, quotes, newlines and other non-printable characters. Repeated object keys are
  modelled: one entry per key, where it first occurs, with its last value.
- `App.RaavanApp.ProcessUserMessage`: the only exception modelled is a failure while showing the
  answer (`displayFailure`). The `st.info` notice shown when the vector index is missing is not
  returned.
- `App.RaavanApp.HandleHoroscopeGeneration`: the `except` at src/app/main.py:163-164 is not modelled.
  `julday` is total in the model, and rendering failures are not modelled.
- `App.RaavanApp.Run`: the `except`/`st.stop` at src/app/main.py:247-249 is not modelled. Every modelled
  step returns a value instead of raising. The header, the chat history display and the about section
  are rendering only.
