/**
 * The two remote services (src/api/services.py): the chat-completion call
 * that answers a question from a context, and the context retrieval that
 * joins the chunks the vector index returns. The HTTP transport and the
 * vector index are not part of this model: each is passed in as a function
 * from the request to its outcome.
 */
module Services {
  import opened Wrappers
  import Settings

  // ---------------------------------------------------------------------
  // JSON values as Python's json module produces and consumes them
  // ---------------------------------------------------------------------

  /** A JSON value; an object keeps its members in document order. */
  datatype Json =
    | JNull
    | JBool(b: bool)
    | JInt(i: int)
    | JStr(s: string)
    | JArr(items: seq<Json>)
    | JObj(members: seq<(string, Json)>)

  /** The keys of an object's members, in order. */
  function Keys(members: seq<(string, Json)>): (ks: seq<string>)
    ensures |ks| == |members|
    ensures forall i :: 0 <= i < |members| ==> ks[i] == members[i].0
  {
    if members == [] then [] else [members[0].0] + Keys(members[1..])
  }

  /** Member `i` is the last one named `key`. */
  predicate IsLastKey(members: seq<(string, Json)>, key: string, i: int)
  {
    0 <= i < |members| && members[i].0 == key && forall j :: i < j < |members| ==> members[j].0 != key
  }

  /** The position of the last member named `key`. */
  function LastIndex(members: seq<(string, Json)>, key: string): (i: nat)
    requires key in Keys(members)
    ensures IsLastKey(members, key, i)
  {
    var last := |members| - 1;
    var prefix := members[..last];
    assert Keys(members) == Keys(prefix) + [members[last].0];
    if members[last].0 == key then last
    else LastIndex(prefix, key)
  }

  /** The value under `key`; a repeated key keeps its last value, as `json.loads` does. */
  function Lookup(members: seq<(string, Json)>, key: string): (v: Option<Json>)
    ensures v.None? <==> key !in Keys(members)
    ensures forall i :: IsLastKey(members, key, i) ==> v == Some(members[i].1)
  {
    if key in Keys(members) then Some(members[LastIndex(members, key)].1) else None
  }

  /** No key occurs twice. */
  predicate Distinct(ks: seq<string>)
  {
    forall i, j :: 0 <= i < j < |ks| ==> ks[i] != ks[j]
  }

  /** A new key keeps a list of distinct keys distinct. */
  lemma DistinctSnoc(ks: seq<string>, key: string)
    requires Distinct(ks) && key !in ks
    ensures Distinct(ks + [key])
  {
    var r := ks + [key];
    forall i, j | 0 <= i < j < |r|
      ensures r[i] != r[j]
    {
      assert r[i] == ks[i];
      if j < |ks| {
        assert r[j] == ks[j];
      }
    }
  }

  /**
   * The keys of the dict `json.loads` builds from an object's members: each
   * key once, at the position where it first occurs.
   */
  function FirstKeys(members: seq<(string, Json)>): (ks: seq<string>)
    ensures forall k :: k in ks <==> k in Keys(members)
    ensures Distinct(ks)
    ensures members != [] ==> ks != [] && ks[0] == members[0].0
  {
    if members == [] then []
    else
      var last := |members| - 1;
      var prefix := members[..last];
      assert Keys(members) == Keys(prefix) + [members[last].0];
      assert prefix != [] ==> prefix[0] == members[0];
      var ks := FirstKeys(prefix);
      var key := members[last].0;
      if key in Keys(prefix) then ks
      else
        DistinctSnoc(ks, key);
        ks + [key]
  }

  /** The number a string of decimal digits denotes, read most significant digit first. */
  function DecimalValue(t: string): int
  {
    if t == [] then 0 else 10 * DecimalValue(t[..|t| - 1]) + (t[|t| - 1] as int - '0' as int)
  }

  /** Decimal digits of a natural number, with no leading zero. */
  function NatText(n: nat): (t: string)
    ensures |t| >= 1
    ensures forall i :: 0 <= i < |t| ==> '0' <= t[i] <= '9'
    ensures DecimalValue(t) == n
    ensures |t| > 1 ==> t[0] != '0'
  {
    var d := ['0' + (n % 10) as char];
    if n < 10 then d
    else
      var t := NatText(n / 10) + d;
      assert t[..|t| - 1] == NatText(n / 10);
      t
  }

  /** Python's `str()` of an integer. */
  function IntText(i: int): string
  {
    if i < 0 then "-" + NatText(-i) else NatText(i)
  }

  /** The items joined with `sep` between neighbours (Python's `sep.join(items)`). */
  function Join(sep: string, items: seq<string>): (r: string)
    ensures items == [] ==> r == ""
    ensures |items| == 1 ==> r == items[0]
    ensures items != [] ==> items[0] <= r
  {
    if items == [] then ""
    else if |items| == 1 then items[0]
    else items[0] + sep + Join(sep, items[1..])
  }

  /** Python's `str()` of a JSON scalar (null, a boolean, an integer). */
  function ScalarText(j: Json): string
    requires !j.JStr? && !j.JArr? && !j.JObj?
  {
    match j
    case JNull => "None"
    case JBool(b) => if b then "True" else "False"
    case JInt(i) => IntText(i)
  }

  /**
   * Python's `repr()` of a parsed JSON value: strings quoted, containers
   * rendered as Python lists and dicts; a dict shows each key once, where it
   * first occurs, with the value of its last occurrence.
   */
  function Repr(j: Json): string
    decreases j, 1
  {
    match j
    case JStr(s) => "'" + s + "'"
    case JArr(items) =>
      "[" + Join(", ", seq(|items|, i requires 0 <= i < |items| => Repr(items[i]))) + "]"
    case JObj(members) =>
      var ks := FirstKeys(members);
      "{" + Join(", ", seq(|ks|, i requires 0 <= i < |ks| => DictEntry(members, ks[i]))) + "}"
    case _ => ScalarText(j)
  }

  /** One `key: value` entry of a dict's `repr()`, with the key's last value. */
  function DictEntry(members: seq<(string, Json)>, key: string): string
    requires key in Keys(members)
    decreases JObj(members), 0
  {
    "'" + key + "': " + Repr(members[LastIndex(members, key)].1)
  }

  /** Python's `str()` of a parsed JSON value: a string is its own text. */
  function Text(j: Json): (t: string)
    ensures j.JStr? ==> t == j.s
  {
    match j
    case JStr(s) => s
    case JArr(_) => Repr(j)
    case JObj(_) => Repr(j)
    case _ => ScalarText(j)
  }

  /** Without repeated keys, the dict keeps every key in document order. */
  lemma {:induction false} FirstKeysOfDistinct(members: seq<(string, Json)>)
    requires Distinct(Keys(members))
    ensures FirstKeys(members) == Keys(members)
  {
    if members != [] {
      var last := |members| - 1;
      var prefix := members[..last];
      var keys := Keys(members);
      assert keys == Keys(prefix) + [members[last].0];
      assert Distinct(Keys(prefix)) by {
        forall i, j | 0 <= i < j < |Keys(prefix)|
          ensures Keys(prefix)[i] != Keys(prefix)[j]
        {
          assert Keys(prefix)[i] == keys[i] && Keys(prefix)[j] == keys[j];
        }
      }
      assert members[last].0 !in Keys(prefix) by {
        forall i | 0 <= i < |Keys(prefix)|
          ensures Keys(prefix)[i] != members[last].0
        {
          assert Keys(prefix)[i] == keys[i] && members[last].0 == keys[last];
        }
      }
      FirstKeysOfDistinct(prefix);
    }
  }

  /** The dict's keys after one more member: unchanged for a known key, extended by a new one. */
  lemma FirstKeysSnoc(members: seq<(string, Json)>)
    requires members != []
    ensures var prefix := members[..|members| - 1];
            var key := members[|members| - 1].0;
            Keys(members) == Keys(prefix) + [key] &&
            FirstKeys(members) == FirstKeys(prefix) + (if key in Keys(prefix) then [] else [key])
  {
    assert Keys(members) == Keys(members[..|members| - 1]) + [members[|members| - 1].0];
  }

  /** Some member before position `q` has the key `k`. */
  predicate OccursBefore(members: seq<(string, Json)>, k: string, q: int)
  {
    exists p :: 0 <= p < q && p < |members| && members[p].0 == k
  }

  /**
   * The dict keeps first-occurrence order: a key listed before another
   * occurs in the members before every occurrence of the later one.
   */
  lemma {:induction false} FirstKeysOrder(members: seq<(string, Json)>, i: int, j: int, q: int)
    requires 0 <= i < j < |FirstKeys(members)|
    requires 0 <= q < |members| && members[q].0 == FirstKeys(members)[j]
    ensures OccursBefore(members, FirstKeys(members)[i], q)
  {
    var last := |members| - 1;
    var prefix := members[..last];
    var ks := FirstKeys(members);
    var pks := FirstKeys(prefix);
    FirstKeysSnoc(members);
    assert ks[i] == pks[i];
    if j < |pks| {
      assert ks[j] == pks[j];
      var q' := q;
      if q == last {
        assert ks[j] in Keys(prefix);
        q' :| 0 <= q' < |Keys(prefix)| && Keys(prefix)[q'] == ks[j];
      }
      assert prefix[q'].0 == pks[j];
      FirstKeysOrder(prefix, i, j, q');
      var p :| 0 <= p < q' && p < |prefix| && prefix[p].0 == pks[i];
      assert members[p].0 == ks[i];
    } else {
      assert ks[j] !in Keys(prefix);
      assert q == last;
      assert ks[i] in Keys(prefix);
      var p :| 0 <= p < |Keys(prefix)| && Keys(prefix)[p] == ks[i];
      assert members[p].0 == ks[i];
    }
  }

  /** A repeated key is shown once, with its last value: `{"a": 1, "a": 3}` reads back as `{'a': 3}`. */
  lemma RepeatedKeyShownOnce()
    ensures Text(JObj([("a", JInt(1)), ("a", JInt(3))])) == "{'a': 3}"
  {
    var members := [("a", JInt(1)), ("a", JInt(3))];
    assert FirstKeys(members) == ["a"] by {
      assert Keys(members) == ["a", "a"];
    }
    assert DictEntry(members, "a") == "'a': 3" by {
      assert LastIndex(members, "a") == 1;
      assert Repr(JInt(3)) == "3";
    }
  }

  // ---------------------------------------------------------------------
  // Subscripting the response, with the exceptions Python raises
  // ---------------------------------------------------------------------

  /** The result of one subscript: a value, a KeyError (with `str()` of it), or another exception. */
  datatype Step = Got(value: Json) | KeyMissing(key: string) | Raised(message: string)

  /** The message of a TypeError for subscripting a scalar. */
  function NotSubscriptable(j: Json): string
  {
    match j
    case JNull => "'NoneType' object is not subscriptable"
    case JBool(_) => "'bool' object is not subscriptable"
    case _ => "'int' object is not subscriptable"
  }

  /** `j[key]` for a string key. */
  function GetKey(j: Json, key: string): (r: Step)
    ensures j.JObj? && key in Keys(j.members) ==> r.Got?
    ensures j.JObj? ==> forall i :: IsLastKey(j.members, key, i) ==> r == Got(j.members[i].1)
    ensures j.JObj? && key !in Keys(j.members) ==> r == KeyMissing("'" + key + "'")
    ensures !j.JObj? ==> r.Raised?
  {
    match j
    case JObj(members) =>
      (match Lookup(members, key)
       case Some(v) => Got(v)
       case None => KeyMissing("'" + key + "'"))
    case JArr(_) => Raised("list indices must be integers or slices, not str")
    case JStr(_) => Raised("string indices must be integers, not 'str'")
    case _ => Raised(NotSubscriptable(j))
  }

  /** `j[0]`; a JSON object has only string keys, so 0 is always missing from it. */
  function GetFirst(j: Json): (r: Step)
    ensures j.JArr? && j.items != [] ==> r == Got(j.items[0])
    ensures j.JArr? && j.items == [] ==> r == Raised("list index out of range")
    ensures j.JObj? ==> r == KeyMissing("0")
  {
    match j
    case JArr(items) => if items != [] then Got(items[0]) else Raised("list index out of range")
    case JObj(_) => KeyMissing("0")
    case JStr(s) => if s != [] then Got(JStr([s[0]])) else Raised("string index out of range")
    case _ => Raised(NotSubscriptable(j))
  }

  /**
   * `response.json()["choices"][0]["message"]["content"]`: a body that is
   * not an object, or lacks `choices`, or has an empty `choices` list, fails
   * at the first subscript.
   */
  function ExtractContent(body: Json): (r: Step)
    ensures !body.JObj? ==> r.Raised?
    ensures body.JObj? && "choices" !in Keys(body.members) ==> r == KeyMissing("'choices'")
    ensures body.JObj? && GetKey(body, "choices") == Got(JArr([])) ==> r == Raised("list index out of range")
    ensures r.Got? ==> body.JObj? && "choices" in Keys(body.members)
  {
    match GetKey(body, "choices")
    case Got(choices) =>
      (match GetFirst(choices)
       case Got(choice) =>
         (match GetKey(choice, "message")
          case Got(message) => GetKey(message, "content")
          case failed => failed)
       case failed => failed)
    case failed => failed
  }

  // ---------------------------------------------------------------------
  // The chat-completion request
  // ---------------------------------------------------------------------

  /** The settings a `GroqAPIService` copies from the configuration when it is created. */
  datatype GroqService = GroqService(apiUrl: string, headers: map<string, string>, modelName: string, maxTokens: int)

  /** `GroqAPIService()`, with `apiKey` the GROQ_API_KEY environment variable. */
  function NewGroqService(apiKey: Option<string>): (g: GroqService)
    ensures g.apiUrl == Settings.GroqApiUrl && g.modelName == Settings.ModelName
    ensures g.maxTokens == Settings.MaxTokens
    ensures g.headers == Settings.GetHeaders(apiKey)
  {
    GroqService(Settings.GroqApiUrl, Settings.GetHeaders(apiKey), Settings.ModelName, Settings.MaxTokens)
  }

  /** A POST of a JSON body, as handed to the transport. */
  datatype HttpRequest = HttpRequest(url: string, headers: map<string, string>, body: Json, timeoutSeconds: int)

  /**
   * What the transport makes of a request: a `requests` exception (connection,
   * timeout, an error status from `raise_for_status`, a body that is not JSON),
   * or the decoded JSON body.
   */
  datatype HttpOutcome = RequestFailed(detail: string) | Received(body: Json)

  /** The line that separates the question from the context in the user message. */
  const ContextMarker: string := "\n\nContext:\n"

  /** The user message: the question and the context in a fixed template. */
  function UserContent(question: string, context: string): (u: string)
    ensures |u| == 10 + |question| + |ContextMarker| + |context|
    ensures u[..10] == "Question: " && u[10..10 + |question|] == question
    ensures u[10 + |question|..10 + |question| + |ContextMarker|] == ContextMarker
    ensures u[10 + |question| + |ContextMarker|..] == context
  {
    "Question: " + question + ContextMarker + context
  }

  /** The two messages of every request: the persona, then the question with its context. */
  function BuildMessages(question: string, context: string): Json
  {
    JArr([
      JObj([("role", JStr("system")), ("content", JStr(Settings.SystemPrompt))]),
      JObj([("role", JStr("user")), ("content", JStr(UserContent(question, context)))])
    ])
  }

  /** The request `query_llama` posts. */
  function BuildRequest(g: GroqService, question: string, context: string): HttpRequest
  {
    HttpRequest(g.apiUrl, g.headers,
                JObj([("model", JStr(g.modelName)),
                      ("messages", BuildMessages(question, context)),
                      ("max_tokens", JInt(g.maxTokens))]),
                30)
  }

  const NetworkErrorPrefix: string := "\U{26A0} Network error: "
  const MissingKeyPrefix: string := "\U{26A0} API response error: Missing key "
  const OtherErrorPrefix: string := "\U{26A0} Error calling Groq LLaMA: "

  /**
   * The answer `query_llama` makes of the transport's outcome: the generated
   * text, or a warning-marked message for each kind of failure. Each failing
   * outcome's answer starts with its own prefix, so the failure kind can be
   * read back from the text.
   */
  function AnswerOf(outcome: HttpOutcome): (answer: string)
    ensures FailureOf(outcome).Some? ==> FailurePrefix(FailureOf(outcome).value) <= answer && answer[0] == '\U{26A0}'
    ensures outcome.RequestFailed? ==> answer[|NetworkErrorPrefix|..] == outcome.detail
  {
    match outcome
    case RequestFailed(detail) => NetworkErrorPrefix + detail
    case Received(body) =>
      match ExtractContent(body)
      case Got(content) => Text(content)
      case KeyMissing(key) => MissingKeyPrefix + key
      case Raised(message) => OtherErrorPrefix + message
  }

  /**
   * `query_llama`: post the request through `post` and answer from its
   * outcome. It never raises: every outcome of the transport yields a
   * string, and a failure is marked as one.
   */
  function QueryLlama(g: GroqService, question: string, context: string,
                      post: HttpRequest -> HttpOutcome): (answer: string)
    ensures FailureOf(post(BuildRequest(g, question, context))).Some? ==> |answer| > 0 && answer[0] == '\U{26A0}'
  {
    AnswerOf(post(BuildRequest(g, question, context)))
  }

  /**
   * The request carries exactly the model, the two messages and the token
   * limit: no temperature and no earlier turns of the conversation.
   */
  lemma RequestShape(apiKey: Option<string>, question: string, context: string)
    ensures var req := BuildRequest(NewGroqService(apiKey), question, context);
      && req.url == Settings.GroqApiUrl
      && req.headers == Settings.GetHeaders(apiKey)
      && req.timeoutSeconds == 30
      && req.body.JObj?
      && Keys(req.body.members) == ["model", "messages", "max_tokens"]
      && "temperature" !in Keys(req.body.members)
      && Lookup(req.body.members, "model") == Some(JStr(Settings.ModelName))
      && Lookup(req.body.members, "max_tokens") == Some(JInt(700))
      && Lookup(req.body.members, "messages") == Some(BuildMessages(question, context))
  {
    var req := BuildRequest(NewGroqService(apiKey), question, context);
    assert Keys(req.body.members) == ["model", "messages", "max_tokens"];
  }

  /** The messages are the system persona followed by the templated user message, and nothing else. */
  lemma MessagesShape(question: string, context: string)
    ensures var m := BuildMessages(question, context);
      && |m.items| == 2
      && m.items[0].JObj? && m.items[1].JObj?
      && Lookup(m.items[0].members, "role") == Some(JStr("system"))
      && Lookup(m.items[0].members, "content") == Some(JStr(Settings.SystemPrompt))
      && Lookup(m.items[1].members, "role") == Some(JStr("user"))
      && Lookup(m.items[1].members, "content") == Some(JStr(UserContent(question, context)))
  {
  }

  /**
   * The template can be read back once the length of the question is known:
   * for questions of equal length the message fixes both the question and
   * the context.
   */
  lemma UserContentInjective(q1: string, c1: string, q2: string, c2: string)
    requires |q1| == |q2|
    requires UserContent(q1, c1) == UserContent(q2, c2)
    ensures q1 == q2 && c1 == c2
  {
    var u := UserContent(q1, c1);
    assert u[10..10 + |q1|] == q1;
    assert u[10 + |q1| + |ContextMarker|..] == c1;
  }

  /**
   * Without that length the template is ambiguous: a question that itself
   * contains the context line produces the same message as a shorter
   * question whose context carries the rest, so the model cannot tell the
   * user's text from the retrieved context.
   */
  lemma UserContentAmbiguous(question: string, extra: string, context: string)
    ensures UserContent(question + ContextMarker + extra, context) ==
            UserContent(question, extra + ContextMarker + context)
    ensures question + ContextMarker + extra != question
  {
    assert "Question: " + (question + ContextMarker + extra) + ContextMarker + context
        == "Question: " + question + ContextMarker + (extra + ContextMarker + context);
  }

  /**
   * Any reply whose `choices[0].message.content` exists hands that content
   * back: a string verbatim, whatever other members (`id`, `usage`,
   * `finish_reason`, further choices) the reply carries.
   */
  lemma ReplyContentVerbatim(g: GroqService, question: string, context: string,
                             post: HttpRequest -> HttpOutcome,
                             members: seq<(string, Json)>, choices: seq<Json>,
                             choice: seq<(string, Json)>, message: seq<(string, Json)>, content: Json)
    requires post(BuildRequest(g, question, context)) == Received(JObj(members))
    requires Lookup(members, "choices") == Some(JArr(choices))
    requires choices != [] && choices[0] == JObj(choice)
    requires Lookup(choice, "message") == Some(JObj(message))
    requires Lookup(message, "content") == Some(content)
    ensures FailureOf(post(BuildRequest(g, question, context))).None?
    ensures QueryLlama(g, question, context, post) == Text(content)
    ensures content.JStr? ==> QueryLlama(g, question, context, post) == content.s
  {
    var choicesStep := GetKey(JObj(members), "choices");
    assert choicesStep == Got(JArr(choices));
    assert GetFirst(JArr(choices)) == Got(JObj(choice));
    assert GetKey(JObj(choice), "message") == Got(JObj(message));
    assert GetKey(JObj(message), "content") == Got(content);
    assert ExtractContent(JObj(members)) == Got(content);
  }

  /** The three failure kinds: which message prefix each outcome maps to. */
  datatype Failure = Network | MissingKey | Other

  /** The warning-marked prefix of each failure kind. */
  function FailurePrefix(f: Failure): string
  {
    match f
    case Network => NetworkErrorPrefix
    case MissingKey => MissingKeyPrefix
    case Other => OtherErrorPrefix
  }

  /** The failure an outcome represents, or `None` when it carries the generated text. */
  function FailureOf(outcome: HttpOutcome): (f: Option<Failure>)
  {
    match outcome
    case RequestFailed(_) => Some(Network)
    case Received(body) =>
      match ExtractContent(body)
      case Got(_) => None
      case KeyMissing(_) => Some(MissingKey)
      case Raised(_) => Some(Other)
  }

  /**
   * How an outcome is classified: a transport failure is a network failure,
   * a reply whose content can be read is no failure, a body without
   * `choices` is a missing key, and a body that is not an object is caught
   * by the catch-all branch.
   */
  lemma FailureKinds(outcome: HttpOutcome)
    ensures outcome.RequestFailed? ==> FailureOf(outcome) == Some(Network)
    ensures outcome.Received? ==> (FailureOf(outcome).None? <==> ExtractContent(outcome.body).Got?)
    ensures outcome.Received? && !outcome.body.JObj? ==> FailureOf(outcome) == Some(Other)
    ensures outcome.Received? && outcome.body.JObj? && "choices" !in Keys(outcome.body.members) ==>
      FailureOf(outcome) == Some(MissingKey)
  {
  }

  /** No failure prefix is a prefix of another, so the kinds are told apart by text alone. */
  lemma FailurePrefixesDistinct(f1: Failure, f2: Failure)
    requires f1 != f2
    ensures !(FailurePrefix(f1) <= FailurePrefix(f2))
  {
    assert FailurePrefix(f1)[2] != FailurePrefix(f2)[2];
  }

  /** An empty `choices` list is not a missing key: it is the IndexError of the catch-all branch. */
  lemma EmptyChoicesIsOtherError(g: GroqService, question: string, context: string, post: HttpRequest -> HttpOutcome,
                                 members: seq<(string, Json)>)
    requires post(BuildRequest(g, question, context)) == Received(JObj(members))
    requires Lookup(members, "choices") == Some(JArr([]))
    ensures QueryLlama(g, question, context, post) == OtherErrorPrefix + "list index out of range"
  {
    assert GetKey(JObj(members), "choices") == Got(JArr([]));
    assert ExtractContent(JObj(members)) == Raised("list index out of range");
    assert AnswerOf(Received(JObj(members))) == OtherErrorPrefix + "list index out of range";
  }

  /** A body without `choices` names the missing key, quoted as Python's KeyError prints it. */
  lemma MissingChoicesNamesKey(g: GroqService, question: string, context: string, post: HttpRequest -> HttpOutcome,
                               members: seq<(string, Json)>)
    requires post(BuildRequest(g, question, context)) == Received(JObj(members))
    requires "choices" !in Keys(members)
    ensures QueryLlama(g, question, context, post) == MissingKeyPrefix + "'choices'"
  {
  }

  /**
   * Error text travels in the same channel as answers: a model reply that
   * happens to read like a network error cannot be told from a real one.
   */
  lemma ErrorIndistinguishableFromAnswer(g: GroqService, question: string, context: string,
                                         failing: HttpRequest -> HttpOutcome, detail: string)
    requires failing(BuildRequest(g, question, context)) == RequestFailed(detail)
    ensures exists replying: HttpRequest -> HttpOutcome ::
      FailureOf(replying(BuildRequest(g, question, context))).None? &&
      QueryLlama(g, question, context, replying) == QueryLlama(g, question, context, failing)
  {
    var fake := NetworkErrorPrefix + detail;
    var message := [("role", JStr("assistant")), ("content", JStr(fake))];
    var choice := [("message", JObj(message))];
    var members := [("choices", JArr([JObj(choice)]))];
    var replying: HttpRequest -> HttpOutcome := _ => Received(JObj(members));
    assert IsLastKey(message, "content", 1);
    ReplyContentVerbatim(g, question, context, replying, members, [JObj(choice)], choice, message, JStr(fake));
  }

  // ---------------------------------------------------------------------
  // Context retrieval
  // ---------------------------------------------------------------------

  /** A document the vector index returns; only its text is read. */
  datatype Document = Document(pageContent: string)

  /** What `similarity_search` makes of a query: the top documents in rank order, or an exception. */
  datatype SearchOutcome = Hits(docs: seq<Document>) | SearchFailed(detail: string)

  const ContextSeparator: string := "\n\n"
  const RetrievalErrorPrefix: string := "Error retrieving context: "

  /** The texts of the documents, in the order the index ranked them. */
  function Texts(docs: seq<Document>): (ts: seq<string>)
    ensures |ts| == |docs|
    ensures forall i :: 0 <= i < |docs| ==> ts[i] == docs[i].pageContent
  {
    seq(|docs|, i requires 0 <= i < |docs| => docs[i].pageContent)
  }

  /**
   * `retrieve_context`: the top `k` chunks joined by blank lines, or an
   * explanatory string when the search raises.
   */
  function RetrieveContext(question: string, k: int, search: (string, int) -> SearchOutcome): (context: string)
    ensures search(question, k) == Hits([]) ==> context == ""
    ensures search(question, k).Hits? && search(question, k).docs != [] ==>
      search(question, k).docs[0].pageContent <= context
    ensures search(question, k).SearchFailed? ==>
      RetrievalErrorPrefix <= context && context[|RetrievalErrorPrefix|..] == search(question, k).detail
  {
    match search(question, k)
    case Hits(docs) => Join(ContextSeparator, Texts(docs))
    case SearchFailed(detail) => RetrievalErrorPrefix + detail
  }

  /** Total length of a list of texts. */
  function TotalLength(items: seq<string>): nat
  {
    if items == [] then 0 else |items[0]| + TotalLength(items[1..])
  }

  /** The joined text is as long as the chunks plus one separator between each pair. */
  lemma {:induction false} JoinLength(sep: string, items: seq<string>)
    requires items != []
    ensures |Join(sep, items)| == TotalLength(items) + |sep| * (|items| - 1)
  {
    if |items| > 1 {
      JoinLength(sep, items[1..]);
    }
  }

  /** Joining one more chunk appends a separator and that chunk at the end. */
  lemma {:induction false} JoinSnoc(sep: string, items: seq<string>, last: string)
    requires items != []
    ensures Join(sep, items + [last]) == Join(sep, items) + sep + last
  {
    if |items| == 1 {
      assert items + [last] == [items[0], last];
    } else {
      assert (items + [last])[1..] == items[1..] + [last];
      JoinSnoc(sep, items[1..], last);
    }
  }

  /** Where the `i`-th chunk starts in the joined text. */
  function Offset(sep: string, items: seq<string>, i: nat): nat
    requires i <= |items|
  {
    if i == 0 then 0 else Offset(sep, items, i - 1) + |items[i - 1]| + |sep|
  }

  /** A slice of the right operand keeps its content inside the concatenation. */
  lemma SliceOfConcat(a: string, b: string, lo: nat, hi: nat)
    requires lo <= hi <= |b|
    ensures (a + b)[|a| + lo..|a| + hi] == b[lo..hi]
  {
    assert forall k :: 0 <= k < hi - lo ==> (a + b)[|a| + lo..|a| + hi][k] == b[lo..hi][k];
  }

  /** Rank order is kept: every chunk stands, unchanged, at its offset in the joined text. */
  lemma {:induction false} JoinChunkAt(sep: string, items: seq<string>, i: nat)
    requires i < |items|
    ensures Offset(sep, items, i) + |items[i]| <= |Join(sep, items)|
    ensures Join(sep, items)[Offset(sep, items, i)..Offset(sep, items, i) + |items[i]|] == items[i]
  {
    if |items| > 1 {
      var head := items[0] + sep;
      var rest := Join(sep, items[1..]);
      assert Join(sep, items) == head + rest;
      if i > 0 {
        JoinChunkAt(sep, items[1..], i - 1);
        OffsetShift(sep, items, i);
        var o := Offset(sep, items[1..], i - 1);
        SliceOfConcat(head, rest, o, o + |items[i]|);
      }
    }
  }

  /** Between two neighbouring chunks stands exactly one separator. */
  lemma {:induction false} JoinSeparatorAt(sep: string, items: seq<string>, i: nat)
    requires i + 1 < |items|
    ensures Offset(sep, items, i) + |items[i]| <= Offset(sep, items, i + 1) <= |Join(sep, items)|
    ensures Join(sep, items)[Offset(sep, items, i) + |items[i]|..Offset(sep, items, i + 1)] == sep
  {
    var head := items[0] + sep;
    var rest := Join(sep, items[1..]);
    assert Join(sep, items) == head + rest;
    if i == 0 {
      assert Offset(sep, items, 1) == |items[0]| + |sep|;
      assert (head + rest)[|items[0]|..|items[0]| + |sep|] == sep;
    } else {
      JoinSeparatorAt(sep, items[1..], i - 1);
      OffsetShift(sep, items, i);
      OffsetShift(sep, items, i + 1);
      SliceOfConcat(head, rest, Offset(sep, items[1..], i - 1) + |items[i]|, Offset(sep, items[1..], i));
    }
  }

  /** Offsets in the list without its head are shifted by the head and one separator. */
  lemma {:induction false} OffsetShift(sep: string, items: seq<string>, i: nat)
    requires 1 <= i <= |items|
    ensures Offset(sep, items, i) == |items[0]| + |sep| + Offset(sep, items[1..], i - 1)
  {
    if i > 1 {
      OffsetShift(sep, items, i - 1);
    }
  }

  /** No results give the empty context; one result gives that chunk unchanged. */
  lemma RetrieveFewChunks(question: string, k: int, search: (string, int) -> SearchOutcome)
    ensures search(question, k) == Hits([]) ==> RetrieveContext(question, k, search) == ""
    ensures forall d :: search(question, k) == Hits([d]) ==> RetrieveContext(question, k, search) == d.pageContent
  {
  }

  /** For `n >= 1` chunks the context is their total length plus two characters per gap. */
  lemma RetrieveLength(question: string, k: int, search: (string, int) -> SearchOutcome)
    requires search(question, k).Hits? && search(question, k).docs != []
    ensures |RetrieveContext(question, k, search)| ==
      TotalLength(Texts(search(question, k).docs)) + 2 * (|search(question, k).docs| - 1)
  {
    JoinLength(ContextSeparator, Texts(search(question, k).docs));
  }

  /**
   * A failed search yields a string without the warning marker, and the same
   * string comes back from an index whose only chunk has that text: the
   * failure cannot be told from real context.
   */
  lemma RetrieveFailureLooksLikeContext(question: string, k: int, search: (string, int) -> SearchOutcome)
    requires search(question, k).SearchFailed?
    ensures var context := RetrieveContext(question, k, search);
      context[0] == 'E' && context[0] != '\U{26A0}' &&
      context == RetrieveContext(question, k, (_, _) => Hits([Document(context)]))
  {
  }
}
