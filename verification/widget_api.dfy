/**
 * The chat API hook (hooks/use-widget-api.ts): the endpoint default, the
 * request `sendMessage` builds from a message and the history before it,
 * and the `isLoading` / `error` state around the awaited call. The network is
 * an input: each call is split at its `await` into `Begin`, which returns the
 * request to send, and `Complete`, which receives what `fetch` produced.
 */
module WidgetApi {
  import opened Wrappers
  import opened Text
  import opened JsObject

  /**
   * `WidgetMessage` (widgets/types.ts). The sender is kept as the string the
   * code compares against; the timestamp is a clock reading.
   */
  datatype WidgetMessage = WidgetMessage(id: string, text: string, sender: string, timestamp: int)

  const DefaultEndpoint := "https://api.ask-anything.com/v1"

  /** `endpoint || "https://api.ask-anything.com/v1"`. */
  function Endpoint(endpoint: Option<string>): (r: string)
    ensures r != ""
    ensures endpoint.Some? && endpoint.value != "" ==> r == endpoint.value
    ensures endpoint.None? || endpoint.value == "" ==> r == DefaultEndpoint
  {
    if endpoint.Some? && endpoint.value != "" then endpoint.value else DefaultEndpoint
  }

  /** One element of the request's `history`. */
  datatype HistoryItem = HistoryItem(role: string, content: string)

  /** Sender `'user'` keeps the role "user"; every other sender is the assistant. */
  function Role(sender: string): (role: string)
    ensures role == "user" <==> sender == "user"
    ensures role == "user" || role == "assistant"
  {
    if sender == "user" then "user" else "assistant"
  }

  /** `history.map(msg => ({ role: ..., content: msg.text }))`. */
  function HistoryPayload(history: seq<WidgetMessage>): (r: seq<HistoryItem>)
    ensures |r| == |history|
    ensures forall i :: 0 <= i < |history| ==> r[i].content == history[i].text && (r[i].role == "user" <==> history[i].sender == "user")
    ensures forall i :: 0 <= i < |history| ==> r[i].role == "user" || r[i].role == "assistant"
  {
    if history == [] then [] else [HistoryItem(Role(history[0].sender), history[0].text)] + HistoryPayload(history[1..])
  }

  /** The payload of a longer history extends the payload of the shorter one. */
  lemma {:induction false} HistoryPayloadAppend(h: seq<WidgetMessage>, more: seq<WidgetMessage>)
    ensures HistoryPayload(h + more) == HistoryPayload(h) + HistoryPayload(more)
  {
    if h == [] {
      assert h + more == more;
    } else {
      assert (h + more)[1..] == h[1..] + more;
      HistoryPayloadAppend(h[1..], more);
    }
  }

  /** The request `fetch` is called with; the JSON body is kept as its fields. */
  datatype Request = Request(
    url: string,
    httpMethod: string,
    headers: Entries,
    message: string,
    history: seq<HistoryItem>,
    timestamp: string,
    source: string)

  function Headers(apiKey: string): Entries {
    [
      Entry("Content-Type", "application/json"),
      Entry("Authorization", "Bearer " + apiKey),
      Entry("X-Widget-Version", "1.0.0")
    ]
  }

  /**
   * The request for `text` after `history`, sent at `isoTime`: a POST to the
   * endpoint carrying the key as a bearer token, the widget version, the
   * message, the history in order and the widget as source.
   */
  function BuildRequest(endpoint: string, apiKey: string, text: string, history: seq<WidgetMessage>, isoTime: string): (r: Request)
    ensures r.url == endpoint && r.httpMethod == "POST"
    ensures DistinctKeys(r.headers)
    ensures Lookup(r.headers, "Content-Type") == Some("application/json")
    ensures Lookup(r.headers, "Authorization") == Some("Bearer " + apiKey)
    ensures Lookup(r.headers, "X-Widget-Version") == Some("1.0.0")
    ensures r.message == text && r.history == HistoryPayload(history)
    ensures r.timestamp == isoTime && r.source == "widget"
  {
    Request(endpoint, "POST", Headers(apiKey), text, HistoryPayload(history), isoTime, "widget")
  }

  /** The body `response.json()` yields: a parsed object, or a parse failure. */
  datatype ResponseBody = Json(message: string) | Unparsable(parseError: string)

  /** What a `catch` receives: an `Error` with its message, or any other thrown value. */
  datatype Thrown = ErrorValue(message: string) | NonError

  /** What `fetch` produced: a response, or a rejection. */
  datatype FetchOutcome =
    | Responded(ok: bool, status: nat, body: ResponseBody)
    | Rejected(thrown: Thrown)

  /**
   * How `sendMessage` settles: the body's message for an OK response whose
   * body parses; the `API error: <status>` error for a response that is not
   * OK; the parse error or the rejection otherwise.
   */
  function Settle(outcome: FetchOutcome): (r: Result<string, Thrown>)
    ensures r.Success? <==> outcome.Responded? && outcome.ok && outcome.body.Json?
    ensures r.Success? ==> r.value == outcome.body.message
    ensures outcome.Responded? && !outcome.ok ==> r == Failure(ErrorValue("API error: " + NatToString(outcome.status)))
    ensures outcome.Responded? && outcome.ok && outcome.body.Unparsable? ==> r == Failure(ErrorValue(outcome.body.parseError))
    ensures outcome.Rejected? ==> r == Failure(outcome.thrown)
  {
    match outcome
    case Rejected(t) => Failure(t)
    case Responded(ok, status, body) =>
      if !ok then Failure(ErrorValue("API error: " + NatToString(status)))
      else match body
        case Json(m) => Success(m)
        case Unparsable(e) => Failure(ErrorValue(e))
  }

  /** `err instanceof Error ? err.message : 'Failed to send message'`. */
  function ErrorText(t: Thrown): string {
    match t
    case ErrorValue(m) => m
    case NonError => "Failed to send message"
  }

  /**
   * A response that is not OK always reports `API error: ` followed by its
   * status, and distinct statuses give distinct error texts.
   */
  lemma ApiErrorText(ok: bool, status: nat, other: nat, body: ResponseBody)
    requires !ok
    ensures Settle(Responded(ok, status, body)).Failure?
    ensures var e := ErrorText(Settle(Responded(ok, status, body)).error);
      IsInfix("API error", e) && e[..11] == "API error: " && e[11..] == NatToString(status)
    ensures status != other ==> Settle(Responded(ok, status, body)) != Settle(Responded(ok, other, body))
  {
    var e := ErrorText(Settle(Responded(ok, status, body)).error);
    assert OccursAt("API error", e, 0);
    if NatToString(status) == NatToString(other) {
      NatToStringInjective(status, other);
    }
  }

  /** The state `useWidgetAPI(apiKey, endpoint)` keeps. */
  class ChatApi {
    const apiKey: string
    /** `defaultEndpoint`. */
    const endpoint: string
    var isLoading: bool
    var error: Option<string>

    constructor (apiKey: string, endpoint: Option<string>)
      ensures this.apiKey == apiKey && this.endpoint == Endpoint(endpoint)
      ensures !isLoading && error == None
    {
      this.apiKey := apiKey;
      this.endpoint := Endpoint(endpoint);
      isLoading := false;
      error := None;
    }

    /** The part of `sendMessage` before the `await`: loading, no error, and the request to send. */
    method Begin(text: string, history: seq<WidgetMessage>, isoTime: string) returns (req: Request)
      modifies this
      ensures isLoading && error == None
      ensures req == BuildRequest(endpoint, apiKey, text, history, isoTime)
    {
      isLoading := true;
      error := None;
      req := BuildRequest(endpoint, apiKey, text, history, isoTime);
    }

    /**
     * The part after the `await`: resolves to the reply or rejects with what
     * was thrown, recording its error text; loading is off either way.
     */
    method Complete(outcome: FetchOutcome) returns (r: Result<string, Thrown>)
      modifies this
      ensures r == Settle(outcome)
      ensures !isLoading
      ensures r.Success? ==> error == old(error)
      ensures r.Failure? ==> error == Some(ErrorText(r.error))
    {
      r := Settle(outcome);
      if r.Failure? {
        error := Some(ErrorText(r.error));
      }
      isLoading := false;
    }

    /**
     * One whole `sendMessage` call whose `fetch` produced `outcome`: the
     * request it sent, and the reply or failure, with `error` cleared on
     * success and set to the failure's text otherwise.
     */
    method SendMessage(text: string, history: seq<WidgetMessage>, isoTime: string, outcome: FetchOutcome)
      returns (req: Request, r: Result<string, Thrown>)
      modifies this
      ensures req == BuildRequest(endpoint, apiKey, text, history, isoTime)
      ensures r == Settle(outcome) && !isLoading
      ensures error == if r.Success? then None else Some(ErrorText(r.error))
    {
      req := Begin(text, history, isoTime);
      r := Complete(outcome);
    }
  }
}
