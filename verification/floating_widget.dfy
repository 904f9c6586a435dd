/**
 * The floating widget component
 * (components/widgets/floating-widget/floating-widget.tsx): the configuration
 * defaults, the expand/collapse toggle with its callbacks, the Escape key,
 * and the two-step message send around the chat API hook. Clock readings
 * (`Date.now()`, `new Date()`) are parameters.
 */
module FloatingWidget {
  import opened Wrappers
  import opened Text
  import WidgetManager
  import opened WidgetApi

  /** The destructured configuration, with the component's defaults applied. */
  datatype Settings = Settings(theme: string, buttonText: string, headerTitle: string, placeholder: string, initialExpanded: bool)

  function SettingsOf(c: WidgetManager.WidgetConfig): (s: Settings)
    ensures c.theme.None? ==> s.theme == "dark"
    ensures c.buttonText.None? ==> s.buttonText == "Ask"
    ensures c.headerTitle.None? ==> s.headerTitle == "Ask New York Times Anything!"
    ensures c.placeholder.None? ==> s.placeholder == "Ask Anything"
    ensures c.initialExpanded.None? ==> !s.initialExpanded
    ensures c.theme.Some? ==> s.theme == c.theme.value
    ensures c.buttonText.Some? ==> s.buttonText == c.buttonText.value
    ensures c.headerTitle.Some? ==> s.headerTitle == c.headerTitle.value
    ensures c.placeholder.Some? ==> s.placeholder == c.placeholder.value
    ensures c.initialExpanded.Some? ==> s.initialExpanded == c.initialExpanded.value
  {
    Settings(
      c.theme.GetOr("dark"),
      c.buttonText.GetOr("Ask"),
      c.headerTitle.GetOr("Ask New York Times Anything!"),
      c.placeholder.GetOr("Ask Anything"),
      c.initialExpanded.GetOr(false))
  }

  /** A call of one of the host page's callbacks. */
  datatype Callback = Expanded | Collapsed | Message(message: WidgetMessage)

  /** What the component renders: the collapsed button, or the card with its props. */
  datatype View =
    | Button(text: string)
    | Card(headerTitle: string, placeholder: string, messages: seq<WidgetMessage>, isLoading: bool, error: Option<string>)

  class Widget {
    const config: WidgetManager.WidgetConfig
    const api: ChatApi
    var isExpanded: bool
    var messages: seq<WidgetMessage>
    /** Every callback the component called, in order. */
    var callbacks: seq<Callback>

    constructor (config: WidgetManager.WidgetConfig)
      ensures this.config == config
      ensures isExpanded == SettingsOf(config).initialExpanded
      ensures messages == [] && callbacks == []
      ensures fresh(api) && api.apiKey == config.apiKey && api.endpoint == Endpoint(config.apiEndpoint)
      ensures !api.isLoading && api.error == None
    {
      this.config := config;
      api := new ChatApi(config.apiKey, config.apiEndpoint);
      isExpanded := SettingsOf(config).initialExpanded;
      messages := [];
      callbacks := [];
    }

    /** The button while collapsed, the card (fed by the hook's state) while expanded. */
    function View(): (v: View)
      reads this, api
      ensures v.Button? <==> !isExpanded
      ensures v.Button? ==> v.text == SettingsOf(config).buttonText
      ensures v.Card? ==> v.headerTitle == SettingsOf(config).headerTitle && v.placeholder == SettingsOf(config).placeholder
      ensures v.Card? ==> v.messages == messages && v.isLoading == api.isLoading && v.error == api.error
    {
      var s := SettingsOf(config);
      if isExpanded then Card(s.headerTitle, s.placeholder, messages, api.isLoading, api.error)
      else Button(s.buttonText)
    }

    /** `handleToggle`: flips the state and reports the new one through `onExpand` or `onCollapse`. */
    method HandleToggle()
      modifies this
      ensures isExpanded == !old(isExpanded) && messages == old(messages)
      ensures callbacks == old(callbacks) + ToggleCallbacks(config, isExpanded)
    {
      isExpanded := !isExpanded;
      callbacks := callbacks + ToggleCallbacks(config, isExpanded);
    }

    /** The collapsed button's click: expands without calling `onExpand`. */
    method ButtonClick()
      requires !isExpanded
      modifies this
      ensures isExpanded && messages == old(messages) && callbacks == old(callbacks)
    {
      isExpanded := true;
    }

    /** The document's `keydown` listener: Escape toggles, but only while expanded. */
    method KeyDown(key: string)
      modifies this
      ensures if key == "Escape" && old(isExpanded) then
          !isExpanded && callbacks == old(callbacks) + ToggleCallbacks(config, false)
        else isExpanded == old(isExpanded) && callbacks == old(callbacks)
      ensures messages == old(messages)
    {
      if key == "Escape" && isExpanded {
        HandleToggle();
      }
    }

    /**
     * `handleSendMessage(text)` up to its `await`: appends the user message,
     * reports it through `onMessage`, and starts the request whose history is
     * the list as it was before that message.
     */
    method SendMessage(text: string, now: nat, clock: int, isoTime: string) returns (req: Request)
      modifies this, api
      ensures var user := WidgetMessage(NatToString(now), text, "user", clock);
        && messages == old(messages) + [user]
        && callbacks == old(callbacks) + (if config.onMessage then [Message(user)] else [])
      ensures req == BuildRequest(api.endpoint, api.apiKey, text, old(messages), isoTime)
      ensures req.history == HistoryPayload(old(messages))
      ensures api.isLoading && api.error == None && isExpanded == old(isExpanded)
    {
      var user := WidgetMessage(NatToString(now), text, "user", clock);
      var history := messages;
      messages := messages + [user];
      if config.onMessage {
        callbacks := callbacks + [Message(user)];
      }
      req := api.Begin(text, history, isoTime);
    }

    /**
     * The rest of `handleSendMessage`, once `fetch` produced `outcome`: on a
     * reply exactly one AI message with it is appended (after whatever the
     * list holds by then) and reported; on a failure nothing is appended and
     * nothing escapes, only the hook's error is set.
     */
    method ReceiveReply(outcome: FetchOutcome, now: nat, clock: int)
      modifies this, api
      ensures var r := Settle(outcome);
        if r.Success? then
          var ai := WidgetMessage(NatToString(now + 1), r.value, "ai", clock);
          && messages == old(messages) + [ai]
          && callbacks == old(callbacks) + (if config.onMessage then [Message(ai)] else [])
          && api.error == old(api.error)
        else
          && messages == old(messages) && callbacks == old(callbacks)
          && api.error == Some(ErrorText(r.error))
      ensures !api.isLoading && isExpanded == old(isExpanded)
    {
      var r := api.Complete(outcome);
      if r.Success? {
        var ai := WidgetMessage(NatToString(now + 1), r.value, "ai", clock);
        messages := messages + [ai];
        if config.onMessage {
          callbacks := callbacks + [Message(ai)];
        }
      }
    }
  }

  /** `onExpand` for a new expanded state, `onCollapse` for a collapsed one, when given. */
  function ToggleCallbacks(c: WidgetManager.WidgetConfig, expanded: bool): (r: seq<Callback>)
    ensures |r| <= 1
    ensures forall x :: x in r ==> x == (if expanded then Expanded else Collapsed)
    ensures r == [Expanded] <==> expanded && c.onExpand
    ensures r == [Collapsed] <==> !expanded && c.onCollapse
  {
    if expanded then (if c.onExpand then [Expanded] else [])
    else (if c.onCollapse then [Collapsed] else [])
  }

  /**
   * A send whose reply arrives before anything else happens leaves the user
   * message and the AI reply as the last two messages, in that order, and
   * clears the loading state.
   */
  method SendThenReply(w: Widget, text: string, now: nat, clock: int, isoTime: string, outcome: FetchOutcome)
    requires Settle(outcome).Success?
    modifies w, w.api
    ensures |w.messages| == |old(w.messages)| + 2
    ensures w.messages[..|old(w.messages)|] == old(w.messages)
    ensures w.messages[|old(w.messages)|].sender == "user" && w.messages[|old(w.messages)|].text == text
    ensures w.messages[|old(w.messages)| + 1].sender == "ai" && w.messages[|old(w.messages)| + 1].text == Settle(outcome).value
    ensures !w.api.isLoading && w.api.error == None
  {
    var req := w.SendMessage(text, now, clock, isoTime);
    w.ReceiveReply(outcome, now, clock);
  }
}
