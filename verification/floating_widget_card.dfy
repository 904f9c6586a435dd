/**
 * The expanded chat card
 * (components/widgets/floating-widget/floating-widget-card.tsx): the input
 * field, the submit guard, the Send button's disabled rule and the transcript
 * it renders. `isLoading`, `messages` and `error` are props; `onSendMessage`
 * calls are recorded.
 */
module FloatingWidgetCard {
  import opened Wrappers
  import opened Text
  import opened WidgetApi

  /** `disabled={isLoading || !input.trim()}`: loading, or nothing but whitespace typed. */
  function SendDisabled(isLoading: bool, input: string): (r: bool)
    ensures r <==> isLoading || AllWhitespace(input)
  {
    isLoading || Trim(input) == ""
  }

  class Card {
    var input: string
    /** The texts passed to `onSendMessage`, in order. */
    var sent: seq<string>

    constructor ()
      ensures input == "" && sent == []
    {
      input := "";
      sent := [];
    }

    /** The input's `onChange`. */
    method Change(value: string)
      modifies this
      ensures input == value && sent == old(sent)
    {
      input := value;
    }

    /**
     * `handleSubmit`: with something other than whitespace typed and no
     * request in flight, sends the trimmed text once and clears the input;
     * otherwise sends nothing and keeps the input. It sends exactly when the
     * Send button is enabled.
     */
    method Submit(isLoading: bool)
      modifies this
      ensures !SendDisabled(isLoading, old(input)) ==> sent == old(sent) + [Trim(old(input))] && input == ""
      ensures SendDisabled(isLoading, old(input)) ==> sent == old(sent) && input == old(input)
      ensures |sent| == |old(sent)| + 1 <==> !isLoading && !AllWhitespace(old(input))
    {
      var trimmed := Trim(input);
      if trimmed != "" && !isLoading {
        sent := sent + [trimmed];
        input := "";
      }
    }
  }

  /** The label a message is shown with. */
  function Label(m: WidgetMessage): (l: string)
    ensures l == "You" <==> m.sender == "user"
    ensures l == "You" || l == "AI"
  {
    if m.sender == "user" then "You" else "AI"
  }

  /** One rendered transcript line. */
  datatype Line = Said(speaker: string, text: string) | Typing | Alert(error: string)

  /**
   * The log's lines: each message with its label in list order, then the
   * typing line while loading, then the error line when there is a
   * (non-empty) error.
   */
  function Transcript(messages: seq<WidgetMessage>, isLoading: bool, error: Option<string>): (r: seq<Line>)
    ensures |r| == |messages| + (if isLoading then 1 else 0) + (if error.Some? && error.value != "" then 1 else 0)
    ensures isLoading ==> r[|messages|] == Typing
    ensures error.Some? && error.value != "" ==> r[|r| - 1] == Alert(error.value)
    ensures forall i :: 0 <= i < |messages| ==> r[i] == Said(Label(messages[i]), messages[i].text)
    ensures Typing in r <==> isLoading
    ensures (exists e :: Alert(e) in r) <==> error.Some? && error.value != ""
    ensures forall e :: Alert(e) in r ==> error == Some(e)
  {
    var said := Lines(messages);
    TailLines(said, isLoading, error);
    said + TailOf(isLoading, error)
  }

  /** The typing indicator and the error banner that follow the messages. */
  function TailOf(isLoading: bool, error: Option<string>): seq<Line> {
    (if isLoading then [Typing] else []) + (if error.Some? && error.value != "" then [Alert(error.value)] else [])
  }

  /** Behind lines that are all messages, the tail alone decides what else is shown. */
  lemma TailLines(said: seq<Line>, isLoading: bool, error: Option<string>)
    requires forall i :: 0 <= i < |said| ==> said[i].Said?
    ensures |said + TailOf(isLoading, error)| == |said| + (if isLoading then 1 else 0) + (if error.Some? && error.value != "" then 1 else 0)
    ensures isLoading ==> (said + TailOf(isLoading, error))[|said|] == Typing
    ensures error.Some? && error.value != "" ==> (said + TailOf(isLoading, error))[|said + TailOf(isLoading, error)| - 1] == Alert(error.value)
    ensures Typing in said + TailOf(isLoading, error) <==> isLoading
    ensures (exists e :: Alert(e) in said + TailOf(isLoading, error)) <==> error.Some? && error.value != ""
    ensures forall e :: Alert(e) in said + TailOf(isLoading, error) ==> error == Some(e)
  {
    var r := said + TailOf(isLoading, error);
    if error.Some? && error.value != "" {
      assert r[|r| - 1] == Alert(error.value);
    }
    if isLoading {
      assert r[|said|] == Typing;
    }
  }

  function Lines(messages: seq<WidgetMessage>): (r: seq<Line>)
    ensures |r| == |messages|
    ensures forall i :: 0 <= i < |messages| ==> r[i] == Said(Label(messages[i]), messages[i].text)
  {
    if messages == [] then [] else [Said(Label(messages[0]), messages[0].text)] + Lines(messages[1..])
  }
}
