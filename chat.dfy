/**
 * The chat panel: the input box trims what the user typed and never sends a blank
 * question; the panel records the user's turn before the backend answers, adds
 * the assistant's turn only for a well-typed successful reply, and never rolls
 * back or reorders earlier turns.
 */
module Chat {
  import opened Wrappers
  import opened Common
  import Page

  /** The characters `String.prototype.trim` removes: white space and line terminators. */
  predicate IsJsWhitespace(c: char)
  {
    c == '\t' || c == '\n' || c == '\U{B}' || c == '\U{C}' || c == '\r' || c == ' '
    || c == '\U{A0}' || c == '\U{1680}' || ('\U{2000}' <= c <= '\U{200A}')
    || c == '\U{2028}' || c == '\U{2029}' || c == '\U{202F}' || c == '\U{205F}'
    || c == '\U{3000}' || c == '\U{FEFF}'
  }

  predicate Blank(s: string)
  {
    forall k :: 0 <= k < |s| ==> IsJsWhitespace(s[k])
  }

  /** Leading white space removed: a suffix of `s`, everything cut off is white space. */
  function TrimStart(s: string): (r: string)
    ensures |r| <= |s| && r == s[|s| - |r|..]
    ensures Blank(s[..|s| - |r|])
    ensures r != [] ==> !IsJsWhitespace(r[0])
    decreases |s|
  {
    if s != [] && IsJsWhitespace(s[0]) then
      var r := TrimStart(s[1..]);
      assert s[..|s| - |r|] == [s[0]] + s[1..][..|s| - 1 - |r|];
      r
    else s
  }

  /** Trailing white space removed: a prefix of `s`, everything cut off is white space. */
  function TrimEnd(s: string): (r: string)
    ensures |r| <= |s| && r == s[..|r|]
    ensures Blank(s[|r|..])
    ensures r != [] ==> !IsJsWhitespace(r[|r| - 1])
    decreases |s|
  {
    if s != [] && IsJsWhitespace(s[|s| - 1]) then
      var r := TrimEnd(s[..|s| - 1]);
      assert s[|r|..] == s[..|s| - 1][|r|..] + [s[|s| - 1]];
      r
    else s
  }

  function Trim(s: string): string
  {
    TrimEnd(TrimStart(s))
  }

  /** What trimming leaves is empty exactly when the input is all white space. */
  lemma TrimEmptyIffBlank(s: string)
    ensures Trim(s) == [] <==> Blank(s)
  {
    var t := TrimStart(s);
    if Trim(s) == [] {
      assert Blank(t) by {
        assert t[|TrimEnd(t)|..] == t;
      }
      assert s == s[..|s| - |t|] + t;
    } else {
      assert t != [];
      var k := |s| - |t|;
      assert s[k] == t[0] && !IsJsWhitespace(s[k]);
    }
  }

  /** The text box of the chat panel. */
  class Input {
    var inputText: string

    constructor ()
      ensures inputText == ""
    {
      inputText := "";
    }

    /** The send button is disabled while thinking or while the box holds only white space. */
    predicate SendDisabled(isThinking: bool)
      reads this
    {
      Trim(inputText) == [] || isThinking
    }

    /** The send action: a blank box sends nothing and keeps its text; otherwise the trimmed text goes and the box clears. */
    method HandleSend() returns (sent: Option<string>)
      modifies this
      ensures Blank(old(inputText)) ==> sent.None? && inputText == old(inputText)
      ensures !Blank(old(inputText)) ==> sent == Some(Trim(old(inputText))) && sent.value != [] && inputText == ""
      ensures sent.None? <==> old(SendDisabled(false))
    {
      TrimEmptyIffBlank(inputText);
      var message := Trim(inputText);
      if |message| == 0 {
        return None;
      }
      sent := Some(message);
      inputText := "";
    }

    /** Enter without Shift sends as the button does (whatever the thinking state); any other key does nothing here. */
    method HandleKeyDown(key: string, shiftKey: bool) returns (sent: Option<string>)
      modifies this
      ensures key == "Enter" && !shiftKey && !Blank(old(inputText)) ==>
                sent == Some(Trim(old(inputText))) && inputText == ""
      ensures !(key == "Enter" && !shiftKey) || Blank(old(inputText)) ==>
                sent.None? && inputText == old(inputText)
    {
      sent := None;
      if key == "Enter" && !shiftKey {
        sent := HandleSend();
      }
    }
  }

  function HumanTurn(text: string): ChatMessage
  {
    ChatMessage("human", text)
  }

  function ChatRequest(text: string): Request
  {
    Request("api/chat", Fields(map["question" := StrArg(text)]), Some(60000))
  }

  /** The assistant's turn of a reply: present only for `state` with string `role` and `message`. */
  function Answer(response: RequestMessage): (a: Option<ChatMessage>)
    ensures a.Some? <==> response.state && StringArg(response.additionArgs, "role").Some?
                         && StringArg(response.additionArgs, "message").Some?
    ensures a.Some? ==> response.additionArgs["role"] == StrArg(a.value.role)
                        && response.additionArgs["message"] == StrArg(a.value.message)
  {
    var role := StringArg(response.additionArgs, "role");
    var message := StringArg(response.additionArgs, "message");
    if response.state && role.Some? && message.Some? then Some(ChatMessage(role.value, message.value)) else None
  }

  /** The chat panel and its thinking flag. */
  class Panel {
    var isThinking: bool
    const session: Page.Session

    constructor (session: Page.Session)
      ensures this.session == session && !isThinking
    {
      this.session := session;
      isThinking := false;
    }

    /** The part of `handleSend` before its await: the user's turn is recorded first. */
    method BeginSend(text: string) returns (request: Option<Request>)
      modifies this`isThinking, session`config
      ensures text == [] ==>
                request.None? && isThinking == old(isThinking) && session.config == old(session.config)
      ensures text != [] ==>
                isThinking && request == Some(ChatRequest(text))
                && session.config == old(session.config).(chatHistory := old(session.config).chatHistory + [HumanTurn(text)])
    {
      if |text| == 0 {
        return None;
      }
      isThinking := true;
      var history := session.config.chatHistory;
      history := history + [HumanTurn(text)];
      session.config := session.config.(chatHistory := history);
      request := Some(ChatRequest(text));
    }

    /**
     * The part after the await. Both writes start from `snapshot`, the configuration
     * the handler began with: a usable answer is appended after the user's turn;
     * otherwise nothing is written (the user's turn stays) and the message is shown.
     */
    method CompleteSend(snapshot: DocConfig, text: string, response: RequestMessage)
      returns (alert: Option<string>)
      modifies this`isThinking, session`config
      ensures !isThinking
      ensures Answer(response).Some? ==>
                alert.None?
                && session.config == snapshot.(chatHistory := snapshot.chatHistory + [HumanTurn(text), Answer(response).value])
      ensures Answer(response).None? ==>
                alert == Some(response.message) && session.config == old(session.config)
    {
      var answer := Answer(response);
      if answer.Some? {
        var history := snapshot.chatHistory + [HumanTurn(text)];
        history := history + [answer.value];
        session.config := snapshot.(chatHistory := history);
        alert := None;
      } else {
        alert := Some(response.message);
      }
      isThinking := false;
    }

    /** The whole handler: the history only grows, by the user's turn and, on success, the answer. */
    method HandleSend(text: string, response: RequestMessage)
      returns (request: Option<Request>, alert: Option<string>)
      modifies this`isThinking, session`config
      ensures text == [] ==>
                request.None? && alert.None? && isThinking == old(isThinking)
                && session.config == old(session.config)
      ensures text != [] ==>
                request == Some(ChatRequest(text)) && !isThinking
                && session.config == old(session.config).(chatHistory :=
                     old(session.config).chatHistory + [HumanTurn(text)]
                     + (if Answer(response).Some? then [Answer(response).value] else []))
                && alert == (if Answer(response).Some? then None else Some(response.message))
      ensures old(session.config).chatHistory <= session.config.chatHistory
    {
      var snapshot := session.config;
      alert := None;
      request := BeginSend(text);
      if request.Some? {
        alert := CompleteSend(snapshot, text, response);
      }
    }
  }

  /** Sending "hi" into an empty history and receiving "hello". */
  method ChatScenario(session: Page.Session)
    requires session.config.chatHistory == []
    modifies session
  {
    var panel := new Panel(session);
    var reply := RequestMessage("chat", true, "",
      map["role" := StrArg("assistant"), "message" := StrArg("hello")]);
    var request, alert := panel.HandleSend("hi", reply);
    assert Answer(reply) == Some(ChatMessage("assistant", "hello"));
    assert session.config.chatHistory == [ChatMessage("human", "hi"), ChatMessage("assistant", "hello")];
  }

  /** A blank box sends nothing, so the history cannot change. */
  method BlankInputScenario(input: Input)
    requires Blank(input.inputText)
    modifies input
  {
    var sent := input.HandleSend();
    assert sent.None?;
  }
}
