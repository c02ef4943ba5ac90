/**
 * The activity's conversation state machine: the message list it mutates,
 * the send button that the text watcher enables and disables, the click
 * handler, callAPI and the two network callbacks, run as sequential steps.
 */
module ChatActivity {
  import opened Wrappers
  import opened JavaString
  import opened Messages
  import opened ContextWindow
  import opened Outcomes

  class MainActivity {
    /** messageList */
    var messages: seq<Message>
    /** The text currently in the input field. */
    var input: string
    /** Whether send_btn is enabled. */
    var sendEnabled: bool
    /** Whether the text watcher has installed send_btn's click listener. */
    var listenerSet: bool

    /** Once the watcher has run with some text, the button is enabled exactly when the input is not blank. */
    ghost predicate Valid()
      reads this`input, this`sendEnabled, this`listenerSet
    {
      listenerSet ==> (sendEnabled <==> !IsBlank(input))
    }

    /** A click on send_btn reaches the listener. */
    predicate CanSend()
      reads this`sendEnabled, this`listenerSet
    {
      sendEnabled && listenerSet
    }

    /** onCreate: an empty conversation and input; the button's initial state comes from the layout. */
    constructor (enabledByLayout: bool)
      ensures Valid()
      ensures messages == [] && input == []
      ensures sendEnabled == enabledByLayout && !listenerSet
      ensures !CanSend()
    {
      messages := [];
      input := [];
      sendEnabled := enabledByLayout;
      listenerSet := false;
    }

    /** The gate: a click is delivered exactly when the watcher has run and the input trims to something. */
    lemma CanSendIffNotBlank()
      requires Valid() && listenerSet
      ensures CanSend() <==> Trim(input) != []
    {
    }

    /** addToChat: append one message. */
    method AddToChat(text: string, sentBy: Sender)
      modifies this`messages
      ensures messages == old(messages) + [Message(text, sentBy)]
    {
      messages := messages + [Message(text, sentBy)];
    }

    /**
     * addResponse: drop the last message and append the bot's response.
     * On an empty list remove(size()-1) throws and nothing changes.
     */
    method AddResponse(response: string) returns (ok: bool)
      modifies this`messages
      ensures ok <==> |old(messages)| > 0
      ensures ok ==> messages == old(messages)[..|old(messages)| - 1] + [Message(response, Bot)]
      ensures !ok ==> messages == old(messages)
    {
      if |messages| == 0 {
        return false;
      }
      messages := messages[..|messages| - 1];
      AddToChat(response, Bot);
      ok := true;
    }

    /**
     * prepareRequestBody: one entry per message of the window, filled in
     * index by index; entry i projects messageList.get(i).
     */
    method PrepareRequestBody() returns (entries: seq<Entry>)
      ensures |entries| == Min(WindowSize, |messages|)
      ensures forall i :: 0 <= i < |entries| ==> entries[i] == Project(messages[i])
      ensures entries == RequestEntries(messages)
      ensures |messages| <= WindowSize ==> entries == IntendedRequestEntries(messages)
    {
      var list := Window(messages);
      entries := [];
      var i := 0;
      while i < |list|
        invariant i <= |list|
        invariant |entries| == i
        invariant forall k :: 0 <= k < i ==> entries[k] == Project(messages[k])
      {
        entries := entries + [Project(messages[i])];
        i := i + 1;
      }
      ghost var expected := RequestEntries(messages);
      assert forall k :: 0 <= k < |entries| ==> entries[k] == expected[k];
      assert entries == expected;
      if |messages| <= WindowSize {
        RequestEntriesShort(messages);
      }
    }

    /**
     * callAPI: the request body is built first and the placeholder
     * appended after, so the placeholder is never part of the request.
     * The question parameter is not used.
     */
    method CallAPI(question: string) returns (requestBody: seq<Entry>)
      modifies this`messages
      ensures requestBody == RequestEntries(old(messages))
      ensures messages == old(messages) + [Placeholder]
    {
      requestBody := PrepareRequestBody();
      messages := messages + [Placeholder];
    }

    /**
     * onTextChanged with the field's new text s: the button is enabled iff
     * s trims to something, and then the click listener is (re)installed.
     */
    method OnTextChanged(s: string)
      modifies this`input, this`sendEnabled, this`listenerSet
      ensures Valid()
      ensures input == s
      ensures sendEnabled <==> !IsBlank(s)
      ensures listenerSet <==> old(listenerSet) || !IsBlank(s)
      ensures CanSend() <==> Trim(s) != []
    {
      input := s;
      if |Trim(s)| == 0 {
        sendEnabled := false;
      } else {
        sendEnabled := true;
        listenerSet := true;
      }
    }

    /**
     * A click on send_btn. When it reaches the listener, the trimmed
     * question is added as my message, the field is cleared (which runs
     * the watcher with "" and disables the button), and callAPI sends the
     * request and appends the placeholder. The request is returned.
     */
    method Click() returns (sent: Option<seq<Entry>>)
      requires Valid()
      modifies this`messages, this`input, this`sendEnabled, this`listenerSet
      ensures Valid()
      ensures sent.Some? <==> old(CanSend())
      ensures old(CanSend()) ==>
                var question := Message(Trim(old(input)), Me);
                && question.text != []
                && messages == old(messages) + [question, Placeholder]
                && sent.value == RequestEntries(old(messages) + [question])
                && input == [] && !sendEnabled && listenerSet
      ensures !old(CanSend()) ==>
                messages == old(messages) && input == old(input) &&
                sendEnabled == old(sendEnabled) && listenerSet == old(listenerSet)
    {
      if !(sendEnabled && listenerSet) {
        return None;
      }
      var question := Trim(input);
      AddToChat(question, Me);
      OnTextChanged("");
      var body := CallAPI(question);
      sent := Some(body);
    }

    /**
     * onFailure / onResponse: the outcome's reply replaces the last
     * message. An unreadable body throws before addResponse, and so does
     * an empty list inside it; either way the list is left as it was.
     */
    method ResolveOutcome(o: Outcome) returns (r: Result<string, Fault>)
      modifies this`messages
      ensures r.Success? <==> Readable(o) && |old(messages)| > 0
      ensures !Readable(o) ==> r == Failure(MalformedResponse)
      ensures Readable(o) && |old(messages)| == 0 ==> r == Failure(EmptyConversation)
      ensures r.Success? ==> r.value == ReplyText(o).value
      ensures r.Success? ==> messages == old(messages)[..|old(messages)| - 1] + [Message(r.value, Bot)]
      ensures r.Failure? ==> messages == old(messages)
    {
      var reply := ReplyText(o);
      if reply.Failure? {
        return Failure(reply.error);
      }
      var ok := AddResponse(reply.value);
      r := if ok then Success(reply.value) else Failure(EmptyConversation);
    }

    /**
     * The user types text into the field and clicks send_btn. Blank text
     * is not sent: the button stays disabled and the text stays in the
     * field. Otherwise my trimmed question and the placeholder are
     * appended, the request is sent, the field is cleared and the button
     * disabled.
     */
    method TypeAndClick(text: string) returns (sent: Option<seq<Entry>>)
      requires Valid()
      modifies this`messages, this`input, this`sendEnabled, this`listenerSet
      ensures Valid()
      ensures sent.Some? <==> !IsBlank(text)
      ensures IsBlank(text) ==> messages == old(messages)
      ensures IsBlank(text) ==> input == text && !sendEnabled && listenerSet == old(listenerSet)
      ensures !IsBlank(text) ==> input == [] && !sendEnabled && listenerSet
      ensures !IsBlank(text) ==> messages == old(messages) + [Message(Trim(text), Me), Placeholder]
      ensures !IsBlank(text) ==> sent.value == RequestEntries(old(messages) + [Message(Trim(text), Me)])
    {
      OnTextChanged(text);
      sent := Click();
    }

    /**
     * One user turn as the framework drives it: the field's text changes
     * to text, the button is clicked, and the network call ends with o.
     * A blank text sends nothing and leaves the list unchanged. Otherwise
     * the history grows by my trimmed question and the bot reply, with no
     * placeholder left over; an unreadable body leaves the placeholder in
     * place. What the field and the button hold afterwards is stated by
     * TypeAndClick, the first half of the turn.
     */
    method UserTurn(text: string, o: Outcome) returns (sent: Option<seq<Entry>>, r: Option<Result<string, Fault>>)
      requires Valid()
      modifies this`messages, this`input, this`sendEnabled, this`listenerSet
      ensures Valid()
      ensures sent.Some? <==> !IsBlank(text)
      ensures r.Some? <==> sent.Some?
      ensures IsBlank(text) ==> messages == old(messages)
      ensures !IsBlank(text) ==> sent.value == RequestEntries(old(messages) + [Message(Trim(text), Me)])
      ensures !IsBlank(text) && Readable(o) ==> r == Some(Success(ReplyText(o).value))
      ensures !IsBlank(text) && Readable(o) ==>
                messages == old(messages) + [Message(Trim(text), Me), Message(ReplyText(o).value, Bot)]
      ensures !IsBlank(text) && !Readable(o) ==> r == Some(Failure(MalformedResponse))
      ensures !IsBlank(text) && !Readable(o) ==> messages == old(messages) + [Message(Trim(text), Me), Placeholder]
    {
      ghost var start := messages;
      sent := TypeAndClick(text);
      if sent.None? {
        return sent, None;
      }
      ghost var question := Message(Trim(text), Me);
      ghost var pending := messages;
      var resolved := ResolveOutcome(o);
      r := Some(resolved);
      if resolved.Success? {
        assert pending[..|pending| - 1] == start + [question];
      }
    }
  }
}
