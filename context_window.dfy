/**
 * The context window (getLastSevenMessages) and the request body that
 * prepareRequestBody builds from it, both as the code computes it and as
 * the window was meant to be used.
 */
module ContextWindow {
  import opened Messages

  /** How many messages a request may carry. */
  const WindowSize := 7

  function Min(a: int, b: int): int {
    if a <= b then a else b
  }

  predicate IsSuffix<T(==)>(r: seq<T>, s: seq<T>) {
    |r| <= |s| && r == s[|s| - |r|..]
  }

  /** getLastSevenMessages: the newest min(7, |s|) messages, in their original order. */
  function Window(s: seq<Message>): (r: seq<Message>)
    ensures |r| == Min(WindowSize, |s|)
    ensures IsSuffix(r, s)
  {
    if |s| <= WindowSize then s else s[|s| - WindowSize..]
  }

  /** The length and the suffix property determine the window: it is whole for a short history, and the last seven otherwise. */
  lemma WindowUnique(s: seq<Message>, r: seq<Message>)
    requires |r| == Min(WindowSize, |s|) && IsSuffix(r, s)
    ensures r == Window(s)
    ensures |s| <= WindowSize ==> r == s
    ensures |s| > WindowSize ==> r == s[|s| - WindowSize..]
  {
  }

  /**
   * prepareRequestBody as written: the loop runs over the window's length
   * but reads messageList.get(i), so entry i is the projection of the
   * i-th message of the WHOLE history, counted from the oldest.
   */
  function RequestEntries(s: seq<Message>): (r: seq<Entry>)
    ensures |r| == Min(WindowSize, |s|)
    ensures forall i :: 0 <= i < |r| ==> r[i] == Project(s[i])
  {
    ProjectAll(s[..|Window(s)|])
  }

  /** The request the window was built for: the projection of the newest seven messages. */
  function IntendedRequestEntries(s: seq<Message>): (r: seq<Entry>)
    ensures |r| == Min(WindowSize, |s|)
    ensures forall i :: 0 <= i < |r| ==> r[i] == Project(s[|s| - |r| + i])
  {
    ProjectAll(Window(s))
  }

  /** Up to seven messages, both readings send the whole history. */
  lemma {:induction false} RequestEntriesShort(s: seq<Message>)
    requires |s| <= WindowSize
    ensures RequestEntries(s) == IntendedRequestEntries(s)
    ensures RequestEntries(s) == ProjectAll(s)
  {
    assert s[..|s|] == s;
  }

  /**
   * As written, once the history holds seven messages, whatever is
   * appended next (in particular the question just asked) does not
   * reach the request: it carries the seven oldest messages.
   */
  lemma {:induction false} RequestIgnoresNewest(s: seq<Message>, m: Message)
    requires |s| >= WindowSize
    ensures RequestEntries(s + [m]) == RequestEntries(s)
    ensures RequestEntries(s + [m]) == ProjectAll(s[..WindowSize])
  {
    var a, b := RequestEntries(s + [m]), RequestEntries(s);
    assert |a| == |b| == WindowSize;
    forall i | 0 <= i < WindowSize ensures a[i] == b[i] {
      assert (s + [m])[i] == s[i];
    }
  }

  /** The corrected request always ends with the newest message. */
  lemma IntendedEndsWithNewest(s: seq<Message>, m: Message)
    ensures |IntendedRequestEntries(s + [m])| > 0
    ensures IntendedRequestEntries(s + [m])[|IntendedRequestEntries(s + [m])| - 1] == Project(m)
  {
  }

  /** An eight-message history on which the code and its evident intent disagree. */
  lemma RequestDiffersFromWindow()
    ensures var s := [Message("q1", Me), Message("a1", Bot), Message("q2", Me), Message("a2", Bot),
                      Message("q3", Me), Message("a3", Bot), Message("q4", Me), Message("a4", Bot)];
            RequestEntries(s)[0] == Entry(UserRole, "q1") &&
            IntendedRequestEntries(s)[0] == Entry(AssistantRole, "a1") &&
            RequestEntries(s) != IntendedRequestEntries(s)
  {
  }
}
