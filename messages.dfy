/** Chat messages and their projection to the entries of an outgoing request. */
module Messages {

  /** Who wrote a message: Message.SEND_BY_ME or Message.SEND_BY_BOT. */
  datatype Sender = Me | Bot

  /** A message of the conversation: its text and who sent it. */
  datatype Message = Message(text: string, sentBy: Sender)

  /** One element of the request's "messages" array: {"role": …, "content": …}. */
  datatype Entry = Entry(role: string, content: string)

  const UserRole := "user"
  const AssistantRole := "assistant"

  /** Text of the bot message shown while a request is in flight. */
  const PlaceholderText := "处理中..."

  const Placeholder := Message(PlaceholderText, Bot)

  /** jsonObject(message): my messages become the "user" role, all others "assistant"; the text is sent unchanged. */
  function Project(m: Message): (e: Entry)
    ensures e.content == m.text
    ensures e.role == UserRole <==> m.sentBy == Me
    ensures e.role == AssistantRole <==> m.sentBy != Me
  {
    Entry(if m.sentBy == Me then UserRole else AssistantRole, m.text)
  }

  /** Each message projected in turn, order kept. */
  function ProjectAll(s: seq<Message>): (r: seq<Entry>)
    ensures |r| == |s|
    ensures forall i :: 0 <= i < |s| ==> r[i] == Project(s[i])
  {
    if s == [] then [] else [Project(s[0])] + ProjectAll(s[1..])
  }
}
