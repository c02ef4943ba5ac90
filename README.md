# Simple chat client: conversation core

A model of the conversation logic of a single-screen Android chat client
(`MainActivity`). The activity keeps the conversation in a message list.
When the user sends a question, it does four things in order:

1. It appends the trimmed question as "my" message.
2. It builds a request from a window of at most seven messages.
3. It appends a bot placeholder "处理中...".
4. It replaces that placeholder with the reply, or with a failure text, when
   the network call ends.

The send button is enabled only while the input field holds something other
than whitespace.

Modules, leaves first:

- `Wrappers` holds `Option` and `Result`. `Option` stands for Java's nullable values and `Result` for thrown exceptions.
- `JavaString` models `String.trim` as Java defines it. It strips characters up to U+0020 from both ends. It also defines the blankness test that the text watcher makes.
- `Messages` holds the sender, the message, a request entry `{role, content}` and the projection of a message to an entry (`jsonObject`).
- `ContextWindow` holds the window (`getLastSevenMessages`). It also holds the request entries two ways: as `prepareRequestBody` computes them, and as the window was evidently meant to be used.
- `Outcomes` represents how the network call ends as an `Outcome` and gives the text the callbacks put in place of the placeholder.
- `ChatActivity` holds the class `MainActivity`. Its fields are the message list, the input text, the button's enabled flag and whether the click listener has been installed. It has one method per step: `addToChat`, `addResponse`, `prepareRequestBody`, `callAPI`, `onTextChanged`, the click handler, and the `onFailure`/`onResponse` callbacks. It also has `TypeAndClick` (the user types and clicks) and `UserTurn` (that, followed by the network callback), which chain these steps the way the framework drives one user turn.

Three behaviours of the code are kept as written:

- The request carries the seven oldest messages, not the seven newest (see Findings).
- The HTTP failure text has no space after "due to".
- A malformed success body throws inside the callback before `addResponse` runs, so the list is not changed before the throw and the placeholder is still its last message.

## Model

| member | source | states |
|---|---|---|
| JavaString.LeadingCount | app/src/main/java/com/app/chatgpt/MainActivity.java:86 | the count of leading characters `trim` cuts: all of them are at most U+0020, and the next character, if any, is not |
| JavaString.TrailingCount | app/src/main/java/com/app/chatgpt/MainActivity.java:86 | the same count for the trailing end |
| JavaString.Trim | app/src/main/java/com/app/chatgpt/MainActivity.java:86 | `trim` returns the infix of the input that starts after the leading run; everything cut off on either side is whitespace or control; the result neither starts nor ends with such a character |
| JavaString.BlankIffAllTrimmable | app/src/main/java/com/app/chatgpt/MainActivity.java:80 | `s.trim().length()==0` holds exactly when every character of s is at most U+0020 |
| JavaString.TrimIdempotent | app/src/main/java/com/app/chatgpt/MainActivity.java:193 | trimming an already trimmed text changes nothing |
| Messages.Project | app/src/main/java/com/app/chatgpt/MainActivity.java:126-139 | the role is "user" exactly for my messages and "assistant" exactly for every other sender; the content is the text unchanged |
| Messages.ProjectAll | app/src/main/java/com/app/chatgpt/MainActivity.java:155-157 | one entry per message, in the same order, entry i projecting message i |
| ContextWindow.Window | app/src/main/java/com/app/chatgpt/MainActivity.java:141-148 | the window has length min(7, n) and is a suffix of the list, in original order |
| ContextWindow.WindowUnique | app/src/main/java/com/app/chatgpt/MainActivity.java:142-146 | any suffix of length min(7, n) is the window: the whole list when n <= 7, otherwise exactly the last seven |
| ContextWindow.RequestEntries | app/src/main/java/com/app/chatgpt/MainActivity.java:153-157 | as written: min(7, n) entries, entry i projecting the i-th message counted from the oldest |
| ContextWindow.IntendedRequestEntries | app/src/main/java/com/app/chatgpt/MainActivity.java:141-148 | corrected: min(7, n) entries, entry i projecting the i-th message of the window (the newest seven) |
| ContextWindow.RequestEntriesShort | app/src/main/java/com/app/chatgpt/MainActivity.java:153-157 | up to seven messages, the code's request equals the corrected one and projects the whole history |
| ContextWindow.RequestIgnoresNewest | app/src/main/java/com/app/chatgpt/MainActivity.java:155-156 | as written, once the history holds at least seven messages, appending one more leaves the request unchanged: it is the projection of the seven oldest |
| ContextWindow.IntendedEndsWithNewest | app/src/main/java/com/app/chatgpt/MainActivity.java:141-148 | the corrected request always ends with the projection of the newest message |
| ContextWindow.RequestDiffersFromWindow | app/src/main/java/com/app/chatgpt/MainActivity.java:155-156 | an eight-message history whose request starts with the oldest question instead of the window's first message |
| Outcomes.ReplyText | app/src/main/java/com/app/chatgpt/MainActivity.java:176-199 | a reply text exists exactly when every body field the callback reads is present; a transport failure gives "Failed to connect due to: " and the exception message ("null" when absent); a non-success status gives "Failed to load response due to" and the body description; a success body gives the trimmed "value" when success is true and the trimmed "cause" otherwise; any other case raises MalformedResponse |
| Outcomes.ReplyIsTrimmedField | app/src/main/java/com/app/chatgpt/MainActivity.java:187-193 | a reply from the service carries no surrounding whitespace, is no longer than its field, and is empty exactly when the field is all whitespace |
| Outcomes.FailureTextEndsWithReason | app/src/main/java/com/app/chatgpt/MainActivity.java:177-198 | both failure texts end with the full reason they report |
| Outcomes.BusinessFailureShownAsCause | app/src/main/java/com/app/chatgpt/MainActivity.java:190-193 | a refusal whose cause is "rate limited" is shown exactly as "rate limited" |
| ChatActivity.MainActivity.constructor | app/src/main/java/com/app/chatgpt/MainActivity.java:41-69 | an empty conversation and input, with no click listener yet, so no click is delivered |
| ChatActivity.MainActivity.CanSendIffNotBlank | app/src/main/java/com/app/chatgpt/MainActivity.java:80-85 | once the watcher has run, a click is delivered exactly when the input trims to something non-empty |
| ChatActivity.MainActivity.AddToChat | app/src/main/java/com/app/chatgpt/MainActivity.java:110-119 | the list grows by exactly the new message at the end |
| ChatActivity.MainActivity.AddResponse | app/src/main/java/com/app/chatgpt/MainActivity.java:121-124 | on a non-empty list, the last message is replaced by the bot's response and the rest is kept; on an empty list it fails and nothing changes |
| ChatActivity.MainActivity.PrepareRequestBody | app/src/main/java/com/app/chatgpt/MainActivity.java:150-163 | the loop yields min(7, n) entries, entry i projecting messageList.get(i); this is the corrected request when n <= 7 |
| ChatActivity.MainActivity.CallAPI | app/src/main/java/com/app/chatgpt/MainActivity.java:165-168 | the request is built from the list before the placeholder is appended, so the placeholder is never sent; the list grows by the placeholder only |
| ChatActivity.MainActivity.OnTextChanged | app/src/main/java/com/app/chatgpt/MainActivity.java:78-92 | the button is enabled exactly when the new text is not blank; a non-blank text installs the listener; afterwards a click is delivered exactly when the text trims to something |
| ChatActivity.MainActivity.Click | app/src/main/java/com/app/chatgpt/MainActivity.java:85-90 | a delivered click appends the trimmed, non-empty question and then the placeholder; it sends the request built from the list ending in the question, clears the input and disables the button; an undelivered click changes nothing |
| ChatActivity.MainActivity.ResolveOutcome | app/src/main/java/com/app/chatgpt/MainActivity.java:174-202 | a readable outcome replaces the last message with the bot's reply text; an unreadable body or an empty list leaves the list unchanged and reports the fault |
| ChatActivity.MainActivity.TypeAndClick | app/src/main/java/com/app/chatgpt/MainActivity.java:78-90 | blank text sends nothing, leaves the list unchanged, keeps the text in the field and leaves the button disabled; otherwise the list grows by my trimmed question and the placeholder, the request is built from the list ending in the question, the field is cleared and the button disabled |
| ChatActivity.MainActivity.UserTurn | app/src/main/java/com/app/chatgpt/MainActivity.java:78-199 | blank text sends nothing and leaves the list unchanged; otherwise list L becomes L + [my trimmed question, bot reply] with no placeholder left, and the request is built from L + [question]; an unreadable body leaves L + [question, placeholder] |

## Left out

- Android presentation is not modelled: layout inflation, the RecyclerView, its adapter, change notifications and scrolling. They only display the list.
- The connectivity check and the "No Internet Connection" dialog are platform queries and UI, so they are not modelled.
- The HTTP client, its 60-second timeouts, the request builder and the POST to the endpoint are not modelled. How the call ends is an `Outcome` given as input. `API` and its URL are not part of this model.
- Threading is not modelled: `runOnUiThread` and the callbacks on the HTTP client's worker thread run as sequential steps. On the device, `addResponse` removes the last message on the worker thread and posts the append to the UI thread.
- Two turns in flight at once are not modelled. The model, like the code, lets a second click happen before the first call ends. It then replaces whatever message is last, but no lemma describes such interleavings.
- JSON serialisation and parsing are not modelled. A request is a sequence of `Entry` values and a response body is already decoded. Type coercions in `getBoolean`/`getString` and JSON `null` fall under "field present" or `Malformed`. An `IOException` from reading the body is not modelled.
- `response.body().toString()` prints the body object, not its content. The model takes that text as an opaque `bodyDescription` string.
- The `Message` class and its sender constants are not part of this model. A message is a text and a two-valued `Sender`, and the code's string comparison against `SEND_BY_ME` becomes a comparison with `Me`.
- `getLastSevenMessages` returns the list itself or a `subList` view of it. The model returns a sequence value, so aliasing between the view and the list is not captured.
- The `MalformedResponse` fault stands for the JSONException that `onResponse` rethrows as an uncaught RuntimeException; what that exception does to the running app after it leaves the callback is not modelled.
- ChatActivity.MainActivity.constructor: the initial text of the input field comes from the layout, which is not part of this model, and is taken as empty.

## Findings

| source | as written | input that shows it | evidently intended | confidence | as-written member | corrected member |
|---|---|---|---|---|---|---|
| app/src/main/java/com/app/chatgpt/MainActivity.java:155-156 | the loop runs over the window's length but reads `messageList.get(i)`, so the request carries the seven OLDEST messages; once the history holds seven messages, the question just asked is never sent | eight messages q1, a1, q2, a2, q3, a3, q4, a4: the request starts with q1 instead of a1 (`RequestDiffersFromWindow`); with at least seven messages, every new question leaves the request unchanged (`RequestIgnoresNewest`) | read `list.get(i)`, sending the window of the newest seven, which ends with the new question | high; not executed | ContextWindow.RequestEntries | ContextWindow.IntendedRequestEntries |

The activity model (`PrepareRequestBody`, `CallAPI`, `Click`, `UserTurn`) keeps the code's behaviour, since that is what the program does. `PrepareRequestBody` states that its result equals the corrected request whenever the history holds at most seven messages. `IntendedEndsWithNewest` proves that the corrected request always carries the newest message.
