# Compeq GPT chat page — verified model of its core

`compeqGPT.py` is a Streamlit page that forwards a user's prompt, an
optional uploaded file and the last two turns of the conversation to a
chat-completion endpoint, and keeps the conversation in the page's
session state. This project models, in Dafny, the logic under the UI:

- `truncate` and the other string steps the page uses (`[:n]`, `strip()`,
  `"\n".join`, `startswith`) — module `Strings` (`strings.dfy`);
- `extract_file_content`: the dispatch on the declared media type to an
  image, a text excerpt of at most 1500 characters, or "unsupported" —
  module `FileExtract` (`file_extract.dfy`). The decoding libraries are the
  fields of a `Decoders` value;
- the construction of the outbound message list (last two turns, each
  question and answer cut to 1000 characters, then one user message for the
  current prompt whose shape depends on the file) — module `Messages`
  (`messages.dfy`), as a method with a loop proved equal to the function
  `Outbound`, whose properties are lemmas;
- the chat history in session state, a class whose `Append` pushes one
  `{提問, 回覆}` turn, and `Submit`, one round of the page (extract, build,
  ask, append) — module `Chat` (`chat.dfy`);
- the JSON envelope built by `create_json_file` — module `JsonExport`
  (`json_export.dfy`), with a decoder for JSON string bodies (section 7 of
  RFC 8259) and a corrected escaper (see Findings).

The page keeps one flat history list: there are no named sessions, no
system instruction and no summary of older turns. The Word branch joins
every paragraph. A text excerpt longer than 1500 characters is cut to
exactly 1500 characters, with no ellipsis. A small module `Optional`
(`optional.dfy`) holds the `Option` type the other modules share.

## Model

| member | source | states |
|---|---|---|
| `Strings.Truncate` | compeqGPT.py:50-51 | a string of at most `maxLen` characters is returned as is; a longer one becomes exactly `maxLen + 3` characters ending in "..."; the result never exceeds `maxLen + 3` and agrees with the input on its first `maxLen` positions |
| `Strings.TruncateIdempotent` | compeqGPT.py:50-51 | truncating twice with the same bound gives the same string as truncating once |
| `Strings.TruncateKeepsPrefix` | compeqGPT.py:51 | the first `min(|s|, maxLen)` characters of the result are the first characters of `s` |
| `Strings.TruncateFitsIff` | compeqGPT.py:51 | the result fits in `maxLen` characters exactly when the input did |
| `Strings.Cut` | compeqGPT.py:37-46 | `s[:n]` is a prefix of `s` of length `min(|s|, n)`: all of `s` when it fits, exactly `n` characters otherwise |
| `Strings.TrimStart` | compeqGPT.py:37 | the result is a suffix of the input, everything removed is whitespace, and it does not start with whitespace |
| `Strings.TrimEnd` | compeqGPT.py:43 | the result is a prefix of the input, everything removed is whitespace, and it does not end with whitespace |
| `Strings.Strip` | compeqGPT.py:37 | `strip()` returns the slice of `s` that follows its leading whitespace, everything removed before and after it is whitespace, and the result has no whitespace at either end |
| `Strings.StripUnchanged` | compeqGPT.py:43 | text without whitespace at its ends is left as it is by `strip()` |
| `Strings.Join` | compeqGPT.py:42 | `"\n".join(paragraphs)` begins with the first paragraph, ends with the last, is a single paragraph unchanged, and its length is the paragraphs' total plus one separator between each pair |
| `Strings.Concat` | compeqGPT.py:35-36 | the page texts joined by `text += page.get_text()` have the pages' total length and begin with the first page's text |
| `Strings.StartsWith` | compeqGPT.py:26 | `startswith(prefix)` holds exactly when the text is at least as long as the prefix and its first characters are the prefix |
| `FileExtract.TextTypesAreNotImages` | compeqGPT.py:26-46 | none of the four text media types starts with "image/", so the image test never shadows them |
| `FileExtract.Extract` | compeqGPT.py:24-47 | an "image/…" type gives an image holding the PNG re-encoding; exactly the four PDF, plain-text, Word and Excel types give text, of at most 1500 characters; every other type gives "unsupported" |
| `FileExtract.ExcerptIsPrefix` | compeqGPT.py:37-46 | a text excerpt is a prefix of the decoded (and for PDF and Word, stripped) text: all of it up to 1500 characters, exactly 1500 characters beyond |
| `FileExtract.ContentOf` | compeqGPT.py:58 | without an upload there is no file content; with one it is the extractor's result |
| `FileExtract.ExtractFileContent` | compeqGPT.py:24-47 | the extractor with the PDF page loop (`text += page.get_text()`) computes exactly `Extract` |
| `Messages.Window` | compeqGPT.py:68 | `chat_history[-2:]` is the last `min(|history|, 2)` turns, in chronological order |
| `Messages.HistoryMessages` | compeqGPT.py:68-70 | the turns give two messages each; the position and content of each is stated by `Messages.HistoryMessagesAt` |
| `Messages.HistoryMessagesAt` | compeqGPT.py:68-70 | turn `k` of the window yields message `2k`, a user message with its question cut to 1000 characters, and message `2k+1`, an assistant message with its answer cut to 1000 characters |
| `Messages.HistoryRolesAlternate` | compeqGPT.py:68-70 | the history part has two messages per turn, user at even positions and assistant at odd ones |
| `Messages.CurrentTurn` | compeqGPT.py:72-84 | the current-turn message is from the user; with an image it holds the prompt cut to 1000 and the PNG data URI; with text it is the prompt, the label and the excerpt together cut to 1500 characters (so at most 1503); with no file or an unsupported one it is the prompt cut to 1000 |
| `Messages.TextTurnKeepsPrompt` | compeqGPT.py:82 | with a text file the message starts with the whole prompt when the prompt has at most 1500 characters, and is prompt, label and excerpt uncut when they fit in 1500 together |
| `Messages.Outbound` | compeqGPT.py:66-84 | the list has two messages per turn of the window plus one, and ends with the current turn; `Messages.OutboundShape` and `Messages.OutboundHistoryContents` state the rest |
| `Messages.OutboundShape` | compeqGPT.py:66-84 | the list has `2·min(|history|, 2) + 1` messages, alternating user and assistant, and its last message is the user's current turn |
| `Messages.OutboundHistoryContents` | compeqGPT.py:68-70 | messages `2k` and `2k+1` are the truncated question and answer of the `k`-th of the last two turns, oldest first |
| `Messages.OlderTurnsIgnored` | compeqGPT.py:68 | prepending any older turns to a history of at least two turns does not change the list |
| `Messages.BuildMessages` | compeqGPT.py:66-84 | the loop that appends two messages per recent turn and then the current turn produces exactly `Outbound` |
| `Chat.ChatState.constructor` | compeqGPT.py:20-21 | the history starts empty |
| `Chat.ChatState.Append` | compeqGPT.py:101 | the history grows by exactly one turn, `(prompt, reply)`, at its end; all earlier turns are unchanged |
| `Chat.ChatState.Submit` | compeqGPT.py:57-101 | for a non-empty prompt (the guard at line 57), the messages are built from the history before the turn and the extracted upload; the reply is the endpoint's answer to those messages; the history then gains `(prompt, reply)` |
| `Chat.NextWindowEndsWithNewTurn` | compeqGPT.py:101 | after an append, the next window is the previous last turn (if any) followed by the new turn |
| `Chat.NextRequestRecallsTurn` | compeqGPT.py:68-70 | the next request's two messages before the current turn are the new turn's question and answer, each cut to 1000 characters |
| `JsonExport.ReplaceChar` | compeqGPT.py:117 | when the replacement does not contain the replaced character, no occurrence of it is left |
| `JsonExport.Escape` | compeqGPT.py:117 | the replace chain equals escaping each character once; its result has no newline and every quote in it follows a backslash |
| `JsonExport.EscapeIsOnePass` | compeqGPT.py:117 | replacing quotes and then newlines equals escaping each character once (quote to `\"`, newline to `\n`) |
| `JsonExport.EscapeOnePassFacts` | compeqGPT.py:117 | the escaped text holds no newline, and each double quote in it is preceded by a backslash |
| `JsonExport.JsonEnvelope` | compeqGPT.py:116-118 | the envelope is `{"response": "`, then the content escaped character by character (quote to `\"`, newline to `\n`, everything else as is), then `"}`; that body has no newline and every quote in it follows a backslash |
| `JsonExport.BackslashNotEscaped` | compeqGPT.py:117 | as written, a literal backslash followed by `n` and a newline give the same envelope, which reads back as a newline |
| `JsonExport.TabNotEscaped` | compeqGPT.py:117 | as written, a tab is left bare and the body is not a valid JSON string |
| `JsonExport.JsonStringRoundTrip` | compeqGPT.py:117 | the corrected escaper's output decodes back to exactly the input text, for every text |
| `JsonExport.JsonEnvelopeFixed` | compeqGPT.py:116-118 | the corrected envelope keeps the fixed opening and closing, and its body decodes to the content |
| `JsonExport.FixedAgreesWithSource` | compeqGPT.py:117 | on text without backslashes and without control characters other than newlines, the corrected escaper writes what the source writes |

## Left out

- Streamlit presentation: page setup, title, file uploader, chat bubbles, image preview, spinner, sidebar buttons and the history display (compeqGPT.py:16-17, 54, 60-63, 98-99, 129-141).
- The completion call and its exception handler (compeqGPT.py:87-96): a remote network call. `Submit` takes the endpoint as a function `complete` from the message list to the reply string; the text of the error branch is just another such string.
- The decoding libraries (PIL, PyMuPDF, python-docx, pandas, UTF-8 decoding; compeqGPT.py:27-30, 34-36, 39, 41-42, 45): fields of `Decoders`, total functions. Their exceptions on malformed files, which the page does not catch, are not modelled.
- The image preview handle returned for images (compeqGPT.py:31): it only feeds the UI; `Image` keeps the PNG bytes.
- Base64 encoding of the PNG for the data URI (compeqGPT.py:78): a library call, given to the builder as the function `encode`.
- Word, TXT and Excel export buffers, the `BytesIO`/UTF-8 step of `create_json_file`, and the transcript join that feeds the downloads (compeqGPT.py:104-114, 118, 120-126, 130): library and I/O work.
- `Strings.Truncate`: `max_len` is a natural number; Python's meaning of a negative `max_len` is not modelled, since the page only passes 1000 and 1500.
- `JsonExport.Unescape`: a `\u` escape naming a surrogate is rejected rather than combined with its pair; the corrected escaper never writes one.

## Findings

| source | as written | input that shows it | evidently intended | confidence | as-written member | corrected member |
|---|---|---|---|---|---|---|
| compeqGPT.py:117 | only `"` and newline are escaped; a backslash in the transcript is copied bare | a reply containing a backslash followed by `n` (a Windows path such as `C:\new`) gives the same envelope as one with a newline there, and a JSON reader returns the newline | the envelope's `response` reads back as the transcript, so a backslash is escaped as `\\` | medium, not executed | `JsonExport.BackslashNotEscaped` | `JsonExport.JsonStringRoundTrip` |
| compeqGPT.py:117 | control characters other than newline (tab, carriage return, …) are copied bare | a reply containing a tab gives a body that is not a valid JSON string | every control character is escaped (`\u00XX`), so the file is valid JSON | medium, not executed | `JsonExport.TabNotEscaped` | `JsonExport.JsonStringRoundTrip` |
