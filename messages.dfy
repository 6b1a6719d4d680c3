/** The outbound message list of compeqGPT.py: the last two turns of the
    chat history, each as a user message and an assistant message cut to
    1000 characters, followed by one user message for the current prompt
    and the uploaded file, if any. */
module Messages {
  import opened Strings
  import opened FileExtract

  /** One entry of the chat history: `{"提問": question, "回覆": answer}`. */
  datatype Turn = Turn(question: string, answer: string)

  datatype Role = User | Assistant

  /** A message's content: a plain string, or a text part with an image part
      given by its data URI. */
  datatype Content = Plain(text: string) | TextWithImage(text: string, imageUrl: string)

  datatype Message = Message(role: Role, content: Content)

  /** Number of past turns sent along with the prompt (`chat_history[-2:]`). */
  const WindowSize: nat := 2
  /** Default `max_len` of `truncate`: the bound on each history message and
      on the prompt when it carries no text file. */
  const DefaultMaxLen: nat := 1000
  /** Bound on the prompt together with a text file's excerpt. */
  const CombinedLimit: nat := 1500
  /** Label put between the prompt and a text file's excerpt. */
  const FileLabel: string := "\n\n以下是檔案內容：\n"
  /** Prefix of the data URI that carries a PNG image. */
  const PngDataPrefix: string := "data:image/png;base64,"

  /** `chat_history[-2:]`: the last two turns, or all of them when there are fewer. */
  function Window(history: seq<Turn>): (w: seq<Turn>)
    ensures |w| == if |history| < WindowSize then |history| else WindowSize
    ensures w == history[|history| - |w|..]
  {
    if |history| <= WindowSize then history else history[|history| - WindowSize..]
  }

  /** A user message and an assistant message for each turn, in order. */
  function HistoryMessages(turns: seq<Turn>): (r: seq<Message>)
    ensures |r| == 2 * |turns|
  {
    if |turns| == 0 then []
    else
      var last := turns[|turns| - 1];
      HistoryMessages(turns[..|turns| - 1])
        + [Message(User, Plain(Truncate(last.question, DefaultMaxLen))),
           Message(Assistant, Plain(Truncate(last.answer, DefaultMaxLen)))]
  }

  /** Turn `k` becomes messages `2k` (its question, from the user) and
      `2k + 1` (its answer, from the assistant), each cut to 1000 characters. */
  lemma {:induction false} HistoryMessagesAt(turns: seq<Turn>, k: nat)
    requires k < |turns|
    ensures |HistoryMessages(turns)| == 2 * |turns|
    ensures HistoryMessages(turns)[2 * k] == Message(User, Plain(Truncate(turns[k].question, DefaultMaxLen)))
    ensures HistoryMessages(turns)[2 * k + 1] == Message(Assistant, Plain(Truncate(turns[k].answer, DefaultMaxLen)))
  {
    var init := turns[..|turns| - 1];
    if k < |turns| - 1 {
      HistoryMessagesAt(init, k);
      assert init[k] == turns[k];
    } else if |init| > 0 {
      HistoryMessagesAt(init, 0);
    }
  }

  /** The history messages alternate: user at even positions, assistant at odd ones. */
  lemma {:induction false} HistoryRolesAlternate(turns: seq<Turn>)
    ensures |HistoryMessages(turns)| == 2 * |turns|
    ensures forall i :: 0 <= i < |HistoryMessages(turns)| ==>
      HistoryMessages(turns)[i].role == (if i % 2 == 0 then User else Assistant)
  {
    if |turns| > 0 {
      var init := turns[..|turns| - 1];
      HistoryRolesAlternate(init);
      var n := 2 * |init|;
      assert n % 2 == 0 && (n + 1) % 2 == 1;
    }
  }

  /** The message for the current turn (source lines 72-84). */
  function CurrentTurn(prompt: string, file: FileContent, encode: Bytes -> string): (m: Message)
    ensures m.role == User
    ensures file.Image? ==>
      m.content == TextWithImage(Truncate(prompt, DefaultMaxLen), PngDataPrefix + encode(file.png))
    ensures file.Text? ==> m.content == Plain(Truncate(prompt + FileLabel + file.text, CombinedLimit))
    ensures file.Text? ==> |m.content.text| <= CombinedLimit + |Ellipsis|
    ensures (file.NoFile? || file.Unsupported?) ==> m.content == Plain(Truncate(prompt, DefaultMaxLen))
  {
    match file
    case Image(png) =>
      Message(User, TextWithImage(Truncate(prompt, DefaultMaxLen), PngDataPrefix + encode(png)))
    case Text(text) =>
      Message(User, Plain(Truncate(prompt + FileLabel + text, CombinedLimit)))
    case _ =>
      Message(User, Plain(Truncate(prompt, DefaultMaxLen)))
  }

  /** With a text file, the message starts with the prompt whenever the
      prompt fits in 1500 characters, and carries the whole excerpt after
      the label whenever prompt, label and excerpt fit together. */
  lemma TextTurnKeepsPrompt(prompt: string, text: string, encode: Bytes -> string)
    ensures var c := CurrentTurn(prompt, Text(text), encode).content.text;
      (|prompt| <= CombinedLimit ==> prompt <= c)
      && (|prompt + FileLabel + text| <= CombinedLimit ==> c == prompt + FileLabel + text)
  {
    var full := prompt + FileLabel + text;
    var c := CurrentTurn(prompt, Text(text), encode).content.text;
    if |prompt| <= CombinedLimit {
      assert full[..|prompt|] == prompt;
      if |full| > CombinedLimit {
        assert c[..|prompt|] == full[..|prompt|];
      }
    }
  }

  /** The list sent to the model: the window's messages, then the current turn. */
  function Outbound(history: seq<Turn>, prompt: string, file: FileContent, encode: Bytes -> string): (r: seq<Message>)
    ensures |r| == 2 * |Window(history)| + 1
    ensures r[|r| - 1] == CurrentTurn(prompt, file, encode)
  {
    HistoryMessages(Window(history)) + [CurrentTurn(prompt, file, encode)]
  }

  /** Shape of the list: `2 * min(|history|, 2) + 1` messages, alternating
      user and assistant, and ending with the user's current turn. */
  lemma OutboundShape(history: seq<Turn>, prompt: string, file: FileContent, encode: Bytes -> string)
    ensures var r := Outbound(history, prompt, file, encode);
      |r| == 2 * |Window(history)| + 1
      && |Window(history)| == (if |history| < 2 then |history| else 2)
      && (forall i :: 0 <= i < |r| - 1 ==> r[i].role == (if i % 2 == 0 then User else Assistant))
      && r[|r| - 1] == CurrentTurn(prompt, file, encode)
      && r[|r| - 1].role == User
  {
    HistoryRolesAlternate(Window(history));
  }

  /** Contents of the history part: message `2k` is the question and
      `2k + 1` the answer of the `k`-th of the last two turns, oldest first,
      each cut to 1000 characters. */
  lemma OutboundHistoryContents(history: seq<Turn>, prompt: string, file: FileContent, encode: Bytes -> string, k: nat)
    requires k < |Window(history)|
    ensures var r := Outbound(history, prompt, file, encode);
      var turn := history[|history| - |Window(history)| + k];
      2 * k + 1 < |r|
      && r[2 * k] == Message(User, Plain(Truncate(turn.question, DefaultMaxLen)))
      && r[2 * k + 1] == Message(Assistant, Plain(Truncate(turn.answer, DefaultMaxLen)))
  {
    HistoryMessagesAt(Window(history), k);
  }

  /** Turns older than the last two contribute nothing to the list. */
  lemma OlderTurnsIgnored(older: seq<Turn>, recent: seq<Turn>, prompt: string, file: FileContent, encode: Bytes -> string)
    requires |recent| >= WindowSize
    ensures Outbound(older + recent, prompt, file, encode) == Outbound(recent, prompt, file, encode)
  {
    var h := older + recent;
    var w, v := Window(h), Window(recent);
    assert |w| == |v| == WindowSize;
    forall i | 0 <= i < WindowSize
      ensures w[i] == v[i]
    {
      assert w[i] == h[|h| - WindowSize + i];
      assert h[|h| - WindowSize + i] == recent[|recent| - WindowSize + i];
    }
    assert w == v;
  }

  /** The builder as the source runs it: start from an empty list, append
      two messages per turn of `chat_history[-2:]`, then the current turn. */
  method BuildMessages(history: seq<Turn>, prompt: string, file: FileContent, encode: Bytes -> string)
    returns (messages: seq<Message>)
    ensures messages == Outbound(history, prompt, file, encode)
  {
    messages := [];
    var recent := if |history| <= WindowSize then history else history[|history| - WindowSize..];
    var i := 0;
    while i < |recent|
      invariant 0 <= i <= |recent|
      invariant messages == HistoryMessages(recent[..i])
    {
      var item := recent[i];
      assert recent[..i + 1][..i] == recent[..i];
      messages := messages + [Message(User, Plain(Truncate(item.question, DefaultMaxLen)))];
      messages := messages + [Message(Assistant, Plain(Truncate(item.answer, DefaultMaxLen)))];
      i := i + 1;
    }
    assert recent[..i] == recent;

    if file.Image? {
      messages := messages + [Message(User, TextWithImage(Truncate(prompt, DefaultMaxLen), PngDataPrefix + encode(file.png)))];
    } else if file.Text? {
      messages := messages + [Message(User, Plain(Truncate(prompt + FileLabel + file.text, CombinedLimit)))];
    } else {
      messages := messages + [Message(User, Plain(Truncate(prompt, DefaultMaxLen)))];
    }
  }
}
