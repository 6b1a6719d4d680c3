/** The page's session state of compeqGPT.py: a single flat chat history
    that starts empty and grows by one turn per submitted prompt. */
module Chat {
  import opened Strings
  import opened Optional
  import opened FileExtract
  import opened Messages

  class ChatState {
    /** `st.session_state.chat_history`, oldest turn first. */
    var history: seq<Turn>

    /** The history is created empty the first time the page runs. */
    constructor ()
      ensures history == []
    {
      history := [];
    }

    /** `chat_history.append({"提問": prompt, "回覆": reply})`: one more turn
        at the end, every earlier turn as it was. */
    method Append(prompt: string, reply: string)
      modifies this
      ensures history == old(history) + [Turn(prompt, reply)]
      ensures |history| == |old(history)| + 1
      ensures history[..|old(history)|] == old(history)
      ensures history[|history| - 1] == Turn(prompt, reply)
    {
      history := history + [Turn(prompt, reply)];
    }

    /** One submitted prompt (the page runs this only for a non-empty
        prompt, the `if prompt := st.chat_input(...)` guard): extract the upload (if any), build the
        messages from the history as it was, obtain the reply (the model's
        answer or the error text that replaces it) and record the turn. */
    method Submit(prompt: string, upload: Option<Upload>, dec: Decoders,
                  encode: Bytes -> string, complete: seq<Message> -> string)
      returns (messages: seq<Message>, reply: string)
      requires prompt != ""
      modifies this
      ensures messages == Outbound(old(history), prompt, ContentOf(upload, dec), encode)
      ensures reply == complete(messages)
      ensures history == old(history) + [Turn(prompt, reply)]
    {
      var fileContent := NoFile;
      if upload.Some? {
        fileContent := ExtractFileContent(upload.value, dec);
      }
      messages := BuildMessages(history, prompt, fileContent, encode);
      reply := complete(messages);
      Append(prompt, reply);
    }
  }

  /** After a turn is appended, the next window ends with that turn and,
      when there was an earlier turn, starts with the one before it. */
  lemma NextWindowEndsWithNewTurn(history: seq<Turn>, turn: Turn)
    ensures Window(history + [turn]) ==
      (if |history| == 0 then [turn] else [history[|history| - 1], turn])
  {
    var h := history + [turn];
    if |history| > 0 {
      assert h[|h| - 2..] == [history[|history| - 1], turn];
    }
  }

  /** The question of a submitted turn is sent back, cut to 1000
      characters, as the last history message of the next request. */
  lemma NextRequestRecallsTurn(history: seq<Turn>, turn: Turn, prompt: string,
                               file: FileContent, encode: Bytes -> string)
    ensures var r := Outbound(history + [turn], prompt, file, encode);
      |r| >= 3
      && r[|r| - 3] == Message(User, Plain(Truncate(turn.question, DefaultMaxLen)))
      && r[|r| - 2] == Message(Assistant, Plain(Truncate(turn.answer, DefaultMaxLen)))
  {
    var w := Window(history + [turn]);
    NextWindowEndsWithNewTurn(history, turn);
    assert |w| > 0 && w[|w| - 1] == turn;
    HistoryMessagesAt(w, |w| - 1);
    var hm := HistoryMessages(w);
    var r := Outbound(history + [turn], prompt, file, encode);
    assert r == hm + [CurrentTurn(prompt, file, encode)];
    assert |r| - 3 == 2 * (|w| - 1);
    assert r[|r| - 3] == hm[2 * (|w| - 1)] && r[|r| - 2] == hm[2 * (|w| - 1) + 1];
  }
}
