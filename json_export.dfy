/** The JSON download of compeqGPT.py (`create_json_file`): the transcript
    is put between `{"response": "` and `"}` after its double quotes and
    newlines are escaped by hand. The module also holds a decoder for the
    body of a JSON string (section 7 of RFC 8259), against which the
    hand-made escaping is measured, and a corrected escaper that the
    decoder reads back exactly. */
module JsonExport {
  import opened Optional

  const EnvelopeOpen: string := "{\"response\": \""
  const EnvelopeClose: string := "\"}"

  // ---------------------------------------------------------------------
  // The envelope as the source builds it
  // ---------------------------------------------------------------------

  /** `s.replace(c, rep)` for a one-character `c`: every occurrence of `c`,
      left to right, is replaced by `rep`. */
  function ReplaceChar(s: string, c: char, rep: string): (r: string)
    ensures c !in rep ==> c !in r
  {
    if |s| == 0 then []
    else (if s[0] == c then rep else [s[0]]) + ReplaceChar(s[1..], c, rep)
  }

  /** `content.replace('"', '\\"').replace("\n", "\\n")`. */
  function Escape(content: string): (r: string)
    ensures r == EscapeOnePass(content)
    ensures '\n' !in r && QuotesEscaped(r)
  {
    EscapeIsOnePass(content);
    EscapeOnePassFacts(content);
    ReplaceChar(ReplaceChar(content, '"', "\\\""), '\n', "\\n")
  }

  /** Every double quote has a backslash right before it. */
  predicate QuotesEscaped(s: string) {
    forall i :: 0 <= i < |s| && s[i] == '"' ==> 0 < i && s[i - 1] == '\\'
  }

  /** What the two replacements do to one character. */
  function EscapeCharAsWritten(c: char): string {
    if c == '"' then "\\\"" else if c == '\n' then "\\n" else [c]
  }

  /** The two passes of `Escape` as a single pass over the characters. */
  function EscapeOnePass(s: string): string {
    if |s| == 0 then [] else EscapeCharAsWritten(s[0]) + EscapeOnePass(s[1..])
  }

  lemma {:induction false} ReplaceCharAppend(a: string, b: string, c: char, rep: string)
    ensures ReplaceChar(a + b, c, rep) == ReplaceChar(a, c, rep) + ReplaceChar(b, c, rep)
  {
    if |a| > 0 {
      assert (a + b)[1..] == a[1..] + b;
      ReplaceCharAppend(a[1..], b, c, rep);
    } else {
      assert a + b == b;
    }
  }

  /** Replacing the quotes and then the newlines is the same as escaping
      each character once: the first pass introduces no newline. */
  lemma {:induction false} EscapeIsOnePass(s: string)
    ensures ReplaceChar(ReplaceChar(s, '"', "\\\""), '\n', "\\n") == EscapeOnePass(s)
  {
    if |s| > 0 {
      var head := if s[0] == '"' then "\\\"" else [s[0]];
      assert ReplaceChar(s, '"', "\\\"") == head + ReplaceChar(s[1..], '"', "\\\"");
      ReplaceCharAppend(head, ReplaceChar(s[1..], '"', "\\\""), '\n', "\\n");
      EscapeIsOnePass(s[1..]);
      assert ReplaceChar(head, '\n', "\\n") == EscapeCharAsWritten(s[0]);
    }
  }

  lemma QuotesEscapedAppend(a: string, b: string)
    requires QuotesEscaped(a) && QuotesEscaped(b)
    ensures QuotesEscaped(a + b)
  {
    forall i | 0 <= i < |a + b| && (a + b)[i] == '"'
      ensures 0 < i && (a + b)[i - 1] == '\\'
    {
      if i >= |a| {
        assert b[i - |a|] == '"';
      }
    }
  }

  /** The escaped body has no newline, and each of its quotes follows a backslash. */
  lemma {:induction false} EscapeOnePassFacts(s: string)
    ensures '\n' !in EscapeOnePass(s)
    ensures QuotesEscaped(EscapeOnePass(s))
  {
    if |s| > 0 {
      EscapeOnePassFacts(s[1..]);
      var h := EscapeCharAsWritten(s[0]);
      assert QuotesEscaped(h) by {
        if s[0] == '"' {
          assert h == ['\\', '"'];
        }
      }
      QuotesEscapedAppend(h, EscapeOnePass(s[1..]));
    }
  }

  /** `'{"response": "%s"}' % escaped`: the envelope begins and ends with
      the fixed text, and between them is a body with no newline in which
      every double quote is preceded by a backslash: the content escaped
      character by character. */
  function JsonEnvelope(content: string): (r: string)
    ensures |r| >= |EnvelopeOpen| + |EnvelopeClose|
    ensures r[|EnvelopeOpen|..|r| - |EnvelopeClose|] == EscapeOnePass(content)
    ensures r[..|EnvelopeOpen|] == EnvelopeOpen
    ensures r[|r| - |EnvelopeClose|..] == EnvelopeClose
    ensures var body := r[|EnvelopeOpen|..|r| - |EnvelopeClose|];
      '\n' !in body && QuotesEscaped(body)
  {
    var r := EnvelopeOpen + Escape(content) + EnvelopeClose;
    assert r[|EnvelopeOpen|..|r| - |EnvelopeClose|] == Escape(content);
    r
  }

  // ---------------------------------------------------------------------
  // Reading a JSON string body back
  // ---------------------------------------------------------------------

  /** The character a two-character escape `\e` stands for. */
  function SimpleEscape(e: char): Option<char> {
    match e
    case '"' => Some('"')
    case '\\' => Some('\\')
    case '/' => Some('/')
    case 'b' => Some('\U{8}')
    case 'f' => Some('\U{C}')
    case 'n' => Some('\n')
    case 'r' => Some('\r')
    case 't' => Some('\t')
    case _ => None
  }

  function HexValue(c: char): Option<nat> {
    if '0' <= c <= '9' then Some(c as int - '0' as int)
    else if 'a' <= c <= 'f' then Some(c as int - 'a' as int + 10)
    else if 'A' <= c <= 'F' then Some(c as int - 'A' as int + 10)
    else None
  }

  /** The code unit written as four hex digits after `\u`, when it is a
      character on its own (surrogate pairs are not read). */
  function UnicodeEscape(h: string): (r: Option<char>)
    requires |h| == 4
  {
    match (HexValue(h[0]), HexValue(h[1]), HexValue(h[2]), HexValue(h[3]))
    case (Some(a), Some(b), Some(c), Some(d)) =>
      var v := ((a * 16 + b) * 16 + c) * 16 + d;
      if 0xD800 <= v < 0xE000 || v >= 0x1_0000 then None else Some(v as char)
    case _ => None
  }

  function Prepend(c: char, r: Option<string>): Option<string> {
    match r
    case None => None
    case Some(s) => Some([c] + s)
  }

  /** The text a JSON string body denotes, or None when the body is not
      valid: a bare quote, a bare control character or an unknown escape. */
  function Unescape(b: string): Option<string>
    decreases |b|
  {
    if |b| == 0 then Some([])
    else if b[0] == '\\' then
      if |b| < 2 then None
      else if b[1] == 'u' then
        if |b| < 6 then None
        else match UnicodeEscape(b[2..6])
          case None => None
          case Some(c) => Prepend(c, Unescape(b[6..]))
      else match SimpleEscape(b[1])
        case None => None
        case Some(c) => Prepend(c, Unescape(b[2..]))
    else if b[0] == '"' || b[0] < ' ' then None
    else Prepend(b[0], Unescape(b[1..]))
  }

  /** As written, the escaping loses information: a literal backslash
      followed by `n` and a real newline give the same envelope, which
      reads back as a newline. */
  lemma BackslashNotEscaped()
    ensures JsonEnvelope("\\n") == JsonEnvelope("\n")
    ensures Unescape(Escape("\\n")) == Some("\n")
  {
    assert Escape("\\n") == "\\n" by {
      assert ReplaceChar("\\n", '"', "\\\"") == "\\n" by {
        assert ReplaceChar("n", '"', "\\\"") == "n";
      }
      assert ReplaceChar("\\n", '\n', "\\n") == "\\n" by {
        assert ReplaceChar("n", '\n', "\\n") == "n";
      }
    }
    assert Escape("\n") == "\\n";
    assert Unescape("\\n") == Some("\n") by {
      var b := "\\n";
      assert b[0] == '\\' && b[1] == 'n' && b[2..] == [];
      assert SimpleEscape(b[1]) == Some('\n');
      assert Unescape(b) == Prepend('\n', Unescape(b[2..]));
      assert Unescape(b[2..]) == Some([]);
      assert ['\n'] + [] == "\n";
    }
  }

  /** As written, a tab (or any control character other than a newline)
      is left bare, so the envelope's body is not a valid JSON string. */
  lemma TabNotEscaped()
    ensures Escape("\t") == "\t"
    ensures Unescape(Escape("\t")).None?
  {
  }

  // ---------------------------------------------------------------------
  // The corrected escaper
  // ---------------------------------------------------------------------

  function HexDigit(n: nat): char
    requires n < 16
  {
    "0123456789abcdef"[n]
  }

  /** One character escaped as a JSON string needs it: backslash and quote
      get a backslash, a newline becomes `\n` as before, and the other
      control characters become `\u00XX`. */
  function EscapeJsonChar(c: char): string {
    if c == '\\' then "\\\\"
    else if c == '"' then "\\\""
    else if c == '\n' then "\\n"
    else if c < ' ' then "\\u00" + [HexDigit(c as int / 16), HexDigit(c as int % 16)]
    else [c]
  }

  function EscapeJson(s: string): string {
    if |s| == 0 then [] else EscapeJsonChar(s[0]) + EscapeJson(s[1..])
  }

  /** The envelope built with the corrected escaper. */
  function JsonEnvelopeFixed(content: string): (r: string)
    ensures |r| >= |EnvelopeOpen| + |EnvelopeClose|
    ensures r[..|EnvelopeOpen|] == EnvelopeOpen
    ensures r[|r| - |EnvelopeClose|..] == EnvelopeClose
    ensures Unescape(r[|EnvelopeOpen|..|r| - |EnvelopeClose|]) == Some(content)
  {
    JsonStringRoundTrip(content);
    var r := EnvelopeOpen + EscapeJson(content) + EnvelopeClose;
    assert r[|EnvelopeOpen|..|r| - |EnvelopeClose|] == EscapeJson(content);
    r
  }

  lemma HexDigitValue(n: nat)
    requires n < 16
    ensures HexValue(HexDigit(n)) == Some(n)
  {
  }

  /** Decoding one escaped character, followed by anything, gives that
      character followed by the decoding of the rest. */
  lemma UnescapeOneChar(c: char, t: string)
    ensures Unescape(EscapeJsonChar(c) + t) == Prepend(c, Unescape(t))
  {
    var b := EscapeJsonChar(c) + t;
    if c == '\\' || c == '"' || c == '\n' {
      assert b[2..] == t;
    } else if c < ' ' {
      var hi, lo := c as int / 16, c as int % 16;
      HexDigitValue(hi);
      HexDigitValue(lo);
      assert b[2..6] == ['0', '0', HexDigit(hi), HexDigit(lo)];
      assert b[6..] == t;
    } else {
      assert b[1..] == t;
    }
  }

  /** The corrected escaper is read back exactly, for every text. */
  lemma {:induction false} JsonStringRoundTrip(s: string)
    ensures Unescape(EscapeJson(s)) == Some(s)
  {
    if |s| > 0 {
      UnescapeOneChar(s[0], EscapeJson(s[1..]));
      JsonStringRoundTrip(s[1..]);
      assert [s[0]] + s[1..] == s;
    }
  }

  /** On text without backslashes and without control characters other
      than newlines the corrected escaper writes what the source writes. */
  lemma {:induction false} FixedAgreesWithSource(s: string)
    requires forall i :: 0 <= i < |s| ==> s[i] != '\\' && (s[i] < ' ' ==> s[i] == '\n')
    ensures EscapeJson(s) == Escape(s)
  {
    EscapeIsOnePass(s);
    if |s| > 0 {
      FixedAgreesWithSource(s[1..]);
      EscapeIsOnePass(s[1..]);
    }
  }
}
