/** The two pure helpers of the Gemini service: converting stored messages to
    the provider's format, and re-chunking a piece of generated text into
    smaller pieces for a smoother stream. The pacing sleeps of the source are
    not modelled; the re-chunker returns the list of pieces it would yield. */
module GeminiService {
  import opened ChatModels
  import opened PyText
  import opened ConversationAdapter

  /** `_convert_messages_to_gemini_format`. */
  method ConvertMessagesToGeminiFormat(messages: seq<ChatMessage>) returns (geminiMessages: seq<GeminiMessage>)
    ensures geminiMessages == ToGeminiFormat(messages)
  {
    geminiMessages := [];
    for i := 0 to |messages|
      invariant geminiMessages == ToGeminiFormat(messages[..i])
    {
      var role := if messages[i].role == USER then "user" else "model";
      geminiMessages := geminiMessages + [GeminiMessage(role, [messages[i].content])];
      assert messages[..i + 1][..i] == messages[..i];
    }
    assert messages[..|messages|] == messages;
  }

  /** The characters whose presence in a word forces a flush on the regular
      branch. */
  const PunctuationMarks: set<char> := {'.', '!', '?', '\n', ':', ';', ','}

  predicate HasPunctuation(word: string) {
    exists i :: 0 <= i < |word| && word[i] in PunctuationMarks
  }

  /** The test that sends a text down the word-by-word "code" branch. */
  predicate IsCodeLike(text: string) {
    Contains(text, "```") || Contains(text, "def ") || Contains(text, "import ")
  }

  /** The words that contain a non-whitespace character, in order. */
  function NonBlank(words: seq<string>): (r: seq<string>)
    ensures |r| <= |words|
    ensures forall w :: w in r <==> w in words && HasNonSpace(w)
  {
    if words == [] then []
    else
      var last := words[|words| - 1];
      var init := words[..|words| - 1];
      assert words == init + [last];
      NonBlank(init) + (if HasNonSpace(last) then [last] else [])
  }

  /** The code branch: every non-blank word followed by one space. */
  function CodeChunks(words: seq<string>): seq<string> {
    if words == [] then []
    else
      var last := words[|words| - 1];
      CodeChunks(words[..|words| - 1]) + (if HasNonSpace(last) then [last + " "] else [])
  }

  /** The text that word `i` contributes on the regular branch: the word,
      followed by a space unless it is the last word. */
  function Piece(words: seq<string>, i: nat): string
    requires i < |words|
  {
    if i < |words| - 1 then words[i] + " " else words[i]
  }

  /** The regular branch flushes the chunk being built when it holds a
      non-whitespace character, when the word just added holds a punctuation
      mark, or at the last word. */
  predicate Flushes(current: string, word: string, isLast: bool) {
    HasNonSpace(current) || HasPunctuation(word) || isLast
  }

  /** The regular branch after its first `n` words: the chunks yielded so far
      and the chunk being built. */
  function RegularFold(words: seq<string>, n: nat): (seq<string>, string)
    requires n <= |words|
  {
    if n == 0 then ([], "")
    else
      var prev := RegularFold(words, n - 1);
      var current := prev.1 + Piece(words, n - 1);
      if Flushes(current, words[n - 1], n == |words|) then (prev.0 + [current], "")
      else (prev.0, current)
  }

  /** What `_simulate_smoother_streaming(text)` yields. */
  function SmoothChunks(text: string): seq<string> {
    if text == "" then []
    else if IsCodeLike(text) then CodeChunks(Split(text))
    else RegularFold(Split(text), |Split(text)|).0
  }

  /** `_simulate_smoother_streaming`, without its sleeps. */
  method SimulateSmootherStreaming(text: string) returns (chunks: seq<string>)
    ensures chunks == SmoothChunks(text)
  {
    chunks := [];
    if text == "" {
      return;
    }
    var words := Split(text);
    if IsCodeLike(text) {
      chunks := CodeBranch(words);
    } else {
      chunks := RegularBranch(words);
    }
  }

  /** The code branch of `_simulate_smoother_streaming`. */
  method CodeBranch(words: seq<string>) returns (chunks: seq<string>)
    ensures chunks == CodeChunks(words)
  {
    chunks := [];
    for i := 0 to |words|
      invariant chunks == CodeChunks(words[..i])
    {
      if HasNonSpace(words[i]) {
        chunks := chunks + [words[i] + " "];
      }
      assert words[..i + 1][..i] == words[..i];
    }
    assert words[..|words|] == words;
  }

  /** The regular branch of `_simulate_smoother_streaming`. */
  method RegularBranch(words: seq<string>) returns (chunks: seq<string>)
    ensures chunks == RegularFold(words, |words|).0
  {
    chunks := [];
    var current := "";
    for i := 0 to |words|
      invariant (chunks, current) == RegularFold(words, i)
    {
      ghost var before := current;
      current := current + words[i];
      if i < |words| - 1 {
        current := current + " ";
      }
      assert current == before + Piece(words, i);
      if HasNonSpace(current) || HasPunctuation(words[i]) || i == |words| - 1 {
        chunks := chunks + [current];
        current := "";
      }
      assert (chunks, current) == RegularFold(words, i + 1);
    }
  }

  /** One word of the regular branch adds exactly its piece to what the
      chunks yielded and the chunk being built spell together. */
  lemma RegularFoldStep(words: seq<string>, n: nat)
    requires 1 <= n <= |words|
    ensures Concat(RegularFold(words, n).0) + RegularFold(words, n).1
         == Concat(RegularFold(words, n - 1).0) + RegularFold(words, n - 1).1 + Piece(words, n - 1)
  {
    var prev := RegularFold(words, n - 1);
    var current := prev.1 + Piece(words, n - 1);
    if Flushes(current, words[n - 1], n == |words|) {
      assert (prev.0 + [current])[..|prev.0|] == prev.0;
      assert Concat(prev.0 + [current]) + "" == Concat(prev.0) + current;
    }
  }

  /** Joining the first `n` words is joining the first `n - 1` and then
      the `n`-th after a space. */
  lemma JoinPrefixStep(words: seq<string>, n: nat)
    requires 2 <= n <= |words|
    ensures Join(words[..n]) == Join(words[..n - 1]) + " " + words[n - 1]
  {
    assert words[..n][..n - 1] == words[..n - 1];
  }

  /** The text the first `n` words contribute on the regular branch. */
  function Spelling(words: seq<string>, n: nat): string
    requires n <= |words|
  {
    if n == 0 then "" else Spelling(words, n - 1) + Piece(words, n - 1)
  }

  /** After `n` words of the regular branch, the chunks yielded plus the chunk
      being built spell exactly what those words contribute. */
  lemma {:induction false} RegularFoldSpells(words: seq<string>, n: nat)
    requires n <= |words|
    ensures Concat(RegularFold(words, n).0) + RegularFold(words, n).1 == Spelling(words, n)
  {
    if n > 0 {
      RegularFoldStep(words, n);
      RegularFoldSpells(words, n - 1);
    }
  }

  /** What the first `n` words contribute is those words joined by single
      spaces, with the space after word `n` if there is one. */
  lemma {:induction false} SpellingIsJoin(words: seq<string>, n: nat)
    requires 1 <= n <= |words|
    ensures Spelling(words, n) == Join(words[..n]) + (if n < |words| then " " else "")
  {
    var tail := if n < |words| then " " else "";
    assert Piece(words, n - 1) == words[n - 1] + tail;
    if n == 1 {
      assert words[..1] == [words[0]];
    } else {
      var before := Join(words[..n - 1]);
      SpellingIsJoin(words, n - 1);
      JoinPrefixStep(words, n);
      assert before + " " + (words[n - 1] + tail) == before + " " + words[n - 1] + tail;
    }
  }

  /** After `n` words of the regular branch, the chunks yielded plus the chunk
      being built spell the first `n` words joined by single spaces, with the
      space after word `n` if there is one. */
  lemma RegularFoldSpellsPrefix(words: seq<string>, n: nat)
    requires 1 <= n <= |words|
    ensures Concat(RegularFold(words, n).0) + RegularFold(words, n).1
         == Join(words[..n]) + (if n < |words| then " " else "")
  {
    RegularFoldSpells(words, n);
    SpellingIsJoin(words, n);
  }

  /** The regular branch yields chunks whose concatenation is the text
      exactly, and its last word always flushes, so nothing is left behind. */
  lemma RegularBranchSpellsText(text: string)
    requires text != "" && !IsCodeLike(text)
    ensures Concat(SmoothChunks(text)) == text
    ensures RegularFold(Split(text), |Split(text)|).1 == ""
  {
    var words := Split(text);
    RegularFoldSpellsPrefix(words, |words|);
    assert words[..|words|] == words;
    JoinSplit(text);
    var final := RegularFold(words, |words|);
    assert final.1 == "";
    assert Concat(final.0) + final.1 == Concat(final.0);
  }

  /** The code branch yields one chunk per non-blank word, in order, each the
      word followed by a single space. */
  lemma {:induction false} CodeChunksAreNonBlankWords(words: seq<string>)
    ensures |CodeChunks(words)| == |NonBlank(words)|
    ensures forall j :: 0 <= j < |NonBlank(words)| ==> CodeChunks(words)[j] == NonBlank(words)[j] + " "
  {
    if words != [] {
      CodeChunksAreNonBlankWords(words[..|words| - 1]);
    }
  }

  /** On the code branch every chunk is a non-blank, space-free word of the
      text plus one trailing space, and every non-blank word gives a chunk. */
  lemma CodeBranchShape(text: string)
    requires text != "" && IsCodeLike(text)
    ensures var chunks := SmoothChunks(text);
      |chunks| == |NonBlank(Split(text))| &&
      forall j :: 0 <= j < |chunks| ==>
        var w := NonBlank(Split(text))[j];
        chunks[j] == w + " " && w in Split(text) && HasNonSpace(w) && ' ' !in w
  {
    var words := Split(text);
    CodeChunksAreNonBlankWords(words);
    JoinSplit(text);
    forall j | 0 <= j < |NonBlank(words)| ensures NonBlank(words)[j] in words {
      assert NonBlank(words)[j] in NonBlank(words);
    }
  }

  /** "def f" goes down the code branch and is split into "def" and "f". */
  lemma DefFIsCodeOfTwoWords()
    ensures "def f" != "" && IsCodeLike("def f")
    ensures Split("def f") == ["def", "f"]
  {
    assert OccursAt("def f", "def ", 0);
    assert Join(["def", "f"]) == "def f" by {
      assert ["def", "f"][..1] == ["def"];
    }
    SplitJoin(["def", "f"]);
  }

  lemma DefFCodeChunks()
    ensures CodeChunks(["def", "f"]) == ["def ", "f "]
  {
    assert HasNonSpace("def") by { assert !IsSpace("def"[0]); }
    assert HasNonSpace("f") by { assert !IsSpace("f"[0]); }
    assert ["def", "f"][..1] == ["def"];
    assert ["def"][..0] == [];
    assert "def" + " " == "def ";
    assert "f" + " " == "f ";
    assert CodeChunks(["def"]) == ["def "];
  }

  /** On the code branch the chunks do not spell the text: "def f" is
      streamed as "def " and "f ", one space longer than the text. */
  lemma CodeBranchAddsTrailingSpace()
    ensures SmoothChunks("def f") == ["def ", "f "]
    ensures Concat(SmoothChunks("def f")) != "def f"
  {
    DefFIsCodeOfTwoWords();
    DefFCodeChunks();
    assert Concat(["def ", "f "]) == "def f " by {
      assert ["def ", "f "][..1] == ["def "];
    }
  }

  /** The re-chunked stream of the generator: each non-empty piece of text
      from the model is re-chunked and its chunks are yielded in order. */
  function SmoothedStream(raw: seq<string>): seq<string> {
    if raw == [] then []
    else
      var last := raw[|raw| - 1];
      SmoothedStream(raw[..|raw| - 1]) + (if last != "" then SmoothChunks(last) else [])
  }

  /** When no piece from the model looks like code, re-chunking preserves the
      concatenation of the stream. */
  lemma {:induction false} SmoothedStreamSpellsRaw(raw: seq<string>)
    requires forall c :: c in raw ==> !IsCodeLike(c)
    ensures Concat(SmoothedStream(raw)) == Concat(raw)
  {
    if raw != [] {
      var last := raw[|raw| - 1];
      var init := raw[..|raw| - 1];
      assert forall c :: c in init ==> c in raw;
      SmoothedStreamSpellsRaw(init);
      var tail := if last != "" then SmoothChunks(last) else [];
      ConcatAppend(SmoothedStream(init), tail);
      if last != "" {
        RegularBranchSpellsText(last);
      }
    }
  }
}
