/** The few Python string operations the chat backend relies on, with their
    Python meaning: whitespace as `str.isspace` sees it, substring search
    (`pat in text`), `text.split(" ")`, `" ".join(words)`, ASCII lower-casing
    and the concatenation that `s += chunk` performs in a loop. */
module PyText {

  /** Python's whitespace: what `str.isspace`, `str.split()` and `str.strip()`
      treat as blank. */
  predicate IsSpace(c: char) {
    ('\t' <= c <= '\r') || ('\U{1C}' <= c <= '\U{1F}') || c == ' '
    || c == '\U{85}' || c == '\U{A0}' || c == '\U{1680}'
    || ('\U{2000}' <= c <= '\U{200A}') || c == '\U{2028}' || c == '\U{2029}'
    || c == '\U{202F}' || c == '\U{205F}' || c == '\U{3000}'
  }

  /** `s.strip() != ""`, equivalently `len(s.split()) >= 1`. */
  predicate HasNonSpace(s: string) {
    exists i :: 0 <= i < |s| && !IsSpace(s[i])
  }

  /** `pat` occurs in `text` starting at index `i`. */
  predicate OccursAt(text: string, pat: string, i: int) {
    0 <= i && i + |pat| <= |text| && text[i..i + |pat|] == pat
  }

  /** Python's `pat in text` for strings. */
  predicate Contains(text: string, pat: string) {
    exists i :: 0 <= i <= |text| - |pat| && OccursAt(text, pat, i)
  }

  function LowerChar(c: char): char {
    if 'A' <= c <= 'Z' then (c as int + 32) as char else c
  }

  /** `s.lower()` restricted to ASCII letters: the only characters that
      lower-case to one of the letters of "user" are that letter and its
      ASCII capital, so comparisons with "user" agree with Python's. */
  function Lower(s: string): string {
    seq(|s|, i requires 0 <= i < |s| => LowerChar(s[i]))
  }

  lemma LowerIdempotent(s: string)
    ensures Lower(Lower(s)) == Lower(s)
  {
  }

  /** `s.split(" ")`: the pieces between single spaces, empty pieces kept;
      there is always at least one piece. */
  function Split(s: string): (words: seq<string>)
    ensures |words| >= 1
  {
    if s == [] then [""]
    else
      var init := Split(s[..|s| - 1]);
      var c := s[|s| - 1];
      if c == ' ' then init + [""]
      else init[..|init| - 1] + [init[|init| - 1] + [c]]
  }

  /** `" ".join(words)`. */
  function Join(words: seq<string>): string
    requires |words| >= 1
  {
    if |words| == 1 then words[0]
    else Join(words[..|words| - 1]) + " " + words[|words| - 1]
  }

  /** `"".join(chunks)`, built the way `full += chunk` builds it. */
  function Concat(chunks: seq<string>): string {
    if chunks == [] then "" else Concat(chunks[..|chunks| - 1]) + chunks[|chunks| - 1]
  }

  /** Splitting on spaces and joining with spaces gives back the text, and no
      piece contains a space. */
  lemma {:induction false} JoinSplit(s: string)
    ensures Join(Split(s)) == s
    ensures forall w :: w in Split(s) ==> ' ' !in w
  {
    if s != [] {
      var init := Split(s[..|s| - 1]);
      JoinSplit(s[..|s| - 1]);
      assert s == s[..|s| - 1] + [s[|s| - 1]];
      var c := s[|s| - 1];
      if c == ' ' {
        assert (init + [""])[..|init|] == init;
      } else {
        var last := init[|init| - 1] + [c];
        var words := init[..|init| - 1] + [last];
        assert words[..|words| - 1] == init[..|init| - 1];
        if |init| > 1 {
          assert init[..|init| - 1] == init[..|init| - 1];
          assert Join(init) == Join(init[..|init| - 1]) + " " + init[|init| - 1];
        }
        forall w | w in words ensures ' ' !in w {
          if w != last {
            assert w in init;
          } else {
            assert init[|init| - 1] in init;
          }
        }
      }
    }
  }

  /** A piece without spaces is split into itself. */
  lemma {:induction false} SplitWord(w: string)
    requires ' ' !in w
    ensures Split(w) == [w]
  {
    if w != [] {
      assert w[..|w| - 1] + [w[|w| - 1]] == w;
      SplitWord(w[..|w| - 1]);
    }
  }

  /** Appending a space and a space-free piece appends one word. */
  lemma {:induction false} SplitAfterSpace(s: string, w: string)
    requires ' ' !in w
    ensures Split(s + " " + w) == Split(s) + [w]
  {
    if w == [] {
      assert s + " " + w == s + " ";
      assert (s + " ")[..|s|] == s;
    } else {
      var t := s + " " + w;
      var w' := w[..|w| - 1];
      assert t[..|t| - 1] == s + " " + w';
      assert w' + [w[|w| - 1]] == w;
      SplitAfterSpace(s, w');
      var init := Split(s) + [w'];
      assert init[..|init| - 1] == Split(s);
    }
  }

  /** Joining space-free words with spaces and splitting again gives back
      the words. */
  lemma {:induction false} SplitJoin(words: seq<string>)
    requires |words| >= 1
    requires forall i :: 0 <= i < |words| ==> ' ' !in words[i]
    ensures Split(Join(words)) == words
  {
    if |words| == 1 {
      SplitWord(words[0]);
    } else {
      var init := words[..|words| - 1];
      var last := words[|words| - 1];
      assert Join(words) == Join(init) + " " + last;
      SplitJoin(init);
      SplitAfterSpace(Join(init), last);
      assert init + [last] == words;
    }
  }

  /** Concatenation distributes over sequence concatenation. */
  lemma {:induction false} ConcatAppend(a: seq<string>, b: seq<string>)
    ensures Concat(a + b) == Concat(a) + Concat(b)
  {
    if b != [] {
      ConcatAppend(a, b[..|b| - 1]);
      assert (a + b)[..|a + b| - 1] == a + b[..|b| - 1];
    } else {
      assert a + b == a;
    }
  }
}
