/** Splitting and joining strings as the JavaScript code does it:
    `s.trim().split(/\s+/)` and `tokens.join(" ")`. */
module Text {

  /** The characters `\s` matches in a JavaScript regular expression, which are also
      the characters `trim` removes. */
  const Whitespace: set<char> := {
    '\t', '\n', '\U{000B}', '\U{000C}', '\r', ' ', '\U{00A0}', '\U{1680}',
    '\U{2000}', '\U{2001}', '\U{2002}', '\U{2003}', '\U{2004}', '\U{2005}',
    '\U{2006}', '\U{2007}', '\U{2008}', '\U{2009}', '\U{200A}',
    '\U{2028}', '\U{2029}', '\U{202F}', '\U{205F}', '\U{3000}', '\U{FEFF}'
  }

  predicate IsSpace(c: char) {
    c in Whitespace
  }

  /** A non-empty string without whitespace. */
  predicate IsWord(w: string) {
    w != [] && forall i :: 0 <= i < |w| ==> !IsSpace(w[i])
  }

  /** Splitting s on runs of whitespace, with cur the part of a word already read:
      a word ends at whitespace or at the end of the string; empty words are dropped. */
  function SplitFrom(s: string, cur: string): (ws: seq<string>)
    decreases |s|
  {
    if s == [] then (if cur == [] then [] else [cur])
    else if IsSpace(s[0]) then (if cur == [] then SplitFrom(s[1..], []) else [cur] + SplitFrom(s[1..], []))
    else SplitFrom(s[1..], cur + [s[0]])
  }

  /** The maximal runs of non-whitespace characters, in order. */
  function Words(s: string): (ws: seq<string>)
  {
    SplitFrom(s, [])
  }

  /** Every word is non-empty and free of whitespace. */
  lemma {:induction false} SplitFromWords(s: string, cur: string)
    requires forall i :: 0 <= i < |cur| ==> !IsSpace(cur[i])
    ensures forall i :: 0 <= i < |SplitFrom(s, cur)| ==> IsWord(SplitFrom(s, cur)[i])
    decreases |s|
  {
    var ws := SplitFrom(s, cur);
    if s == [] {
    } else if IsSpace(s[0]) {
      var rest := SplitFrom(s[1..], []);
      SplitFromWords(s[1..], []);
      if cur != [] {
        assert ws == [cur] + rest;
        forall i | 0 <= i < |ws| ensures IsWord(ws[i]) {
          if i > 0 {
            assert ws[i] == rest[i - 1];
          }
        }
      }
    } else {
      SplitFromWords(s[1..], cur + [s[0]]);
    }
  }

  lemma WordsAreWords(s: string)
    ensures forall i :: 0 <= i < |Words(s)| ==> IsWord(Words(s)[i])
  {
    SplitFromWords(s, []);
  }

  /** `s.trim().split(/\s+/)`: the words of s, or the single empty string when s is
      blank (splitting "" gives [""]). */
  function TrimSplit(s: string): (ts: seq<string>)
    ensures ts != []
    ensures Words(s) != [] ==> ts == Words(s)
    ensures Words(s) == [] ==> ts == [""]
  {
    var ws := Words(s);
    if ws == [] then [""] else ws
  }

  /** `tokens.join(sep)`. */
  function Join(tokens: seq<string>, sep: string): (s: string)
    ensures tokens == [] ==> s == []
    ensures |tokens| == 1 ==> s == tokens[0]
  {
    if tokens == [] then []
    else if |tokens| == 1 then tokens[0]
    else tokens[0] + sep + Join(tokens[1..], sep)
  }

  /** Reading a run without whitespace only extends the current word. */
  lemma {:induction false} SplitFromRun(w: string, rest: string, cur: string)
    requires forall i :: 0 <= i < |w| ==> !IsSpace(w[i])
    ensures SplitFrom(w + rest, cur) == SplitFrom(rest, cur + w)
    decreases |w|
  {
    if w == [] {
      assert w + rest == rest && cur + w == cur;
    } else {
      assert (w + rest)[0] == w[0] && (w + rest)[1..] == w[1..] + rest;
      SplitFromRun(w[1..], rest, cur + [w[0]]);
      assert cur + [w[0]] + w[1..] == cur + w;
    }
  }

  /** A word on its own splits into itself. */
  lemma WordsOfWord(w: string)
    requires IsWord(w)
    ensures Words(w) == [w]
  {
    SplitFromRun(w, [], []);
    assert w + [] == w && [] + w == w;
  }

  /** Joining words with single spaces and splitting again gives back the words. */
  lemma {:induction false} WordsOfJoin(tokens: seq<string>)
    requires forall i :: 0 <= i < |tokens| ==> IsWord(tokens[i])
    ensures Words(Join(tokens, " ")) == tokens
  {
    if tokens == [] {
    } else if |tokens| == 1 {
      WordsOfWord(tokens[0]);
    } else {
      var w, more := tokens[0], Join(tokens[1..], " ");
      WordsOfJoin(tokens[1..]);
      assert Join(tokens, " ") == w + (" " + more);
      SplitFromRun(w, " " + more, []);
      assert [] + w == w;
      assert (" " + more)[1..] == more;
      assert tokens == [w] + tokens[1..];
    }
  }

  /** A join of words with single spaces neither starts nor ends with whitespace. */
  lemma {:induction false} JoinTrimmed(tokens: seq<string>)
    requires tokens != [] && forall i :: 0 <= i < |tokens| ==> IsWord(tokens[i])
    ensures var s := Join(tokens, " "); s != [] && !IsSpace(s[0]) && !IsSpace(s[|s| - 1])
  {
    if |tokens| > 1 {
      JoinTrimmed(tokens[1..]);
      var rest := Join(tokens[1..], " ");
      assert Join(tokens, " ") == tokens[0] + " " + rest;
    }
  }
}
