/**
 * Whitespace cleaning (`cleanText` of the document processor): every run of
 * whitespace becomes one space and the ends are trimmed. Its reference
 * meaning is the text's words joined by single spaces.
 */
module TextCleaning {
  import opened Strings

  /** `replace(/\s+/g, ' ')`: every maximal whitespace run becomes a single space. */
  function CollapseSpaces(s: string): string
    decreases |s|
  {
    if s == [] then []
    else if IsSpace(s[0]) then " " + CollapseSpaces(TrimStart(s))
    else [s[0]] + CollapseSpaces(s[1..])
  }

  /** `cleanText`: collapse whitespace runs, then trim. */
  function CleanText(text: string): (r: string)
    ensures r == [] || (!IsSpace(r[0]) && !IsSpace(r[|r| - 1]))
    ensures forall i :: 0 <= i < |r| && IsSpace(r[i]) ==> r[i] == ' '
    ensures forall i :: 0 <= i < |r| - 1 ==> !(IsSpace(r[i]) && IsSpace(r[i + 1]))
  {
    CleanTextIsJoinedWords(text);
    WordsProper(text);
    JoinEdges(Words(text));
    JoinSpaces(Words(text));
    Trim(CollapseSpaces(text))
  }

  /** The longest whitespace-free prefix of `s`. */
  function TakeWord(s: string): (w: string)
    ensures |w| <= |s| && w == s[..|w|] && SpaceFree(w)
    ensures |w| == |s| || IsSpace(s[|w|])
  {
    if s == [] || IsSpace(s[0]) then [] else [s[0]] + TakeWord(s[1..])
  }

  /** The words of a text: its maximal whitespace-free runs, in order. */
  function Words(s: string): seq<string>
    decreases |s|
  {
    var t := TrimStart(s);
    if t == [] then []
    else
      var w := TakeWord(t);
      [w] + Words(t[|w|..])
  }

  /** The words joined by single spaces (`words.join(' ')`). */
  function Join(ws: seq<string>): string {
    if ws == [] then [] else if |ws| == 1 then ws[0] else ws[0] + " " + Join(ws[1..])
  }

  /** Words that are non-empty and whitespace-free: what `Words` returns. */
  predicate ProperWords(ws: seq<string>) {
    ws == [] || (ws[0] != [] && SpaceFree(ws[0]) && ProperWords(ws[1..]))
  }

  /** The words of a text are non-empty and whitespace-free. */
  lemma {:induction false} WordsProper(s: string)
    ensures ProperWords(Words(s))
    decreases |s|
  {
    var t := TrimStart(s);
    if t != [] {
      var w := TakeWord(t);
      WordsProper(t[|w|..]);
      WordsCons(s);
      assert ([w] + Words(t[|w|..]))[1..] == Words(t[|w|..]);
    }
  }

  /** Collapsing a text that starts with a word keeps that word in front. */
  lemma {:induction false} CollapseWord(t: string)
    ensures CollapseSpaces(t) == TakeWord(t) + CollapseSpaces(t[|TakeWord(t)|..])
    decreases |t|
  {
    if t != [] && !IsSpace(t[0]) {
      var t' := t[1..];
      CollapseWord(t');
      var w' := TakeWord(t');
      assert TakeWord(t) == [t[0]] + w';
      assert t'[|w'|..] == t[|TakeWord(t)|..];
      assert CollapseSpaces(t) == [t[0]] + CollapseSpaces(t');
      AppendAssoc([t[0]], w', CollapseSpaces(t'[|w'|..]));
    }
  }

  /** A collapsed text is its joined words, possibly followed by one space. */
  predicate JoinedMaybeSpace(c: string, ws: seq<string>) {
    c == Join(ws) || c == Join(ws) + " "
  }
  /** Collapsing a text without leading whitespace gives its joined words,
      followed by one space when the text ends in whitespace. */
  lemma {:induction false} CollapseIsJoin(s: string)
    ensures JoinedMaybeSpace(CollapseSpaces(TrimStart(s)), Words(s))
    decreases |s|
  {
    var t := TrimStart(s);
    if t != [] {
      var w := TakeWord(t);
      var rest := t[|w|..];
      WordsCons(s);
      CollapseWord(t);
      if rest == [] {
        assert Words(rest) == [];
        assert [w] + [] == [w];
      } else {
        var cr := CollapseSpaces(TrimStart(rest));
        CollapseIsJoin(rest);
        assert IsSpace(rest[0]);
        CollapseLeadingSpace(rest);
        assert CollapseSpaces(t) == w + (" " + cr);
        AppendAssoc(w, " ", cr);
        WordsEmpty(rest);
        JoinedCons(w, Words(rest), cr, CollapseSpaces(t));
      }
    }
  }

  lemma WordsCons(s: string)
    requires TrimStart(s) != []
    ensures var t := TrimStart(s); var w := TakeWord(t);
      Words(s) == [w] + Words(t[|w|..])
  {
  }

  lemma WordsEmpty(s: string)
    ensures Words(s) == [] ==> CollapseSpaces(TrimStart(s)) == []
  {
  }

  lemma CollapseLeadingSpace(s: string)
    requires s != [] && IsSpace(s[0])
    ensures CollapseSpaces(s) == " " + CollapseSpaces(TrimStart(s))
  {
  }

  lemma JoinedCons(w: string, ws: seq<string>, cr: string, c: string)
    requires JoinedMaybeSpace(cr, ws)
    requires ws == [] ==> cr == []
    requires c == w + " " + cr
    ensures JoinedMaybeSpace(c, [w] + ws)
  {
    if ws == [] {
      assert [w] + ws == [w];
    } else {
      assert Join([w] + ws) == w + " " + Join(ws);
      if cr == Join(ws) + " " {
        assert c == (w + " " + Join(ws)) + " ";
      }
    }
  }

  /** Joined proper words have no whitespace at either end. */
  lemma {:induction false} JoinEdges(ws: seq<string>)
    requires ProperWords(ws)
    ensures var j := Join(ws); j == [] || (!IsSpace(j[0]) && !IsSpace(j[|j| - 1]))
    ensures ws != [] ==> Join(ws) != [] && Join(ws)[0] == ws[0][0]
  {
    if |ws| > 1 {
      JoinEdges(ws[1..]);
    }
  }

  /** Joined proper words hold only single plain spaces. */
  lemma {:induction false} JoinSpaces(ws: seq<string>)
    requires ProperWords(ws)
    ensures var j := Join(ws);
      && (forall i :: 0 <= i < |j| && IsSpace(j[i]) ==> j[i] == ' ')
      && (forall i :: 0 <= i < |j| - 1 ==> !(IsSpace(j[i]) && IsSpace(j[i + 1])))
  {
    if |ws| > 1 {
      var w := ws[0];
      var rest := Join(ws[1..]);
      var j := Join(ws);
      JoinSpaces(ws[1..]);
      JoinEdges(ws[1..]);
      assert j == w + " " + rest;
      forall i | 0 <= i < |j| && IsSpace(j[i]) ensures j[i] == ' ' {
        if i > |w| { assert j[i] == rest[i - |w| - 1]; }
      }
      forall i | 0 <= i < |j| - 1 ensures !(IsSpace(j[i]) && IsSpace(j[i + 1])) {
        if i > |w| {
          assert j[i] == rest[i - |w| - 1] && j[i + 1] == rest[i - |w|];
        } else if i == |w| {
          assert j[i + 1] == rest[0];
        } else if i == |w| - 1 {
          assert j[i] == w[|w| - 1];
        } else {
          assert j[i] == w[i] && j[i + 1] == w[i + 1];
        }
      }
    }
  }

  /** The reference meaning of `cleanText`: the words of the text joined by single spaces. */
  lemma CleanTextIsJoinedWords(text: string)
    ensures Trim(CollapseSpaces(text)) == Join(Words(text))
  {
    var j := Join(Words(text));
    TrimSteps(CollapseSpaces(text));
    TrimStartOfCollapse(text);
    CollapseIsJoin(text);
    assert j == [] || !IsSpace(j[|j| - 1]) by {
      WordsProper(text);
      JoinEdges(Words(text));
    }
    TrimEndOfJoined(CollapseSpaces(TrimStart(text)), j);
  }

  /** Trimming the end of joined words, possibly followed by one space, gives the joined words. */
  lemma TrimEndOfJoined(c: string, j: string)
    requires c == j || c == j + " "
    requires j == [] || !IsSpace(j[|j| - 1])
    ensures TrimEnd(c) == j
  {
    assert (j + " ")[..|j|] == j;
  }

  /** Trimming the front of a collapsed text is collapsing the trimmed text. */
  lemma TrimStartOfCollapse(text: string)
    ensures TrimStart(CollapseSpaces(text)) == CollapseSpaces(TrimStart(text))
  {
    var t := TrimStart(text);
    var ct := CollapseSpaces(t);
    assert ct == [] || ct[0] == t[0];
    assert TrimStart(ct) == ct;
    if text != [] && IsSpace(text[0]) {
      assert CollapseSpaces(text) == " " + ct;
      assert TrimStart(" " + ct) == TrimStart((" " + ct)[1..]);
      assert (" " + ct)[1..] == ct;
    }
  }

  /** Splitting joined proper words recovers them. */
  lemma {:induction false} WordsOfJoin(ws: seq<string>)
    requires ProperWords(ws)
    ensures Words(Join(ws)) == ws
  {
    if |ws| == 1 {
      WordsOfWordThen(ws[0], []);
      assert ws[0] + [] == ws[0];
    } else if |ws| > 1 {
      var rest := Join(ws[1..]);
      JoinEdges(ws[1..]);
      WordsOfWordThen(ws[0], " " + rest);
      AppendAssoc(ws[0], " ", rest);
      WordsAfterSpace(rest);
      WordsOfJoin(ws[1..]);
      SplitFirst(ws);
    }
  }

  lemma SplitFirst(ws: seq<string>)
    requires ws != []
    ensures ws == [ws[0]] + ws[1..]
  {
  }

  /** A word followed by nothing or by whitespace is the first of the words. */
  lemma WordsOfWordThen(w: string, tail: string)
    requires w != [] && SpaceFree(w)
    requires tail == [] || IsSpace(tail[0])
    ensures Words(w + tail) == [w] + Words(tail)
  {
    var s := w + tail;
    TrimStartNoop(s);
    WordsCons(s);
    TakeWordOfWord(w, tail);
    assert s[|w|..] == tail;
  }

  /** Leading whitespace does not change the words. */
  lemma WordsSkipSpace(s: string)
    ensures Words(s) == Words(TrimStart(s))
  {
    TrimStartNoop(TrimStart(s));
  }

  /** One space before a text does not change its words. */
  lemma WordsAfterSpace(rest: string)
    ensures Words(" " + rest) == Words(rest)
  {
    TrimStartSpaceCons(' ', rest);
    assert [' '] + rest == " " + rest;
    WordsSkipSpace(" " + rest);
    WordsSkipSpace(rest);
  }

  /** The word at the front of `w + tail` is `w` when `tail` is empty or starts with whitespace. */
  lemma {:induction false} TakeWordOfWord(w: string, tail: string)
    requires SpaceFree(w)
    requires tail == [] || IsSpace(tail[0])
    ensures TakeWord(w + tail) == w
  {
    if w != [] {
      assert (w + tail)[1..] == w[1..] + tail;
      TakeWordOfWord(w[1..], tail);
    }
  }

  /** Cleaning is idempotent. */
  lemma CleanTextIdempotent(text: string)
    ensures CleanText(CleanText(text)) == CleanText(text)
  {
    CleanTextIsJoinedWords(text);
    WordsProper(text);
    WordsOfJoin(Words(text));
    CleanTextIsJoinedWords(CleanText(text));
  }

  /** Two texts clean to the same string exactly when they have the same words:
      cleaning forgets the whitespace layout and nothing else. */
  lemma CleanTextSameIffSameWords(a: string, b: string)
    ensures CleanText(a) == CleanText(b) <==> Words(a) == Words(b)
  {
    CleanTextIsJoinedWords(a);
    CleanTextIsJoinedWords(b);
    WordsProper(a);
    WordsProper(b);
    WordsOfJoin(Words(a));
    WordsOfJoin(Words(b));
  }
}
