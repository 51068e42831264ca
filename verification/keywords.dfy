/** The stop-word list of `extract_keywords`. */
module StopWordList {

  const StopWords: set<string> := {
    "i", "me", "my", "myself", "we", "our", "ours", "ourselves", "you", "your", "yours",
    "yourself", "yourselves", "he", "him", "his", "himself", "she", "her", "hers",
    "herself", "it", "its", "itself", "they", "them", "their", "theirs", "themselves",
    "what", "which", "who", "whom", "this", "that", "these", "those", "am", "is", "are",
    "was", "were", "be", "been", "being", "have", "has", "had", "having", "do", "does",
    "did", "doing", "a", "an", "the", "and", "but", "if", "or", "because", "as", "until",
    "while", "of", "at", "by", "for", "with", "through", "during", "before", "after",
    "above", "below", "up", "down", "in", "out", "on", "off", "over", "under", "again",
    "further", "then", "once", "can", "could", "would", "should"
  }
}

/** `str.split()` with no separator, and `" ".join`. */
module Words {
  import opened Text

  /** A token as `str.split()` produces it: non-empty, no whitespace. */
  predicate IsToken(w: string) {
    |w| > 0 && forall i :: 0 <= i < |w| ==> !IsSpace(w[i])
  }

  /** Text whose whitespace is single spaces, never at either end and never
      two in a row: the text that joining tokens with spaces produces. */
  predicate SingleSpaced(t: string) {
    && (forall i :: 0 <= i < |t| ==> IsSpace(t[i]) ==> t[i] == ' ')
    && (|t| > 0 ==> t[0] != ' ' && t[|t| - 1] != ' ')
    && NoDoubleSpace(t)
  }

  /** Length of the run of non-whitespace characters at the front of `s`. */
  function TokenLength(s: string): (n: nat)
    ensures n <= |s|
    ensures forall i :: 0 <= i < n ==> !IsSpace(s[i])
    ensures n < |s| ==> IsSpace(s[n])
  {
    if |s| > 0 && !IsSpace(s[0]) then 1 + TokenLength(s[1..]) else 0
  }

  /** `str.split()` with no separator: the maximal whitespace-free runs. */
  function Split(s: string): (r: seq<string>)
    ensures forall k :: 0 <= k < |r| ==> IsToken(r[k])
    ensures AllSpace(s) <==> r == []
    decreases |s|
  {
    if |s| == 0 then []
    else if IsSpace(s[0]) then Split(s[1..])
    else
      var n := TokenLength(s);
      [s[..n]] + Split(s[n..])
  }

  /** `" ".join(ws)`. */
  function Join(ws: seq<string>): string {
    if |ws| == 0 then []
    else if |ws| == 1 then ws[0]
    else ws[0] + " " + Join(ws[1..])
  }

  lemma {:induction false} TokenLengthOfJoined(w: string, rest: string)
    requires IsToken(w)
    requires |rest| > 0 ==> IsSpace(rest[0])
    ensures TokenLength(w + rest) == |w|
    decreases |w|
  {
    if |w| > 1 {
      assert (w + rest)[1..] == w[1..] + rest;
      TokenLengthOfJoined(w[1..], rest);
    } else {
      assert (w + rest)[1..] == rest;
    }
  }

  /** Splitting tokens joined by single spaces gives the tokens back. */
  lemma {:induction false} SplitJoin(ws: seq<string>)
    requires forall k :: 0 <= k < |ws| ==> IsToken(ws[k])
    ensures Split(Join(ws)) == ws
    decreases |ws|
  {
    if |ws| == 1 {
      TokenLengthOfJoined(ws[0], []);
      assert ws[0] + [] == ws[0];
      assert ws[0][|ws[0]|..] == [];
    } else if |ws| > 1 {
      var w, tail := ws[0], Join(ws[1..]);
      var s := w + " " + tail;
      TokenLengthOfJoined(w, " " + tail);
      assert w + (" " + tail) == s;
      assert s[..|w|] == w;
      assert s[|w|..] == " " + tail;
      assert (" " + tail)[1..] == tail;
      SplitJoin(ws[1..]);
    }
  }

  /** A suffix of single-spaced text that starts after a space is single-spaced. */
  lemma SingleSpacedAfterSpace(t: string, m: nat)
    requires SingleSpaced(t) && 0 < m < |t| && t[m - 1] == ' '
    ensures SingleSpaced(t[m..])
  {
    var u := t[m..];
    assert forall i :: 0 <= i < |u| ==> u[i] == t[m + i];
    assert u[0] != ' ';
  }

  /** Single-spaced text with a space after its first token: the token, then
      the single-spaced rest. */
  lemma SplitAtFirstSpace(t: string)
    requires SingleSpaced(t) && 0 < TokenLength(t) < |t|
    ensures var n := TokenLength(t);
      && n + 1 < |t| && t[n] == ' '
      && SingleSpaced(t[n + 1..])
      && Split(t) == [t[..n]] + Split(t[n + 1..])
      && t == t[..n] + " " + t[n + 1..]
  {
    var n := TokenLength(t);
    SpaceAfterToken(t);
    SingleSpacedAfterSpace(t, n + 1);
    SplitAfterToken(t);
    SplitAround(t, n);
  }

  lemma SpaceAfterToken(t: string)
    requires SingleSpaced(t) && 0 < TokenLength(t) < |t|
    ensures TokenLength(t) + 1 < |t| && t[TokenLength(t)] == ' '
  {
    var n := TokenLength(t);
    assert IsSpace(t[n]);
    assert t[|t| - 1] != ' ';
  }

  lemma SplitAfterToken(t: string)
    requires |t| > 0 && !IsSpace(t[0]) && TokenLength(t) < |t|
    ensures Split(t) == [t[..TokenLength(t)]] + Split(t[TokenLength(t) + 1..])
  {
    var n := TokenLength(t);
    SplitTakesToken(t);
    var rest := t[n..];
    SplitSkipsSpace(rest);
    TailOfSuffix(t, n);
  }

  lemma TailOfSuffix(t: string, n: nat)
    requires n < |t|
    ensures t[n..][1..] == t[n + 1..]
  {
  }

  lemma SplitAround(t: string, n: nat)
    requires n < |t| && t[n] == ' '
    ensures t == t[..n] + " " + t[n + 1..]
  {
    assert t == t[..n] + t[n..];
    assert t[n..] == [t[n]] + t[n + 1..];
  }

  lemma SplitTakesToken(t: string)
    requires |t| > 0 && !IsSpace(t[0])
    ensures Split(t) == [t[..TokenLength(t)]] + Split(t[TokenLength(t)..])
  {
  }

  lemma SplitSkipsSpace(t: string)
    requires |t| > 0 && IsSpace(t[0])
    ensures Split(t) == Split(t[1..])
  {
  }

  /** Joining the tokens of single-spaced text with spaces gives the text back. */
  lemma {:induction false} JoinSplit(t: string)
    requires SingleSpaced(t)
    ensures Join(Split(t)) == t
    decreases |t|
  {
    if |t| > 0 {
      assert !IsSpace(t[0]);
      var n := TokenLength(t);
      if n == |t| {
        assert Split(t) == [t[..n]] + Split([]);
        assert t[..n] == t;
      } else {
        SplitAtFirstSpace(t);
        var tail := t[n + 1..];
        JoinSplit(tail);
        var ws := Split(t);
        assert Split(tail) != [];
        assert ws[0] == t[..n] && ws[1..] == Split(tail);
        assert Join(ws) == t[..n] + " " + tail;
      }
    }
  }

  /** Whitespace separates tokens: splitting around any whitespace
      character splits the two sides independently. */
  lemma SplitAtSpace(a: string, c: char, b: string)
    requires IsSpace(c)
    ensures Split(a + [c] + b) == Split(a) + Split(b)
  {
    var x := [c] + b;
    assert a + [c] + b == a + x;
    SplitSkipsSpace(x);
    assert x[1..] == b;
    SplitBeforeSpace(a, x);
  }

  lemma {:induction false} SplitBeforeSpace(a: string, x: string)
    requires |x| > 0 && IsSpace(x[0])
    ensures Split(a + x) == Split(a) + Split(x)
    decreases |a|
  {
    if |a| == 0 {
      assert a + x == x;
    } else if IsSpace(a[0]) {
      SplitBeforeSpace(a[1..], x);
      SkipSpaceBeforeSpace(a, x);
    } else {
      var n := TokenLength(a);
      SplitBeforeSpace(a[n..], x);
      TakeTokenBeforeSpace(a, x);
    }
  }

  /** The step of `SplitBeforeSpace` for text starting with whitespace. */
  lemma SkipSpaceBeforeSpace(a: string, x: string)
    requires |a| > 0 && IsSpace(a[0])
    requires Split(a[1..] + x) == Split(a[1..]) + Split(x)
    ensures Split(a + x) == Split(a) + Split(x)
  {
    SplitSkipsSpace(a + x);
    SplitSkipsSpace(a);
    ConcatSlices(a, x, 1);
  }

  /** The step of `SplitBeforeSpace` for text starting with a token. */
  lemma TakeTokenBeforeSpace(a: string, x: string)
    requires |a| > 0 && !IsSpace(a[0]) && |x| > 0 && IsSpace(x[0])
    requires Split(a[TokenLength(a)..] + x) == Split(a[TokenLength(a)..]) + Split(x)
    ensures Split(a + x) == Split(a) + Split(x)
  {
    var n := TokenLength(a);
    SplitTakesFirstToken(a, x);
    SplitTakesToken(a);
    AppendAssoc([a[..n]], Split(a[n..]), Split(x));
  }

  lemma AppendAssoc<T>(a: seq<T>, b: seq<T>, c: seq<T>)
    ensures a + (b + c) == a + b + c
  {
  }

  /** The first token of `a + x` is that of `a` when `x` starts with whitespace. */
  lemma SplitTakesFirstToken(a: string, x: string)
    requires |a| > 0 && !IsSpace(a[0]) && |x| > 0 && IsSpace(x[0])
    ensures Split(a + x) == [a[..TokenLength(a)]] + Split(a[TokenLength(a)..] + x)
  {
    var t, n := a + x, TokenLength(a);
    TokenLengthOfPrefix(a, x);
    SplitTakesToken(t);
    ConcatSlices(a, x, n);
  }

  lemma ConcatSlices(a: string, x: string, n: nat)
    requires n <= |a|
    ensures (a + x)[..n] == a[..n] && (a + x)[n..] == a[n..] + x
  {
  }

  lemma ConsSlices(c: char, x: string, m: nat)
    requires m <= |x|
    ensures ([c] + x)[..m + 1] == [c] + x[..m] && ([c] + x)[m + 1..] == x[m..]
  {
  }

  /** The first token of `a + x` is that of `a` when it ends inside `a` or
      `x` starts with whitespace. */
  lemma {:induction false} TokenLengthOfPrefix(a: string, x: string)
    requires TokenLength(a) < |a| || |x| == 0 || IsSpace(x[0])
    ensures TokenLength(a + x) == TokenLength(a)
    decreases |a|
  {
    if |a| > 0 && !IsSpace(a[0]) {
      assert (a + x)[1..] == a[1..] + x;
      TokenLengthOfPrefix(a[1..], x);
    } else if |a| == 0 {
      assert a + x == x;
    }
  }

  /** A non-whitespace character in front of `x` starts a new token when
      `x` is empty or starts with whitespace, and otherwise joins the first
      token of `x`. */
  lemma SplitConsToken(c: char, x: string)
    requires !IsSpace(c)
    ensures |x| == 0 || IsSpace(x[0]) ==> Split([c] + x) == [[c]] + Split(x)
    ensures |x| > 0 && !IsSpace(x[0]) ==>
      |Split(x)| > 0 && Split([c] + x) == [[c] + Split(x)[0]] + Split(x)[1..]
  {
    var t := [c] + x;
    SplitToken([c]);
    if |x| == 0 {
      assert t == [c];
    } else if IsSpace(x[0]) {
      SplitBeforeSpace([c], x);
    } else {
      var m := TokenLength(x);
      assert t[1..] == x;
      assert TokenLength(t) == m + 1;
      ConsSlices(c, x, m);
      SplitTakesToken(t);
      SplitTakesToken(x);
    }
  }

  /** Leading whitespace does not change the tokens. */
  lemma {:induction false} SplitIgnoresLeadingSpace(s: string)
    ensures Split(TrimStart(s)) == Split(s)
    decreases |s|
  {
    if |s| > 0 && IsSpace(s[0]) {
      SplitSkipsSpace(s);
      SplitIgnoresLeadingSpace(s[1..]);
    }
  }

  /** A single token splits to itself. */
  lemma SplitToken(w: string)
    requires IsToken(w)
    ensures Split(w) == [w]
  {
    SplitJoin([w]);
  }
}

/**
  The keyword extractor `extract_keywords`: split on whitespace, then drop
  stop words and tokens of at most two characters, keeping the order.
 */
module Keywords {
  import opened Text
  import opened Words
  import opened StopWordList

  predicate IsKeyword(w: string) {
    w !in StopWords && |w| > 2
  }

  /** The list comprehension of `extract_keywords` over a token list. */
  function KeepKeywords(ws: seq<string>): (r: seq<string>)
    ensures forall k :: 0 <= k < |r| ==> IsKeyword(r[k])
    ensures forall w :: IsKeyword(w) ==> multiset(r)[w] == multiset(ws)[w]
    ensures IsSubsequence(r, ws)
  {
    if |ws| == 0 then []
    else
      var rest := KeepKeywords(ws[1..]);
      assert ws == [ws[0]] + ws[1..];
      if IsKeyword(ws[0]) then [ws[0]] + rest
      else rest
  }

  /** `extract_keywords`: exactly the whitespace-split tokens of `text` that
      are not stop words and are longer than two characters, with their
      multiplicities, in their original order. */
  function ExtractKeywords(text: string): (r: seq<string>)
    ensures forall k :: 0 <= k < |r| ==> IsToken(r[k]) && IsKeyword(r[k])
    ensures forall w :: w in r <==> w in Split(text) && IsKeyword(w)
    ensures forall w :: IsKeyword(w) ==> multiset(r)[w] == multiset(Split(text))[w]
    ensures IsSubsequence(r, Split(text))
    ensures AllSpace(text) ==> r == []
  {
    var ws := Split(text);
    var r := KeepKeywords(ws);
    assert forall w :: w in r ==> w in ws by {
      forall w | w in r ensures w in ws {
        assert IsKeyword(w);
        assert multiset(r)[w] > 0;
      }
    }
    assert forall w :: w in ws && IsKeyword(w) ==> w in r by {
      forall w | w in ws && IsKeyword(w) ensures w in r {
        assert multiset(ws)[w] > 0;
      }
    }
    r
  }
}
