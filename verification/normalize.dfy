/**
  The normaliser `preprocess_text`: lower-case, strip, collapse every
  whitespace run to one space, then delete every character that is not a
  word character, whitespace, `?`, `!` or `.`.

  Deletion runs after collapsing, so a deleted character between two spaces
  leaves a double space behind, and a deleted leading character leaves a
  leading space. The normaliser is therefore not idempotent
  (`NotIdempotent`); it is idempotent on text from which nothing is deleted
  (`IdempotentWhenNothingDeleted`).
 */
module Normalize {
  import opened Text
  import opened Words

  /** Characters the deletion pass keeps: `\w`, `\s`, `?`, `!`, `.`. */
  predicate Kept(c: char) {
    IsWordChar(c) || IsSpace(c) || c == '?' || c == '!' || c == '.'
  }

  /** Characters that can appear in normalised text. */
  predicate NormalChar(c: char) {
    (IsWordChar(c) && !IsUpper(c)) || c == ' ' || c == '?' || c == '!' || c == '.'
  }

  /** Text that the normaliser maps to itself: only normal characters, no
      leading or trailing space, no two spaces in a row. */
  predicate Canonical(t: string) {
    && Chars(t, NormalChar)
    && (|t| > 0 ==> t[0] != ' ' && t[|t| - 1] != ' ')
    && NoDoubleSpace(t)
  }

  /** `re.sub(r'\s+', ' ', s)`. */
  function CollapseSpaces(s: string): (r: string)
    ensures |r| <= |s|
    ensures |s| == 0 <==> |r| == 0
    ensures |s| > 0 && !IsSpace(s[0]) ==> r[0] == s[0]
    ensures |s| > 0 && IsSpace(s[0]) ==> r[0] == ' '
    decreases |s|
  {
    if |s| == 0 then []
    else if IsSpace(s[0]) then [' '] + CollapseSpaces(TrimStart(s))
    else [s[0]] + CollapseSpaces(s[1..])
  }

  /** Collapsing leaves whitespace only as single spaces. */
  lemma {:induction false} CollapseBlanks(s: string)
    ensures SingleBlanks(CollapseSpaces(s))
    decreases |s|
  {
    if |s| > 0 {
      var rest := CollapseRest(s);
      CollapseBlanks(rest);
      SingleBlanksCons(CollapseSpaces(s)[0], CollapseSpaces(rest));
    }
  }

  /** A character followed by single-blanked text is single-blanked when it
      is not whitespace, or is a space the text does not start with. */
  lemma SingleBlanksCons(x: char, c: string)
    requires SingleBlanks(c)
    requires !IsSpace(x) || (x == ' ' && (|c| == 0 || c[0] != ' '))
    ensures SingleBlanks([x] + c)
  {
    var t := [x] + c;
    assert forall i :: 1 <= i < |t| ==> t[i] == c[i - 1];
  }

  /** The text collapsing continues with after the first character. */
  function CollapseRest(s: string): (r: string)
    requires |s| > 0
    ensures |r| < |s| && r == s[|s| - |r|..]
    ensures |s| > 0 && IsSpace(s[0]) ==> |r| == 0 || !IsSpace(r[0])
    ensures CollapseSpaces(s) == [CollapseSpaces(s)[0]] + CollapseSpaces(r)
  {
    if IsSpace(s[0]) then TrimStart(s) else s[1..]
  }

  /** Collapsing keeps a non-whitespace last character last, and ends in a
      space exactly when the input ends in whitespace. */
  lemma {:induction false} CollapseLast(s: string)
    requires |s| > 0
    ensures var r := CollapseSpaces(s);
      |r| > 0 && r[|r| - 1] == if IsSpace(s[|s| - 1]) then ' ' else s[|s| - 1]
    decreases |s|
  {
    var rest := CollapseRest(s);
    if |rest| > 0 {
      assert rest[|rest| - 1] == s[|s| - 1];
      CollapseLast(rest);
    } else if IsSpace(s[0]) {
      assert LeadingSpaces(s) == |s|;
    } else {
      assert |s| == 1;
    }
  }

  /** Collapsing whitespace runs keeps the tokens `str.split()` sees. */
  lemma {:induction false} CollapseSplit(s: string)
    ensures Split(CollapseSpaces(s)) == Split(s)
    decreases |s|
  {
    if |s| > 0 {
      var rest := CollapseRest(s);
      var r := CollapseSpaces(s);
      CollapseSplit(rest);
      if IsSpace(s[0]) {
        assert r == [' '] + CollapseSpaces(rest);
        SplitSkipsSpace(r);
        assert r[1..] == CollapseSpaces(rest);
        SplitIgnoresLeadingSpace(s);
      } else {
        assert r == [s[0]] + CollapseSpaces(rest);
        assert s == [s[0]] + rest;
        SplitConsToken(s[0], CollapseSpaces(rest));
        SplitConsToken(s[0], rest);
      }
    }
  }

  /** An independent description of `re.sub(r'\s+', ' ', s)`: the tokens
      of `s` joined by single spaces, after one space when `s` starts with
      whitespace and before one when it ends with whitespace; text that is
      all whitespace becomes a single space. */
  function Collapsed(s: string): string {
    if |s| == 0 then []
    else if AllSpace(s) then " "
    else (if IsSpace(s[0]) then " " else []) + Join(Split(s)) + (if IsSpace(s[|s| - 1]) then " " else [])
  }

  /** Collapsing agrees with the independent description on every input. */
  lemma CollapseMatchesReference(s: string)
    ensures CollapseSpaces(s) == Collapsed(s)
  {
    var r := CollapseSpaces(s);
    if |s| > 0 {
      if AllSpace(s) {
        assert LeadingSpaces(s) == |s|;
        assert TrimStart(s) == [];
        assert r == [' '] + CollapseSpaces(TrimStart(s));
      } else {
        CollapseBlanks(s);
        CollapseSplit(s);
        CollapseLast(s);
        assert !AllSpace(r);
        SingleBlanksCore(r);
        assert (r[0] == ' ') == IsSpace(s[0]);
      }
    }
  }

  /** Single-blanked text that is not all whitespace is its tokens joined
      by single spaces, with at most one space at either end. */
  lemma SingleBlanksCore(r: string)
    requires SingleBlanks(r) && !AllSpace(r)
    ensures |r| > 0
    ensures r == (if r[0] == ' ' then " " else []) + Join(Split(r)) + (if r[|r| - 1] == ' ' then " " else [])
  {
    FrameFits(r);
    var lead := if r[0] == ' ' then 1 else 0;
    var trail := if r[|r| - 1] == ' ' then 1 else 0;
    var front := if r[0] == ' ' then " " else [];
    var back := if r[|r| - 1] == ' ' then " " else [];
    var core := r[lead..|r| - trail];
    CoreSingleSpaced(r, lead, trail);
    FrameOf(r, lead, trail);
    SplitFrame(front, core, back);
    JoinSplit(core);
  }

  /** Single-blanked text is its core between the optional end spaces. */
  lemma FrameOf(r: string, lead: nat, trail: nat)
    requires |r| > 0 && lead + trail <= |r|
    requires lead == (if r[0] == ' ' then 1 else 0)
    requires trail == (if r[|r| - 1] == ' ' then 1 else 0)
    ensures r == (if r[0] == ' ' then " " else []) + r[lead..|r| - trail] + (if r[|r| - 1] == ' ' then " " else [])
  {
    ThreeSlices(r, lead, |r| - trail);
    assert r[..lead] == if r[0] == ' ' then " " else [];
    assert r[|r| - trail..] == if r[|r| - 1] == ' ' then " " else [];
  }

  /** At most one space is removed from either end, and they do not overlap. */
  lemma FrameFits(r: string)
    requires SingleBlanks(r) && !AllSpace(r)
    ensures |r| > 0
    ensures (if r[0] == ' ' then 1 else 0) + (if r[|r| - 1] == ' ' then 1 else 0) <= |r|
  {
    if |r| == 1 {
      assert !IsSpace(r[0]);
    } else if |r| == 2 {
      NoDoubleAt(r, 0);
    }
  }

  lemma NoDoubleAt(t: string, i: nat)
    requires NoDoubleSpace(t) && i + 1 < |t|
    ensures t[i] != ' ' || t[i + 1] != ' '
  {
  }

  lemma ThreeSlices(r: string, i: nat, j: nat)
    requires i <= j <= |r|
    ensures r == r[..i] + r[i..j] + r[j..]
  {
  }

  /** Removing at most one space from either end of single-blanked text
      leaves single-spaced text. */
  lemma CoreSingleSpaced(r: string, lead: nat, trail: nat)
    requires SingleBlanks(r) && lead + trail <= |r|
    requires lead == (if |r| > 0 && r[0] == ' ' then 1 else 0)
    requires trail == (if |r| > 0 && r[|r| - 1] == ' ' then 1 else 0)
    ensures SingleSpaced(r[lead..|r| - trail])
  {
    var core := r[lead..|r| - trail];
    assert forall i :: 0 <= i < |core| ==> core[i] == r[lead + i];
    if |core| > 0 {
      if lead == 1 {
        NoDoubleAt(r, 0);
      }
      if trail == 1 {
        NoDoubleAt(r, |r| - 2);
      }
    }
    assert NoDoubleSpace(core) by {
      forall i, j | 0 <= i < |core| && 0 <= j < |core| && j == i + 1
        ensures !(core[i] == ' ' && core[j] == ' ')
      {
        NoDoubleAt(r, lead + i);
      }
    }
  }

  /** A space at either end does not change the tokens. */
  lemma SplitFrame(front: string, core: string, back: string)
    requires front == " " || front == []
    requires back == " " || back == []
    ensures Split(front + core + back) == Split(core)
  {
    if back == " " {
      SplitBeforeSpace(core, back);
      assert Split(back) == [];
    } else {
      assert core + back == core;
    }
    if front == " " {
      var t := front + (core + back);
      SplitSkipsSpace(t);
      assert t[1..] == core + back;
    } else {
      assert front + (core + back) == core + back;
    }
    assert front + core + back == front + (core + back);
  }

  /** What holds of every character of `s` holds of every character of a suffix. */
  lemma SuffixChars(s: string, n: nat, p: char -> bool)
    requires Chars(s, p) && n <= |s|
    ensures Chars(s[n..], p)
  {
    assert forall k :: 0 <= k < |s| - n ==> s[n..][k] == s[n + k];
  }

  /** Every character is a space or has property `p`. */
  predicate SpaceOr(t: string, p: char -> bool) {
    forall i :: 0 <= i < |t| ==> t[i] == ' ' || p(t[i])
  }

  lemma SpaceOrCons(x: char, c: string, p: char -> bool)
    requires x == ' ' || p(x)
    requires SpaceOr(c, p)
    ensures SpaceOr([x] + c, p)
  {
    var t := [x] + c;
    assert forall i :: 1 <= i < |t| ==> t[i] == c[i - 1];
  }

  /** Collapsing only replaces whitespace by spaces: what holds of every
      character of `s` holds of every non-space character of the result. */
  lemma {:induction false} CollapseKeeps(s: string, p: char -> bool)
    requires Chars(s, p)
    ensures SpaceOr(CollapseSpaces(s), p)
    decreases |s|
  {
    if |s| > 0 {
      var rest := CollapseRest(s);
      SuffixChars(s, |s| - |rest|, p);
      CollapseKeeps(rest, p);
      SpaceOrCons(CollapseSpaces(s)[0], CollapseSpaces(rest), p);
    }
  }

  /** `re.sub(r'[^\w\s\?\!\.]', '', s)`. */
  function DeleteUnkept(s: string): (r: string)
    ensures |r| <= |s|
    ensures Chars(r, Kept)
    ensures Chars(s, Kept) ==> r == s
  {
    if |s| == 0 then []
    else if Kept(s[0]) then [s[0]] + DeleteUnkept(s[1..])
    else DeleteUnkept(s[1..])
  }

  /** Deletion is a filter: it keeps every kept character, as often as it
      occurs, in order, and drops the rest. */
  lemma {:induction false} DeleteFilters(s: string)
    ensures var r := DeleteUnkept(s);
      && IsSubsequence(r, s)
      && forall c :: multiset(r)[c] == if Kept(c) then multiset(s)[c] else 0
    decreases |s|
  {
    if |s| > 0 {
      DeleteFilters(s[1..]);
      assert s == [s[0]] + s[1..];
    }
  }

  /** Deletion only removes characters. */
  lemma {:induction false} DeleteKeeps(s: string, p: char -> bool)
    requires Chars(s, p)
    ensures Chars(DeleteUnkept(s), p)
    decreases |s|
  {
    if |s| > 0 {
      assert Chars(s[1..], p) by {
        assert forall k :: 0 <= k < |s| - 1 ==> s[1..][k] == s[k + 1];
      }
      DeleteKeeps(s[1..], p);
    }
  }

  /** `preprocess_text`. */
  function Preprocess(s: string): (r: string)
    ensures Chars(r, NormalChar)
    ensures AllSpace(s) ==> r == []
  {
    var lowered := Lower(s);
    var stripped := Strip(lowered);
    var collapsed := CollapseSpaces(stripped);
    var deleted := DeleteUnkept(collapsed);
    assert Chars(deleted, NormalChar) by {
      assert Chars(lowered, c => !IsUpper(c));
      StripKeeps(lowered, c => !IsUpper(c));
      CollapseKeeps(stripped, c => !IsUpper(c));
      CollapseBlanks(stripped);
      assert SpaceOr(collapsed, c => !IsUpper(c));
      assert Chars(collapsed, c => !IsUpper(c) && (IsSpace(c) ==> c == ' '));
      DeleteKeeps(collapsed, c => !IsUpper(c) && (IsSpace(c) ==> c == ' '));
    }
    assert AllSpace(s) ==> AllSpace(lowered);
    deleted
  }

  /** Whitespace only as single spaces, never two in a row. */
  predicate SingleBlanks(t: string) {
    && (forall i :: 0 <= i < |t| ==> IsSpace(t[i]) ==> t[i] == ' ')
    && NoDoubleSpace(t)
  }

  lemma SingleBlanksTail(t: string)
    requires SingleBlanks(t) && |t| > 0
    ensures SingleBlanks(t[1..])
  {
    var u := t[1..];
    forall i | 0 <= i < |u|
      ensures IsSpace(u[i]) ==> u[i] == ' '
    {
      assert u[i] == t[i + 1];
    }
    forall i, j | 0 <= i < |u| && 0 <= j < |u| && j == i + 1
      ensures !(u[i] == ' ' && u[j] == ' ')
    {
      assert u[i] == t[i + 1] && u[j] == t[j + 1];
    }
  }

  /** Collapsing leaves text with single blanks alone. */
  lemma {:induction false} CollapseFixesSingleSpaced(t: string)
    requires SingleBlanks(t)
    ensures CollapseSpaces(t) == t
    decreases |t|
  {
    if |t| > 0 {
      SingleBlanksTail(t);
      CollapseFixesSingleSpaced(t[1..]);
      if IsSpace(t[0]) {
        if |t| > 1 {
          assert !(t[0] == ' ' && t[1] == ' ');
          assert !IsSpace(t[1]);
        }
        assert LeadingSpaces(t[1..]) == 0;
        assert TrimStart(t) == t[1..];
      }
      assert t == [t[0]] + t[1..];
    }
  }

  /** Canonical text is a fixed point of the normaliser. */
  lemma FixesCanonical(t: string)
    requires Canonical(t)
    ensures Preprocess(t) == t
  {
    CanonicalShape(t);
    LowerFixes(t);
    CollapseFixesSingleSpaced(t);
    PreprocessSteps(t);
  }

  /** What canonical text is made of, pass by pass. */
  lemma CanonicalShape(t: string)
    requires Canonical(t)
    ensures forall i :: 0 <= i < |t| ==> !IsUpper(t[i])
    ensures Strip(t) == t
    ensures SingleBlanks(t)
    ensures DeleteUnkept(t) == t
  {
    assert forall i :: 0 <= i < |t| ==> NormalChar(t[i]);
    CanonicalStripped(t);
    assert Chars(t, Kept);
  }

  lemma CanonicalStripped(t: string)
    requires Canonical(t)
    ensures Strip(t) == t
  {
    assert |t| > 0 ==> NormalChar(t[0]) && NormalChar(t[|t| - 1]);
  }

  /** The normaliser is its four passes in order. */
  lemma PreprocessSteps(s: string)
    ensures Preprocess(s) == DeleteUnkept(CollapseSpaces(Strip(Lower(s))))
  {
  }

  lemma LowerFixes(t: string)
    requires forall i :: 0 <= i < |t| ==> !IsUpper(t[i])
    ensures Lower(t) == t
  {
    assert forall i :: 0 <= i < |t| ==> Lower(t)[i] == t[i];
  }

  /** A character that survives deletion and is not upper case. */
  predicate KeptLower(c: char) {
    Kept(c) && !IsUpper(c)
  }

  /** Collapsing stripped, lower-cased text without deletable characters
      gives canonical text. */
  lemma CollapseOfStrippedIsCanonical(t: string)
    requires Chars(t, KeptLower)
    requires |t| > 0 ==> !IsSpace(t[0]) && !IsSpace(t[|t| - 1])
    ensures Canonical(CollapseSpaces(t))
  {
    var c := CollapseSpaces(t);
    CollapseKeeps(t, KeptLower);
    CollapseBlanks(t);
    if |t| > 0 {
      CollapseLast(t);
    }
    assert forall i :: 0 <= i < |c| ==> NormalChar(c[i]) by {
      assert SpaceOr(c, KeptLower);
    }
  }

  /** When no character of the input is deleted, the output is canonical. */
  lemma CanonicalWhenNothingDeleted(s: string)
    requires Chars(s, Kept)
    ensures Canonical(Preprocess(s))
  {
    var lowered := Lower(s);
    assert Chars(lowered, KeptLower) by {
      assert forall i :: 0 <= i < |s| ==> Kept(s[i]) && lowered[i] == ToLower(s[i]);
    }
    var stripped := Strip(lowered);
    StripKeeps(lowered, KeptLower);
    var collapsed := CollapseSpaces(stripped);
    CollapseOfStrippedIsCanonical(stripped);
    assert Chars(collapsed, Kept) by {
      assert forall i :: 0 <= i < |collapsed| ==> NormalChar(collapsed[i]);
    }
    assert Preprocess(s) == collapsed;
  }

  /** The normaliser is idempotent on text from which it deletes nothing. */
  lemma IdempotentWhenNothingDeleted(s: string)
    requires Chars(s, Kept)
    ensures Preprocess(Preprocess(s)) == Preprocess(s)
  {
    CanonicalWhenNothingDeleted(s);
    FixesCanonical(Preprocess(s));
  }

  lemma DeleteExample(s: string)
    requires s == "a - b"
    ensures DeleteUnkept(s) == "a  b"
  {
    assert !Kept(s[2]);
    assert DeleteUnkept(s[3..]) == s[3..];
    assert DeleteUnkept(s[2..]) == DeleteUnkept(s[3..]);
    assert DeleteUnkept(s[1..]) == [s[1]] + DeleteUnkept(s[2..]);
    assert DeleteUnkept(s) == [s[0]] + DeleteUnkept(s[1..]);
  }

  lemma FirstPassExample(s: string)
    requires s == "a - b"
    ensures Preprocess(s) == "a  b"
  {
    LowerFixes(s);
    assert Strip(s) == s;
    assert SingleBlanks(s);
    CollapseFixesSingleSpaced(s);
    DeleteExample(s);
  }

  lemma SecondPassExample(s: string)
    requires s == "a  b"
    ensures Preprocess(s) == "a b"
  {
    LowerFixes(s);
    assert Strip(s) == s;
    var t := s[1..];
    assert LeadingSpaces(t) == 2 by {
      assert LeadingSpaces(t[2..]) == 0;
      assert LeadingSpaces(t[1..]) == 1;
    }
    assert TrimStart(t) == s[3..];
    assert CollapseSpaces(s[3..]) == s[3..];
    assert CollapseSpaces(t) == [' '] + s[3..];
    assert CollapseSpaces(s) == "a b";
    assert forall i :: 0 <= i < |"a b"| ==> Kept("a b"[i]);
  }

  /** The normaliser is not idempotent: `"a - b"` becomes `"a  b"`, which
      becomes `"a b"`. */
  lemma NotIdempotent()
    ensures Preprocess("a - b") == "a  b"
    ensures Preprocess(Preprocess("a - b")) != Preprocess("a - b")
  {
    FirstPassExample("a - b");
    SecondPassExample("a  b");
  }
}
