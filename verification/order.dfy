/**
  The order-number extractor `extract_order_number`. Its three regexes are
  written out as scanners over the raw text, all case-insensitive:

    (a) `#?ORD\d+`                      the whole match is reported
    (b) `order\s+(?:number\s+)?#?(\w+)`  group 1 is reported
    (c) `#(\d{6,})`                     group 1 is reported

  Each is searched over the whole text (leftmost match first) before the
  next is tried. Greedy runs take as many characters as they can; the only
  backtracking that changes a result is in (b), where the optional
  `number\s+` is given up when no word follows it, so `"order number"` alone
  reports `"number"`.
 */
module OrderNumber {
  import opened Options
  import opened Text

  /** The reported text of a match: `s[start..end]`. */
  datatype Span = Span(start: nat, end: nat)

  predicate ValidSpan(s: string, sp: Span) {
    sp.start < sp.end <= |s|
  }

  /** End of the run of characters of class `cls` that starts at `q`. */
  function RunEnd(s: string, q: nat, cls: char -> bool): (e: nat)
    requires q <= |s|
    ensures q <= e <= |s|
    ensures forall k :: q <= k < e ==> cls(s[k])
    ensures e == |s| || !cls(s[e])
    decreases |s| - q
  {
    if q < |s| && cls(s[q]) then RunEnd(s, q + 1, cls) else q
  }

  // ---------------------------------------------------------------------------
  // (a) #?ORD\d+

  /** `w` is a match of `#?ORD\d+`. */
  predicate OrdCode(w: string) {
    var h := if |w| > 0 && w[0] == '#' then 1 else 0;
    LowerAt(w, h, "ord") && |w| > h + 3 && forall k :: h + 3 <= k < |w| ==> IsDigit(w[k])
  }

  /** The match of (a) starting at `p`: the longest prefix of `s[p..]` that
      has the shape `#?ORD\d+`, and `None` when no prefix has it. */
  function MatchOrdCode(s: string, p: nat): (r: Option<Span>)
    ensures r.None? <==> forall e :: p <= e <= |s| ==> !OrdCode(s[p..e])
    ensures r.Some? ==> && r.value.start == p && ValidSpan(s, r.value)
                        && OrdCode(s[p..r.value.end])
                        && forall e :: r.value.end < e <= |s| ==> !OrdCode(s[p..e])
  {
    var h := if p < |s| && s[p] == '#' then 1 else 0;
    if LowerAt(s, p + h, "ord") && p + h + 3 < |s| && IsDigit(s[p + h + 3]) then
      var e := RunEnd(s, p + h + 3, IsDigit);
      OrdCodeLongest(s, p, h, e);
      Some(Span(p, e))
    else
      OrdCodeAbsent(s, p, h);
      None
  }

  lemma OrdCodeLongest(s: string, p: nat, h: nat, e: nat)
    requires h == (if p < |s| && s[p] == '#' then 1 else 0)
    requires LowerAt(s, p + h, "ord") && p + h + 3 < e <= |s|
    requires forall k :: p + h + 3 <= k < e ==> IsDigit(s[k])
    requires e == |s| || !IsDigit(s[e])
    ensures OrdCode(s[p..e])
    ensures forall e' :: e < e' <= |s| ==> !OrdCode(s[p..e'])
  {
    var w := s[p..e];
    assert w[0] == s[p];
    assert forall k :: h <= k < h + 3 ==> w[k] == s[p + k];
    forall e' | e < e' <= |s|
      ensures !OrdCode(s[p..e'])
    {
      var w' := s[p..e'];
      assert w'[0] == s[p];
      assert w'[e - p] == s[e];
    }
  }

  lemma OrdCodeAbsent(s: string, p: nat, h: nat)
    requires h == (if p < |s| && s[p] == '#' then 1 else 0)
    requires !(LowerAt(s, p + h, "ord") && p + h + 3 < |s| && IsDigit(s[p + h + 3]))
    ensures forall e :: p <= e <= |s| ==> !OrdCode(s[p..e])
  {
    forall e | p <= e <= |s|
      ensures !OrdCode(s[p..e])
    {
      var w := s[p..e];
      if OrdCode(w) {
        assert false;
      }
    }
  }

  // ---------------------------------------------------------------------------
  // (b) order\s+(?:number\s+)?#?(\w+)

  /** At `q` stands a word, optionally preceded by `#`: what `#?(\w+)` needs. */
  predicate StartsWord(s: string, q: nat) {
    q < |s| && (IsWordChar(s[q]) || (s[q] == '#' && q + 1 < |s| && IsWordChar(s[q + 1])))
  }

  /** `s[sp.start..sp.end]` is a whole run of word characters, preceded by `#`
      or whitespace. */
  predicate WordGroup(s: string, sp: Span) {
    && 0 < sp.start < sp.end <= |s|
    && (forall k :: sp.start <= k < sp.end ==> IsWordChar(s[k]))
    && (sp.end == |s| || !IsWordChar(s[sp.end]))
    && (s[sp.start - 1] == '#' || IsSpace(s[sp.start - 1]))
  }

  /** `#?(\w+)` at `q`: the group of the greedy match. */
  function HashWord(s: string, q: nat): (r: Option<Span>)
    requires 0 < q <= |s| && IsSpace(s[q - 1])
    ensures r.Some? <==> StartsWord(s, q)
    ensures r.Some? ==> WordGroup(s, r.value) && q <= r.value.start <= q + 1
  {
    if q < |s| && s[q] == '#' && q + 1 < |s| && IsWordChar(s[q + 1]) then
      Some(Span(q + 1, RunEnd(s, q + 1, IsWordChar)))
    else if q < |s| && IsWordChar(s[q]) then
      Some(Span(q, RunEnd(s, q, IsWordChar)))
    else
      None
  }

  /** `order` followed by whitespace starts at `p`; the whitespace run ends at the result. */
  function AfterOrder(s: string, p: nat): (q: nat)
    requires LowerAt(s, p, "order") && p + 5 < |s| && IsSpace(s[p + 5])
    ensures p + 5 < q <= |s| && IsSpace(s[q - 1])
    ensures forall k :: p + 5 <= k < q ==> IsSpace(s[k])
    ensures q == |s| || !IsSpace(s[q])
  {
    RunEnd(s, p + 5, IsSpace)
  }

  /** `number` followed by whitespace starts at `q`. */
  predicate NumberAt(s: string, q: nat) {
    LowerAt(s, q, "number") && q + 6 < |s| && IsSpace(s[q + 6])
  }

  predicate OrderAt(s: string, p: nat) {
    LowerAt(s, p, "order") && p + 5 < |s| && IsSpace(s[p + 5])
  }

  /** The group of (b) for a match starting at `p`. A match exists exactly
      when `order`, whitespace and an optionally `#`-prefixed word start at
      `p`. The group is a whole word run; it is the word after `number` when
      `number`, whitespace and a word follow `order`, and otherwise the word
      right after `order`'s whitespace. */
  function MatchOrderRef(s: string, p: nat): (r: Option<Span>)
    ensures r.Some? <==> OrderAt(s, p) && StartsWord(s, AfterOrder(s, p))
    ensures r.Some? ==> WordGroup(s, r.value) && r.value.start > p + 5
    ensures r.Some? && NumberAt(s, AfterOrder(s, p)) && StartsWord(s, RunEnd(s, AfterOrder(s, p) + 6, IsSpace)) ==>
      RunEnd(s, AfterOrder(s, p) + 6, IsSpace) <= r.value.start <= RunEnd(s, AfterOrder(s, p) + 6, IsSpace) + 1
    ensures r.Some? && !(NumberAt(s, AfterOrder(s, p)) && StartsWord(s, RunEnd(s, AfterOrder(s, p) + 6, IsSpace))) ==>
      AfterOrder(s, p) <= r.value.start <= AfterOrder(s, p) + 1
  {
    if !OrderAt(s, p) then None
    else
      var q := AfterOrder(s, p);
      var viaNumber :=
        if NumberAt(s, q) then HashWord(s, RunEnd(s, q + 6, IsSpace)) else None;
      assert NumberAt(s, q) ==> StartsWord(s, q) by {
        if NumberAt(s, q) {
          assert ToLower(s[q + 0]) == "number"[0] == 'n';
        }
      }
      if viaNumber.Some? then viaNumber else HashWord(s, q)
  }

  // ---------------------------------------------------------------------------
  // (c) #(\d{6,})

  /** `w` is a match of `#\d{6,}`. */
  predicate HashDigits(w: string) {
    |w| >= 7 && w[0] == '#' && forall k :: 1 <= k < |w| ==> IsDigit(w[k])
  }

  /** The group of (c) for a match starting at `p`: the digits of the longest
      prefix of `s[p..]` shaped `#\d{6,}`, and `None` when no prefix has
      that shape. */
  function MatchHashDigits(s: string, p: nat): (r: Option<Span>)
    ensures r.None? <==> forall e :: p <= e <= |s| ==> !HashDigits(s[p..e])
    ensures r.Some? ==> && r.value.start == p + 1 && ValidSpan(s, r.value)
                        && r.value.end - r.value.start >= 6
                        && HashDigits(s[p..r.value.end])
                        && forall e :: r.value.end < e <= |s| ==> !HashDigits(s[p..e])
  {
    if p < |s| && s[p] == '#' && RunEnd(s, p + 1, IsDigit) >= p + 7 then
      var e := RunEnd(s, p + 1, IsDigit);
      assert HashDigits(s[p..e]);
      assert forall e' :: e < e' <= |s| ==> !HashDigits(s[p..e']) by {
        forall e' | e < e' <= |s| ensures !HashDigits(s[p..e']) {
          assert s[p..e'][e - p] == s[e];
        }
      }
      Some(Span(p + 1, e))
    else
      assert forall e :: p <= e <= |s| ==> !HashDigits(s[p..e]) by {
        forall e | p <= e <= |s| ensures !HashDigits(s[p..e]) {
          HashDigitsNeedsRun(s, p, e);
        }
      }
      None
  }

  /** A match of `#\d{6,}` at `p` starts with `#` and six digits. */
  lemma HashDigitsNeedsRun(s: string, p: nat, e: nat)
    requires p <= e <= |s|
    ensures HashDigits(s[p..e]) ==> p < |s| && s[p] == '#' && RunEnd(s, p + 1, IsDigit) >= p + 7
  {
    if HashDigits(s[p..e]) {
      assert s[p] == s[p..e][0];
      forall k | p + 1 <= k < p + 7
        ensures IsDigit(s[k])
      {
        assert s[k] == s[p..e][k - p];
      }
      RunCoversDigits(s, p + 1, p + 7);
    }
  }

  lemma {:induction false} RunCoversDigits(s: string, q: nat, e: nat)
    requires q <= e <= |s|
    requires forall k :: q <= k < e ==> IsDigit(s[k])
    ensures RunEnd(s, q, IsDigit) >= e
    decreases e - q
  {
    if q < e {
      RunCoversDigits(s, q + 1, e);
    }
  }

  // ---------------------------------------------------------------------------
  // Leftmost search and the extractor

  /** `re.search`: the leftmost position at or after `p` where `m` matches. */
  function Leftmost(s: string, m: (string, nat) -> Option<Span>, p: nat): (r: Option<nat>)
    requires p <= |s|
    ensures r.None? <==> forall q :: p <= q <= |s| ==> m(s, q).None?
    ensures r.Some? ==> p <= r.value <= |s| && m(s, r.value).Some?
                        && forall q :: p <= q < r.value ==> m(s, q).None?
    decreases |s| - p
  {
    if m(s, p).Some? then Some(p)
    else if p == |s| then None
    else Leftmost(s, m, p + 1)
  }

  /** `q` is where `re.search` finds pattern `m` in `s`. */
  predicate FoundAt(s: string, m: (string, nat) -> Option<Span>, q: nat) {
    q <= |s| && m(s, q).Some? && forall q' :: 0 <= q' < q ==> m(s, q').None?
  }

  predicate Absent(s: string, m: (string, nat) -> Option<Span>) {
    forall q :: 0 <= q <= |s| ==> m(s, q).None?
  }

  lemma LeftmostIsFound(s: string, m: (string, nat) -> Option<Span>)
    ensures Leftmost(s, m, 0).None? <==> Absent(s, m)
    ensures forall q: nat :: FoundAt(s, m, q) ==> Leftmost(s, m, 0) == Some(q)
  {
    var r := Leftmost(s, m, 0);
    forall q: nat | FoundAt(s, m, q)
      ensures r == Some(q)
    {
      assert r.Some?;
    }
  }

  /** The text `re.search` reports for a pattern: the match or its group. */
  function Report(s: string, sp: Span): string
    requires ValidSpan(s, sp)
  {
    s[sp.start..sp.end]
  }

  /** Every match of `m` in `s` is a non-empty span of `s`. */
  predicate Spans(s: string, m: (string, nat) -> Option<Span>) {
    forall q :: 0 <= q <= |s| && m(s, q).Some? ==> ValidSpan(s, m(s, q).value)
  }

  lemma PatternsSpan(s: string)
    ensures Spans(s, MatchOrdCode) && Spans(s, MatchOrderRef) && Spans(s, MatchHashDigits)
  {
  }

  /** `re.search(pattern, s)` followed by `group(1)` or `group(0)`: the text
      reported at the leftmost match, `None` exactly when there is none. */
  function Search(s: string, m: (string, nat) -> Option<Span>): (r: Option<string>)
    requires Spans(s, m)
    ensures r.None? <==> Absent(s, m)
    ensures forall q: nat :: FoundAt(s, m, q) ==> r == Some(Report(s, m(s, q).value))
    ensures r.Some? ==> |r.value| > 0
  {
    LeftmostIsFound(s, m);
    match Leftmost(s, m, 0)
    case Some(q) => Some(Report(s, m(s, q).value))
    case None => None
  }

  /** `extract_order_number`: pattern (a) is searched over the whole text
      first, then (b), then (c); the first pattern found anywhere decides,
      at its leftmost position. `None` exactly when no pattern matches
      anywhere. A result is never empty. */
  function ExtractOrderNumber(s: string): (r: Option<string>)
    ensures r.None? <==> Absent(s, MatchOrdCode) && Absent(s, MatchOrderRef) && Absent(s, MatchHashDigits)
    ensures forall q: nat :: FoundAt(s, MatchOrdCode, q) ==>
      r == Some(Report(s, MatchOrdCode(s, q).value)) && OrdCode(r.value)
    ensures Absent(s, MatchOrdCode) ==> forall q: nat :: FoundAt(s, MatchOrderRef, q) ==>
      r == Some(Report(s, MatchOrderRef(s, q).value))
    ensures Absent(s, MatchOrdCode) && Absent(s, MatchOrderRef) ==> forall q: nat :: FoundAt(s, MatchHashDigits, q) ==>
      r == Some(Report(s, MatchHashDigits(s, q).value))
    ensures r.Some? ==> |r.value| > 0
  {
    PatternsSpan(s);
    var a := Search(s, MatchOrdCode);
    if a.Some? then a
    else
      var b := Search(s, MatchOrderRef);
      if b.Some? then b
      else Search(s, MatchHashDigits)
  }

  // ---------------------------------------------------------------------------
  // Positions where a pattern cannot start

  lemma NoOrdCodeAt(s: string, q: nat)
    requires q >= |s| || (s[q] != '#' && ToLower(s[q]) != 'o')
             || (s[q] == '#' && (q + 1 >= |s| || ToLower(s[q + 1]) != 'o'))
    ensures MatchOrdCode(s, q).None?
  {
    assert "ord"[0] == 'o';
  }

  lemma NoOrderRefAt(s: string, q: nat)
    requires q >= |s| || ToLower(s[q]) != 'o'
    ensures MatchOrderRef(s, q).None?
  {
    assert "order"[0] == 'o';
  }
}
