/**
  Worked inputs of the order-number extractor. Each input is a parameter
  fixed by the precondition, and the proof names the position where the
  deciding pattern is found.
 */
module OrderExamples {
  import opened Options
  import opened Text
  import opened OrderNumber

  /** No pattern matches plain text. */
  lemma NotFound()
    ensures ExtractOrderNumber("hello") == None
  {
  }

  /** Pattern (a) reports the whole match, `#` included. */
  lemma HashOrdCode(s: string)
    requires s == "#ORD7"
    ensures ExtractOrderNumber(s) == Some("#ORD7")
  {
    assert LowerAt(s, 1, "ord");
    assert MatchOrdCode(s, 0) == Some(Span(0, 5));
    assert FoundAt(s, MatchOrdCode, 0);
    assert s[0..5] == s;
  }

  /** Pattern (c) reports the digits without the `#`. */
  lemma HashDigitsOnly(s: string)
    requires s == "#123456"
    ensures ExtractOrderNumber(s) == Some("123456")
  {
    HashDigitsNoOrdCode(s);
    HashDigitsNoOrderRef(s);
    assert MatchHashDigits(s, 0) == Some(Span(1, 7));
    assert FoundAt(s, MatchHashDigits, 0);
    assert s[1..7] == "123456";
  }

  /** The sentence of the order-status example: `ord` inside `order` is not
      followed by a digit, so the first match of (a) is `ORD12345`. */
  lemma OrderSentence(s: string)
    requires s == "my order number is ORD12345"
    ensures ExtractOrderNumber(s) == Some("ORD12345")
  {
    OrderSentenceSkipsOrder(s);
    assert LowerAt(s, 19, "ord");
    assert RunEnd(s, 22, IsDigit) == 27;
    assert MatchOrdCode(s, 19) == Some(Span(19, 27));
    assert FoundAt(s, MatchOrdCode, 19);
    assert s[19..27] == "ORD12345";
  }

  /** No match of (a) starts before position 19. */
  lemma OrderSentenceSkipsOrder(s: string)
    requires s == "my order number is ORD12345"
    ensures forall q :: 0 <= q < 19 ==> MatchOrdCode(s, q).None?
  {
    NoCodeBetween(s, 0, 3);
    OrderIsNoCode(s);
    NoCodeBetween(s, 4, 9);
    NoCodeBetween(s, 9, 14);
    NoCodeBetween(s, 14, 19);
  }

  /** No match of (a) starts in `[i, j)`, where no character is `o` or `#`. */
  lemma NoCodeBetween(s: string, i: nat, j: nat)
    requires i <= j <= |s|
    requires forall q :: i <= q < j ==> s[q] != '#' && ToLower(s[q]) != 'o'
    ensures forall q :: i <= q < j ==> MatchOrdCode(s, q).None?
  {
    forall q | i <= q < j
      ensures MatchOrdCode(s, q).None?
    {
      NoOrdCodeAt(s, q);
    }
  }

  /** `ord` at 3 is followed by `e`, not a digit. */
  lemma OrderIsNoCode(s: string)
    requires s == "my order number is ORD12345"
    ensures MatchOrdCode(s, 3).None?
  {
    assert !IsDigit(s[6]);
  }

  lemma HashDigitsNoOrdCode(s: string)
    requires s == "#123456"
    ensures Absent(s, MatchOrdCode)
  {
    NoOrdCodeAt(s, 0); NoOrdCodeAt(s, 1); NoOrdCodeAt(s, 2); NoOrdCodeAt(s, 3);
    NoOrdCodeAt(s, 4); NoOrdCodeAt(s, 5); NoOrdCodeAt(s, 6); NoOrdCodeAt(s, 7);
  }

  lemma HashDigitsNoOrderRef(s: string)
    requires s == "#123456"
    ensures Absent(s, MatchOrderRef)
  {
    NoOrderRefAt(s, 0); NoOrderRefAt(s, 1); NoOrderRefAt(s, 2); NoOrderRefAt(s, 3);
    NoOrderRefAt(s, 4); NoOrderRefAt(s, 5); NoOrderRefAt(s, 6); NoOrderRefAt(s, 7);
  }
}
