/**
 * The input masks of the checkout payment form: the card number grouped in
 * fours, the expiry as `MM/YY`, the CVV as up to four digits, and the
 * white space that is stripped from the card number when it is sent.
 */
module PaymentForm {
  import Lists
  import Text
  import PaymentController

  /** `s.slice(0, n)`. */
  function Take(s: string, n: nat): (r: string)
    ensures |r| <= n && |r| <= |s| && r == s[..|r|]
    ensures |s| <= n ==> r == s
    ensures n <= |s| ==> |r| == n
  {
    Lists.JsSlice(s, 0, n)
  }

  /**
   * `s.match(/.{1,4}/g)?.join(' ') || s`: runs of four characters from the
   * left, joined by one space; the empty string stays empty. Position `i`
   * holds the separator exactly when `i % 5 == 4`, and otherwise the
   * character of `s` that it shows.
   */
  function GroupFours(s: string): (r: string)
    ensures |s| == 0 ==> r == ""
    ensures |s| > 0 ==> |r| == |s| + (|s| - 1) / 4
    ensures forall i :: 0 <= i < |r| ==>
      (i % 5 == 4 ==> r[i] == ' ') && (i % 5 != 4 ==> r[i] == s[i - i / 5])
  {
    if |s| <= 4 then s
    else
      var rest := GroupFours(s[4..]);
      FirstGroupThenRest(s, rest);
      s[..4] + " " + rest
  }

  /** Putting the first group and a separator before the grouped rest keeps every position right. */
  lemma FirstGroupThenRest(s: string, rest: string)
    requires |s| > 4 && |rest| == |s| - 4 + (|s| - 5) / 4
    requires forall i :: 0 <= i < |rest| ==>
      (i % 5 == 4 ==> rest[i] == ' ') && (i % 5 != 4 ==> rest[i] == s[4..][i - i / 5])
    ensures |s[..4] + " " + rest| == |s| + (|s| - 1) / 4
    ensures var r := s[..4] + " " + rest;
      forall i :: 0 <= i < |r| ==> (i % 5 == 4 ==> r[i] == ' ') && (i % 5 != 4 ==> r[i] == s[i - i / 5])
  {
    var r := s[..4] + " " + rest;
    forall i | 0 <= i < |r|
      ensures (i % 5 == 4 ==> r[i] == ' ') && (i % 5 != 4 ==> r[i] == s[i - i / 5])
    {
      if i >= 5 {
        ShiftByFive(i);
        assert r[i] == rest[i - 5];
      }
    }
  }

  /** Dropping the first group moves every later position back by one group of five. */
  lemma ShiftByFive(i: int)
    requires i >= 5
    ensures (i - 5) % 5 == i % 5 && (i - 5) / 5 == i / 5 - 1
  {
  }

  /** `handleCardNumberChange`: keep at most the first sixteen digits, then group them. */
  function FormatCardNumber(input: string): string {
    GroupFours(Take(Text.DigitsOf(input), 16))
  }

  /** `handleExpiryChange`: at most four digits, with `/` after the second when there are more than two. */
  function FormatExpiry(input: string): string {
    var raw := Take(Text.DigitsOf(input), 4);
    if |raw| > 2 then raw[..2] + "/" + raw[2..] else raw
  }

  /** The CVV field's `onChange`: digits only, at most four. */
  function FilterCvv(input: string): string {
    Take(Text.DigitsOf(input), 4)
  }

  /** What the form sends as the card number: `cardNumber.replace(/\s/g, '')`. */
  function SubmittedCard(formatted: string): string {
    Text.StripWhitespace(formatted)
  }

  /* ---------------- the card number mask ---------------- */

  /** The formatted number has only digits and single spaces, at most sixteen digits and nineteen characters. */
  lemma FormatCardNumberShape(input: string)
    ensures var r := FormatCardNumber(input);
      |r| <= 19 &&
      (forall i :: 0 <= i < |r| ==> (r[i] == ' ' <==> i % 5 == 4)) &&
      (forall i :: 0 <= i < |r| ==> r[i] == ' ' || Text.IsDigit(r[i])) &&
      |Text.DigitsOf(r)| <= 16
  {
    var raw := Take(Text.DigitsOf(input), 16);
    var r := GroupFours(raw);
    forall i | 0 <= i < |r| && i % 5 != 4
      ensures Text.IsDigit(r[i])
    {
      assert r[i] == raw[i - i / 5];
      assert raw[i - i / 5] == Text.DigitsOf(input)[i - i / 5];
    }
    DigitsOfGroupFours(raw);
  }

  /** A filter that keeps every character of `head` but not the separator, applied to one group and the rest. */
  lemma {:induction false} FilterGroup(head: string, g: string, p: char -> bool)
    requires forall i :: 0 <= i < |head| ==> p(head[i])
    requires !p(' ')
    ensures Lists.Filter(head + " " + g, p) == head + Lists.Filter(g, p)
  {
    var sep := " ";
    assert Lists.Filter(sep, p) == [] by {
      assert sep[1..] == [];
      assert Lists.Filter(sep, p) == [] + Lists.Filter(sep[1..], p);
    }
    calc {
      Lists.Filter(head + sep + g, p);
    ==  { Lists.FilterAppend(head + sep, g, p); }
      Lists.Filter(head + sep, p) + Lists.Filter(g, p);
    ==  { Lists.FilterAppend(head, sep, p); }
      Lists.Filter(head, p) + Lists.Filter(sep, p) + Lists.Filter(g, p);
    ==  { Lists.FilterAll(head, p); }
      head + [] + Lists.Filter(g, p);
    }
    assert head + [] == head;
  }

  /** A digit is not white space. */
  lemma {:induction false} DigitsHaveNoWhitespace(s: string)
    requires Text.AllDigits(s)
    ensures forall i :: 0 <= i < |s| ==> Text.NotWhitespace(s[i])
  {
    forall i | 0 <= i < |s| ensures Text.NotWhitespace(s[i]) {
      assert Text.IsDigit(s[i]);
    }
  }

  /** A filter that keeps every character of `s` but not the separator undoes the grouping. */
  lemma {:induction false} FilterGroupFours(s: string, p: char -> bool)
    requires forall i :: 0 <= i < |s| ==> p(s[i])
    requires !p(' ')
    ensures Lists.Filter(GroupFours(s), p) == s
  {
    if |s| <= 4 {
      Lists.FilterAll(s, p);
    } else {
      var head, rest := s[..4], s[4..];
      assert forall i :: 0 <= i < |rest| ==> p(rest[i]) by {
        forall i | 0 <= i < |rest| ensures p(rest[i]) { assert rest[i] == s[i + 4]; }
      }
      FilterGroupFours(rest, p);
      assert forall i :: 0 <= i < |head| ==> p(head[i]) by {
        forall i | 0 <= i < |head| ensures p(head[i]) { assert head[i] == s[i]; }
      }
      FilterGroup(head, GroupFours(rest), p);
      assert head + rest == s;
    }
  }

  /** Removing the spaces (or keeping the digits) of grouped digits gives the digits back. */
  lemma DigitsOfGroupFours(s: string)
    requires Text.AllDigits(s)
    ensures Text.StripWhitespace(GroupFours(s)) == s
    ensures Text.DigitsOf(GroupFours(s)) == s
  {
    DigitsHaveNoWhitespace(s);
    FilterGroupFours(s, Text.NotWhitespace);
    FilterGroupFours(s, Text.IsDigit);
  }

  /** Stripping the formatted value gives back exactly the first sixteen digits typed. */
  lemma SubmittedCardIsDigits(input: string)
    ensures SubmittedCard(FormatCardNumber(input)) == Take(Text.DigitsOf(input), 16)
  {
    DigitsOfGroupFours(Take(Text.DigitsOf(input), 16));
  }

  /** Reformatting the field's own value changes nothing. */
  lemma FormatCardNumberIdempotent(input: string)
    ensures FormatCardNumber(FormatCardNumber(input)) == FormatCardNumber(input)
  {
    var raw := Take(Text.DigitsOf(input), 16);
    DigitsOfGroupFours(raw);
  }

  /**
   * The submitted card number passes the server's sixteen-digit check
   * exactly when at least sixteen digits were typed.
   */
  lemma SubmittedCardAccepted(input: string)
    ensures PaymentController.ValidCardNumber(Text.StripWhitespace(SubmittedCard(FormatCardNumber(input))))
        <==> |Text.DigitsOf(input)| >= 16
  {
    var raw := Take(Text.DigitsOf(input), 16);
    SubmittedCardIsDigits(input);
    assert forall i :: 0 <= i < |raw| ==> Text.IsDigit(raw[i]) && !Text.IsWhitespace(raw[i]) by {
      forall i | 0 <= i < |raw| ensures Text.IsDigit(raw[i]) && !Text.IsWhitespace(raw[i]) {
        assert raw[i] == Text.DigitsOf(input)[i];
      }
    }
    Text.StripWhitespaceNoop(raw);
  }

  /* ---------------- expiry and CVV ---------------- */

  /** The expiry value: at most five characters, `/` exactly at position 2 when more than two digits were kept. */
  lemma FormatExpiryShape(input: string)
    ensures var raw := Take(Text.DigitsOf(input), 4); var r := FormatExpiry(input);
      |r| <= 5 &&
      ('/' in r <==> |raw| > 2) &&
      (|raw| > 2 ==> r[2] == '/' && r[..2] + r[3..] == raw) &&
      (|raw| <= 2 ==> r == raw)
  {
    var raw := Take(Text.DigitsOf(input), 4);
    var r := FormatExpiry(input);
    assert forall i :: 0 <= i < |raw| ==> Text.IsDigit(raw[i]) by {
      forall i | 0 <= i < |raw| ensures Text.IsDigit(raw[i]) {
        assert raw[i] == Text.DigitsOf(input)[i];
      }
    }
    if |raw| > 2 {
      assert r[..2] == raw[..2] && r[3..] == raw[2..];
      assert raw[..2] + raw[2..] == raw;
    } else {
      assert forall i :: 0 <= i < |r| ==> r[i] != '/' by {
        forall i | 0 <= i < |r| ensures r[i] != '/' {
          assert Text.IsDigit(raw[i]);
        }
      }
    }
  }

  /** The CVV value is the first at most four digits typed, and three or four of them pass the server's check. */
  lemma FilterCvvShape(input: string)
    ensures var r := FilterCvv(input);
      Text.AllDigits(r) && |r| <= 4 && r == Text.DigitsOf(input)[..|r|] &&
      (PaymentController.ValidCvv(r) <==> |Text.DigitsOf(input)| >= 3)
  {
    var r := FilterCvv(input);
    assert forall i :: 0 <= i < |r| ==> Text.IsDigit(r[i]) by {
      forall i | 0 <= i < |r| ensures Text.IsDigit(r[i]) {
        assert r[i] == Text.DigitsOf(input)[i];
      }
    }
  }
}
