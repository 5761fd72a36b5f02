/** The card form of the payment step: the input formatters for card
    number, expiry date and CVV, the ordered list of validation messages, and
    the gate that stops a card payment with errors before it is attempted. */
module Payment {
  import opened Common

  predicate AllDigits(s: string)
  {
    forall i :: 0 <= i < |s| ==> IsDigit(s[i])
  }

  // ---------------------------------------------------------------------
  // Card number

  /** The blocks of four digits the formatting loop cuts, the last one
      possibly shorter. */
  function Blocks(m: string): (r: seq<string>)
    ensures m == [] <==> r == []
    ensures forall i :: 0 <= i < |r| ==> 1 <= |r[i]| <= 4
  {
    if |m| <= 4 then (if m == [] then [] else [m]) else [m[..4]] + Blocks(m[4..])
  }

  /** `parts.join(' ')`. */
  function Join(parts: seq<string>): string
  {
    if parts == [] then "" else if |parts| == 1 then parts[0] else parts[0] + " " + Join(parts[1..])
  }

  function Concat(parts: seq<string>): string
  {
    if parts == [] then "" else parts[0] + Concat(parts[1..])
  }

  /** The digits of the input; with four or more, only the first sixteen
      (the first match of /\d{4,16}/) in blocks of four separated by one space;
      with fewer, the digits as they are. */
  function FormatCardNumber(value: string): string
  {
    var v := Digits(value);
    if |v| >= 4 then Join(Blocks(v[..Min(16, |v|)])) else v
  }

  /** `formatCardNumber`: strip to digits, take the match, and push one
      substring of four per step of the loop. */
  method FormatCardNumberInput(value: string) returns (r: string)
    ensures r == FormatCardNumber(value)
  {
    var v := Digits(value);
    var matched := if |v| >= 4 then v[..Min(16, |v|)] else "";
    var parts: seq<string> := [];
    var i := 0;
    while i < |matched|
      invariant 0 <= i
      invariant parts + Blocks(matched[Min(i, |matched|)..]) == Blocks(matched)
      decreases |matched| - i
    {
      var next := Min(i + 4, |matched|);
      var block := matched[i..next];
      var rest := matched[i..];
      BlocksStep(rest);
      assert rest[..Min(4, |rest|)] == block;
      assert rest[Min(4, |rest|)..] == matched[next..];
      assert Min(i, |matched|) == i;
      parts := parts + [block];
      i := i + 4;
      assert Min(i, |matched|) == next;
    }
    assert matched[Min(i, |matched|)..] == [];
    assert parts == Blocks(matched);
    if |parts| > 0 {
      r := Join(parts);
    } else {
      r := v;
    }
  }

  /** One step of the loop: a non-empty string starts with its first block. */
  lemma BlocksStep(s: string)
    requires s != []
    ensures Blocks(s) == [s[..Min(4, |s|)]] + Blocks(s[Min(4, |s|)..])
  {
    if |s| <= 4 {
      assert s[..|s|] == s;
      assert s[|s|..] == [];
    }
  }

  lemma {:induction false} ConcatBlocks(m: string)
    ensures Concat(Blocks(m)) == m
  {
    if |m| > 4 {
      ConcatBlocks(m[4..]);
      assert m == m[..4] + m[4..];
    } else if m != [] {
      assert Concat([m]) == m + Concat([]);
    }
  }

  /** Four digits per block: the number of blocks is the length divided by
      four, rounded up. */
  lemma {:induction false} BlocksCount(m: string)
    ensures |Blocks(m)| == (|m| + 3) / 4
  {
    if |m| > 4 {
      BlocksCount(m[4..]);
    }
  }

  lemma {:induction false} BlocksAreDigits(m: string)
    requires AllDigits(m)
    ensures forall i :: 0 <= i < |Blocks(m)| ==> AllDigits(Blocks(m)[i])
  {
    if |m| > 4 {
      BlocksAreDigits(m[4..]);
    }
  }

  lemma {:induction false} JoinLength(parts: seq<string>)
    requires parts != []
    ensures |Join(parts)| == |Concat(parts)| + |parts| - 1
  {
    if |parts| > 1 {
      JoinLength(parts[1..]);
    } else {
      assert Concat(parts) == parts[0] + Concat([]);
    }
  }

  /** Reading back the digits of the joined blocks drops exactly the spaces. */
  lemma {:induction false} DigitsOfJoin(parts: seq<string>)
    requires forall i :: 0 <= i < |parts| ==> AllDigits(parts[i])
    ensures Digits(Join(parts)) == Concat(parts)
  {
    if parts == [] {
    } else if |parts| == 1 {
      DigitsOfDigits(parts[0]);
      assert Concat(parts) == parts[0] + Concat([]);
    } else {
      var head, rest := parts[0], Join(parts[1..]);
      DigitsOfJoin(parts[1..]);
      DigitsOfDigits(head);
      FilterConcat(head + " ", rest, IsDigit);
      FilterConcat(head, " ", IsDigit);
      assert Filter(" ", IsDigit) == [];
      assert Digits(head + " ") == head;
      assert Join(parts) == head + " " + rest;
      assert Digits(Join(parts)) == head + Digits(rest);
      assert Concat(parts) == head + Concat(parts[1..]);
    }
  }

  /** Every character is a digit or a space between two digits. */
  predicate WellSpaced(r: string)
  {
    forall i :: 0 <= i < |r| ==>
      IsDigit(r[i]) || (r[i] == ' ' && 0 < i < |r| - 1 && IsDigit(r[i - 1]) && IsDigit(r[i + 1]))
  }

  lemma {:induction false} JoinWellSpaced(parts: seq<string>)
    requires parts != []
    requires forall i :: 0 <= i < |parts| ==> parts[i] != [] && AllDigits(parts[i])
    ensures WellSpaced(Join(parts)) && Join(parts) != []
    ensures IsDigit(Join(parts)[0]) && IsDigit(Join(parts)[|Join(parts)| - 1])
  {
    if |parts| > 1 {
      var rest := Join(parts[1..]);
      JoinWellSpaced(parts[1..]);
      var r := Join(parts);
      var p := parts[0];
      assert r == p + " " + rest;
      forall i | 0 <= i < |r|
        ensures IsDigit(r[i]) || (r[i] == ' ' && 0 < i < |r| - 1 && IsDigit(r[i - 1]) && IsDigit(r[i + 1]))
      {
        if i < |p| {
          assert r[i] == p[i];
        } else if i == |p| {
          assert r[i] == ' ';
          assert r[i - 1] == p[|p| - 1] && r[i + 1] == rest[0];
        } else {
          var k := i - |p| - 1;
          assert 0 <= k < |rest|;
          assert r[i] == rest[k];
          if !IsDigit(rest[k]) {
            assert rest[k] == ' ' && 0 < k < |rest| - 1;
            assert r[i - 1] == rest[k - 1] && r[i + 1] == rest[k + 1];
          }
        }
      }
      assert r[0] == p[0];
      assert r[|r| - 1] == rest[|rest| - 1];
    }
  }

  /** The output holds only digits and single spaces between digits. */
  lemma CardNumberShape(value: string)
    ensures WellSpaced(FormatCardNumber(value))
  {
    var v := Digits(value);
    if |v| >= 4 {
      var m := v[..Min(16, |v|)];
      BlocksAreDigits(m);
      JoinWellSpaced(Blocks(m));
    }
  }

  /** Fewer than four digits come back as they are. */
  lemma CardNumberShortInput(value: string)
    requires |Digits(value)| < 4
    ensures FormatCardNumber(value) == Digits(value)
  {
  }

  /** With four or more digits the output carries the first sixteen of them,
      in order, and nothing else but spaces. */
  lemma CardNumberDigits(value: string)
    requires |Digits(value)| >= 4
    ensures Digits(FormatCardNumber(value)) == Digits(value)[..Min(16, |Digits(value)|)]
  {
    var v := Digits(value);
    var m := v[..Min(16, |v|)];
    BlocksAreDigits(m);
    DigitsOfJoin(Blocks(m));
    ConcatBlocks(m);
  }

  /** The output fits the field's 19 characters: sixteen digits and three
      spaces at most. */
  lemma CardNumberLength(value: string)
    ensures |FormatCardNumber(value)| <= 19
  {
    var v := Digits(value);
    if |v| >= 4 {
      var m := v[..Min(16, |v|)];
      JoinLength(Blocks(m));
      ConcatBlocks(m);
      BlocksCount(m);
    }
  }

  /** Formatting a formatted number changes nothing, so re-formatting on
      every keystroke is stable. */
  lemma CardNumberIdempotent(value: string)
    ensures FormatCardNumber(FormatCardNumber(value)) == FormatCardNumber(value)
  {
    var v := Digits(value);
    if |v| >= 4 {
      var m := v[..Min(16, |v|)];
      CardNumberDigits(value);
      assert m[..Min(16, |m|)] == m;
    } else {
      DigitsOfDigits(v);
    }
  }

  // ---------------------------------------------------------------------
  // Expiry date and CVV

  /** `formatExpiryDate`: the digits; from two digits on, the first two, a
      slash, and at most two more. */
  function FormatExpiry(value: string): string
  {
    var v := Digits(value);
    if |v| >= 2 then v[..2] + "/" + v[2..Min(4, |v|)] else v
  }

  /** At most five characters, with a slash at position 2 exactly when at
      least two digits were typed. */
  lemma ExpiryShape(value: string)
    ensures |FormatExpiry(value)| <= 5
    ensures |Digits(value)| >= 2 ==> |FormatExpiry(value)| >= 3 && FormatExpiry(value)[2] == '/'
    ensures |Digits(value)| < 2 ==> AllDigits(FormatExpiry(value))
  {
  }

  /** The digits of the output are the first four typed. */
  lemma ExpiryDigits(value: string)
    ensures Digits(FormatExpiry(value)) == Digits(value)[..Min(4, |Digits(value)|)]
  {
    var v := Digits(value);
    if |v| >= 2 {
      DigitsAroundSlash(v[..2], v[2..Min(4, |v|)]);
      assert v[..2] + v[2..Min(4, |v|)] == v[..Min(4, |v|)];
    } else {
      DigitsOfDigits(v);
      assert v[..Min(4, |v|)] == v;
    }
  }

  lemma DigitsAroundSlash(head: string, tail: string)
    requires AllDigits(head) && AllDigits(tail)
    ensures Digits(head + "/" + tail) == head + tail
  {
    SlashHasNoDigits();
    DigitsConcat(head + "/", tail);
    DigitsConcat(head, "/");
    DigitsOfDigits(head);
    DigitsOfDigits(tail);
  }

  lemma DigitsConcat(a: string, b: string)
    ensures Digits(a + b) == Digits(a) + Digits(b)
  {
    FilterConcat(a, b, IsDigit);
  }

  lemma SlashHasNoDigits()
    ensures Digits("/") == []
  {
    var slash: string := "/";
    assert slash[1..] == [];
    assert Filter(slash[1..], IsDigit) == [];
  }

  /** Formatting a formatted expiry date changes nothing. */
  lemma ExpiryIdempotent(value: string)
    ensures FormatExpiry(FormatExpiry(value)) == FormatExpiry(value)
  {
    var v := Digits(value);
    ExpiryDigits(value);
    var d := v[..Min(4, |v|)];
    assert Digits(FormatExpiry(value)) == d;
    if |v| >= 2 {
      assert d[..2] == v[..2];
      assert d[2..Min(4, |d|)] == v[2..Min(4, |v|)];
    } else {
      assert d == v;
    }
  }

  /** The CVV field's handler: digits only, at most four. */
  function CvvInput(value: string): (r: string)
    ensures |r| <= 4 && AllDigits(r)
    ensures r == Digits(value)[..Min(4, |Digits(value)|)]
  {
    var v := Digits(value);
    v[..Min(4, |v|)]
  }

  /** Re-filtering a filtered CVV changes nothing. */
  lemma CvvIdempotent(value: string)
    ensures CvvInput(CvvInput(value)) == CvvInput(value)
  {
    DigitsOfDigits(CvvInput(value));
  }

  // ---------------------------------------------------------------------
  // Validation

  datatype CardData = CardData(cardNumber: string, expiryDate: string, cvv: string, cardholderName: string)

  const CardNumberMessage: string := "Valid card number is required"
  const ExpiryMessage: string := "Valid expiry date is required"
  const CvvMessage: string := "Valid CVV is required"
  const NameMessage: string := "Cardholder name is required"

  /** The order in which the messages are reported. */
  function Rank(message: string): int
  {
    if message == CardNumberMessage then 0
    else if message == ExpiryMessage then 1
    else if message == CvvMessage then 2
    else if message == NameMessage then 3
    else 4
  }

  /** `s.replace(/\s/g, '')`. */
  function StripWhitespace(s: string): string
  {
    Filter(s, (c: char) => !IsWhitespace(c))
  }

  /** The four checks; the emptiness tests in front of the first three are
      subsumed by the length tests. */
  predicate CardNumberBad(card: CardData) { |StripWhitespace(card.cardNumber)| < 16 }
  predicate ExpiryBad(card: CardData) { |card.expiryDate| < 5 }
  predicate CvvBad(card: CardData) { |card.cvv| < 3 }
  predicate NameBad(card: CardData) { Trim(card.cardholderName) == "" }

  /** `errors.push(message)` when the check failed. */
  function Push(errors: seq<string>, failed: bool, message: string): (r: seq<string>)
    ensures forall m :: m in r <==> m in errors || (failed && m == message)
  {
    if failed then errors + [message] else errors
  }

  /** The messages for the failed checks, in the order they are checked. */
  function ErrorList(numberBad: bool, expiryBad: bool, cvvBad: bool, nameBad: bool): seq<string>
  {
    Push(Push(Push(Push([], numberBad, CardNumberMessage), expiryBad, ExpiryMessage), cvvBad, CvvMessage), nameBad, NameMessage)
  }

  /** The messages `validateCard` collects. */
  function CardErrors(card: CardData): seq<string>
  {
    ErrorList(CardNumberBad(card), ExpiryBad(card), CvvBad(card), NameBad(card))
  }

  /** `validateCard`: four checks in a row, each pushing its message. */
  method ValidateCard(card: CardData) returns (errors: seq<string>)
    ensures errors == CardErrors(card)
  {
    errors := [];
    if card.cardNumber == "" || |StripWhitespace(card.cardNumber)| < 16 {
      errors := errors + [CardNumberMessage];
    }
    if card.expiryDate == "" || |card.expiryDate| < 5 {
      errors := errors + [ExpiryMessage];
    }
    if card.cvv == "" || |card.cvv| < 3 {
      errors := errors + [CvvMessage];
    }
    if Trim(card.cardholderName) == "" {
      errors := errors + [NameMessage];
    }
  }

  lemma MessagesDistinct()
    ensures CardNumberMessage != ExpiryMessage && CardNumberMessage != CvvMessage && CardNumberMessage != NameMessage
    ensures ExpiryMessage != CvvMessage && ExpiryMessage != NameMessage && CvvMessage != NameMessage
  {
    assert CardNumberMessage[6] == 'c' && ExpiryMessage[6] == 'e' && CvvMessage[6] == 'C';
    assert NameMessage[0] == 'C' && CardNumberMessage[0] == 'V' && ExpiryMessage[0] == 'V' && CvvMessage[0] == 'V';
  }

  /** Each message is reported exactly when its check fails; the list is
      empty exactly when every check passes. */
  lemma ErrorListMeaning(numberBad: bool, expiryBad: bool, cvvBad: bool, nameBad: bool)
    ensures CardNumberMessage in ErrorList(numberBad, expiryBad, cvvBad, nameBad) <==> numberBad
    ensures ExpiryMessage in ErrorList(numberBad, expiryBad, cvvBad, nameBad) <==> expiryBad
    ensures CvvMessage in ErrorList(numberBad, expiryBad, cvvBad, nameBad) <==> cvvBad
    ensures NameMessage in ErrorList(numberBad, expiryBad, cvvBad, nameBad) <==> nameBad
    ensures ErrorList(numberBad, expiryBad, cvvBad, nameBad) == [] <==> !numberBad && !expiryBad && !cvvBad && !nameBad
  {
    MessagesDistinct();
    if ErrorList(numberBad, expiryBad, cvvBad, nameBad) == [] {
      assert CardNumberMessage !in ErrorList(numberBad, expiryBad, cvvBad, nameBad);
    }
  }

  /** The card form's errors, check by check. */
  lemma CardErrorsMeaning(card: CardData)
    ensures CardNumberMessage in CardErrors(card) <==> |StripWhitespace(card.cardNumber)| < 16
    ensures ExpiryMessage in CardErrors(card) <==> |card.expiryDate| < 5
    ensures CvvMessage in CardErrors(card) <==> |card.cvv| < 3
    ensures NameMessage in CardErrors(card) <==> Trim(card.cardholderName) == ""
    ensures CardErrors(card) == [] <==> !CardNumberBad(card) && !ExpiryBad(card) && !CvvBad(card) && !NameBad(card)
  {
    ErrorListMeaning(CardNumberBad(card), ExpiryBad(card), CvvBad(card), NameBad(card));
  }

  predicate InCheckOrder(errors: seq<string>)
  {
    forall i, j :: 0 <= i < j < |errors| ==> Rank(errors[i]) < Rank(errors[j])
  }

  lemma PushInOrder(errors: seq<string>, failed: bool, message: string)
    requires InCheckOrder(errors)
    requires forall i :: 0 <= i < |errors| ==> Rank(errors[i]) < Rank(message)
    ensures InCheckOrder(Push(errors, failed, message))
    ensures forall i :: 0 <= i < |Push(errors, failed, message)| ==> Rank(Push(errors, failed, message)[i]) <= Rank(message)
  {
  }

  /** The messages come in the fixed order, none twice. */
  lemma ErrorListInOrder(numberBad: bool, expiryBad: bool, cvvBad: bool, nameBad: bool)
    ensures InCheckOrder(ErrorList(numberBad, expiryBad, cvvBad, nameBad))
  {
    MessagesDistinct();
    assert Rank(CardNumberMessage) == 0 && Rank(ExpiryMessage) == 1 && Rank(CvvMessage) == 2 && Rank(NameMessage) == 3;
    var e1 := Push([], numberBad, CardNumberMessage);
    var e2 := Push(e1, expiryBad, ExpiryMessage);
    var e3 := Push(e2, cvvBad, CvvMessage);
    PushInOrder([], numberBad, CardNumberMessage);
    PushInOrder(e1, expiryBad, ExpiryMessage);
    PushInOrder(e2, cvvBad, CvvMessage);
    PushInOrder(e3, nameBad, NameMessage);
  }

  /** `errors.join(', ')`. */
  function JoinComma(parts: seq<string>): string
  {
    if parts == [] then "" else if |parts| == 1 then parts[0] else parts[0] + ", " + JoinComma(parts[1..])
  }

  // ---------------------------------------------------------------------
  // The form's state

  datatype PaymentMethod = CardPayment | PayPal | ApplePay

  datatype Outcome = Succeeded(paymentId: string) | Failed(message: string)

  const DeclinedMessage: string := "Payment declined. Please try a different card."

  class PaymentForm {
    var paymentMethod: PaymentMethod
    var card: CardData
    var isProcessing: bool
    var paymentComplete: bool

    /** What the input handlers guarantee about the card fields. */
    predicate Valid()
      reads this
    {
      |card.cardNumber| <= 19 && WellSpaced(card.cardNumber)
      && |card.expiryDate| <= 5
      && |card.cvv| <= 4 && AllDigits(card.cvv)
    }

    constructor()
      ensures Valid()
      ensures paymentMethod == CardPayment && card == CardData("", "", "", "")
      ensures !isProcessing && !paymentComplete
    {
      paymentMethod := CardPayment;
      card := CardData("", "", "", "");
      isProcessing := false;
      paymentComplete := false;
    }

    method SelectMethod(m: PaymentMethod)
      requires Valid()
      modifies this
      ensures Valid()
      ensures paymentMethod == m && card == old(card)
      ensures isProcessing == old(isProcessing) && paymentComplete == old(paymentComplete)
    {
      paymentMethod := m;
    }

    method TypeCardNumber(raw: string)
      requires Valid()
      modifies this
      ensures Valid()
      ensures card == old(card).(cardNumber := FormatCardNumber(raw))
      ensures paymentMethod == old(paymentMethod)
      ensures isProcessing == old(isProcessing) && paymentComplete == old(paymentComplete)
    {
      var formatted := FormatCardNumberInput(raw);
      CardNumberLength(raw);
      CardNumberShape(raw);
      card := card.(cardNumber := formatted);
    }

    method TypeExpiry(raw: string)
      requires Valid()
      modifies this
      ensures Valid()
      ensures card == old(card).(expiryDate := FormatExpiry(raw))
      ensures paymentMethod == old(paymentMethod)
      ensures isProcessing == old(isProcessing) && paymentComplete == old(paymentComplete)
    {
      ExpiryShape(raw);
      card := card.(expiryDate := FormatExpiry(raw));
    }

    method TypeCvv(raw: string)
      requires Valid()
      modifies this
      ensures Valid()
      ensures card == old(card).(cvv := CvvInput(raw))
      ensures paymentMethod == old(paymentMethod)
      ensures isProcessing == old(isProcessing) && paymentComplete == old(paymentComplete)
    {
      card := card.(cvv := CvvInput(raw));
    }

    method TypeName(raw: string)
      requires Valid()
      modifies this
      ensures Valid()
      ensures card == old(card).(cardholderName := raw)
      ensures paymentMethod == old(paymentMethod)
      ensures isProcessing == old(isProcessing) && paymentComplete == old(paymentComplete)
    {
      card := card.(cardholderName := raw);
    }

    /** `processPayment`: a card payment with validation errors fails with
        the joined messages before anything else happens; otherwise the
        simulated processor's verdict `approved` decides. */
    method ProcessPayment(approved: bool, paymentId: string) returns (outcome: Outcome)
      modifies this
      ensures paymentMethod == CardPayment && CardErrors(card) != [] ==>
        outcome == Failed(JoinComma(CardErrors(card))) && paymentComplete == old(paymentComplete)
      ensures outcome.Succeeded? <==> (paymentMethod != CardPayment || CardErrors(card) == []) && approved
      ensures outcome.Succeeded? ==> outcome.paymentId == paymentId && paymentComplete
      ensures (paymentMethod != CardPayment || CardErrors(card) == []) && !approved ==> outcome == Failed(DeclinedMessage)
      ensures !outcome.Succeeded? ==> paymentComplete == old(paymentComplete)
      ensures !isProcessing
      ensures card == old(card) && paymentMethod == old(paymentMethod)
    {
      isProcessing := true;
      if paymentMethod == CardPayment {
        var errors := ValidateCard(card);
        if |errors| > 0 {
          isProcessing := false;
          return Failed(JoinComma(errors));
        }
      }
      if approved {
        paymentComplete := true;
        outcome := Succeeded(paymentId);
      } else {
        outcome := Failed(DeclinedMessage);
      }
      isProcessing := false;
    }
  }
}
