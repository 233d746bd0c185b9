/** The checks of the two send forms (the asset send dialog and the token send dialog):
    the amount against the token's precision and the balance, and the recipient address.
    Both dialogs carry the same validator, parameterised here by the token's decimals and
    the balance text. */
module SendValidation {
  import opened Wrappers
  import opened Text
  import opened Decimal

  const AmountRequired := "Amount is required"
  const AmountNotPositive := "Amount must be greater than 0"
  const InsufficientBalance := "Insufficient balance"
  const InvalidAmount := "Invalid amount"
  const RecipientRequired := "Recipient address is required"
  const InvalidAddress := "Invalid wallet address"

  function TooManyDecimals(decimals: nat): string
  {
    "Max " + NatToString(decimals) + " decimal places allowed"
  }

  /** `validateAmount`: the first failing check's message, or `None` when the amount may
      be sent. `balance` is the balance as text, parsed with the same precision. */
  function ValidateAmount(value: string, decimals: nat, balance: string): Option<string>
  {
    if value == "" then Some(AmountRequired)
    else if !IsPositiveNumber(value) then Some(AmountNotPositive)
    else
      var decimalPart := SecondField(value, '.');
      if Truthy(decimalPart) && |decimalPart.value| > decimals then Some(TooManyDecimals(decimals))
      else match (Units(value, decimals), Units(balance, decimals))
        case (Some(v), Some(b)) => if v > b then Some(InsufficientBalance) else None
        case _ => Some(InvalidAmount)
  }

  lemma NoPointInDigits(s: string)
    requires AllDigits(s)
    ensures '.' !in s
  {
    forall i | 0 <= i < |s| ensures s[i] != '.' {
      assert IsDigit(s[i]);
    }
  }

  /** An unsigned literal splits at its only point, or has no fraction digits. */
  lemma SplitShape(body: string)
    requires SplitPoint(body).Some?
    ensures var parts := SplitPoint(body).value;
      '.' !in parts.0 && '.' !in parts.1 &&
      ('.' in body ==> body == parts.0 + ['.'] + parts.1) &&
      ('.' !in body ==> parts.1 == "")
  {
    var parts := SplitPoint(body).value;
    NoPointInDigits(parts.0);
    NoPointInDigits(parts.1);
    if '.' !in body {
      assert body == parts.0 + parts.1;
      if parts.1 != "" {
        assert body == parts.0;
      }
    }
  }

  /** The fraction digits `Number` reads are those of the literal after its sign. */
  lemma FractionAfterSign(value: string)
    requires value != "" && JsNumber(value).Some?
    ensures var signed := value[0] == '-' || value[0] == '+';
      var body := if signed then value[1..] else value;
      SplitPoint(body).Some? && JsNumber(value).value.fraction == SplitPoint(body).value.1
  {
  }

  /** Splitting a signed literal at its point: the sign holds no point. */
  lemma SignedSplit(sign: string, body: string)
    requires '.' !in sign && SplitPoint(body).Some?
    ensures '.' in sign + body ==> SecondField(sign + body, '.') == Some(SplitPoint(body).value.1)
    ensures '.' !in sign + body ==> SplitPoint(body).value.1 == ""
  {
    var parts := SplitPoint(body).value;
    SplitShape(body);
    if '.' in body {
      assert sign + body == (sign + parts.0) + ['.'] + parts.1;
      SecondFieldSplit(sign + parts.0, '.', parts.1);
    } else {
      assert '.' !in sign + body;
    }
  }

  /** For a number `Number` reads, `value.split('.')[1]` is exactly the literal's fraction
      digits when there is a point, and there are no fraction digits otherwise. */
  lemma FractionField(value: string)
    requires value != "" && JsNumber(value).Some?
    ensures '.' in value ==> SecondField(value, '.') == Some(JsNumber(value).value.fraction)
    ensures '.' !in value ==> JsNumber(value).value.fraction == ""
  {
    var signed := value[0] == '-' || value[0] == '+';
    var sign := if signed then value[..1] else "";
    var body := if signed then value[1..] else value;
    assert value == sign + body;
    FractionAfterSign(value);
    SignedSplit(sign, body);
  }

  /** The precision check compares the literal's fraction length with the decimals. */
  lemma FractionCheck(value: string, decimals: nat)
    requires value != "" && JsNumber(value).Some?
    ensures var decimalPart := SecondField(value, '.');
      (Truthy(decimalPart) && |decimalPart.value| > decimals) <==> |JsNumber(value).value.fraction| > decimals
  {
    FractionField(value);
  }

  /** The precision message never coincides with another message. */
  lemma MessagesDistinct(decimals: nat)
    ensures var m := TooManyDecimals(decimals);
      m != AmountRequired && m != AmountNotPositive && m != InsufficientBalance && m != InvalidAmount
  {
    assert TooManyDecimals(decimals)[0] == 'M';
  }

  /** Each outcome of the validator, with exactly the amounts that produce it. */
  lemma ValidateAmountOutcome(value: string, decimals: nat, balance: string)
    ensures var r := ValidateAmount(value, decimals, balance);
      var precise := IsPositiveNumber(value) && |JsNumber(value).value.fraction| <= decimals;
      var parsed := Units(value, decimals).Some? && Units(balance, decimals).Some?;
      (r == Some(AmountRequired) <==> value == "") &&
      (r == Some(AmountNotPositive) <==> value != "" && !IsPositiveNumber(value)) &&
      (r == Some(TooManyDecimals(decimals)) <==> IsPositiveNumber(value) && |JsNumber(value).value.fraction| > decimals) &&
      (r == Some(InvalidAmount) <==> precise && !parsed) &&
      (r == Some(InsufficientBalance) <==> precise && parsed && Units(value, decimals).value > Units(balance, decimals).value) &&
      (r.None? <==> precise && parsed && Units(value, decimals).value <= Units(balance, decimals).value)
  {
    MessagesDistinct(decimals);
    var r := ValidateAmount(value, decimals, balance);
    if value == "" {
      assert r == Some(AmountRequired);
    } else if !IsPositiveNumber(value) {
      assert r == Some(AmountNotPositive);
    } else {
      FractionCheck(value, decimals);
      var v := Units(value, decimals);
      var b := Units(balance, decimals);
      if |JsNumber(value).value.fraction| > decimals {
        assert r == Some(TooManyDecimals(decimals));
      } else {
        assert r == if v.Some? && b.Some? then (if v.value > b.value then Some(InsufficientBalance) else None)
                    else Some(InvalidAmount);
      }
    }
  }

  /** An accepted amount converts to a positive number of minor units no greater than the
      balance. */
  lemma AcceptedAmountWithinBalance(value: string, decimals: nat, balance: string)
    requires ValidateAmount(value, decimals, balance).None?
    ensures Units(value, decimals).Some? && Units(balance, decimals).Some?
    ensures 0 < Units(value, decimals).value <= Units(balance, decimals).value
  {
    ValidateAmountOutcome(value, decimals, balance);
    UnitsPositive(value, decimals);
  }

  /** Sending the whole balance is accepted: the comparison is exact, in minor units. */
  lemma WholeBalanceAccepted(balance: string, decimals: nat)
    requires IsPositiveNumber(balance) && balance[0] != '+'
    requires |JsNumber(balance).value.fraction| <= decimals
    ensures ValidateAmount(balance, decimals, balance).None?
  {
    ValidateAmountOutcome(balance, decimals, balance);
    UnitsDefined(balance, decimals);
  }

  /** Within the precision, the only positive number parseUnits refuses is one written
      with a `+` sign: it is reported as "Invalid amount". */
  lemma PlusSignedAmountInvalid(value: string, decimals: nat, balance: string)
    requires IsPositiveNumber(value) && |JsNumber(value).value.fraction| <= decimals
    ensures Units(value, decimals).None? <==> value[0] == '+'
    ensures value[0] == '+' ==> ValidateAmount(value, decimals, balance) == Some(InvalidAmount)
  {
    if value[0] == '+' {
      UnitsRefusesPlus(value);
    } else {
      UnitsDefined(value, decimals);
    }
    ValidateAmountOutcome(value, decimals, balance);
  }

  /** `onEnterRecipient`'s error: required, then a valid address (`ethers.isAddress`,
      which the model takes as a given predicate). */
  function RecipientError(value: string, isAddress: string -> bool): (r: Option<string>)
    ensures r.None? <==> value != "" && isAddress(value)
    ensures r == Some(RecipientRequired) <==> value == ""
  {
    if value == "" then Some(RecipientRequired)
    else if !isAddress(value) then Some(InvalidAddress)
    else None
  }

  /** `isFormValid`. */
  predicate FormValid(recipientError: Option<string>, amountError: Option<string>, recipient: string, amount: string)
  {
    !Truthy(recipientError) && !Truthy(amountError) && |recipient| > 0 && |amount| > 0
  }

  /** When the errors shown are those of the current inputs, the form is valid exactly when
      the recipient is an address and the amount passes every check. */
  lemma FormValidMeansInputsValid(recipient: string, amount: string, isAddress: string -> bool, decimals: nat, balance: string)
    ensures FormValid(RecipientError(recipient, isAddress), ValidateAmount(amount, decimals, balance), recipient, amount) <==>
      isAddress(recipient) && |recipient| > 0 && ValidateAmount(amount, decimals, balance).None?
  {
    ValidateAmountOutcome(amount, decimals, balance);
    MessagesDistinct(decimals);
  }
}
