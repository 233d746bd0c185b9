/** The token send dialog: a recipient and an amount, validated as they are typed, and a
    send that builds a value transfer in ether units and hands it to the signer. */
module SendDialog {
  import opened Wrappers
  import opened Text
  import opened Decimal
  import opened Evm
  import opened AppTypes
  import opened SendValidation

  /** `ethers.parseEther`: parseUnits with 18 decimals. */
  function ParseEther(amount: string): Option<int>
  {
    Units(amount, 18)
  }

  /** The transaction `handleSend` builds: recipient, value in ether units and the token's
      chain id; no other field is set. `None` where parseEther throws. */
  function SendTx(token: Token, recipient: string, amount: string): Option<EvmTx>
  {
    match ParseEther(amount)
    case None => None
    case Some(wei) => Some(EvmTx(Some(recipient), NoData, Wei(wei), Some(token.chainId), None, None, None, None, None, None))
  }

  /** The value is the amount read with 18 decimals whatever the token's own decimals, and
      the transaction carries no token contract, nonce, gas or fee fields. */
  lemma SendTxShape(token: Token, recipient: string, amount: string)
    ensures var r := SendTx(token, recipient, amount);
      (r.Some? <==> Units(amount, 18).Some?) &&
      (r.Some? ==> r.value.to == Some(recipient) && r.value.value == Wei(Units(amount, 18).value) &&
                   r.value.data == NoData && r.value.chainId == Some(token.chainId) &&
                   r.value.nonce.None? && r.value.gasLimit.None? && r.value.txType.None? &&
                   r.value.gasPrice.None? && r.value.maxFeePerGas.None? && r.value.maxPriorityFeePerGas.None?)
  {
  }

  /** Any amount the form accepts for a token of at most 18 decimals parses as ether, so the
      send always reaches the signer. */
  lemma {:induction false} ValidatedAmountParses(amount: string, decimals: nat, balance: string)
    requires ValidateAmount(amount, decimals, balance).None? && decimals <= 18
    ensures ParseEther(amount).Some?
  {
    ValidateAmountOutcome(amount, decimals, balance);
    if amount[0] == '+' {
      UnitsRefusesPlus(amount);
    }
    UnitsDefined(amount, 18);
  }

  /** For a token with more than 18 decimals, an accepted amount with a non-zero digit past
      the 18th decimal place does not parse as ether: `handleSend` throws before it signs,
      after setting `loading`. */
  lemma ManyDecimalsDoNotParse(amount: string, decimals: nat, balance: string)
    requires ValidateAmount(amount, decimals, balance).None?
    requires exists i :: 18 <= i < |JsNumber(amount).value.fraction| && JsNumber(amount).value.fraction[i] != '0'
    ensures ParseEther(amount).None?
  {
    assert IsPositiveNumber(amount);
    if amount[0] == '+' {
      UnitsRefusesPlus(amount);
    } else {
      UnitsLiteralAgrees(amount);
      var d := JsNumber(amount).value;
      assert Scale(d, 18).None?;
    }
  }

  /** The dialog's state. */
  class SendDialogState {
    var loading: bool
    var recipient: string
    var recipientError: Option<string>
    var amount: string
    var amountError: Option<string>

    constructor()
      ensures !loading && recipient == "" && recipientError.None? && amount == "" && amountError.None?
    {
      loading := false;
      recipient := "";
      recipientError := None;
      amount := "";
      amountError := None;
    }

    /** `isFormValid`. */
    predicate IsFormValid()
      reads this
    {
      FormValid(recipientError, amountError, recipient, amount)
    }

    /** The send button's `disabled`. */
    predicate SendDisabled()
      reads this
    {
      !IsFormValid() || loading
    }

    /** `onEnterRecipient`. */
    method EnterRecipient(value: string, isAddress: string -> bool)
      modifies this
      ensures recipient == value && recipientError == RecipientError(value, isAddress)
      ensures loading == old(loading) && amount == old(amount) && amountError == old(amountError)
    {
      recipient := value;
      if value == "" {
        recipientError := Some(RecipientRequired);
        return;
      }
      if !isAddress(value) {
        recipientError := Some(InvalidAddress);
        return;
      }
      recipientError := None;
    }

    /** `onEnterAmount`: the balance is checked with the token's own decimals. */
    method EnterAmount(value: string, tokenBalance: TokenBalance)
      modifies this
      ensures amount == value && amountError == ValidateAmount(value, tokenBalance.token.decimals, tokenBalance.balance)
      ensures loading == old(loading) && recipient == old(recipient) && recipientError == old(recipientError)
    {
      amount := value;
      amountError := ValidateAmount(value, tokenBalance.token.decimals, tokenBalance.balance);
    }

    /** `handleSend`, once the signing promise has settled (its result is only logged).
        `sent` is the transaction handed to the signer; when parseEther throws nothing is
        signed and `loading` stays set. */
    method HandleSend(tokenBalance: TokenBalance) returns (sent: Option<EvmTx>)
      modifies this
      ensures sent == SendTx(tokenBalance.token, old(recipient), old(amount))
      ensures loading <==> sent.None?
      ensures recipient == old(recipient) && recipientError == old(recipientError) &&
              amount == old(amount) && amountError == old(amountError)
    {
      loading := true;
      var value := ParseEther(amount);
      if value.None? {
        return None;
      }
      sent := Some(EvmTx(Some(recipient), NoData, Wei(value.value), Some(tokenBalance.token.chainId),
                         None, None, None, None, None, None));
      loading := false;
    }
  }

  /** A send from a valid form, for a token of at most 18 decimals, always ends with
      `loading` cleared. */
  lemma ValidSendClearsLoading(recipient: string, amount: string, isAddress: string -> bool, tokenBalance: TokenBalance)
    requires FormValid(RecipientError(recipient, isAddress),
                       ValidateAmount(amount, tokenBalance.token.decimals, tokenBalance.balance), recipient, amount)
    requires tokenBalance.token.decimals <= 18
    ensures SendTx(tokenBalance.token, recipient, amount).Some?
  {
    FormValidMeansInputsValid(recipient, amount, isAddress, tokenBalance.token.decimals, tokenBalance.balance);
    ValidatedAmountParses(amount, tokenBalance.token.decimals, tokenBalance.balance);
  }
}
