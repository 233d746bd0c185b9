/** The asset send dialog: a recipient and amount form, a confirmation step, and the
    EIP-1559 transaction it signs and sends for a native coin or an ERC-20 token on the
    EVM chains. */
module AssetSend {
  import opened Wrappers
  import opened Text
  import opened Decimal
  import opened Evm
  import opened ApiTypes
  import opened SendValidation

  /** `CHAIN_IDS`: the EVM chain id of each chain, 0 where there is none. */
  function ChainId(c: Chain): (r: nat)
  {
    match c
    case ETH => 1
    case BSC => 56
    case SOL => 0
    case BTC => 0
  }

  const EthereumRpc := "https://ethereum-rpc.publicnode.com"
  const BscRpc := "https://bsc-rpc.publicnode.com"

  /** `getRpcUrl`: the public node of chain 1 or 56; any other id throws. */
  function RpcUrlFor(chainId: nat): (r: Result<string>)
    ensures r.Ok? <==> chainId == 1 || chainId == 56
    ensures r.Err? ==> r.message == "Unsupported chain ID: " + NatToString(chainId)
  {
    if chainId == 1 then Ok(EthereumRpc)
    else if chainId == 56 then Ok(BscRpc)
    else Err("Unsupported chain ID: " + NatToString(chainId))
  }

  const NativeGasLimit: nat := 21000
  const TokenGasLimit: nat := 100000

  /** The transaction `handleConfirmSend` builds: a plain value transfer for a native coin,
      an ERC-20 `transfer` call to the token contract otherwise; always type 2 with the
      node's EIP-1559 fee fields. `Err` where parseUnits throws. */
  function TransferTx(asset: BalanceAsset, recipient: string, amount: string, chainId: nat, nonce: nat, fee: FeeData): Result<EvmTx>
  {
    match Units(amount, asset.decimal)
    case None => Err(UnitsErrorMessage)
    case Some(units) =>
      if asset.address.None? then
        Ok(EvmTx(Some(recipient), NoData, Wei(units), Some(chainId), Some(nonce), Some(NativeGasLimit), Some(2),
                 None, fee.maxFeePerGas, fee.maxPriorityFeePerGas))
      else
        Ok(EvmTx(Some(asset.address.value), Transfer(recipient, units), Wei(0), Some(chainId), Some(nonce), Some(TokenGasLimit),
                 Some(2), None, fee.maxFeePerGas, fee.maxPriorityFeePerGas))
  }

  /** The shape of the transaction: who it goes to, what it carries, and its gas limit. */
  lemma TransferTxShape(asset: BalanceAsset, recipient: string, amount: string, chainId: nat, nonce: nat, fee: FeeData)
    ensures var r := TransferTx(asset, recipient, amount, chainId, nonce, fee);
      (r.Ok? <==> Units(amount, asset.decimal).Some?) &&
      (r.Ok? ==>
        var units := Units(amount, asset.decimal).value;
        r.value.txType == Some(2) && r.value.chainId == Some(chainId) && r.value.nonce == Some(nonce) &&
        r.value.gasPrice.None? && r.value.maxFeePerGas == fee.maxFeePerGas &&
        r.value.maxPriorityFeePerGas == fee.maxPriorityFeePerGas &&
        (asset.address.None? ==>
          r.value.to == Some(recipient) && r.value.value == Wei(units) && r.value.data == NoData &&
          r.value.gasLimit == Some(NativeGasLimit)) &&
        (asset.address.Some? ==>
          r.value.to == asset.address && r.value.value == Wei(0) && r.value.data == Transfer(recipient, units) &&
          r.value.gasLimit == Some(TokenGasLimit)))
  {
  }

  /** An amount the form accepted is sent as a positive number of minor units, at most the
      balance: the transaction never fails to build. */
  lemma ValidatedAmountTransfers(asset: BalanceAsset, recipient: string, amount: string, chainId: nat, nonce: nat, fee: FeeData)
    requires ValidateAmount(amount, asset.decimal, asset.value).None?
    ensures var r := TransferTx(asset, recipient, amount, chainId, nonce, fee);
      r.Ok? &&
      var units := if asset.address.None? then r.value.value.amount else r.value.data.amount;
      0 < units <= Units(asset.value, asset.decimal).value
  {
    AcceptedAmountWithinBalance(amount, asset.decimal, asset.value);
  }

  /** How one confirm-send attempt ends, given the outcomes of its awaited calls. */
  datatype SendResult =
    | Skipped
    | Failed(message: string, hash: Option<string>, signed: Option<EvmTx>)
    | Confirmed(txHash: string, tx: EvmTx)

  function SendResultOf(asset: BalanceAsset, recipient: string, amount: string, o: SendOutcomes): SendResult
  {
    var chainId := ChainId(asset.chain);
    if chainId == 0 then Skipped
    else match RpcUrlFor(chainId)
      case Err(m) => Failed(m, None, None)
      case Ok(_) =>
        match o.nonce
        case Threw(m) => Failed(m, None, None)
        case Done(nonce) =>
          match o.feeData
          case Threw(m) => Failed(m, None, None)
          case Done(fee) =>
            match TransferTx(asset, recipient, amount, chainId, nonce, fee)
            case Err(m) => Failed(m, None, None)
            case Ok(tx) =>
              match o.send
              case Threw(m) => Failed(m, None, Some(tx))
              case Done(hash) =>
                match o.wait
                case Threw(m) => Failed(m, Some(hash), Some(tx))
                case Done(_) => Confirmed(hash, tx)
  }

  /** Solana and Bitcoin assets are never sent from this dialog; on the EVM chains the send
      is confirmed exactly when every awaited call succeeds and the amount parses, and the
      hash shown is the one the signer returned. */
  lemma SendResultOutcome(asset: BalanceAsset, recipient: string, amount: string, o: SendOutcomes)
    ensures var r := SendResultOf(asset, recipient, amount, o);
      (r.Skipped? <==> asset.chain == SOL || asset.chain == BTC) &&
      (r.Confirmed? <==> !r.Skipped? && o.nonce.Done? && o.feeData.Done? && o.send.Done? && o.wait.Done? &&
                         Units(amount, asset.decimal).Some?) &&
      (r.Confirmed? ==> r.txHash == o.send.value &&
                        r.tx == TransferTx(asset, recipient, amount, ChainId(asset.chain), o.nonce.value, o.feeData.value).value) &&
      (r.Failed? && r.hash.Some? ==> o.send == Done(r.hash.value) && o.wait == Threw(r.message)) &&
      (r.Failed? && r.hash.None? && r.signed.Some? ==> o.send == Threw(r.message)) &&
      (r.Failed? && r.signed.None? ==>
        o.nonce == Threw(r.message) || (o.nonce.Done? && o.feeData == Threw(r.message)) ||
        (o.nonce.Done? && o.feeData.Done? && Units(amount, asset.decimal).None? && r.message == UnitsErrorMessage))
  {
    if !(asset.chain == SOL || asset.chain == BTC) {
      assert RpcUrlFor(ChainId(asset.chain)).Ok?;
      TransferTxShape(asset, recipient, amount, ChainId(asset.chain), if o.nonce.Done? then o.nonce.value else 0,
                      if o.feeData.Done? then o.feeData.value else FeeData(None, None, None));
    }
  }

  datatype Step = Form | Confirm | Success

  /** The dialog's state. */
  class AssetSendDialog {
    var step: Step
    var txHash: string
    var loading: bool
    var recipient: string
    var recipientError: Option<string>
    var amount: string
    var amountError: Option<string>
    var error: Option<string>

    constructor()
      ensures step == Form && txHash == "" && !loading && recipient == "" && recipientError.None? &&
              amount == "" && amountError.None? && error.None?
    {
      step := Form;
      txHash := "";
      loading := false;
      recipient := "";
      recipientError := None;
      amount := "";
      amountError := None;
      error := None;
    }

    /** `isFormValid`. */
    predicate IsFormValid()
      reads this
    {
      FormValid(recipientError, amountError, recipient, amount)
    }

    /** `onEnterRecipient`. */
    method EnterRecipient(value: string, isAddress: string -> bool)
      modifies this
      ensures recipient == value && recipientError == RecipientError(value, isAddress)
      ensures step == old(step) && txHash == old(txHash) && loading == old(loading) && amount == old(amount) &&
              amountError == old(amountError) && error == old(error)
    {
      recipient := value;
      if value == "" {
        recipientError := Some(RecipientRequired);
        return;
      }
      if !isAddress(value) {
        recipientError := Some(InvalidAddress);
        return;
      }
      recipientError := None;
    }

    /** `onEnterAmount`. */
    method EnterAmount(value: string, asset: BalanceAsset)
      modifies this
      ensures amount == value && amountError == ValidateAmount(value, asset.decimal, asset.value)
      ensures step == old(step) && txHash == old(txHash) && loading == old(loading) && recipient == old(recipient) &&
              recipientError == old(recipientError) && error == old(error)
    {
      amount := value;
      amountError := ValidateAmount(value, asset.decimal, asset.value);
    }

    /** `handleReview`: on to confirmation only with a valid form. */
    method Review()
      modifies this
      ensures step == (if old(IsFormValid()) then Confirm else old(step))
      ensures txHash == old(txHash) && loading == old(loading) && recipient == old(recipient) &&
              recipientError == old(recipientError) && amount == old(amount) && amountError == old(amountError) &&
              error == old(error)
    {
      if !IsFormValid() {
        return;
      }
      step := Confirm;
    }

    /** The Back button of the confirmation step. */
    method Back()
      modifies this
      ensures step == Form
      ensures txHash == old(txHash) && loading == old(loading) && recipient == old(recipient) &&
              recipientError == old(recipientError) && amount == old(amount) && amountError == old(amountError) &&
              error == old(error)
    {
      step := Form;
    }

    /** The effect on `isOpen`: closing the dialog resets the step, both inputs, every
        error and the hash; `loading` is left as it is. */
    method OpenChanged(isOpen: bool)
      modifies this
      ensures !isOpen ==> step == Form && recipient == "" && amount == "" && recipientError.None? &&
                          amountError.None? && error.None? && txHash == ""
      ensures isOpen ==> step == old(step) && txHash == old(txHash) && recipient == old(recipient) &&
                         recipientError == old(recipientError) && amount == old(amount) &&
                         amountError == old(amountError) && error == old(error)
      ensures loading == old(loading)
    {
      if !isOpen {
        step := Form;
        recipient := "";
        amount := "";
        recipientError := None;
        amountError := None;
        error := None;
        txHash := "";
      }
    }

    /** `handleConfirmSend`, run to completion with the outcomes of its awaited calls.
        `sent` is the transaction handed to the signer, if one was built. */
    method ConfirmSend(asset: BalanceAsset, o: SendOutcomes) returns (sent: Option<EvmTx>)
      modifies this
      ensures var r := SendResultOf(asset, old(recipient), old(amount), o);
        (r.Skipped? ==> step == old(step) && txHash == old(txHash) && !loading && error == old(error) && sent.None?) &&
        (r.Failed? ==> step == old(step) && !loading && error == Some(r.message) && sent == r.signed &&
                       txHash == (if r.hash.Some? then r.hash.value else old(txHash))) &&
        (r.Confirmed? ==> step == Success && !loading && error.None? && txHash == r.txHash && sent == Some(r.tx))
      ensures recipient == old(recipient) && recipientError == old(recipientError) && amount == old(amount) &&
              amountError == old(amountError)
    {
      sent := None;
      var chainId := ChainId(asset.chain);
      if chainId == 0 {
        loading := false;
        return;
      }
      loading := true;
      error := None;
      var rpcUrl := RpcUrlFor(chainId);
      assert rpcUrl.Ok?;
      if o.nonce.Threw? {
        error := Some(o.nonce.message);
        loading := false;
        return;
      }
      if o.feeData.Threw? {
        error := Some(o.feeData.message);
        loading := false;
        return;
      }
      var tx := TransferTx(asset, recipient, amount, chainId, o.nonce.value, o.feeData.value);
      if tx.Err? {
        error := Some(tx.message);
        loading := false;
        return;
      }
      sent := Some(tx.value);
      if o.send.Threw? {
        error := Some(o.send.message);
        loading := false;
        return;
      }
      txHash := o.send.value;
      if o.wait.Threw? {
        error := Some(o.wait.message);
        loading := false;
        return;
      }
      step := Success;
      loading := false;
    }
  }
}
