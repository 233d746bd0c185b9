/** Building the partially signed Bitcoin transaction (BIP 174 PSBT) for a swap: the fee
    estimate, the change computation, the insufficient-funds error, and the inputs and
    outputs appended to the PSBT in order. Amounts are in satoshis. */
module Bitcoin {
  import opened Wrappers

  const DustThreshold: int := 546
  const FeeRate: int := 10

  /** An unspent output: `script` is the optional hex-encoded locking script. */
  datatype Utxo = Utxo(txid: string, vout: int, value: int, script: Option<string>)

  /** The segwit spending data attached to an input: the script and value of the output spent. */
  datatype WitnessUtxo = WitnessUtxo(scriptHex: string, value: int)

  datatype PsbtInput = PsbtInput(hash: string, index: int, witnessUtxo: Option<WitnessUtxo>)

  /** An output paying an address, or an `OP_RETURN` script carrying the memo. */
  datatype PsbtOutput = Payment(address: string, value: int) | OpReturn(memo: string, value: int)

  datatype PsbtContents = PsbtContents(inputs: seq<PsbtInput>, outputs: seq<PsbtOutput>)

  /** The PSBT under construction: inputs and outputs are appended in place. */
  class Psbt {
    var inputs: seq<PsbtInput>
    var outputs: seq<PsbtOutput>

    constructor()
      ensures inputs == [] && outputs == []
    {
      inputs := [];
      outputs := [];
    }

    function Contents(): PsbtContents
      reads this
    {
      PsbtContents(inputs, outputs)
    }

    method AddInput(input: PsbtInput)
      modifies this
      ensures inputs == old(inputs) + [input] && outputs == old(outputs)
    {
      inputs := inputs + [input];
    }

    method AddOutput(output: PsbtOutput)
      modifies this
      ensures outputs == old(outputs) + [output] && inputs == old(inputs)
    {
      outputs := outputs + [output];
    }
  }

  // ---------------------------------------------------------------------------
  // The specification of `createBtcSwapPsbt`

  /** The sum of the values, accumulated from the front. */
  function TotalInput(utxos: seq<Utxo>): int
  {
    if |utxos| == 0 then 0 else TotalInput(utxos[..|utxos| - 1]) + utxos[|utxos| - 1].value
  }

  /** About 148 bytes per input, three outputs of 34 bytes, 10 bytes of overhead and 80
      for the memo; the fee is that size at the fixed rate. */
  function Fee(inputCount: nat): (fee: int)
    ensures fee == 1480 * inputCount + 1920
  {
    (inputCount * 148 + 3 * 34 + 10 + 80) * FeeRate
  }

  function Change(utxos: seq<Utxo>, amountSats: int): int
  {
    TotalInput(utxos) - amountSats - Fee(|utxos|)
  }

  /** One input per UTXO; the witness data is attached only when the UTXO has a non-empty script. */
  function InputFor(u: Utxo): PsbtInput
  {
    PsbtInput(u.txid, u.vout, if Truthy(u.script) then Some(WitnessUtxo(u.script.value, u.value)) else None)
  }

  function Inputs(utxos: seq<Utxo>): (r: seq<PsbtInput>)
  {
    seq(|utxos|, i requires 0 <= i < |utxos| => InputFor(utxos[i]))
  }

  function Outputs(fromAddress: string, toAddress: string, amountSats: int, memo: string, change: int): seq<PsbtOutput>
  {
    [Payment(toAddress, amountSats), OpReturn(memo, 0)] + (if change > DustThreshold then [Payment(fromAddress, change)] else [])
  }

  const InsufficientFunds := "Insufficient funds for transaction and fees"

  /** The PSBT `createBtcSwapPsbt` builds, or the error it throws. */
  function SwapPsbt(fromAddress: string, toAddress: string, amountSats: int, memo: string, utxos: seq<Utxo>): Result<PsbtContents>
  {
    var change := Change(utxos, amountSats);
    if change < 0 then Err(InsufficientFunds)
    else Ok(PsbtContents(Inputs(utxos), Outputs(fromAddress, toAddress, amountSats, memo, change)))
  }

  function OutputTotal(outputs: seq<PsbtOutput>): int
  {
    if |outputs| == 0 then 0 else outputs[0].value + OutputTotal(outputs[1..])
  }

  /** What the built PSBT contains, in terms of the UTXOs, the amount and the fee. */
  lemma SwapPsbtOutcome(fromAddress: string, toAddress: string, amountSats: int, memo: string, utxos: seq<Utxo>)
    ensures var r := SwapPsbt(fromAddress, toAddress, amountSats, memo, utxos);
      var change := TotalInput(utxos) - amountSats - Fee(|utxos|);
      (r.Err? <==> change < 0) &&
      (r.Err? ==> r.message == InsufficientFunds) &&
      (r.Ok? ==>
        |r.value.inputs| == |utxos| &&
        (forall i :: 0 <= i < |utxos| ==>
          r.value.inputs[i].hash == utxos[i].txid && r.value.inputs[i].index == utxos[i].vout &&
          (r.value.inputs[i].witnessUtxo.Some? <==> Truthy(utxos[i].script))) &&
        (|r.value.outputs| == 3 <==> change > DustThreshold) &&
        (|r.value.outputs| == 2 <==> change <= DustThreshold) &&
        r.value.outputs[0] == Payment(toAddress, amountSats) &&
        r.value.outputs[1] == OpReturn(memo, 0) &&
        (|r.value.outputs| == 3 ==> r.value.outputs[2] == Payment(fromAddress, change)))
  {
  }

  /** Nothing is created or lost: with a change output the outputs and the fee add up to the
      inputs exactly; without one, the change left out (at most the dust threshold) also goes
      to the miner. */
  lemma SwapPsbtConserves(fromAddress: string, toAddress: string, amountSats: int, memo: string, utxos: seq<Utxo>)
    requires SwapPsbt(fromAddress, toAddress, amountSats, memo, utxos).Ok?
    ensures var outputs := SwapPsbt(fromAddress, toAddress, amountSats, memo, utxos).value.outputs;
      var change := Change(utxos, amountSats);
      (|outputs| == 3 ==> OutputTotal(outputs) + Fee(|utxos|) == TotalInput(utxos)) &&
      (|outputs| == 2 ==> OutputTotal(outputs) + Fee(|utxos|) + change == TotalInput(utxos) &&
                          0 <= change <= DustThreshold)
  {
    var outputs := SwapPsbt(fromAddress, toAddress, amountSats, memo, utxos).value.outputs;
    assert outputs[2..] == [] || outputs[3..] == [];
    assert OutputTotal(outputs) == outputs[0].value + outputs[1].value + OutputTotal(outputs[2..]);
  }

  /** The sum is the same however the list is split: adding one UTXO to the end adds its value. */
  lemma TotalInputAppend(utxos: seq<Utxo>, u: Utxo)
    ensures TotalInput(utxos + [u]) == TotalInput(utxos) + u.value
  {
    assert (utxos + [u])[..|utxos|] == utxos;
  }

  /** Adding the next UTXO adds its input at the end. */
  lemma InputsAppend(utxos: seq<Utxo>, i: nat)
    requires i < |utxos|
    ensures Inputs(utxos[..i + 1]) == Inputs(utxos[..i]) + [InputFor(utxos[i])]
  {
  }

  // ---------------------------------------------------------------------------
  // `createBtcSwapPsbt`, step by step

  /** `amountSats` is `Math.floor(parseFloat(amount) * 1e8)`, computed by the caller. */
  method CreateBtcSwapPsbt(fromAddress: string, toAddress: string, amountSats: int, memo: string, utxos: seq<Utxo>)
    returns (r: Result<Psbt>)
    ensures r.Err? <==> SwapPsbt(fromAddress, toAddress, amountSats, memo, utxos).Err?
    ensures r.Err? ==> r.message == InsufficientFunds
    ensures r.Ok? ==> fresh(r.value) && r.value.Contents() == SwapPsbt(fromAddress, toAddress, amountSats, memo, utxos).value
  {
    var psbt := new Psbt();

    var totalInput := 0;
    var i := 0;
    while i < |utxos|
      invariant 0 <= i <= |utxos|
      invariant totalInput == TotalInput(utxos[..i])
      invariant psbt.inputs == [] && psbt.outputs == []
    {
      TotalInputAppend(utxos[..i], utxos[i]);
      assert utxos[..i + 1] == utxos[..i] + [utxos[i]];
      totalInput := totalInput + utxos[i].value;
      i := i + 1;
    }
    assert utxos[..i] == utxos;

    var estimatedSize := |utxos| * 148 + 3 * 34 + 10 + 80;
    var fee := estimatedSize * FeeRate;
    var change := totalInput - amountSats - fee;
    if change < 0 {
      return Err(InsufficientFunds);
    }

    i := 0;
    while i < |utxos|
      invariant 0 <= i <= |utxos|
      invariant fresh(psbt)
      invariant psbt.inputs == Inputs(utxos[..i]) && psbt.outputs == []
    {
      var spent := if Truthy(utxos[i].script) then Some(WitnessUtxo(utxos[i].script.value, utxos[i].value)) else None;
      InputsAppend(utxos, i);
      psbt.AddInput(PsbtInput(utxos[i].txid, utxos[i].vout, spent));
      i := i + 1;
    }
    assert utxos[..i] == utxos;
    assert change == Change(utxos, amountSats);

    psbt.AddOutput(Payment(toAddress, amountSats));
    psbt.AddOutput(OpReturn(memo, 0));
    if change > DustThreshold {
      psbt.AddOutput(Payment(fromAddress, change));
    }
    return Ok(psbt);
  }
}
