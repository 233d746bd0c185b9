/** The swap form's submit button: the label it shows and when it is disabled. */
module SwapForm {
  import opened Wrappers
  import opened Decimal
  import opened Api

  /** `!amount || Number(amount) <= 0`: an empty amount, or one whose number is not
      positive. A non-numeric amount (`NaN`) is NOT caught here, since `NaN <= 0` is false. */
  predicate AmountUnusable(amount: string)
  {
    amount == "" || IsNonPositiveNumber(amount)
  }

  /** `getButtonText`: the first matching case of the if-chain. */
  function ButtonText(fromMeta: Option<Token>, toMeta: Option<Token>, amount: string, isLoading: bool,
                      error: Option<string>, previewQuote: Option<QuoteRoute>, needsApproval: bool): string
  {
    if fromMeta.None? || toMeta.None? then ""
    else if AmountUnusable(amount) then "Enter Amount"
    else if isLoading then "Quoting..."
    else if Truthy(error) || previewQuote.None? then "No Valid Quotes"
    else if needsApproval && Truthy(fromMeta.value.address) then "Approve " + fromMeta.value.ticker
    else "Next"
  }

  /** `isDisabled`. */
  predicate IsDisabled(amount: string, isLoading: bool, error: Option<string>, previewQuote: Option<QuoteRoute>)
  {
    AmountUnusable(amount) || isLoading || Truthy(error) || previewQuote.None?
  }

  /** Each label, with exactly the inputs that produce it: the checks run in the order
      token metadata, amount, loading, error or missing quote, approval. */
  lemma ButtonTextCases(fromMeta: Option<Token>, toMeta: Option<Token>, amount: string, isLoading: bool,
                        error: Option<string>, previewQuote: Option<QuoteRoute>, needsApproval: bool)
    ensures var t := ButtonText(fromMeta, toMeta, amount, isLoading, error, previewQuote, needsApproval);
      var metas := fromMeta.Some? && toMeta.Some?;
      (t == "" <==> !metas) &&
      (t == "Enter Amount" <==> metas && AmountUnusable(amount)) &&
      (t == "Quoting..." <==> metas && !AmountUnusable(amount) && isLoading) &&
      (t == "No Valid Quotes" <==> metas && !AmountUnusable(amount) && !isLoading && (Truthy(error) || previewQuote.None?)) &&
      (t == "Next" <==> metas && !IsDisabled(amount, isLoading, error, previewQuote) &&
                        !(needsApproval && Truthy(fromMeta.value.address))) &&
      (metas && !IsDisabled(amount, isLoading, error, previewQuote) && needsApproval && Truthy(fromMeta.value.address) ==>
         t == "Approve " + fromMeta.value.ticker)
  {
    var t := ButtonText(fromMeta, toMeta, amount, isLoading, error, previewQuote, needsApproval);
    if fromMeta.Some? && toMeta.Some? && !IsDisabled(amount, isLoading, error, previewQuote) &&
       needsApproval && Truthy(fromMeta.value.address) {
      ApproveLabelIsDistinct(fromMeta.value.ticker);
    }
  }

  /** An approval label never coincides with one of the fixed labels. */
  lemma ApproveLabelIsDistinct(ticker: string)
    ensures var t := "Approve " + ticker;
      t != "" && t != "Enter Amount" && t != "Quoting..." && t != "No Valid Quotes" && t != "Next"
  {
    var t := "Approve " + ticker;
    assert t[0] == 'A';
    assert |t| >= 8;
  }

  /** Once both tokens are known, the button is enabled exactly when it offers to go on
      ("Next" or "Approve …") and disabled exactly when it explains why not. */
  lemma LabelMatchesDisabled(fromMeta: Option<Token>, toMeta: Option<Token>, amount: string, isLoading: bool,
                             error: Option<string>, previewQuote: Option<QuoteRoute>, needsApproval: bool)
    requires fromMeta.Some? && toMeta.Some?
    ensures var t := ButtonText(fromMeta, toMeta, amount, isLoading, error, previewQuote, needsApproval);
      (!IsDisabled(amount, isLoading, error, previewQuote) <==>
         t == "Next" || t == "Approve " + fromMeta.value.ticker) &&
      (IsDisabled(amount, isLoading, error, previewQuote) <==>
         t == "Enter Amount" || t == "Quoting..." || t == "No Valid Quotes")
  {
    ButtonTextCases(fromMeta, toMeta, amount, isLoading, error, previewQuote, needsApproval);
    ApproveLabelIsDistinct(fromMeta.value.ticker);
  }

  /** A non-numeric amount passes the amount check: the label moves on to the quote state
      and the button can be enabled. */
  lemma NonNumericAmountPasses(amount: string)
    requires amount != "" && JsNumber(amount).None?
    ensures !AmountUnusable(amount)
  {
  }
}
