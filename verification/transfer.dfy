/**
 * The transfer screen: its QR scan handler and its send pipeline
 * (`handleSendClick` -> `confirmAndSend` -> `send` -> `sendEther` / `sendERCToken`
 * -> `resetFormStates`). The component's state hooks are the fields of
 * `TransferScreen`; dialogs, navigation and the start of a transfer strategy are
 * appended to `effects`. The user's answers, the address validator and how a
 * strategy settles are parameters.
 */
module Transfer {
  import opened Wrappers
  import opened JsStrings
  import opened OrderedMaps
  import opened AppContext
  import opened ScanPayload

  /** The stored asset the screen was opened for; `address == "default"` marks the native coin. */
  datatype TokenDetails = TokenDetails(address: string, tokenType: string, name: string, balance: string)

  /** Which transfer strategy a send uses. */
  datatype AssetKind = Native | Token(contract: string, tokenType: string)

  /** The routing rule: only the sentinel address `default` selects the native strategy. */
  function KindOf(details: TokenDetails): (kind: AssetKind)
    ensures kind.Native? <==> details.address == "default"
    ensures kind.Token? ==> kind.contract == details.address && kind.tokenType == details.tokenType
  {
    if details.address == "default" then Native else Token(details.address, details.tokenType)
  }

  /** A native transaction's receipt. */
  datatype Receipt = Receipt(hash: string, nonce: int)

  /** How the external strategy call settled: it resolved, or it threw with a message. */
  datatype StrategyOutcome = Resolved(receipt: Receipt) | Threw(message: string)

  /** The `data` object handed down the pipeline. */
  datatype SendData = SendData(sendAmount: string, sendToAddress: string)

  /** The form's state hooks. */
  datatype Form = Form(sendAmount: string, sendToAddress: string, sendingToken: string, loadingModal: bool)

  /** The state `resetFormStates` leaves. */
  const CLEARED_FORM := Form("", "", "", false)

  const MISSING_FIELDS := "Send amount and receiver address is required"
  const INVALID_DESTINATION := "Destination address is invalid"

  /** The strategy-start effects in a list of effects. */
  function Starts(effects: seq<Effect>): (r: seq<Effect>)
    ensures forall e :: e in r <==> e in effects && (e.NativeTransfer? || e.TokenTransfer?)
  {
    if effects == [] then []
    else
      var last := effects[|effects| - 1];
      Starts(effects[..|effects| - 1]) + (if last.NativeTransfer? || last.TokenTransfer? then [last] else [])
  }

  lemma {:induction false} StartsAppend(a: seq<Effect>, b: seq<Effect>)
    ensures Starts(a + b) == Starts(a) + Starts(b)
    decreases |b|
  {
    if b == [] {
      assert a + b == a;
    } else {
      var n := |b| - 1;
      assert (a + b)[..|a + b| - 1] == a + b[..n];
      assert (a + b)[|a + b| - 1] == b[n];
      StartsAppend(a, b[..n]);
    }
  }

  /** What a strategy does once started: the success notice (then `/assets` when acknowledged) or the error. */
  function StrategyEffects(kind: AssetKind, data: SendData, form: Form, outcome: StrategyOutcome, acknowledged: bool): seq<Effect>
  {
    var start :=
      if kind.Native? then NativeTransfer(data.sendToAddress, data.sendAmount)
      else TokenTransfer(kind.contract, kind.tokenType, form.sendToAddress, form.sendAmount);
    var notice :=
      match outcome
      case Threw(message) => Alert(ErrorIcon, message)
      case Resolved(receipt) =>
        if kind.Native? then NativeSentNotice(data.sendAmount, data.sendToAddress, receipt.hash, receipt.nonce + 1)
        else TokenSentNotice(form.sendAmount, form.sendingToken, form.sendToAddress);
    [start, notice] + (if outcome.Resolved? && acknowledged then [Navigate(ASSETS_ROUTE)] else [])
  }

  /** A list holding no strategy start has no starts. */
  lemma NoStarts(effects: seq<Effect>)
    requires forall i :: 0 <= i < |effects| ==> !effects[i].NativeTransfer? && !effects[i].TokenTransfer?
    ensures Starts(effects) == []
  {
  }

  /** A strategy's effects hold exactly one start: its own. */
  lemma StrategyStartsOnce(kind: AssetKind, data: SendData, form: Form, outcome: StrategyOutcome, acknowledged: bool)
    ensures var effs := StrategyEffects(kind, data, form, outcome, acknowledged);
      Starts(effs) == [effs[0]]
  {
    var effs := StrategyEffects(kind, data, form, outcome, acknowledged);
    StartsAppend([effs[0]], effs[1..]);
    assert effs == [effs[0]] + effs[1..];
    NoStarts(effs[1..]);
    NoStarts([]);
    assert [effs[0]][..0] == [];
  }

  /** One press of "Send Now": the form afterwards and the effects produced. */
  datatype Step = Step(form: Form, effects: seq<Effect>)

  /**
   * The send pipeline as one step. A strategy starts exactly when both fields
   * are filled, the user confirms and the destination is an address; then it is
   * the one the routing rule picks, for the form's destination and amount, and
   * the form ends cleared. Otherwise nothing starts and the form is untouched.
   */
  function SendClick(form: Form, details: TokenDetails, confirmed: bool, isAddress: string -> bool,
                     outcome: StrategyOutcome, acknowledged: bool): (r: Step)
    ensures var go := form.sendAmount != "" && form.sendToAddress != "" && confirmed && isAddress(form.sendToAddress);
      && (go ==> Starts(r.effects) == [if KindOf(details).Native?
                                        then NativeTransfer(form.sendToAddress, form.sendAmount)
                                        else TokenTransfer(details.address, details.tokenType, form.sendToAddress, form.sendAmount)])
      && (go ==> r.form == CLEARED_FORM)
      && (!go ==> Starts(r.effects) == [] && r.form == form)
  {
    if form.sendAmount == "" || form.sendToAddress == "" then
      NoStarts([Alert(ErrorIcon, MISSING_FIELDS)]);
      Step(form, [Alert(ErrorIcon, MISSING_FIELDS)])
    else
      var ask := AskSendConfirmation(form.sendAmount, form.sendingToken, form.sendToAddress);
      if !confirmed then
        NoStarts([ask]);
        Step(form, [ask])
      else if !isAddress(form.sendToAddress) then
        NoStarts([ask, Alert(ErrorIcon, INVALID_DESTINATION)]);
        Step(form, [ask, Alert(ErrorIcon, INVALID_DESTINATION)])
      else
        var data := SendData(form.sendAmount, form.sendToAddress);
        var effs := StrategyEffects(KindOf(details), data, form, outcome, acknowledged);
        StartsAppend([ask], effs);
        StrategyStartsOnce(KindOf(details), data, form, outcome, acknowledged);
        NoStarts([ask]);
        Step(CLEARED_FORM, [ask] + effs)
  }

  /** Whether an effect names a token, and that name is not the empty one. */
  predicate NamesToken(e: Effect)
  {
    (e.AskSendConfirmation? || e.TokenSentNotice?) && e.token != ""
  }

  /**
   * With no token name on the form, no confirmation and no token notice of a
   * press names a token: the screen never sets one, so they all show "".
   */
  lemma {:induction false} TokenNeverNamed(form: Form, details: TokenDetails, confirmed: bool, isAddress: string -> bool,
                                           outcome: StrategyOutcome, acknowledged: bool)
    requires form.sendingToken == ""
    ensures var effs := SendClick(form, details, confirmed, isAddress, outcome, acknowledged).effects;
      forall i :: 0 <= i < |effs| ==> !NamesToken(effs[i])
  {
    if form.sendAmount != "" && form.sendToAddress != "" && confirmed && isAddress(form.sendToAddress) {
      var ask := AskSendConfirmation(form.sendAmount, form.sendingToken, form.sendToAddress);
      var effs := StrategyEffects(KindOf(details), SendData(form.sendAmount, form.sendToAddress), form, outcome, acknowledged);
      assert SendClick(form, details, confirmed, isAddress, outcome, acknowledged).effects == [ask] + effs;
    }
  }

  /** Validation comes first: a missing amount or destination shows one error and asks nothing. */
  lemma MissingFieldsFirst(form: Form, details: TokenDetails, confirmed: bool, isAddress: string -> bool,
                           outcome: StrategyOutcome, acknowledged: bool)
    requires form.sendAmount == "" || form.sendToAddress == ""
    ensures SendClick(form, details, confirmed, isAddress, outcome, acknowledged)
         == Step(form, [Alert(ErrorIcon, MISSING_FIELDS)])
  {
  }

  /** Declining the confirmation changes nothing and shows no error. */
  lemma DeclineChangesNothing(form: Form, details: TokenDetails, isAddress: string -> bool,
                              outcome: StrategyOutcome, acknowledged: bool)
    requires form.sendAmount != "" && form.sendToAddress != ""
    ensures SendClick(form, details, false, isAddress, outcome, acknowledged)
         == Step(form, [AskSendConfirmation(form.sendAmount, form.sendingToken, form.sendToAddress)])
  {
  }

  /** The address is checked only after confirmation; a bad one shows its error and leaves the loading flag unset. */
  lemma InvalidAddressAfterConfirmation(form: Form, details: TokenDetails, isAddress: string -> bool,
                                        outcome: StrategyOutcome, acknowledged: bool)
    requires form.sendAmount != "" && form.sendToAddress != "" && !isAddress(form.sendToAddress)
    ensures SendClick(form, details, true, isAddress, outcome, acknowledged)
         == Step(form, [AskSendConfirmation(form.sendAmount, form.sendingToken, form.sendToAddress),
                        Alert(ErrorIcon, INVALID_DESTINATION)])
  {
  }

  /** Text starting with `0x` is saved as `{address: data}` and opens `/select-token`; no key:value parsing happens. */
  lemma HexAddressScanned(data: string)
    requires HasHexPrefix(data)
    ensures ClassifyTransferScan(Some(data)) == AddressOnly(data)
    ensures ReactionTo(ClassifyTransferScan(Some(data)))
         == Reaction(Some(AddressObject(data)), None, true, [Navigate(SELECT_TOKEN_ROUTE)])
  {
  }

  /**
   * Other non-empty text: a segment without a colon writes nothing to the context
   * and shows the invalid-address error; otherwise the descriptor and the first
   * segment's key as the token name are saved and `/transfer` opens.
   */
  lemma KeyValueScanned(data: string)
    requires data != "" && !HasHexPrefix(data)
    ensures var segments := Split(data, ',');
      var reaction := ReactionTo(ClassifyTransferScan(Some(data)));
      && ((exists i :: 0 <= i < |segments| && ':' !in segments[i]) ==>
            reaction == Reaction(None, None, true, [Alert(ErrorIcon, INVALID_SCAN)]))
      && ((forall i :: 0 <= i < |segments| ==> ':' in segments[i]) ==>
            && reaction.scannedAddress.Some?
            && reaction.sendingTokenName == Some(SegmentKey(segments[0]))
            && (var entries := reaction.scannedAddress.value.entries;
                SegmentKey(segments[0]) in entries && ADDRESS_KEY in entries && entries[ADDRESS_KEY] == entries[SegmentKey(segments[0])])
            && reaction.togglesModal && reaction.effects == [Navigate(TRANSFER_ROUTE)])
  {
    TransferScanKeyValue(data);
  }

  /**
   * The transfer screen component. `sendingToken` is only ever set to the empty
   * string (by `resetFormStates`), which `Valid` records.
   */
  class TransferScreen {
    const ctx: SessionContext
    const tokenDetails: TokenDetails
    var sendAmount: string
    var sendToAddress: string
    var sendingToken: string
    var loadingModal: bool
    var scanModal: bool
    var effects: seq<Effect>

    ghost predicate Valid()
      reads this
    {
      sendingToken == ""
    }

    function FormState(): Form
      reads this
    {
      Form(sendAmount, sendToAddress, sendingToken, loadingModal)
    }

    /** The screen once its asset has been loaded. */
    constructor (ctx: SessionContext, tokenDetails: TokenDetails)
      ensures Valid()
      ensures this.ctx == ctx && this.tokenDetails == tokenDetails
      ensures FormState() == CLEARED_FORM && !scanModal && effects == []
    {
      this.ctx := ctx;
      this.tokenDetails := tokenDetails;
      sendAmount, sendToAddress, sendingToken := "", "", "";
      loadingModal, scanModal := false, false;
      effects := [];
    }

    method HandleScanModalToggle()
      modifies this`scanModal
      ensures scanModal == !old(scanModal)
    {
      scanModal := !scanModal;
    }

    method HandleSendToChange(value: string)
      modifies this`sendToAddress
      ensures sendToAddress == value
    {
      sendToAddress := value;
    }

    method HandleSendAmtChange(value: string)
      modifies this`sendAmount
      ensures sendAmount == value
    {
      sendAmount := value;
    }

    /** `saveTokenNameToCtx`: both branches save the name itself. */
    method SaveTokenNameToCtx(tokenName: string)
      modifies ctx`sendingTokenName
      ensures ctx.sendingTokenName == Some(tokenName)
    {
      if tokenName == "ethereum" {
        ctx.SaveSendingTokenName("ethereum");
      } else {
        ctx.SaveSendingTokenName(tokenName);
      }
    }

    /** `handlScanSuccess`: reacts to a scan exactly as its classification says. */
    method HandlScanSuccess(data: Option<string>)
      modifies this`scanModal, this`effects, ctx
      ensures var reaction := ReactionTo(ClassifyTransferScan(data));
        && ctx.scannedAddress == (if reaction.scannedAddress.Some? then reaction.scannedAddress else old(ctx.scannedAddress))
        && ctx.sendingTokenName == (if reaction.sendingTokenName.Some? then reaction.sendingTokenName else old(ctx.sendingTokenName))
        && scanModal == (old(scanModal) != reaction.togglesModal)
        && effects == old(effects) + reaction.effects
    {
      if data.None? || data.value == "" {
        return;
      }
      var text := data.value;
      if |text| >= 2 && text[..2] == "0x" {
        ctx.SaveScannedAddress(AddressObject(text));
        HandleScanModalToggle();
        effects := effects + [Navigate(SELECT_TOKEN_ROUTE)];
        return;
      }
      var properties := Split(text, ',');
      var collected := CollectProperties(properties, false);
      if collected.None? {
        // the `catch` branch
        HandleScanModalToggle();
        effects := effects + [Alert(ErrorIcon, INVALID_SCAN)];
        return;
      }
      var obj := collected.value;
      var tokenName := obj.keys[0];
      obj := obj.Set(ADDRESS_KEY, obj.entries[tokenName]);
      SaveTokenNameToCtx(tokenName);
      ctx.SaveScannedAddress(obj);
      HandleScanModalToggle();
      effects := effects + [Navigate(TRANSFER_ROUTE)];
    }

    /** `resetFormStates`. */
    method ResetFormStates()
      requires Valid()
      modifies this`loadingModal, this`sendAmount, this`sendingToken, this`sendToAddress
      ensures Valid()
      ensures FormState() == CLEARED_FORM
    {
      loadingModal := false;
      sendAmount := "";
      sendingToken := "";
      sendToAddress := "";
    }

    /** `sendSuccess`: clears the form, then shows the receipt; `/assets` follows the user's "Okay". */
    method SendSuccess(data: SendData, receipt: Receipt, acknowledged: bool)
      requires Valid()
      modifies this`loadingModal, this`sendAmount, this`sendingToken, this`sendToAddress, this`effects
      ensures Valid()
      ensures FormState() == CLEARED_FORM
      ensures effects == old(effects)
        + [NativeSentNotice(data.sendAmount, data.sendToAddress, receipt.hash, receipt.nonce + 1)]
        + (if acknowledged then [Navigate(ASSETS_ROUTE)] else [])
    {
      ResetFormStates();
      effects := effects + [NativeSentNotice(data.sendAmount, data.sendToAddress, receipt.hash, receipt.nonce + 1)];
      if acknowledged {
        effects := effects + [Navigate(ASSETS_ROUTE)];
      }
    }

    /** `sendERCSuccess`: shows the amount, token and destination; `/assets` follows the user's "Okay". */
    method SendERCSuccess(amount: string, to: string, acknowledged: bool)
      modifies this`effects
      ensures effects == old(effects) + [TokenSentNotice(amount, sendingToken, to)]
        + (if acknowledged then [Navigate(ASSETS_ROUTE)] else [])
    {
      effects := effects + [TokenSentNotice(amount, sendingToken, to)];
      if acknowledged {
        effects := effects + [Navigate(ASSETS_ROUTE)];
      }
    }

    /** `sendEther`: the native strategy, sending to `data`'s destination; its own `catch` shows the error. */
    method SendEther(data: SendData, outcome: StrategyOutcome, acknowledged: bool)
      requires Valid()
      modifies this`loadingModal, this`sendAmount, this`sendingToken, this`sendToAddress, this`effects
      ensures Valid()
      ensures FormState() == if outcome.Resolved? then CLEARED_FORM else old(FormState())
      ensures effects == old(effects) + StrategyEffects(Native, data, old(FormState()), outcome, acknowledged)
    {
      effects := effects + [NativeTransfer(data.sendToAddress, data.sendAmount)];
      match outcome {
        case Threw(message) =>
          effects := effects + [Alert(ErrorIcon, message)];
        case Resolved(receipt) =>
          SendSuccess(data, receipt, acknowledged);
      }
    }

    /** `sendERCToken`: the token strategy, reading the destination and amount from the form. */
    method SendERCToken(outcome: StrategyOutcome, acknowledged: bool)
      modifies this`effects
      ensures effects == old(effects)
        + StrategyEffects(KindOf(tokenDetails), SendData(sendAmount, sendToAddress), FormState(), outcome, acknowledged)
      requires tokenDetails.address != "default"
    {
      effects := effects + [TokenTransfer(tokenDetails.address, tokenDetails.tokenType, sendToAddress, sendAmount)];
      match outcome {
        case Threw(message) =>
          effects := effects + [Alert(ErrorIcon, message)];
        case Resolved(_) =>
          SendERCSuccess(sendAmount, sendToAddress, acknowledged);
      }
    }

    /**
     * `send`: rejects a destination that is not an address, otherwise raises the
     * loading flag, runs the strategy the routing rule picks and, in `finally`,
     * clears the form.
     */
    method Send(data: SendData, isAddress: string -> bool, outcome: StrategyOutcome, acknowledged: bool)
      requires Valid()
      requires data == SendData(sendAmount, sendToAddress)
      modifies this`loadingModal, this`sendAmount, this`sendingToken, this`sendToAddress, this`effects
      ensures Valid()
      ensures !isAddress(data.sendToAddress) ==>
        FormState() == old(FormState()) && effects == old(effects) + [Alert(ErrorIcon, INVALID_DESTINATION)]
      ensures isAddress(data.sendToAddress) ==>
        && FormState() == CLEARED_FORM
        && effects == old(effects)
             + StrategyEffects(KindOf(tokenDetails), data, old(FormState()), outcome, acknowledged)
    {
      if !isAddress(data.sendToAddress) {
        // thrown and caught by the outer `catch`
        effects := effects + [Alert(ErrorIcon, INVALID_DESTINATION)];
        return;
      }
      loadingModal := true;
      // the 250 ms timer fires
      if tokenDetails.address == "default" {
        SendEther(data, outcome, acknowledged);
      } else {
        SendERCToken(outcome, acknowledged);
      }
      // `finally`
      ResetFormStates();
    }

    /** `confirmAndSend`: asks the user, and sends only on "Yes". */
    method ConfirmAndSend(data: SendData, confirmed: bool, isAddress: string -> bool,
                          outcome: StrategyOutcome, acknowledged: bool)
      requires Valid()
      requires data == SendData(sendAmount, sendToAddress)
      modifies this`loadingModal, this`sendAmount, this`sendingToken, this`sendToAddress, this`effects
      ensures Valid()
      ensures !confirmed ==>
        FormState() == old(FormState())
        && effects == old(effects) + [AskSendConfirmation(data.sendAmount, sendingToken, data.sendToAddress)]
      ensures confirmed && !isAddress(data.sendToAddress) ==>
        FormState() == old(FormState())
        && effects == old(effects) + [AskSendConfirmation(data.sendAmount, old(sendingToken), data.sendToAddress),
                                      Alert(ErrorIcon, INVALID_DESTINATION)]
      ensures confirmed && isAddress(data.sendToAddress) ==>
        && FormState() == CLEARED_FORM
        && effects == old(effects) + [AskSendConfirmation(data.sendAmount, old(sendingToken), data.sendToAddress)]
             + StrategyEffects(KindOf(tokenDetails), data, old(FormState()), outcome, acknowledged)
    {
      effects := effects + [AskSendConfirmation(data.sendAmount, sendingToken, data.sendToAddress)];
      if confirmed {
        Send(data, isAddress, outcome, acknowledged);
      }
    }

    /** `handleSendClick`: one press of "Send Now", exactly as `SendClick` describes it. */
    method HandleSendClick(confirmed: bool, isAddress: string -> bool, outcome: StrategyOutcome, acknowledged: bool)
      requires Valid()
      modifies this`loadingModal, this`sendAmount, this`sendingToken, this`sendToAddress, this`effects
      ensures Valid()
      ensures var step := SendClick(old(FormState()), tokenDetails, confirmed, isAddress, outcome, acknowledged);
        FormState() == step.form && effects == old(effects) + step.effects
      ensures forall i :: |old(effects)| <= i < |effects| ==> !NamesToken(effects[i])
    {
      TokenNeverNamed(FormState(), tokenDetails, confirmed, isAddress, outcome, acknowledged);
      if sendAmount == "" || sendToAddress == "" {
        effects := effects + [Alert(ErrorIcon, MISSING_FIELDS)];
        return;
      }
      ConfirmAndSend(SendData(sendAmount, sendToAddress), confirmed, isAddress, outcome, acknowledged);
    }
  }
}
