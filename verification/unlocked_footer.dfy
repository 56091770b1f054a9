/**
 * The unlocked footer: its QR scan handler, which also accepts a JSON login
 * challenge, and the login handler. `JSON.parse` is the `parse` parameter
 * (`None` when it throws); the chain of key loading, signing and the POST to the
 * authentication endpoint is the `respond` parameter, reduced to how it ended.
 */
module UnlockedFooter {
  import opened Wrappers
  import opened JsStrings
  import opened OrderedMaps
  import opened AppContext
  import opened ScanPayload

  /** The fields of the parsed login challenge that the handler passes on. */
  datatype LoginPayload = LoginPayload(id: Option<string>, token: Option<string>)

  /** How the external login chain ended: one of its three steps threw, or the server answered. */
  datatype LoginOutcome = KeyLoadFailed | SigningFailed | PostFailed | Answered(bodyTruthy: bool)

  datatype LoginVerdict = LoggedIn | LoginFailed | NoAnswer

  const LOGIN_SUCCEEDED := "Logged in successfully!"
  const LOGIN_FAILED := "Login using wallet failed!"

  /**
   * Only a truthy response body logs in; every thrown step is the one failure; a
   * falsy body is neither (nothing is shown).
   */
  function Verdict(outcome: LoginOutcome): (v: LoginVerdict)
    ensures v == LoggedIn <==> outcome == Answered(true)
    ensures v == LoginFailed <==> !outcome.Answered?
    ensures v == NoAnswer <==> outcome == Answered(false)
  {
    match outcome
    case Answered(truthy) => if truthy then LoggedIn else NoAnswer
    case _ => LoginFailed
  }

  /** The dialog each verdict shows. */
  function LoginEffects(v: LoginVerdict): seq<Effect>
  {
    match v
    case LoggedIn => [Alert(SuccessIcon, LOGIN_SUCCEEDED)]
    case LoginFailed => [Alert(ErrorIcon, LOGIN_FAILED)]
    case NoAnswer => []
  }

  /** The three ways the chain can throw are indistinguishable to the user. */
  lemma FailuresAreOne(a: LoginOutcome, b: LoginOutcome)
    requires !a.Answered? && !b.Answered?
    ensures LoginEffects(Verdict(a)) == LoginEffects(Verdict(b)) == [Alert(ErrorIcon, LOGIN_FAILED)]
  {
  }

  /** Empty or absent data does nothing. */
  lemma FalsyScanIgnored(data: Option<string>, parse: string -> Option<Json>)
    requires IsFalsy(data)
    ensures ClassifyFooterScan(data, parse) == Ignored
  {
  }

  /** A JSON object whose `action` is `login` goes to the login handler with its `id` and `token`. */
  lemma LoginChallengeRecognised(data: string, parse: string -> Option<Json>, id: Option<string>, token: Option<string>)
    requires data != "" && parse(data) == Some(Object(Some("login"), id, token))
    ensures ClassifyFooterScan(Some(data), parse) == Login(id, token)
  {
  }

  /** Any other JSON (`null`, a number, an object without `action: "login"`) is silently ignored. */
  lemma OtherJsonIgnored(data: string, parse: string -> Option<Json>)
    requires data != "" && parse(data).Some?
    requires !(parse(data).value.Object? && parse(data).value.action == Some("login"))
    ensures ClassifyFooterScan(Some(data), parse) == Ignored
  {
  }

  /** Text that is not JSON and starts with `0x` is saved as `{address: data}` and opens `/select-token`. */
  lemma HexAddressScanned(data: string, parse: string -> Option<Json>)
    requires !IsJsonString(data, parse) && HasHexPrefix(data)
    ensures ClassifyFooterScan(Some(data), parse) == AddressOnly(data)
    ensures ReactionTo(ClassifyFooterScan(Some(data), parse))
         == Reaction(Some(AddressObject(data)), None, true, [Navigate(SELECT_TOKEN_ROUTE)])
  {
  }

  /**
   * Other non-JSON text: a segment without a colon writes nothing to the context
   * and shows the invalid-address error; otherwise the descriptor and the first
   * segment's trimmed key as the token name are saved and `/transfer` opens.
   */
  lemma KeyValueScanned(data: string, parse: string -> Option<Json>)
    requires data != "" && !IsJsonString(data, parse) && !HasHexPrefix(data)
    ensures var segments := Split(data, ',');
      var reaction := ReactionTo(ClassifyFooterScan(Some(data), parse));
      && ((exists i :: 0 <= i < |segments| && ':' !in segments[i]) ==>
            reaction == Reaction(None, None, true, [Alert(ErrorIcon, INVALID_SCAN)]))
      && ((forall i :: 0 <= i < |segments| ==> ':' in segments[i]) ==>
            && reaction.scannedAddress.Some?
            && reaction.sendingTokenName == Some(Trim(SegmentKey(segments[0])))
            && (var entries := reaction.scannedAddress.value.entries;
                Trim(SegmentKey(segments[0])) in entries && ADDRESS_KEY in entries && entries[ADDRESS_KEY] == entries[Trim(SegmentKey(segments[0]))])
            && reaction.togglesModal && reaction.effects == [Navigate(TRANSFER_ROUTE)])
  {
    FooterScanKeyValue(data, parse);
    var outcome := ClassifyFooterScan(Some(data), parse);
    if outcome.TokenDescriptor? {
      assert ReactionTo(outcome)
          == Reaction(Some(outcome.descriptor), Some(outcome.tokenName), true, [Navigate(TRANSFER_ROUTE)]);
    }
  }

  /** The footer component. */
  class Footer {
    const ctx: SessionContext
    var scanModal: bool
    var effects: seq<Effect>

    constructor (ctx: SessionContext)
      ensures this.ctx == ctx && !scanModal && effects == []
    {
      this.ctx := ctx;
      scanModal := false;
      effects := [];
    }

    method HandleScanModalToggle()
      modifies this`scanModal
      ensures scanModal == !old(scanModal)
    {
      scanModal := !scanModal;
    }

    /** `handleQRLogin`: closes the modal and reports success only on a truthy answer. */
    method HandleQRLogin(payload: LoginPayload, respond: LoginPayload -> LoginOutcome)
      modifies this`scanModal, this`effects
      ensures scanModal == (old(scanModal) != (Verdict(respond(payload)) == LoggedIn))
      ensures effects == old(effects) + LoginEffects(Verdict(respond(payload)))
    {
      var outcome := respond(payload);
      match outcome {
        case Answered(truthy) =>
          if truthy {
            HandleScanModalToggle();
            effects := effects + [Alert(SuccessIcon, LOGIN_SUCCEEDED)];
          }
        case _ =>
          effects := effects + [Alert(ErrorIcon, LOGIN_FAILED)];
      }
    }

    /** `saveTokenNameToCtx`: both branches save the name itself. */
    method SaveTokenNameToCtx(tokenName: string)
      modifies ctx`sendingTokenName
      ensures ctx.sendingTokenName == Some(tokenName)
    {
      if tokenName == "ethereum" {
        ctx.SaveSendingTokenName("ethereum");
      } else {
        ctx.SaveSendingTokenName(tokenName);
      }
    }

    /** `handlScanSuccess`: logs in, or reacts to the scan exactly as its classification says. */
    method HandlScanSuccess(data: Option<string>, parse: string -> Option<Json>,
                            respond: LoginPayload -> LoginOutcome)
      modifies this`scanModal, this`effects, ctx
      ensures var outcome := ClassifyFooterScan(data, parse);
        outcome.Login? ==>
          && ctx.scannedAddress == old(ctx.scannedAddress)
          && ctx.sendingTokenName == old(ctx.sendingTokenName)
          && var v := Verdict(respond(LoginPayload(outcome.id, outcome.token)));
             scanModal == (old(scanModal) != (v == LoggedIn)) && effects == old(effects) + LoginEffects(v)
      ensures var outcome := ClassifyFooterScan(data, parse);
        var reaction := ReactionTo(outcome);
        !outcome.Login? ==>
          && ctx.scannedAddress == (if reaction.scannedAddress.Some? then reaction.scannedAddress else old(ctx.scannedAddress))
          && ctx.sendingTokenName == (if reaction.sendingTokenName.Some? then reaction.sendingTokenName else old(ctx.sendingTokenName))
          && scanModal == (old(scanModal) != reaction.togglesModal)
          && effects == old(effects) + reaction.effects
    {
      if data.None? || data.value == "" {
        return;
      }
      var text := data.value;
      var isJsonStr := parse(text).Some?;
      if isJsonStr {
        var loginPayload := parse(text).value;
        if loginPayload.Object? && loginPayload.action == Some("login") {
          HandleQRLogin(LoginPayload(loginPayload.id, loginPayload.token), respond);
        }
        return;
      }
      if |text| >= 2 && text[..2] == "0x" {
        ctx.SaveScannedAddress(AddressObject(text));
        HandleScanModalToggle();
        effects := effects + [Navigate(SELECT_TOKEN_ROUTE)];
        return;
      }
      var properties := Split(text, ',');
      var collected := CollectProperties(properties, true);
      if collected.None? {
        // the `catch` branch
        HandleScanModalToggle();
        effects := effects + [Alert(ErrorIcon, INVALID_SCAN)];
        return;
      }
      var obj := collected.value;
      var tokenName := obj.keys[0];
      obj := obj.Set(ADDRESS_KEY, obj.entries[tokenName]);
      SaveTokenNameToCtx(tokenName);
      ctx.SaveScannedAddress(obj);
      HandleScanModalToggle();
      effects := effects + [Navigate(TRANSFER_ROUTE)];
    }
  }
}
