/**
 * What the screens share and what they do to the outside world: the session
 * context's two scratch fields, and a log of the observable effects (dialogs,
 * navigation, transfer strategies started) that the screens append to.
 */
module AppContext {
  import opened Wrappers
  import opened OrderedMaps

  /** The dictionary a scan produces: string keys in insertion order. */
  type Dict = OrderedMap<string, string>

  /** The process-wide context; only the two fields the scan handlers write are modelled. */
  class SessionContext {
    var scannedAddress: Option<Dict>
    var sendingTokenName: Option<string>

    constructor ()
      ensures scannedAddress == None && sendingTokenName == None
    {
      scannedAddress := None;
      sendingTokenName := None;
    }

    /** `saveScannedAddress(obj)`. */
    method SaveScannedAddress(obj: Dict)
      modifies this`scannedAddress
      ensures scannedAddress == Some(obj)
    {
      scannedAddress := Some(obj);
    }

    /** `saveSendingTokenName(name)`. */
    method SaveSendingTokenName(name: string)
      modifies this`sendingTokenName
      ensures sendingTokenName == Some(name)
    {
      sendingTokenName := Some(name);
    }
  }

  datatype Icon = ErrorIcon | SuccessIcon

  /** One observable effect, in the order the screen produces them. */
  datatype Effect =
    | Alert(icon: Icon, text: string)                                // a notice dialog
    | Navigate(route: string)                                        // `history.push(route)`
    | AskSendConfirmation(amount: string, token: string, to: string) // the "Are you sure?" dialog
    | NativeSentNotice(amount: string, to: string, hash: string, completed: int)
    | TokenSentNotice(amount: string, token: string, to: string)
    | NativeTransfer(to: string, amount: string)                     // the native strategy is started
    | TokenTransfer(contract: string, tokenType: string, to: string, amount: string) // the token strategy is started

  const SELECT_TOKEN_ROUTE := "/select-token"
  const TRANSFER_ROUTE := "/transfer"
  const ASSETS_ROUTE := "/assets"
}
