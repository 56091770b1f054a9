# Wallet web: QR scan handling, the send form and the array helpers

This project models three parts of the wallet's browser front end. For each it proves what the code promises.

- **The QR scan handlers.** One is on the transfer screen (`src/modules/transfer/index.js`), one in the unlocked footer (`src/modules/layouts/UnlockedFooter.js`). Each turns the scanned text into exactly one outcome, `ScanPayload.ScanOutcome`:
  - `Ignored`: falsy data, or JSON that is not a login challenge;
  - `Login`: footer only;
  - `AddressOnly`: text starting with `0x`;
  - `TokenDescriptor`: a `key:value,key:value` list folded into an object;
  - `Invalid`: a segment without a colon makes `tup[1].trim()` throw.

  `ScanPayload.ReactionTo` maps each outcome to its fixed context writes, modal toggle, dialog and route. Both screens' `HandlScanSuccess` methods are proved to react exactly that way. Their `forEach` loop is the method `ScanPayload.CollectProperties`, proved against the pure fold `ParseProperties`.
- **The send form** of the transfer screen. The class `Transfer.TransferScreen` holds the form's state hooks: `sendAmount`, `sendToAddress`, `sendingToken` and `loadingModal`. The pipeline `handleSendClick` → `confirmAndSend` → `send` → `sendEther` / `sendERCToken` → `resetFormStates` updates those fields. Each method appends the dialogs, routes and transfer starts it causes to an `effects` log. The whole pipeline is specified by the function `Transfer.SendClick`.
- **The array helpers** in `src/utils/index.js`:
  - `mergeAndRemoveDuplicate` is modelled with an insertion-ordered map (`OrderedMaps.OrderedMap`), which stands for JavaScript's `Map` and plain-object key order;
  - `arraysAreEqual` compares the arrays' `join('')`.

Several outside services become parameters:
- `JSON.parse` is `parse: string -> Option<Json>`.
- `ethers.utils.isAddress` is `isAddress: string -> bool`.
- How a transfer strategy settles is a `StrategyOutcome`.
- The login chain (key load, signing, POST) is `respond: LoginPayload -> LoginOutcome`.
- The user's answers to dialogs are booleans.

JavaScript's `split`, `join` and `trim` are written out in the `JsStrings` module. `trim` removes ECMAScript white space and line terminators.

Four behaviours of the code that the model keeps as written:
- A login response with a falsy body shows nothing: no success notice and no error (`src/modules/layouts/UnlockedFooter.js:31-36`).
- Scanned JSON that is not a login challenge is ignored without a message (`src/modules/layouts/UnlockedFooter.js:57-59`).
- A segment is split at every colon. Only the piece between the first and the second colon becomes the value, so `a:b:c` gives `b` (`src/modules/transfer/index.js:49-50`).
- `sendingToken` starts as `''` and only `resetFormStates` sets it, again to `''` (`src/modules/transfer/index.js:29, 81`). The only other setter calls are inside commented-out code. `TransferScreen.Valid` records this, and `Transfer.TokenNeverNamed` shows that the confirmation dialog and the token success notice then name no token.

## Model

| member | source | states |
|---|---|---|
| JsStrings.Split | src/modules/transfer/index.js:46-49 | `split` with a one-character separator gives at least one piece, and no piece holds the separator. Text without the separator splits into itself; text with it splits into at least two pieces. |
| JsStrings.IndexOf | src/modules/transfer/index.js:49-50 | The position of the first occurrence of a character, or the length when there is none: the prefix before it holds no such character, and it is in range exactly when the character occurs. |
| JsStrings.JoinWith | src/utils/index.js:42 | `join` has no contract of its own. `JoinSplit` and `SplitJoin` relate it to `split` both ways, and `JoinEmptyAppend` states how `join('')` distributes over appending arrays. |
| JsStrings.JoinSplit | src/modules/transfer/index.js:46 | Joining the pieces of a split with the same separator gives back the original text. |
| JsStrings.SplitJoin | src/modules/transfer/index.js:46 | Splitting a join of separator-free pieces gives back the pieces. |
| JsStrings.SplitFirst | src/modules/transfer/index.js:49-50 | The first piece of a split is the text before the first separator. The remaining pieces are the split of the text after it. |
| JsStrings.SplitConcat | src/modules/transfer/index.js:49 | When `a` has no separator, splitting `a`, a separator and `b` gives `a` followed by the split of `b`. |
| JsStrings.TrimStartShape | src/modules/transfer/index.js:50 | The leading-whitespace pass keeps a suffix, drops only white space, and leaves no leading white space. |
| JsStrings.TrimEndShape | src/modules/transfer/index.js:50 | The trailing-whitespace pass keeps a prefix, drops only white space, and leaves no trailing white space. |
| JsStrings.TrimShape | src/modules/transfer/index.js:50 | `trim` returns the slice of its input between the leading and the trailing white space, and the result neither starts nor ends with white space. |
| JsStrings.TrimIdempotent | src/modules/layouts/UnlockedFooter.js:73-74 | Trimming a trimmed string changes nothing. |
| JsStrings.TrimUntouched | src/modules/transfer/index.js:50 | A string with no white space at either end is its own trim. |
| JsStrings.TrimStart | src/modules/transfer/index.js:50 | No contract of its own; `TrimStartShape` states its properties. |
| JsStrings.TrimEnd | src/modules/transfer/index.js:50 | No contract of its own; `TrimEndShape` states its properties. |
| JsStrings.Trim | src/modules/transfer/index.js:50 | No contract of its own; `TrimShape`, `TrimIdempotent` and `TrimUntouched` state its properties. |
| OrderedMaps.OrderedMap.Set | src/modules/transfer/index.js:50-53 | Assigning a key keeps the map well formed and updates its value. An existing key keeps its position; a new key goes last. |
| OrderedMaps.OrderedMap.Values | src/utils/index.js:16 | The values come in key order, one per key. |
| OrderedMaps.FromEntries | src/utils/index.js:16 | Building the map from entries gives a well-formed map holding exactly the entries' keys, whose first key is the first entry's key. |
| OrderedMaps.FromEntriesLastWins | src/utils/index.js:16 | A key's value is the value of its last entry. |
| OrderedMaps.FromEntriesKeyOrder | src/modules/transfer/index.js:48-52 | Key order is first-occurrence order. `FirstOccurrences` defines that order independently. |
| AppContext.SessionContext.SaveScannedAddress | src/modules/transfer/index.js:41 | `saveScannedAddress` stores the object it is given. |
| AppContext.SessionContext.SaveSendingTokenName | src/modules/transfer/index.js:66-67 | `saveSendingTokenName` stores the name it is given. |
| ScanPayload.AddressObject | src/modules/transfer/index.js:41 | The saved object for an address scan has the single key `address`, holding the scanned text verbatim. |
| ScanPayload.IsFalsy | src/modules/transfer/index.js:37 | No contract: a predicate, true of absent data and of the empty string. `ClassifyTransferScan` and `UnlockedFooter.FalsyScanIgnored` state what follows from it. |
| ScanPayload.HasHexPrefix | src/modules/transfer/index.js:39-40 | No contract: a predicate, true when the text begins with `0x`. `Transfer.HexAddressScanned` and `UnlockedFooter.HexAddressScanned` state what follows from it. |
| ScanPayload.IsJsonString | src/modules/layouts/UnlockedFooter.js:44-51 | No contract: a predicate, true when the parse succeeds. `ClassifyFooterScan` states that only such input logs in, and `CopiesAgree` covers the input that fails it. |
| ScanPayload.ParseProperty | src/modules/transfer/index.js:49-50 | A segment fails to parse (the `.trim()` throw) exactly when it has no colon. |
| ScanPayload.ParseProperties | src/modules/transfer/index.js:48-51 | A successful fold yields one pair per segment. |
| ScanPayload.CollectProperties | src/modules/transfer/index.js:46-51 | The `forEach` loop succeeds exactly when the fold does. On success its object is the insertion-ordered map of the fold's pairs. |
| ScanPayload.ParsePropertiesFails | src/modules/transfer/index.js:49-50 | The fold throws exactly when some segment has no colon. |
| ScanPayload.ParsePropertiesAt | src/modules/transfer/index.js:48-51 | On success, pair `i` is the parse of segment `i`. |
| ScanPayload.ParsePropertyShape | src/modules/transfer/index.js:49-50 | A segment parses to the text before its first colon and the trimmed text between its first and second colon. The key is trimmed only in the footer's copy, and anything after a second colon is dropped. |
| ScanPayload.Descriptor | src/modules/transfer/index.js:52-53 | The token name is the first-inserted key. It stays first. `address` is present and holds the token name's value. |
| ScanPayload.ClassifyText | src/modules/transfer/index.js:39-60 | No contract: the part both copies share on non-JSON text. `TransferScanKeyValue`, `FooterScanKeyValue`, `CopiesAgree`, `SinglePairText` and both `HexAddressScanned` lemmas state its properties. |
| ScanPayload.ReactionTo | src/modules/transfer/index.js:40-60 | No contract: one reaction per outcome, with the context writes, modal toggle, dialog and route of the matching branch (also `src/modules/layouts/UnlockedFooter.js:63-86`). Both `HandlScanSuccess` methods are proved to react exactly this way, and both `KeyValueScanned` lemmas state its result per outcome. |
| ScanPayload.ClassifyTransferScan | src/modules/transfer/index.js:36-63 | The transfer screen never logs in, and it ignores a scan exactly when the data is falsy. |
| ScanPayload.ClassifyFooterScan | src/modules/layouts/UnlockedFooter.js:44-90 | The footer logs in only on JSON (`isJsonString`), and JSON input can only log in or be ignored. |
| ScanPayload.TransferScanKeyValue | src/modules/transfer/index.js:46-60 | Non-empty text without `0x` is invalid exactly when some segment has no colon. Otherwise it is a descriptor named by the first segment's untrimmed key. |
| ScanPayload.FooterScanKeyValue | src/modules/layouts/UnlockedFooter.js:69-86 | The same for the footer, with the token name being the first segment's trimmed key. |
| ScanPayload.DescriptorEntries | src/modules/transfer/index.js:48-53 | The saved keys are the scanned keys in first-occurrence order, followed by `address` unless it was scanned. A repeated key keeps its last value. `address` gets the token name's last value, overwriting any scanned `address`. |
| ScanPayload.ParsePropertyTrimsKey | src/modules/layouts/UnlockedFooter.js:72-75 | The footer's parse of a segment is the transfer screen's with the key trimmed. The untrimmed key is the text before the first colon. |
| ScanPayload.FoldsAgree | src/modules/layouts/UnlockedFooter.js:71-76 | When no key has surrounding white space, the two copies of the fold agree. |
| ScanPayload.CopiesAgree | src/modules/layouts/UnlockedFooter.js:60-87 | On non-JSON text whose keys have no surrounding white space, the footer and the transfer screen classify alike. |
| ScanPayload.ExtraColonDropped | src/modules/transfer/index.js:49-50 | `key:value:extra` parses to `key` and `value`, so `bad:pair:extra` keeps `pair`. |
| ScanPayload.SinglePairText | src/modules/transfer/index.js:46-51 | A single `key:value` segment folds to the one pair of key and trimmed value. |
| ScanPayload.SinglePairDescriptor | src/modules/transfer/index.js:52-53 | For one pair whose key is not `address`, the descriptor is that key then `address`, both holding the value. |
| ScanPayload.SinglePairScan | src/modules/layouts/UnlockedFooter.js:69-78 | `ethereum: 0x1111`-style input names the token by its key. The key is untrimmed on the transfer screen and trimmed in the footer. The key and `address` both hold the trimmed value. |
| Transfer.KindOf | src/modules/transfer/index.js:140-141 | The native strategy is chosen exactly when the asset's address is the sentinel `default`. Otherwise the token strategy gets the asset's address and type. |
| Transfer.StrategyEffects | src/modules/transfer/index.js:85-117 | No contract: what a strategy shows once started (also lines 153-173). `StrategyStartsOnce` states that its only transfer start is its first effect, and `TransferScreen.SendEther` and `TransferScreen.SendERCToken` are proved to produce exactly these effects. |
| Transfer.StrategyStartsOnce | src/modules/transfer/index.js:153-173 | A strategy's effects hold exactly one transfer start, its first effect. |
| Transfer.SendClick | src/modules/transfer/index.js:119-180 | A strategy starts exactly when both fields are filled, the user confirms and the destination is an address. It is then the single start, the one the routing rule picks, for the form's amount and destination, and the form ends cleared. Otherwise nothing starts and the form is unchanged. |
| Transfer.MissingFieldsFirst | src/modules/transfer/index.js:176-178 | An empty amount or destination shows only the required-fields error. Nothing is asked and nothing changes. |
| Transfer.DeclineChangesNothing | src/modules/transfer/index.js:129-131 | Declining the confirmation leaves the form as it was and shows only the question. |
| Transfer.InvalidAddressAfterConfirmation | src/modules/transfer/index.js:136-149 | The address is checked only after confirmation. A bad one shows "Destination address is invalid", never sets the loading flag and starts nothing. |
| Transfer.TokenNeverNamed | src/modules/transfer/index.js:81-122 | With no token name on the form, no confirmation dialog and no token success notice of a press names a token. |
| Transfer.HexAddressScanned | src/modules/transfer/index.js:39-44 | Text starting with `0x` is saved as `{address: data}`, toggles the modal and opens `/select-token`, without key:value parsing. |
| Transfer.KeyValueScanned | src/modules/transfer/index.js:46-60 | A colon-less segment shows the invalid-address error with no context write. Otherwise the first key is saved as the token name and holds the same value as `address`, and `/transfer` opens. |
| Transfer.TransferScreen.constructor | src/modules/transfer/index.js:23-29 | The form starts empty with the modals closed. |
| Transfer.TransferScreen.HandleScanModalToggle | src/modules/transfer/index.js:31 | Toggles the scan modal. |
| Transfer.TransferScreen.HandleSendToChange | src/modules/transfer/index.js:70-72 | Stores the typed destination. |
| Transfer.TransferScreen.HandleSendAmtChange | src/modules/transfer/index.js:74-76 | Stores the typed amount. |
| Transfer.TransferScreen.SaveTokenNameToCtx | src/modules/transfer/index.js:65-68 | Both branches save the token name itself. |
| Transfer.TransferScreen.HandlScanSuccess | src/modules/transfer/index.js:36-63 | The context writes, modal toggle and effects are exactly those of `ReactionTo` of the scan's classification. Nothing else in the context changes. |
| Transfer.TransferScreen.ResetFormStates | src/modules/transfer/index.js:78-83 | Leaves the cleared form. |
| Transfer.TransferScreen.SendSuccess | src/modules/transfer/index.js:100-117 | Clears the form and shows the receipt's hash with `nonce + 1` completed transactions. `/assets` opens only after the user's "Okay". |
| Transfer.TransferScreen.SendERCSuccess | src/modules/transfer/index.js:85-98 | Shows the amount, the (empty) token symbol and the destination. `/assets` opens only after "Okay". |
| Transfer.TransferScreen.SendEther | src/modules/transfer/index.js:163-173 | Starts the native transfer to `data`'s destination. On success the form is cleared and the notice shown; a throw shows its message and changes no field. |
| Transfer.TransferScreen.SendERCToken | src/modules/transfer/index.js:153-161 | Starts the token transfer with the form's destination and amount. It then shows the token notice or the thrown message. |
| Transfer.TransferScreen.Send | src/modules/transfer/index.js:134-151 | A non-address destination shows its error and changes no field. Otherwise the strategy the routing rule picks runs and the form ends cleared. The native success path resets twice, and the final state is the same cleared form. |
| Transfer.TransferScreen.ConfirmAndSend | src/modules/transfer/index.js:119-132 | Asks first. On "No" nothing else happens; on "Yes" it behaves as `send`. |
| Transfer.TransferScreen.HandleSendClick | src/modules/transfer/index.js:175-180 | The new form state and the appended effects are exactly those of `SendClick`. No appended confirmation or token notice names a token. |
| UnlockedFooter.Verdict | src/modules/layouts/UnlockedFooter.js:31-36 | Only a truthy response body logs in. Any thrown step is the login failure. A falsy body is neither. |
| UnlockedFooter.LoginEffects | src/modules/layouts/UnlockedFooter.js:33-36 | No contract: the success notice, the failure error or nothing, one per verdict. `FailuresAreOne` and `Footer.HandleQRLogin` state its use. |
| UnlockedFooter.FailuresAreOne | src/modules/layouts/UnlockedFooter.js:35-37 | Key-load, signing and POST failures all show the same "Login using wallet failed!" error. |
| UnlockedFooter.FalsyScanIgnored | src/modules/layouts/UnlockedFooter.js:55 | Empty or absent data does nothing. |
| UnlockedFooter.LoginChallengeRecognised | src/modules/layouts/UnlockedFooter.js:56-59 | JSON whose `action` is `login` goes to the login handler with its `id` and `token`. |
| UnlockedFooter.OtherJsonIgnored | src/modules/layouts/UnlockedFooter.js:57-59 | Any other JSON is ignored. |
| UnlockedFooter.HexAddressScanned | src/modules/layouts/UnlockedFooter.js:60-68 | Non-JSON text starting with `0x` is saved as `{address: data}` and opens `/select-token`. |
| UnlockedFooter.KeyValueScanned | src/modules/layouts/UnlockedFooter.js:69-87 | A colon-less segment shows the invalid-address error with no context write. Otherwise the first trimmed key is saved as the token name and holds the same value as `address`, and `/transfer` opens. |
| UnlockedFooter.Footer.constructor | src/modules/layouts/UnlockedFooter.js:18 | The scan modal starts closed. |
| UnlockedFooter.Footer.HandleScanModalToggle | src/modules/layouts/UnlockedFooter.js:20 | Toggles the scan modal. |
| UnlockedFooter.Footer.HandleQRLogin | src/modules/layouts/UnlockedFooter.js:22-38 | Closes the modal and shows success only on a truthy answer. Shows the failure on any throw. Shows nothing on a falsy answer. |
| UnlockedFooter.Footer.SaveTokenNameToCtx | src/modules/layouts/UnlockedFooter.js:92-95 | Both branches save the token name itself. |
| UnlockedFooter.Footer.HandlScanSuccess | src/modules/layouts/UnlockedFooter.js:53-90 | A login outcome runs the login handler and writes no context. Every other outcome's context writes, modal toggle and effects are exactly those of `ReactionTo`. |
| Utils.Keyed | src/utils/index.js:16 | Pairs each item with its key, position by position. |
| Utils.MergeAndRemoveDuplicate | src/utils/index.js:13-17 | No contract of its own. `MergeShape`, `MergeKeepsLast`, `MergeCoversKeys` and `MergeOfNothing` state its properties. |
| Utils.MergeShape | src/utils/index.js:14-16 | The merge holds one item per key, in first-occurrence order of the keys in `array1` then `array2`. Each kept item is the last input item with its key. |
| Utils.MergeKeepsLast | src/utils/index.js:14-16 | Every input item that is last with its key is in the merge, so `array2` overrides `array1`. |
| Utils.MergeCoversKeys | src/utils/index.js:14-16 | Every key of the input appears in the merge. |
| Utils.MergeOfNothing | src/utils/index.js:13 | Two omitted arrays merge to the empty array. |
| Utils.ArraysAreEqual | src/utils/index.js:41-43 | No contract: a predicate comparing the arrays' `join('')`. `ArraysAreEqualIsEquivalence`, `ArraysAreEqualAppend`, `NotElementWise` and `EmptyElementsIgnored` state its properties. |
| JsStrings.JoinEmptyAppend | src/utils/index.js:42 | `join('')` of two arrays appended is the concatenation of their joins. |
| Utils.ArraysAreEqualIsEquivalence | src/utils/index.js:41-43 | The comparison is reflexive, symmetric and transitive. |
| Utils.ArraysAreEqualAppend | src/utils/index.js:41-43 | Appending arrays that compare equal preserves comparing equal. |
| Utils.NotElementWise | src/utils/index.js:41-43 | `["ab","c"]` and `["a","bc"]` compare equal though they differ. |
| Utils.EmptyElementsIgnored | src/utils/index.js:41-43 | An inserted empty string never changes the result of the comparison. |

## Left out

- Rendering: JSX, the QR camera (`QrReader`, `handleScanError`) and `alert` are left out. Dialogs are `Effect` values carrying the texts and values they show, without their markup or styling.
- Library and network calls are not modelled; they become parameters:
  - `JSON.parse` and `ethers.utils.isAddress` are parameters;
  - `wallet.sendTransaction`, the token contract's `transfer`, `Wallet.loadFromPrivateKey`, `signMessage` and `axios.post` are reduced to how they settle;
  - the amount's conversion by `ethers.utils.parseEther` is not modelled.
- Scheduling: the 250 ms timer and `async`/`await` are left out. The strategy runs as one step after `loadingModal` is set, so input arriving during the delay is not modelled.
- React state timing: setters take effect at once. The closure that `sendERCToken` reads holds the same amount and destination as the `data` passed down. `TransferScreen.Send` and `TransferScreen.ConfirmAndSend` require that equality.
- TransferScreen.SendERCToken: requires an asset that is not the `default` sentinel, the only case in which `send` calls it.
- Asset loading is not modelled. The `DataService.getAsset` effect is replaced by a loaded `tokenDetails` given to the constructor. So the crash on a missing asset, and the outer `e.error.message` handler it would reach, are not modelled. Each strategy catches its own errors.
- The commented-out effect in `src/modules/transfer/index.js` is dead code and not modelled.
- `ScanPayload.Json` keeps a login challenge's `id` and `token` only when they are strings. A number or any other value becomes `None`, although the code would pass it to `signMessage` and `axios.post` as it is.
- The `console.log` of the caught error in the footer's scan handler (`src/modules/layouts/UnlockedFooter.js:84`) is not modelled; it is console output only.
- The loading overlay that `loadingModal` shows is not an effect of its own. Only the flag is modelled: `send` raises it and `resetFormStates` clears it.
- Object key order: JavaScript lists integer-like keys (`"0"`, `"42"`) before other keys, and assigning the key `__proto__` does not create a property. The model keeps pure insertion order for every key.
- `arraysAreEqual`: the elements are strings. How `join` renders `null`, `undefined`, numbers or nested arrays is not modelled.
- `mergeAndRemoveDuplicate`: `item[keyName]` is the function `keyOf`, and `Map` key equality is Dafny equality, so `NaN` keys are not modelled.
- The IPFS and file helpers in `src/utils/index.js` (`uploadToIpfs`, `dataURLtoFile`, `base64ToBlob`, `blobToBase64`) are browser and network I/O and are not modelled.
- The application context is reduced to the two fields the scan handlers write. Its provider is not part of this model.
