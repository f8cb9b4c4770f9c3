# Hathor desktop wallet: screen controllers in Dafny

This project models the controller logic of four parts of the Hathor desktop
wallet and proves properties of that logic:

- **The send-tokens screen** (`SendTokensScreen`). It puts together the
  inputs and outputs of every token sub-form. On a software wallet it then
  asks for the PIN. On a Ledger hardware wallet it runs the device
  conversation:
  - `sendTokens`, which verifies the custom tokens;
  - `sendTx`, which confirms the outputs;
  - `getSignatures`.

  Errors the user can fix become a message on the form, and any other error
  is thrown again. The screen also edits its list of selected tokens, which
  is kept aligned with the list of sub-form references.
- **The server screen** (`ServerScreen`). It validates the base server field
  and, in wallet-service mode, the real-time server field. It then checks
  the PIN, switches the wallet to the new server and asks that server for its
  version. On mainnet the switch is kept. On any other network, and when the
  request fails, it goes back to the previous server. After any answer
  other than mainnet, the switch then waits for the user to type "testnet".
- **The token administration panel** (`TokenAdmin`). It keeps the wallet's
  unspent outputs of one token and sorts them into three groups:
  - outputs with mint authority;
  - outputs with melt authority;
  - the plain amount the wallet holds.

  It then hands the right list to the form of the chosen action.
- **The "reset all data" dialog** (`ResetModal`). It compares the typed
  phrase with the reset phrase, ignoring letter case. It then requires
  either a correct password or a ticked "I forgot my password".
  The source reads the two inputs through refs. Here they are the fields
  `password` and `confirmMessage`. `ResetModal.ModalResetAllData.EnterPassword`
  and `ResetModal.ModalResetAllData.EnterConfirmMessage` stand for the user
  typing into those inputs. They model no function of the dialog, so they
  have no row in the table below.

How the screens are modelled:

- **A screen is a class.** Its fields are the component's state.
- **Calls to the outside world are recorded, not performed.** A Ledger
  request, a server change or a navigation is appended to a log field
  (`sent`, `calls`, `effects`).
- **Answers from the outside world are parameters.** This covers the
  device's replies, the server's version answer and the wallet library's
  predicates (`isPinCorrect`, `isAddressMine`, `isMintOutput`, ...). These
  collaborators are outside the model.
- **State transitions are functions.** The send-tokens screen has one
  transition function per handler (`XStep`) over a record of all its fields.
  Each method of the class is proved to perform exactly that transition, and
  the properties are proved about the transition functions. The other three
  screens state their effects directly in the methods' contracts.
- **Exceptions are return values.** A method that can throw returns the
  error as `thrown: Option<Error>`, and JavaScript `TypeError` crashes are
  reported as `OtherError`.

Shared helpers live in `Common`: `Filter`, `Flatten`, and `RemoveAt`, which
is `splice(i, 1)`. Case folding and `startsWith` live in `Text`.

## Model

| member | source | states |
|---|---|---|
| Common.Filter | src/screens/SendTokens.js:234 | the kept elements are elements of the input that pass the test, and every passing element is kept |
| Common.RemoveAt | src/screens/SendTokens.js:435-440 | `splice(index, 1)`: with an index in range, one element fewer and the later elements shifted down by one; out of range, the list is unchanged |
| Text.LowerEqualIffCharsMatch | src/components/ModalResetAllData.js:48-51 | two strings are equal after `toLowerCase` exactly when they have the same length and agree letter by letter up to case |
| SendTokensScreen.InitialState | src/screens/SendTokens.js:44-70 | the screen starts with HTR as the only token and one reference, with nothing sent, and its invariant holds |
| SendTokensScreen.SendTokens.constructor | src/screens/SendTokens.js:44-70 | the fields start as the initial state |
| SendTokensScreen.Aggregate | src/screens/SendTokens.js:166-176 | nothing is returned exactly when some sub-form answers nothing; otherwise the inputs and outputs are all sub-forms' lists concatenated in reference order, and the token list is empty |
| SendTokensScreen.AggregateInputsMembership | src/screens/SendTokens.js:166-176 | an input is in the aggregated data exactly when some sub-form returned it |
| SendTokensScreen.AggregateAppend | src/screens/SendTokens.js:166-176 | aggregating two groups of sub-forms gives the first group's lists followed by the second's, in order, with nothing dropped or duplicated |
| SendTokensScreen.SendTokens.GetData | src/screens/SendTokens.js:166-176 | the loop over the references returns the aggregate of the sub-forms' answers, stopping at the first sub-form that answers nothing |
| SendTokensScreen.TokenSignatures | src/screens/SendTokens.js:255-264 | the `sendTokens` payload has one entry per custom token, in order, carrying the token's uid, symbol, name and stored signature |
| SendTokensScreen.NoMissingSignatures | src/screens/SendTokens.js:242-253 | the list of unsigned tokens is empty exactly when every token has a stored signature |
| SendTokensScreen.MissingIsFilterOfSelection | src/screens/SendTokens.js:234-253 | the unverified tokens listed are exactly the selected custom tokens without a stored signature, in selection order |
| SendTokensScreen.TokenRequestHasOnlyCustomTokens | src/screens/SendTokens.js:234-264 | a `sendTokens` request holds only custom tokens of the selection (never HTR), each with its own stored signature |
| SendTokensScreen.ChangeInfoExact | src/screens/SendTokens.js:291-300 | `changeInfo` has exactly one entry per change output, in increasing output index, each carrying the key index of the output's address |
| SendTokensScreen.CollectChangeInfo | src/screens/SendTokens.js:291-300 | the `forEach` loop builds exactly that `changeInfo`, and fails exactly when a change address has no key |
| SendTokensScreen.HandleSendErrorStep | src/screens/SendTokens.js:352-365 | the six recoverable error kinds set the error message and step 0 and send nothing; every other error is thrown again with the state unchanged |
| SendTokensScreen.SendTokens.HandleSendError | src/screens/SendTokens.js:352-365 | performs `HandleSendErrorStep` and keeps the invariant |
| SendTokensScreen.OnSendErrorStep | src/screens/SendTokens.js:220-223 | the message is shown, the Ledger step goes back to 0 and the modal closes; the tokens, requests and effects are unchanged |
| SendTokensScreen.OnSendErrorIdempotent | src/screens/SendTokens.js:220-223 | reporting the same error twice leaves the same state as reporting it once |
| SendTokensScreen.SendTokens.OnSendError | src/screens/SendTokens.js:220-223 | performs `OnSendErrorStep` |
| SendTokensScreen.OnSendSuccessStep | src/screens/SendTokens.js:208-213 | a successful send advances the shared address and then navigates to the wallet screen |
| SendTokensScreen.SendTokens.OnSendSuccess | src/screens/SendTokens.js:208-213 | performs `OnSendSuccessStep` |
| SendTokensScreen.ExecuteSendLedgerStep | src/screens/SendTokens.js:271-306 | the `SendTransaction` later signed is built from the aggregated inputs and outputs; no aggregated data, or a change address without a key, throws; a failing `prepareTxData` is shown and nothing is requested; a crash requests nothing; otherwise exactly one `sendTx` with the prepared data, its change info and the legacy format exactly when custom tokens are not supported |
| SendTokensScreen.SendTokens.ExecuteSendLedger | src/screens/SendTokens.js:271-306 | performs `ExecuteSendLedgerStep` |
| SendTokensScreen.BeforeSendLedgerStep | src/screens/SendTokens.js:232-265 | with no custom token, go straight to `executeSendLedger`; with unsigned custom tokens, the "Unverified custom tokens" alert lists exactly those and nothing is sent; otherwise one `sendTokens` request with every custom token's signature |
| SendTokensScreen.OnlyHathorSkipsTokenVerification | src/screens/SendTokens.js:234-239 | with only HTR selected, no `sendTokens` request is made; any request sent is a `sendTx` |
| SendTokensScreen.SendTokens.BeforeSendLedger | src/screens/SendTokens.js:232-265 | performs `BeforeSendLedgerStep` |
| SendTokensScreen.SendTokens.ShowUnverifiedTokens | src/screens/SendTokens.js:246-252 | the "Unverified custom tokens" alert lists the given tokens and is shown; nothing else changes |
| SendTokensScreen.SendTokens.Send | src/screens/SendTokens.js:264 | the request is appended to the log of Ledger requests; nothing else changes |
| SendTokensScreen.HandleSendTokenStep | src/screens/SendTokens.js:123-143 | no failed uid goes on to `executeSendLedger`; failed uids give the "Invalid custom tokens" alert listing the selected tokens with those uids, in order, with no `sendTx`; a device failure goes through `handleSendError` |
| SendTokensScreen.SendTokens.HandleSendToken | src/screens/SendTokens.js:123-143 | performs `HandleSendTokenStep` |
| SendTokensScreen.HandleTxSentStep | src/screens/SendTokens.js:94-100 | after the outputs are accepted, `getSignatures` is requested for the prepared data; a device failure is a Ledger error |
| SendTokensScreen.SendTokens.HandleTxSent | src/screens/SendTokens.js:94-100 | performs `HandleTxSentStep` (including `getSignatures`, lines 198-201) |
| SendTokensScreen.OnLedgerSuccessStep | src/screens/SendTokens.js:181-193 | the signatures are attached in the order given and the Ledger step becomes 1 with the "Sending transaction" title; an error from `prepareTxFrom` goes through `handleSendError` |
| SendTokensScreen.SendTokens.OnLedgerSuccess | src/screens/SendTokens.js:181-193 | performs `OnLedgerSuccessStep` |
| SendTokensScreen.HandleSignaturesStep | src/screens/SendTokens.js:108-114 | the device's signatures go to `onLedgerSuccess`; a failure is a Ledger error |
| SendTokensScreen.SendTokens.HandleSignatures | src/screens/SendTokens.js:108-114 | performs `HandleSignaturesStep` |
| SendTokensScreen.BeforeSendStep | src/screens/SendTokens.js:312-328 | an invalid form, or a sub-form with no data, changes nothing; otherwise the aggregated data is stored and the PIN modal opens (software wallet) or `beforeSendLedger` runs (hardware wallet), its errors going through `handleSendError` |
| SendTokensScreen.BeforeSendStopsEarly | src/screens/SendTokens.js:312-316 | when one sub-form has no data, no data is stored, no modal opens and nothing is sent |
| SendTokensScreen.SendTokens.BeforeSend | src/screens/SendTokens.js:312-328 | performs `BeforeSendStep`, aggregating with `GetData` |
| SendTokensScreen.FirstUnselected | src/screens/SendTokens.js:406-410 | the first known token whose uid is not selected; nothing exactly when every known token is selected |
| SendTokensScreen.UnselectedExists | src/screens/SendTokens.js:400-410 | while fewer tokens are selected than are known, an unselected known token exists |
| SendTokensScreen.AddAnotherTokenStep | src/screens/SendTokens.js:381-415 | an old Ledger opens "not supported"; a Ledger at the custom-token limit gets the "Token limit reached" alert shown, and nothing else changes; with every token added the error says so; otherwise the first unselected token is added with a new reference. The selection stays drawn from the known tokens, and adding never crosses the limit |
| SendTokensScreen.SendTokens.AddAnotherToken | src/screens/SendTokens.js:381-415 | performs `AddAnotherTokenStep` |
| SendTokensScreen.SendTokens.ShowTokenLimit | src/screens/SendTokens.js:390-396 | the "Token limit reached" alert gets its title and body and is shown; nothing else changes |
| SendTokensScreen.SendTokens.AppendToken | src/screens/SendTokens.js:412-414 | the token is appended to the selection and a new reference to the references; nothing else changes |
| SendTokensScreen.TokenSelectChangeStep | src/screens/SendTokens.js:424-428 | only the entry at `index` changes, to the selected token; the references stay |
| SendTokensScreen.SendTokens.TokenSelectChange | src/screens/SendTokens.js:424-428 | performs `TokenSelectChangeStep` |
| SendTokensScreen.CustomTokensAfterReplacingHathor | src/screens/SendTokens.js:424-428 | changing the HTR sub-form to a custom token puts that token in front of the selection's custom tokens |
| SendTokensScreen.TokenLimitOnlyCheckedOnAdd | src/screens/SendTokens.js:232-428 | the custom-token limit is tested only in `addAnotherToken`: from a selection at the limit, changing the HTR sub-form to one more signed custom token is accepted, and `beforeSendLedger` then sends a `sendTokens` request with one token more than the limit |
| SendTokensScreen.RemoveTokenStep | src/screens/SendTokens.js:435-440 | the entry at `index` leaves both the selection and the references, which stay aligned |
| SendTokensScreen.SendTokens.RemoveToken | src/screens/SendTokens.js:435-440 | performs `RemoveTokenStep` |
| ServerScreen.ValidateServer | src/screens/Server.js:81-103 | the server is invalid exactly when the base field is empty, or in wallet-service mode the real-time field is empty; the real-time message overrides the base one |
| ServerScreen.TargetServers | src/screens/Server.js:111-126 | the (base, real-time) pair the screen validates and switches to is the typed pair when "new server" is checked, otherwise the selected pair |
| ServerScreen.NormalizeNetwork | src/screens/Server.js:160-167 | the recorded network is "testnet" exactly when the name starts with "testnet"; any other name is kept |
| ServerScreen.NormalizeIdempotent | src/screens/Server.js:160-167 | normalising a normalised name changes nothing |
| ServerScreen.ConfirmationIgnoresCase | src/screens/Server.js:202 | the confirmation is accepted exactly when the typed text spells "testnet" in any mix of letter case |
| ServerScreen.Server.constructor | src/screens/Server.js:40-62 | the state starts empty, with no network selected |
| ServerScreen.Server.ProbeServer | src/screens/Server.js:134-194 | the wallet switches to the target servers; on mainnet the network is stored and the wallet reloads; on another network the normalised name is recorded, the previous servers come back and the confirmation opens; a failed request brings the previous servers back; loading ends in both of the last two cases |
| ServerScreen.Server.BeginProbe | src/screens/Server.js:134-153 | the screen shows loading, clears the message, records the targets and the wallet is pointed at them |
| ServerScreen.Server.KeepMainnet | src/screens/Server.js:180-185 | the network is set to mainnet, stored, and the wallet reloads; no field changes |
| ServerScreen.Server.RejectNetwork | src/screens/Server.js:157-179 | the normalised network is recorded, the alert opens, the previous servers come back and loading ends |
| ServerScreen.Server.RollBack | src/screens/Server.js:186-193 | the previous servers come back (the real-time one only in wallet-service mode) and loading ends |
| ServerScreen.Server.ServerSelected | src/screens/Server.js:80-195 | an invalid server only sets the message; a wrong PIN on a software wallet only sets "Invalid PIN"; otherwise the target is selected and probed, with the whole new state for each reply: on mainnet the new server is kept, the network set and stored and the wallet reloaded; on another network the normalised network is recorded, the wallet goes back to its previous servers and the confirmation alert opens; on a failed request the wallet goes back and stops loading |
| ServerScreen.Server.ConfirmTestnetServer | src/screens/Server.js:201-221 | a text other than "testnet" (up to case) only sets "Invalid value."; otherwise the selected servers and network are applied and stored; when the alert is open it closes, the error clears and the wallet reloads, and when it is already closed no reload happens |
| ServerScreen.Server.HandleCheckboxChange | src/screens/Server.js:243-251 | "new server" follows the checkbox |
| ServerScreen.Server.HandleBaseURLSelectChange | src/screens/Server.js:258-270 | the empty option clears the selected server; otherwise the indexed entry of the wallet-service list or of the default list, depending on the mode |
| ServerScreen.Server.HandleWsURLSelectChange | src/screens/Server.js:278-291 | nothing outside wallet-service mode; the empty option clears the real-time server; otherwise the indexed entry of the real-time list |
| TokenAdmin.Annotate | src/components/TokenAdministrative.js:88-89 | the output gets its transaction id and index, and nothing else changes |
| TokenAdmin.BucketOf | src/components/TokenAdministrative.js:91-97 | mint first, then melt, then plain amount for non-authority outputs, otherwise ignored |
| TokenAdmin.KeptOfExact | src/components/TokenAdministrative.js:73-89 | within a transaction, the kept outputs are exactly the outputs that are mine, of this token and unspent, tagged with the transaction id and their position |
| TokenAdmin.CandidatesExact | src/components/TokenAdministrative.js:70-89 | over the whole history, the considered outputs are exactly those outputs, each tagged with its own transaction's id and its index in that transaction |
| TokenAdmin.KeptOfOrdered | src/components/TokenAdministrative.js:71 | within a transaction, the outputs keep the order of `tx.outputs` |
| TokenAdmin.CandidatesAppend | src/components/TokenAdministrative.js:70-72 | the history is walked transaction by transaction: an earlier transaction's outputs come before a later one's |
| TokenAdmin.ScanBucketIsFilter | src/components/TokenAdministrative.js:73-98 | scanning the first n outputs of a transaction into one bucket gives exactly the kept outputs of that bucket, in order |
| TokenAdmin.BucketsSplit | src/components/TokenAdministrative.js:91-97 | every output falls in exactly one of the mint, melt, amount and ignored lists, so together they hold each output as often as the input does |
| TokenAdmin.HistoryStep | src/components/TokenAdministrative.js:70-72 | one more transaction extends the lists by what that transaction contributes |
| TokenAdmin.BucketsPartition | src/components/TokenAdministrative.js:91-97 | the mint list, the melt list, the amount outputs and the ignored outputs together are the considered outputs, with nothing dropped or repeated |
| TokenAdmin.WalletAmountAppend | src/components/TokenAdministrative.js:66-96 | the wallet amount is the sum of the values of considered non-authority outputs, and it adds up over the transactions |
| TokenAdmin.TokenAdministrative.UpdateWalletInfo | src/components/TokenAdministrative.js:63-103 | the nested loops leave exactly the mint list, the melt list and the amount defined above, stored together at the end; the action is unchanged |
| TokenAdmin.TokenAdministrative.ScanTransaction | src/components/TokenAdministrative.js:73-98 | the inner loop appends one transaction's contribution to each of the three accumulators |
| TokenAdmin.TokenAdministrative.PlaceOutput | src/components/TokenAdministrative.js:91-97 | a mint authority goes to the mint list, else a melt authority to the melt list, else a non-authority output adds its value to the amount; nothing else changes |
| TokenAdmin.TokenAdministrative.constructor | src/components/TokenAdministrative.js:42-48 | empty lists, zero amount, no action |
| TokenAdmin.TokenAdministrative.ActionClicked | src/components/TokenAdministrative.js:122-126 | the action becomes the clicked one, and the lists are unchanged |
| TokenAdmin.TokenAdministrative.CancelAction | src/components/TokenAdministrative.js:131-133 | the action is reset to none |
| TokenAdmin.TokenAdministrative.CleanStates | src/components/TokenAdministrative.js:138-140 | the action is reset to none, and the lists are unchanged |
| TokenAdmin.BottomView | src/components/TokenAdministrative.js:143-160 | each action shows exactly its own form: nothing for no action, the mint form with the mint outputs, the melt form with the melt outputs and the amount, the delegate form for the two delegate actions and the destroy form for the two destroy actions, each carrying its action and the mint or melt authority outputs it acts on |
| TokenAdmin.AuthorityFormsGetMatchingOutputs | src/components/TokenAdministrative.js:63-103 | a delegate or destroy form for mint receives only mint authorities, one for melt only melt authorities, all of them unspent outputs of the wallet and of this token |
| ResetModal.ConfirmOutcomeOf | src/components/ModalResetAllData.js:34-68 | an invalid form does nothing; a phrase mismatch is reported first; then the missing password; then a typed wrong password, even with "forgot" ticked; the reset happens exactly when the phrase matches and the password is non-empty and correct, or empty and "forgot" is ticked |
| ResetModal.PasswordMissingUnreachable | src/components/ModalResetAllData.js:54-57 | because the password field is `required` unless "forgot" is ticked, the browser stops an empty password before the "write your password" message |
| ResetModal.ModalResetAllData.constructor | src/components/ModalResetAllData.js:26 | no error, "forgot" not ticked, empty fields |
| ResetModal.ModalResetAllData.HandleConfirm | src/components/ModalResetAllData.js:34-68 | the outcome is the guard chain on the current fields, its message is stored and `success` is called exactly on confirmation; with the fields kept as the dialog keeps them, a wrong password is never reported while "forgot" is ticked |
| ResetModal.ModalResetAllData.SetForgotPassword | src/components/ModalResetAllData.js:75-82 | the flag toggles, and ticking it clears the password field |
| ResetModal.ModalResetAllData.OnDismiss | src/components/ModalResetAllData.js:89-98 | "forgot" is unticked, the error is cleared and both fields are emptied |

## Left out

- JSX rendering, the alert markup and CSS are outside the model. The jQuery `modal('show'/'hide')` calls are modelled only as the set of open dialogs (`open`, `alertOpen`).
- The IPC listener registration (src/screens/SendTokens.js:72-86) and the Ledger transport are outside the model. Each device reply is a method parameter, and each request is an entry of the `sent` log.
- The wallet library is outside the model. Its results are parameters:
  - `prepareTxData` is a `Result`.
  - `prepareTxFrom` is an optional error.
  - `isPinCorrect`, `isPasswordCorrect` and `checkValidity` are booleans.
  - `isAddressMine`, `isMintOutput`, `isMeltOutput` and `isAuthorityOutput` are the functions of a `WalletLib` value.
- `completeTx` is not modelled: its defaults are taken to be part of the prepared data.
- `prepareSendTransaction` and the PIN modal's own send are not modelled. Neither is `Buffer.from` on the signatures: they stay strings.
- `changeServer` and `executeServerChange` are asynchronous, and so is the history navigation. They are recorded as calls in log fields. `getVersionData` is asynchronous too; it is not recorded, and its answer is the `reply` parameter of `ServerScreen.Server.ProbeServer` and `ServerScreen.Server.ServerSelected`. What `executeServerChange` does once its promise settles (navigate, or `loading` false) is not modelled.
- `ServerScreen.Server.ConfirmTestnetServer`: the "hidden" handlers that jQuery registers are run once, when the open modal closes, and not at all when it is already closed. The source registers a new handler on each confirmation, so a later close may run it again, and this is not captured. The testnet input itself is a parameter, not a field, so the clearing of that input is not modelled.
- `ServerScreen.Server.ServerSelected`: outside wallet-service mode, the source stores `null` as the real-time target, and the model stores an empty string.
- `ServerScreen.Server.HandleBaseURLSelectChange` and `ServerScreen.Server.HandleWsURLSelectChange` require the chosen index to be in range, because the options are rendered from the same lists. `DEFAULT_SERVERS`, `DEFAULT_WALLET_SERVICE_SERVERS`, `DEFAULT_WALLET_SERVICE_WS_SERVERS` and `CONFIRM_RESET_MESSAGE` come from `constants.js`, which is not part of this model. They are constructor parameters.
- `LEDGER_TX_CUSTOM_TOKEN_LIMIT` is 10, following the comment in src/screens/SendTokens.js:389. The HTR uid is "00".
- `SendTokensScreen.AddAnotherTokenStep` requires that the known tokens have distinct uids and that the selection is made of distinct known tokens. Without this the source could append `undefined`.
- `SendTokensScreen.AddAnotherTokenStep`: the Ledger custom-token limit is enforced only when a sub-form is added, by an equality test. Neither `tokenSelectChange` nor `beforeSendLedger` counts the tokens, so the screen, and the model with it, can ask the device to handle more than ten custom tokens (`TokenLimitOnlyCheckedOnAdd`). Whether the token selector of a sub-form offers such a token is decided by the sub-form component, which is not part of this model.
- `SendTokensScreen.TokenSelectChangeStep` requires the index to name an existing sub-form. The source would grow the list on a larger index.
- `SendTokensScreen.HandleTxSentStep` records the wallet's key map inside the `getSignatures` request instead of reading `getWalletData()`.
- `Text.Lower` folds only the ASCII letters A-Z, not the full Unicode case mapping of `toLowerCase`.
- `TokenAdmin.TokenAdministrative.UpdateWalletInfo` works on the history as values. The source writes `tx_id` and `index` into the history's own output objects, which are shared with the Redux store, and that aliasing is not captured. The `for..in` walk over the history object is taken to visit the transactions in the order of the sequence. Output values are unbounded integers, not JavaScript numbers.
- `showSuccess`, `componentDidUpdate`, `mapStateToProps` and `calculateBalance` are outside the model, as are the render helpers other than `renderBottom`.
- Translation (`ttag`) is outside the model: messages are their English text.
