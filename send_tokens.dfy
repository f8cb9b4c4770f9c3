/** The send-tokens screen: it aggregates the per-token sub-forms, routes the
    attempt to the software (PIN) path or the Ledger path, drives the Ledger
    protocol through the device's event callbacks, classifies errors and edits
    the list of tokens in the transaction.

    The screen's fields are gathered in a `State` record; every handler is a
    transition function on it (these carry the properties), and the class
    `SendTokens` holds the same fields and updates them step by step, each
    method proved to perform its transition function. */
module SendTokensScreen {
  import opened Common

  /** Identity of a React reference to a sub-form (`React.createRef()`). */
  type RefId = nat

  /** A token config `{uid, symbol, name}`. */
  datatype Token = Token(uid: string, symbol: string, name: string)

  /** The network's native token, `HATHOR_TOKEN_CONFIG` of the wallet library. */
  const HathorUid: string := "00"
  const HathorToken: Token := Token(HathorUid, "HTR", "Hathor")

  /** A custom token: any token other than the network's native one. */
  predicate IsCustom(t: Token)
  {
    t.uid != HathorUid
  }

  /** `LEDGER_TX_CUSTOM_TOKEN_LIMIT`: 10 custom tokens per transaction. */
  const LedgerTxCustomTokenLimit: nat := 10

  const ValidateOutputsTitle := "Validate outputs on Ledger"
  const SendingTransactionTitle := "Sending transaction"
  const UnverifiedTokensTitle := "Unverified custom tokens"
  const InvalidTokensTitle := "Invalid custom tokens"
  const TokenLimitTitle := "Token limit reached"
  const AllTokensAddedMessage := "All your tokens were already added"
  const WalletPath := "/wallet/"

  datatype Input = Input(txId: string, index: nat, token: string)
  datatype Output = Output(address: string, value: int, token: string, isChange: bool)

  /** What one sub-form's `getData()` returns when it is valid. */
  datatype SubFormData = SubFormData(inputs: seq<Input>, outputs: seq<Output>)

  /** The aggregated `{inputs, outputs, tokens}` of one send attempt. */
  datatype TxData = TxData(inputs: seq<Input>, outputs: seq<Output>, tokens: seq<Token>)

  /** The closed set of error kinds the screen distinguishes: the five wallet
      library error classes, the Ledger error, and everything else. */
  datatype ErrorKind =
    | AddressError
    | OutputValueError
    | ConstantNotSet
    | MaximumNumberOutputsError
    | MaximumNumberInputsError
    | LedgerError
    | OtherError

  datatype Error = Error(kind: ErrorKind, message: string)

  /** The `instanceof` chain of `handleSendError`. */
  predicate IsRecoverable(kind: ErrorKind)
  {
    kind.AddressError? || kind.OutputValueError? || kind.ConstantNotSet? ||
    kind.MaximumNumberOutputsError? || kind.MaximumNumberInputsError? || kind.LedgerError?
  }

  /** JavaScript `TypeError`s raised by the screen's own code on a missing value. */
  const NullDataCrash := Error(OtherError, "TypeError: this.data is null")
  const UnknownChangeKeyCrash := Error(OtherError, "TypeError: keys[output.address] is undefined")
  const NullSendTransactionCrash := Error(OtherError, "TypeError: this.sendTransaction is null")

  datatype WalletKind = SoftwareWallet | HardwareWallet

  /** What the screen asks of the wallet library and local storage:
      the wallet's kind, its `keys` (address to key index), the stored
      custom-token signatures (uid to signature) and
      `version.isLedgerCustomTokenAllowed()`. */
  datatype Wallet = Wallet(
    kind: WalletKind,
    keys: map<string, nat>,
    tokenSignatures: map<string, string>,
    customTokenAllowed: bool)

  /** A reply on one of the Ledger IPC channels: `{success: true, data}` or
      `{success: false, error: {message}}`. */
  datatype DeviceReply<T> = Ok(data: T) | Failed(message: string)

  datatype TokenSignature = TokenSignature(uid: string, symbol: string, name: string, signature: string)
  datatype ChangeInfo = ChangeInfo(outputIndex: nat, keyIndex: nat)

  /** A request sent to the Ledger: `ledger.sendTokens`, `ledger.sendTx`,
      `ledger.getSignatures`. */
  datatype LedgerRequest =
    | SendTokensRequest(tokens: seq<TokenSignature>)
    | SendTxRequest(data: TxData, changeInfo: seq<ChangeInfo>, useOldProtocol: bool)
    | GetSignaturesRequest(txData: Option<TxData>, keys: map<string, nat>)

  /** The jQuery modals of the screen. */
  datatype Dialog = PinModal | AlertModal | LedgerAlertModal | NotSupportedModal

  /** The body of the Ledger alert modal. */
  datatype AlertBody = NoBody | TokenList(tokens: seq<Token>) | TokenLimitNotice(limit: nat)

  /** What a successful send asks of the rest of the application. */
  datatype Effect = UpdateSharedAddress | Navigate(path: string)

  /** The `SendTransaction` object built for the Ledger path, and the
      signatures attached to it by `prepareTxFrom`. */
  datatype PendingTx = PendingTx(inputs: seq<Input>, outputs: seq<Output>, signatures: Option<seq<string>>)

  /** All fields of the screen: the component fields (`references`, `data`,
      `sendTransaction`), its React state, the open modals, the requests sent
      to the device and the effects asked for. */
  datatype State = State(
    txTokens: seq<Token>,
    references: seq<RefId>,
    nextRef: nat,
    data: Option<TxData>,
    sendTransaction: Option<PendingTx>,
    errorMessage: string,
    ledgerStep: nat,
    ledgerModalTitle: string,
    alertTitle: Option<string>,
    alertBody: AlertBody,
    open: set<Dialog>,
    sent: seq<LedgerRequest>,
    effects: seq<Effect>)

  /** The state after a handler, and the exception it lets escape, if any. */
  datatype Outcome = Outcome(state: State, thrown: Option<Error>)

  /** The screen's invariant: one sub-form reference per selected token, all
      references distinct and already created, and `ledgerStep` 0 or 1. */
  predicate Consistent(s: State)
  {
    |s.references| == |s.txTokens| && s.ledgerStep <= 1 &&
    (forall i :: 0 <= i < |s.references| ==> s.references[i] < s.nextRef) &&
    (forall i, j :: 0 <= i < j < |s.references| ==> s.references[i] != s.references[j])
  }

  /** The state set up by the constructor: HTR alone, with its one reference. */
  function InitialState(): (s: State)
    ensures Consistent(s) && s.txTokens == [HathorToken] && s.sent == []
  {
    State([HathorToken], [0], 1, None, None, "", 0, ValidateOutputsTitle, None, NoBody, {}, [], [])
  }

  // ---------------------------------------------------------------------
  // Aggregation of the sub-forms (`getData`)
  // ---------------------------------------------------------------------

  predicate AllPresent(refs: seq<RefId>, forms: RefId -> Option<SubFormData>)
  {
    forall i :: 0 <= i < |refs| ==> forms(refs[i]).Some?
  }

  /** The sub-forms' input lists, in `refs` order. */
  function InputLists(refs: seq<RefId>, forms: RefId -> Option<SubFormData>): (r: seq<seq<Input>>)
    requires AllPresent(refs, forms)
    ensures |r| == |refs|
  {
    if |refs| == 0 then []
    else InputLists(refs[..|refs| - 1], forms) + [forms(refs[|refs| - 1]).value.inputs]
  }

  /** The sub-forms' output lists, in `refs` order. */
  function OutputLists(refs: seq<RefId>, forms: RefId -> Option<SubFormData>): (r: seq<seq<Output>>)
    requires AllPresent(refs, forms)
    ensures |r| == |refs|
  {
    if |refs| == 0 then []
    else OutputLists(refs[..|refs| - 1], forms) + [forms(refs[|refs| - 1]).value.outputs]
  }

  lemma {:induction false} ListsAt(refs: seq<RefId>, forms: RefId -> Option<SubFormData>, i: nat)
    requires AllPresent(refs, forms) && i < |refs|
    ensures InputLists(refs, forms)[i] == forms(refs[i]).value.inputs
    ensures OutputLists(refs, forms)[i] == forms(refs[i]).value.outputs
    decreases |refs|
  {
    if i < |refs| - 1 {
      ListsAt(refs[..|refs| - 1], forms, i);
    }
  }

  /** What `getData` returns for the sub-forms behind `refs`, `forms(r)` being
      what the sub-form of reference `r` answers: nothing as soon as one
      sub-form answers nothing; otherwise the inputs and outputs of all
      sub-forms, concatenated in reference order, and no tokens. */
  function Aggregate(refs: seq<RefId>, forms: RefId -> Option<SubFormData>): (r: Option<TxData>)
    ensures r.None? <==> exists i :: 0 <= i < |refs| && forms(refs[i]).None?
    ensures r.Some? ==>
      AllPresent(refs, forms) &&
      r.value == TxData(Flatten(InputLists(refs, forms)), Flatten(OutputLists(refs, forms)), [])
  {
    if |refs| == 0 then Some(TxData([], [], []))
    else
      var init := refs[..|refs| - 1];
      var last := refs[|refs| - 1];
      assert forall i :: 0 <= i < |init| ==> init[i] == refs[i];
      match Aggregate(init, forms)
      case None => None
      case Some(acc) =>
        match forms(last)
        case None => None
        case Some(one) => Some(TxData(acc.inputs + one.inputs, acc.outputs + one.outputs, []))
  }

  /** Aggregation keeps every input of every sub-form, at its place: an input
      is in the result exactly when some sub-form returned it. */
  lemma AggregateInputsMembership(refs: seq<RefId>, forms: RefId -> Option<SubFormData>, x: Input)
    requires AllPresent(refs, forms)
    ensures Aggregate(refs, forms).Some?
    ensures x in Aggregate(refs, forms).value.inputs <==>
      exists i :: 0 <= i < |refs| && x in forms(refs[i]).value.inputs
  {
    FlattenMembership(InputLists(refs, forms), x);
    forall i | 0 <= i < |refs| ensures InputLists(refs, forms)[i] == forms(refs[i]).value.inputs {
      ListsAt(refs, forms, i);
    }
  }

  /** Aggregating two groups of sub-forms gives the first group's inputs and
      outputs followed by the second's: reference order is kept, nothing
      dropped or duplicated. */
  lemma {:induction false} AggregateAppend(a: seq<RefId>, b: seq<RefId>, forms: RefId -> Option<SubFormData>)
    requires AllPresent(a + b, forms)
    ensures AllPresent(a, forms) && AllPresent(b, forms)
    ensures Aggregate(a + b, forms).Some? && Aggregate(a, forms).Some? && Aggregate(b, forms).Some?
    ensures Aggregate(a + b, forms).value.inputs == Aggregate(a, forms).value.inputs + Aggregate(b, forms).value.inputs
    ensures Aggregate(a + b, forms).value.outputs == Aggregate(a, forms).value.outputs + Aggregate(b, forms).value.outputs
  {
    assert forall i :: 0 <= i < |a| ==> (a + b)[i] == a[i];
    assert forall i :: 0 <= i < |b| ==> (a + b)[|a| + i] == b[i];
    ListsAppend(a, b, forms);
    FlattenAppend(InputLists(a, forms), InputLists(b, forms));
    FlattenAppend(OutputLists(a, forms), OutputLists(b, forms));
  }

  lemma {:induction false} ListsAppend(a: seq<RefId>, b: seq<RefId>, forms: RefId -> Option<SubFormData>)
    requires AllPresent(a, forms) && AllPresent(b, forms) && AllPresent(a + b, forms)
    ensures InputLists(a + b, forms) == InputLists(a, forms) + InputLists(b, forms)
    ensures OutputLists(a + b, forms) == OutputLists(a, forms) + OutputLists(b, forms)
    decreases |b|
  {
    if |b| == 0 {
      assert a + b == a;
    } else {
      var b' := b[..|b| - 1];
      assert b == b' + [b[|b| - 1]];
      assert (a + b)[..|a + b| - 1] == a + b';
      assert AllPresent(b', forms) by {
        assert forall i :: 0 <= i < |b'| ==> b'[i] == b[i];
      }
      assert AllPresent(a + b', forms) by {
        assert forall i :: 0 <= i < |a + b'| ==> (a + b')[i] == (a + b)[i];
      }
      ListsAppend(a, b', forms);
    }
  }

  // ---------------------------------------------------------------------
  // Token lists of the Ledger path
  // ---------------------------------------------------------------------

  /** The selected tokens other than HTR, in selection order. */
  function CustomTokens(ts: seq<Token>): seq<Token>
  {
    Filter(ts, IsCustom)
  }

  /** The test "has no stored signature". */
  function Unsigned(signatures: map<string, string>): Token -> bool
  {
    (t: Token) => t.uid !in signatures
  }

  /** The test "is a custom token with no stored signature". */
  function UnsignedCustom(signatures: map<string, string>): Token -> bool
  {
    (t: Token) => IsCustom(t) && t.uid !in signatures
  }

  /** The test "the device reported this token's uid as failed". */
  function ReportedFailed(failedUids: seq<string>): Token -> bool
  {
    (t: Token) => t.uid in failedUids
  }

  /** The tokens without a stored signature, in order. */
  function MissingSignatures(ts: seq<Token>, signatures: map<string, string>): seq<Token>
  {
    Filter(ts, Unsigned(signatures))
  }

  /** The selected tokens whose uid the device reported as failed, in order. */
  function FailedTokens(ts: seq<Token>, failedUids: seq<string>): seq<Token>
  {
    Filter(ts, ReportedFailed(failedUids))
  }

  /** The `sendTokens` payload: one entry per token, in order, each carrying
      its stored signature. */
  function TokenSignatures(ts: seq<Token>, signatures: map<string, string>): (r: seq<TokenSignature>)
    requires forall i :: 0 <= i < |ts| ==> ts[i].uid in signatures
    ensures |r| == |ts|
    ensures forall i :: 0 <= i < |ts| ==>
      r[i] == TokenSignature(ts[i].uid, ts[i].symbol, ts[i].name, signatures[ts[i].uid])
  {
    if |ts| == 0 then []
    else
      [TokenSignature(ts[0].uid, ts[0].symbol, ts[0].name, signatures[ts[0].uid])] +
      TokenSignatures(ts[1..], signatures)
  }

  /** No stored signature is missing exactly when every token has one. */
  lemma {:induction false} NoMissingSignatures(ts: seq<Token>, signatures: map<string, string>)
    ensures |MissingSignatures(ts, signatures)| == 0 <==> forall i :: 0 <= i < |ts| ==> ts[i].uid in signatures
  {
    var missing := MissingSignatures(ts, signatures);
    if |missing| > 0 {
      assert missing[0] in ts;
    }
  }

  // ---------------------------------------------------------------------
  // Change bookkeeping (`changeInfo` of `executeSendLedger`)
  // ---------------------------------------------------------------------

  /** Every change output's address has a key in the wallet (otherwise
      `keys[output.address].index` throws). */
  predicate ChangeKeysKnown(outputs: seq<Output>, keys: map<string, nat>)
  {
    forall i :: 0 <= i < |outputs| && outputs[i].isChange ==> outputs[i].address in keys
  }

  /** The `changeInfo` list: `{outputIndex, keyIndex}` per change output, in output order. */
  function ChangeInfoOf(outputs: seq<Output>, keys: map<string, nat>): seq<ChangeInfo>
    requires ChangeKeysKnown(outputs, keys)
  {
    if |outputs| == 0 then []
    else
      var n := |outputs| - 1;
      ChangeInfoOf(outputs[..n], keys) +
      (if outputs[n].isChange then [ChangeInfo(n, keys[outputs[n].address])] else [])
  }

  /** Entry `k` of `changeInfo` names a change output and its address's key. */
  lemma {:induction false} ChangeInfoEntry(outputs: seq<Output>, keys: map<string, nat>, k: nat)
    requires ChangeKeysKnown(outputs, keys) && k < |ChangeInfoOf(outputs, keys)|
    ensures var e := ChangeInfoOf(outputs, keys)[k];
      e.outputIndex < |outputs| && outputs[e.outputIndex].isChange && e.keyIndex == keys[outputs[e.outputIndex].address]
    decreases |outputs|
  {
    var n := |outputs| - 1;
    var init := outputs[..n];
    assert ChangeKeysKnown(init, keys) by {
      assert forall i :: 0 <= i < n ==> init[i] == outputs[i];
    }
    var ci0 := ChangeInfoOf(init, keys);
    if k < |ci0| {
      ChangeInfoEntry(init, keys, k);
      assert ChangeInfoOf(outputs, keys)[k] == ci0[k];
      assert init[ci0[k].outputIndex] == outputs[ci0[k].outputIndex];
    }
  }

  /** Every entry of `changeInfo` names an output before `|outputs|`. */
  lemma {:induction false} ChangeInfoBelow(outputs: seq<Output>, keys: map<string, nat>, k: nat)
    requires ChangeKeysKnown(outputs, keys) && k < |ChangeInfoOf(outputs, keys)|
    ensures ChangeInfoOf(outputs, keys)[k].outputIndex < |outputs|
  {
    ChangeInfoEntry(outputs, keys, k);
  }

  /** The entries of `changeInfo` are in increasing output index. */
  lemma {:induction false} ChangeInfoOrdered(outputs: seq<Output>, keys: map<string, nat>, k: nat, l: nat)
    requires ChangeKeysKnown(outputs, keys) && k < l < |ChangeInfoOf(outputs, keys)|
    ensures ChangeInfoOf(outputs, keys)[k].outputIndex < ChangeInfoOf(outputs, keys)[l].outputIndex
    decreases |outputs|
  {
    var n := |outputs| - 1;
    var init := outputs[..n];
    assert ChangeKeysKnown(init, keys) by {
      assert forall i :: 0 <= i < n ==> init[i] == outputs[i];
    }
    var ci0 := ChangeInfoOf(init, keys);
    var ci := ChangeInfoOf(outputs, keys);
    assert ci[k] == ci0[k];
    if l < |ci0| {
      ChangeInfoOrdered(init, keys, k, l);
      assert ci[l] == ci0[l];
    } else {
      ChangeInfoBelow(init, keys, k);
      assert ci[l].outputIndex == n;
    }
  }

  /** Every change output has an entry in `changeInfo`. */
  lemma {:induction false} ChangeInfoCovers(outputs: seq<Output>, keys: map<string, nat>, i: nat)
    requires ChangeKeysKnown(outputs, keys) && i < |outputs| && outputs[i].isChange
    ensures exists k :: 0 <= k < |ChangeInfoOf(outputs, keys)| && ChangeInfoOf(outputs, keys)[k].outputIndex == i
    decreases |outputs|
  {
    var n := |outputs| - 1;
    var init := outputs[..n];
    assert ChangeKeysKnown(init, keys) by {
      assert forall j :: 0 <= j < n ==> init[j] == outputs[j];
    }
    var ci0 := ChangeInfoOf(init, keys);
    var ci := ChangeInfoOf(outputs, keys);
    if i == n {
      assert ci[|ci0|].outputIndex == n;
    } else {
      assert init[i] == outputs[i];
      ChangeInfoCovers(init, keys, i);
      var k :| 0 <= k < |ci0| && ci0[k].outputIndex == i;
      assert ci[k] == ci0[k];
    }
  }

  /** `changeInfo` has exactly one entry per change output, in increasing
      output index, each carrying the key index of the output's address. */
  lemma ChangeInfoExact(outputs: seq<Output>, keys: map<string, nat>)
    requires ChangeKeysKnown(outputs, keys)
    ensures var ci := ChangeInfoOf(outputs, keys);
      (forall k :: 0 <= k < |ci| ==>
        ci[k].outputIndex < |outputs| && outputs[ci[k].outputIndex].isChange &&
        ci[k].keyIndex == keys[outputs[ci[k].outputIndex].address]) &&
      (forall k, l :: 0 <= k < l < |ci| ==> ci[k].outputIndex < ci[l].outputIndex) &&
      (forall i :: 0 <= i < |outputs| && outputs[i].isChange ==>
        exists k :: 0 <= k < |ci| && ci[k].outputIndex == i)
  {
    var ci := ChangeInfoOf(outputs, keys);
    forall k | 0 <= k < |ci|
      ensures ci[k].outputIndex < |outputs| && outputs[ci[k].outputIndex].isChange &&
              ci[k].keyIndex == keys[outputs[ci[k].outputIndex].address]
    {
      ChangeInfoEntry(outputs, keys, k);
    }
    forall k, l | 0 <= k < l < |ci| ensures ci[k].outputIndex < ci[l].outputIndex {
      ChangeInfoOrdered(outputs, keys, k, l);
    }
    forall i | 0 <= i < |outputs| && outputs[i].isChange
      ensures exists k :: 0 <= k < |ci| && ci[k].outputIndex == i
    {
      ChangeInfoCovers(outputs, keys, i);
    }
  }

  /** The `forEach`/`push` loop of `executeSendLedger` that builds `changeInfo`;
      it answers nothing when a change address has no key (the source throws). */
  method CollectChangeInfo(outputs: seq<Output>, keys: map<string, nat>) returns (r: Option<seq<ChangeInfo>>)
    ensures r.None? <==> !ChangeKeysKnown(outputs, keys)
    ensures r.Some? ==> r.value == ChangeInfoOf(outputs, keys)
  {
    var changeInfo: seq<ChangeInfo> := [];
    var outputIndex := 0;
    while outputIndex < |outputs|
      invariant 0 <= outputIndex <= |outputs|
      invariant ChangeKeysKnown(outputs[..outputIndex], keys)
      invariant changeInfo == ChangeInfoOf(outputs[..outputIndex], keys)
    {
      var output := outputs[outputIndex];
      assert outputs[..outputIndex + 1][..outputIndex] == outputs[..outputIndex];
      if output.isChange {
        if output.address !in keys {
          return None;
        }
        changeInfo := changeInfo + [ChangeInfo(outputIndex, keys[output.address])];
      }
      outputIndex := outputIndex + 1;
    }
    assert outputs[..outputIndex] == outputs;
    r := Some(changeInfo);
  }

  // ---------------------------------------------------------------------
  // Transitions
  // ---------------------------------------------------------------------

  /** `handleSendError`: the six recoverable kinds become the form's error
      message and send the Ledger modal back to its first step; anything else
      is thrown again, with no change. */
  function HandleSendErrorStep(s: State, e: Error): (r: Outcome)
    ensures IsRecoverable(e.kind) ==>
      r.thrown == None && r.state.errorMessage == e.message && r.state.ledgerStep == 0 &&
      AlertModal !in r.state.open && r.state.sent == s.sent && r.state.txTokens == s.txTokens &&
      r.state.data == s.data && r.state.effects == s.effects
    ensures !IsRecoverable(e.kind) ==> r == Outcome(s, Some(e))
    ensures Consistent(s) ==> Consistent(r.state)
  {
    if IsRecoverable(e.kind) then
      Outcome(s.(open := s.open - {AlertModal}, errorMessage := e.message, ledgerStep := 0), None)
    else
      Outcome(s, Some(e))
  }

  /** `onSendError`: show the message and go back to the first Ledger step. */
  function OnSendErrorStep(s: State, message: string): (r: State)
    ensures r.errorMessage == message && r.ledgerStep == 0 && AlertModal !in r.open
    ensures r.effects == s.effects && r.sent == s.sent && r.txTokens == s.txTokens
    ensures Consistent(s) ==> Consistent(r)
  {
    s.(open := s.open - {AlertModal}, errorMessage := message, ledgerStep := 0)
  }

  /** Reporting a failure twice (a duplicate device error after the dialog
      was dismissed) leaves the screen as reporting it once: no navigation
      and no address-pool advance is ever triggered by it. */
  lemma OnSendErrorIdempotent(s: State, message: string)
    ensures OnSendErrorStep(OnSendErrorStep(s, message), message) == OnSendErrorStep(s, message)
  {
  }

  /** `onSendSuccess`: advance the shared address and go to the wallet screen. */
  function OnSendSuccessStep(s: State): (r: State)
    ensures r.effects == s.effects + [UpdateSharedAddress, Navigate(WalletPath)]
    ensures AlertModal !in r.open && r.sent == s.sent
    ensures Consistent(s) ==> Consistent(r)
  {
    s.(open := s.open - {AlertModal}, effects := s.effects + [UpdateSharedAddress, Navigate(WalletPath)])
  }

  /** `executeSendLedger`: build the `SendTransaction` from the aggregated
      data, prepare it, and ask the device to confirm the outputs. */
  function ExecuteSendLedgerStep(s: State, wallet: Wallet, prepared: Result<TxData, Error>): (r: Outcome)
    // a failing `prepareTxData` is shown, and no `sendTx` is requested
    ensures s.data.Some? && prepared.Failure? ==>
      r.thrown == None && r.state.errorMessage == prepared.error.message &&
      r.state.ledgerStep == 0 && r.state.sent == s.sent && r.state.data == s.data
    // a crash of the screen's own code requests nothing
    ensures r.thrown.Some? ==> r.thrown.value.kind == OtherError && r.state.sent == s.sent
    // otherwise exactly one `sendTx`, with the prepared data and its change
    // bookkeeping, the legacy wire format exactly when custom tokens are not supported
    ensures s.data.Some? && prepared.Success? && ChangeKeysKnown(prepared.value.outputs, wallet.keys) ==>
      r.thrown == None && r.state.data == Some(prepared.value) && AlertModal in r.state.open &&
      r.state.sent == s.sent + [SendTxRequest(prepared.value, ChangeInfoOf(prepared.value.outputs, wallet.keys),
                                              !wallet.customTokenAllowed)]
    // the `SendTransaction` that `onLedgerSuccess` later signs
    ensures s.data.Some? ==> r.state.sendTransaction == Some(PendingTx(s.data.value.inputs, s.data.value.outputs, None))
    // no aggregated data, or a change address without a key, crashes
    ensures s.data.None? || (prepared.Success? && !ChangeKeysKnown(prepared.value.outputs, wallet.keys)) ==>
      r.thrown.Some?
    ensures r.state.txTokens == s.txTokens && r.state.references == s.references
    ensures Consistent(s) ==> Consistent(r.state)
  {
    match s.data
    case None => Outcome(s, Some(NullDataCrash))
    case Some(d) =>
      var s1 := s.(sendTransaction := Some(PendingTx(d.inputs, d.outputs, None)));
      match prepared
      case Failure(e) => Outcome(s1.(errorMessage := e.message, ledgerStep := 0), None)
      case Success(p) =>
        var s2 := s1.(data := Some(p));
        if !ChangeKeysKnown(p.outputs, wallet.keys) then Outcome(s2, Some(UnknownChangeKeyCrash))
        else
          var request := SendTxRequest(p, ChangeInfoOf(p.outputs, wallet.keys), !wallet.customTokenAllowed);
          Outcome(s2.(sent := s2.sent + [request], open := s2.open + {AlertModal}), None)
  }

  /** `beforeSendLedger`: with no custom token, go straight to `executeSendLedger`;
      with a custom token lacking a stored signature, list those tokens and
      request nothing; otherwise send the custom tokens and their signatures. */
  function BeforeSendLedgerStep(s: State, wallet: Wallet, prepared: Result<TxData, Error>): (r: Outcome)
    ensures |CustomTokens(s.txTokens)| == 0 ==> r == ExecuteSendLedgerStep(s, wallet, prepared)
    ensures |CustomTokens(s.txTokens)| > 0 ==> r.thrown == None
    ensures |MissingSignatures(CustomTokens(s.txTokens), wallet.tokenSignatures)| > 0 ==>
      r.state.sent == s.sent && LedgerAlertModal in r.state.open &&
      r.state.alertTitle == Some(UnverifiedTokensTitle) &&
      r.state.alertBody == TokenList(Filter(s.txTokens, UnsignedCustom(wallet.tokenSignatures)))
    ensures |CustomTokens(s.txTokens)| > 0 && |MissingSignatures(CustomTokens(s.txTokens), wallet.tokenSignatures)| == 0 ==>
      (forall i :: 0 <= i < |CustomTokens(s.txTokens)| ==> CustomTokens(s.txTokens)[i].uid in wallet.tokenSignatures) &&
      r.state.sent == s.sent + [SendTokensRequest(TokenSignatures(CustomTokens(s.txTokens), wallet.tokenSignatures))]
    ensures Consistent(s) ==> Consistent(r.state)
  {
    var custom := CustomTokens(s.txTokens);
    if |custom| == 0 then ExecuteSendLedgerStep(s, wallet, prepared)
    else
      var missing := MissingSignatures(custom, wallet.tokenSignatures);
      MissingIsFilterOfSelection(s.txTokens, wallet.tokenSignatures);
      if |missing| != 0 then
        Outcome(s.(alertTitle := Some(UnverifiedTokensTitle), alertBody := TokenList(missing),
                   open := s.open + {LedgerAlertModal}), None)
      else
        NoMissingSignatures(custom, wallet.tokenSignatures);
        Outcome(s.(sent := s.sent + [SendTokensRequest(TokenSignatures(custom, wallet.tokenSignatures))]), None)
  }

  /** The unverified tokens listed are exactly the selected custom tokens
      without a stored signature, in selection order. */
  lemma {:induction false} MissingIsFilterOfSelection(ts: seq<Token>, signatures: map<string, string>)
    ensures MissingSignatures(CustomTokens(ts), signatures) ==
      Filter(ts, UnsignedCustom(signatures))
    decreases |ts|
  {
    if |ts| > 0 {
      var init := ts[..|ts| - 1];
      var t := ts[|ts| - 1];
      assert ts == init + [t];
      MissingIsFilterOfSelection(init, signatures);
      FilterSnoc(init, t, IsCustom);
      FilterSnoc(init, t, UnsignedCustom(signatures));
      assert UnsignedCustom(signatures)(t) == (IsCustom(t) && Unsigned(signatures)(t));
      if IsCustom(t) {
        FilterSnoc(CustomTokens(init), t, Unsigned(signatures));
      } else {
        assert CustomTokens(ts) == CustomTokens(init) + [] == CustomTokens(init);
        assert MissingSignatures(CustomTokens(ts), signatures) == MissingSignatures(CustomTokens(init), signatures);
        assert Filter(ts, UnsignedCustom(signatures)) == Filter(init, UnsignedCustom(signatures)) + []
            == Filter(init, UnsignedCustom(signatures));
      }
    }
  }

  /** The primary token is never sent to the device for verification: every
      entry of a `sendTokens` request from `beforeSendLedger` is a custom
      token of the selection, carrying its stored signature. */
  lemma TokenRequestHasOnlyCustomTokens(s: State, wallet: Wallet, prepared: Result<TxData, Error>)
    requires |CustomTokens(s.txTokens)| > 0
    requires |MissingSignatures(CustomTokens(s.txTokens), wallet.tokenSignatures)| == 0
    ensures var r := BeforeSendLedgerStep(s, wallet, prepared);
      |r.state.sent| == |s.sent| + 1 && r.state.sent[|s.sent|].SendTokensRequest? &&
      forall e :: e in r.state.sent[|s.sent|].tokens ==>
        e.uid != HathorUid && e.uid in wallet.tokenSignatures && e.signature == wallet.tokenSignatures[e.uid] &&
        exists t :: t in s.txTokens && t.uid == e.uid && t.symbol == e.symbol && t.name == e.name
  {
    var custom := CustomTokens(s.txTokens);
    NoMissingSignatures(custom, wallet.tokenSignatures);
    var entries := TokenSignatures(custom, wallet.tokenSignatures);
    forall e | e in entries
      ensures e.uid != HathorUid && e.uid in wallet.tokenSignatures && e.signature == wallet.tokenSignatures[e.uid]
      ensures exists t :: t in s.txTokens && t.uid == e.uid && t.symbol == e.symbol && t.name == e.name
    {
      var i :| 0 <= i < |entries| && entries[i] == e;
      assert custom[i] in s.txTokens;
    }
  }

  /** `handleSendToken`: the device's answer to `sendTokens`. No failed uid:
      go on to `executeSendLedger`; some failed uids: list the selected tokens
      with those uids, in selection order, and request nothing; a failure
      is a Ledger error. */
  function HandleSendTokenStep(s: State, reply: DeviceReply<seq<string>>, wallet: Wallet, prepared: Result<TxData, Error>): (r: Outcome)
    ensures reply.Ok? && |reply.data| == 0 ==> r == ExecuteSendLedgerStep(s, wallet, prepared)
    ensures reply.Ok? && |reply.data| > 0 ==>
      r.thrown == None && r.state.sent == s.sent && LedgerAlertModal in r.state.open &&
      r.state.alertTitle == Some(InvalidTokensTitle) &&
      r.state.alertBody == TokenList(FailedTokens(s.txTokens, reply.data))
    ensures reply.Failed? ==>
      r.thrown == None && r.state.sent == s.sent &&
      r.state.errorMessage == reply.message && r.state.ledgerStep == 0
    ensures Consistent(s) ==> Consistent(r.state)
  {
    match reply
    case Ok(failed) =>
      if |failed| == 0 then ExecuteSendLedgerStep(s, wallet, prepared)
      else
        Outcome(s.(alertTitle := Some(InvalidTokensTitle), alertBody := TokenList(FailedTokens(s.txTokens, failed)),
                   open := s.open + {LedgerAlertModal}), None)
    case Failed(message) => HandleSendErrorStep(s, Error(LedgerError, message))
  }

  /** `handleTxSent`: once the device accepted the outputs, ask it for the
      signatures of the prepared data; a failure is a Ledger error. */
  function HandleTxSentStep(s: State, reply: DeviceReply<()>, keys: map<string, nat>): (r: Outcome)
    ensures r.thrown == None
    ensures reply.Ok? ==> r.state == s.(sent := s.sent + [GetSignaturesRequest(s.data, keys)])
    ensures reply.Failed? ==> r.state.sent == s.sent && r.state.errorMessage == reply.message && r.state.ledgerStep == 0
    ensures Consistent(s) ==> Consistent(r.state)
  {
    match reply
    case Ok(_) => Outcome(s.(sent := s.sent + [GetSignaturesRequest(s.data, keys)]), None)
    case Failed(message) => HandleSendErrorStep(s, Error(LedgerError, message))
  }

  /** `onLedgerSuccess`: attach the signatures, in the order the device gave
      them, to the prepared transaction and move to the sending step;
      `attachError` is what `prepareTxFrom` throws, if it throws. */
  function OnLedgerSuccessStep(s: State, signatures: seq<string>, attachError: Option<Error>): (r: Outcome)
    ensures s.sendTransaction.Some? && attachError.None? ==>
      r.thrown == None && r.state.ledgerStep == 1 && r.state.ledgerModalTitle == SendingTransactionTitle &&
      r.state.sendTransaction == Some(s.sendTransaction.value.(signatures := Some(signatures))) &&
      r.state.sent == s.sent && r.state.errorMessage == s.errorMessage
    ensures s.sendTransaction.None? ==> r == Outcome(s, Some(NullSendTransactionCrash))
    ensures s.sendTransaction.Some? && attachError.Some? ==> r == HandleSendErrorStep(s, attachError.value)
    ensures Consistent(s) ==> Consistent(r.state)
  {
    match s.sendTransaction
    case None => HandleSendErrorStep(s, NullSendTransactionCrash)
    case Some(tx) =>
      match attachError
      case Some(e) => HandleSendErrorStep(s, e)
      case None =>
        Outcome(s.(sendTransaction := Some(tx.(signatures := Some(signatures))), ledgerStep := 1,
                   ledgerModalTitle := SendingTransactionTitle), None)
  }

  /** `handleSignatures`: the device's signatures, or a Ledger error. */
  function HandleSignaturesStep(s: State, reply: DeviceReply<seq<string>>, attachError: Option<Error>): (r: Outcome)
    ensures reply.Ok? ==> r == OnLedgerSuccessStep(s, reply.data, attachError)
    ensures reply.Failed? ==>
      r.thrown == None && r.state.sent == s.sent && r.state.errorMessage == reply.message && r.state.ledgerStep == 0
    ensures Consistent(s) ==> Consistent(r.state)
  {
    match reply
    case Ok(signatures) => OnLedgerSuccessStep(s, signatures, attachError)
    case Failed(message) => HandleSendErrorStep(s, Error(LedgerError, message))
  }

  /** `beforeSend`: an invalid form, or any sub-form answering nothing, stops
      the attempt with nothing changed; otherwise the aggregated data is
      stored and the attempt goes to the PIN modal (software wallet) or to
      `beforeSendLedger` (hardware wallet), a thrown error going through
      `handleSendError`. */
  function BeforeSendStep(s: State, formValid: bool, forms: RefId -> Option<SubFormData>,
                          wallet: Wallet, prepared: Result<TxData, Error>): (r: Outcome)
    ensures !formValid || Aggregate(s.references, forms).None? ==> r == Outcome(s, None)
    ensures formValid && Aggregate(s.references, forms).Some? && wallet.kind.SoftwareWallet? ==>
      r == Outcome(s.(errorMessage := "", data := Aggregate(s.references, forms), open := s.open + {PinModal}), None)
    ensures formValid && Aggregate(s.references, forms).Some? && wallet.kind.HardwareWallet? ==>
      var s1 := s.(errorMessage := "", data := Aggregate(s.references, forms));
      var o := BeforeSendLedgerStep(s1, wallet, prepared);
      r == (if o.thrown.Some? then HandleSendErrorStep(o.state, o.thrown.value) else o)
    ensures Consistent(s) ==> Consistent(r.state)
  {
    if !formValid then Outcome(s, None)
    else
      match Aggregate(s.references, forms)
      case None => Outcome(s, None)
      case Some(d) =>
        var s1 := s.(errorMessage := "", data := Some(d));
        if wallet.kind.SoftwareWallet? then Outcome(s1.(open := s1.open + {PinModal}), None)
        else
          var o := BeforeSendLedgerStep(s1, wallet, prepared);
          if o.thrown.Some? then HandleSendErrorStep(o.state, o.thrown.value) else o
  }

  /** An attempt stopped by the form or by a sub-form reaches no signing
      path: no modal opens, no device request is sent, no data is stored. */
  lemma BeforeSendStopsEarly(s: State, formValid: bool, forms: RefId -> Option<SubFormData>,
                             wallet: Wallet, prepared: Result<TxData, Error>, i: nat)
    requires i < |s.references| && forms(s.references[i]).None?
    ensures BeforeSendStep(s, formValid, forms, wallet, prepared) == Outcome(s, None)
  {
  }

  /** A hardware attempt with only the primary token sends no `sendTokens`:
      it goes straight to the output confirmation. */
  lemma {:induction false} OnlyHathorSkipsTokenVerification(s: State, wallet: Wallet, prepared: Result<TxData, Error>)
    requires forall i :: 0 <= i < |s.txTokens| ==> s.txTokens[i].uid == HathorUid
    ensures BeforeSendLedgerStep(s, wallet, prepared) == ExecuteSendLedgerStep(s, wallet, prepared)
    ensures forall k :: |s.sent| <= k < |BeforeSendLedgerStep(s, wallet, prepared).state.sent| ==>
      BeforeSendLedgerStep(s, wallet, prepared).state.sent[k].SendTxRequest?
  {
  }

  // ---------------------------------------------------------------------
  // Editing the token list
  // ---------------------------------------------------------------------

  /** The uids of a token list. */
  function UidsOf(ts: seq<Token>): set<string>
  {
    set i | 0 <= i < |ts| :: ts[i].uid
  }

  predicate UidsDistinct(ts: seq<Token>)
  {
    forall i, j :: 0 <= i < j < |ts| ==> ts[i].uid != ts[j].uid
  }

  /** What the screen expects of its token lists: the known tokens
      (`props.tokens`) have distinct uids, and the selection is made of
      distinct known tokens. */
  predicate SelectionDrawnFrom(selected: seq<Token>, known: seq<Token>)
  {
    UidsDistinct(known) && UidsDistinct(selected) && UidsOf(selected) <= UidsOf(known)
  }

  /** The first known token, in the wallet's order, whose uid is not yet
      among the selected tokens. */
  function FirstUnselected(known: seq<Token>, selected: seq<Token>): (r: Option<Token>)
    ensures r.Some? ==>
      exists i :: 0 <= i < |known| && known[i] == r.value &&
        r.value.uid !in UidsOf(selected) && forall j :: 0 <= j < i ==> known[j].uid in UidsOf(selected)
    ensures r.None? <==> forall i :: 0 <= i < |known| ==> known[i].uid in UidsOf(selected)
  {
    if |known| == 0 then None
    else if known[0].uid !in UidsOf(selected) then Some(known[0])
    else
      var rest := FirstUnselected(known[1..], selected);
      assert forall i :: 1 <= i < |known| ==> known[i] == known[1..][i - 1];
      rest
  }

  lemma {:induction false} DistinctUidsCount(ts: seq<Token>)
    requires UidsDistinct(ts)
    ensures |UidsOf(ts)| == |ts|
    decreases |ts|
  {
    if |ts| > 0 {
      var init := ts[..|ts| - 1];
      DistinctUidsCount(init);
      assert UidsOf(ts) == UidsOf(init) + {ts[|ts| - 1].uid};
      assert ts[|ts| - 1].uid !in UidsOf(init);
    }
  }

  /** While fewer tokens are selected than are known, an unselected known
      token exists, so `addAnotherToken` always has something to add. */
  lemma UnselectedExists(known: seq<Token>, selected: seq<Token>)
    requires SelectionDrawnFrom(selected, known)
    requires |selected| != |known|
    ensures FirstUnselected(known, selected).Some?
  {
    DistinctUidsCount(known);
    DistinctUidsCount(selected);
    var known', selected' := UidsOf(known), UidsOf(selected);
    assert known' == selected' + (known' - selected');
    var u :| u in known' - selected';
    var i :| 0 <= i < |known| && known[i].uid == u;
    assert known[i].uid !in UidsOf(selected);
  }

  /** `addAnotherToken`. On a hardware wallet: an unsupported device opens the
      "not supported" modal, and a selection already at the custom-token limit
      opens the limit alert; both add nothing. When every known token is
      selected the error message says so. Otherwise the first known token not
      yet selected is appended, with one new reference. */
  function AddAnotherTokenStep(s: State, wallet: Wallet, known: seq<Token>): (r: State)
    requires SelectionDrawnFrom(s.txTokens, known)
    ensures wallet.kind.HardwareWallet? && !wallet.customTokenAllowed ==>
      r == s.(open := s.open + {NotSupportedModal})
    ensures (wallet.kind.HardwareWallet? && wallet.customTokenAllowed &&
             |CustomTokens(s.txTokens)| == LedgerTxCustomTokenLimit) ==>
      r.txTokens == s.txTokens && r.references == s.references &&
      r.alertTitle == Some(TokenLimitTitle) && r.alertBody == TokenLimitNotice(LedgerTxCustomTokenLimit)
    // the limit alert is shown and nothing else changes
    ensures (wallet.kind.HardwareWallet? && wallet.customTokenAllowed &&
             |CustomTokens(s.txTokens)| == LedgerTxCustomTokenLimit) ==>
      r == s.(alertTitle := Some(TokenLimitTitle), alertBody := TokenLimitNotice(LedgerTxCustomTokenLimit),
              open := s.open + {LedgerAlertModal})
    ensures (wallet.kind.SoftwareWallet? ||
             (wallet.customTokenAllowed && |CustomTokens(s.txTokens)| != LedgerTxCustomTokenLimit)) ==>
      if |s.txTokens| == |known| then
        r == s.(errorMessage := AllTokensAddedMessage)
      else
        FirstUnselected(known, s.txTokens).Some? &&
        r == s.(txTokens := s.txTokens + [FirstUnselected(known, s.txTokens).value],
                references := s.references + [s.nextRef], nextRef := s.nextRef + 1)
    ensures SelectionDrawnFrom(r.txTokens, known)
    ensures Consistent(s) ==> Consistent(r)
    // the custom-token limit is never crossed by adding on a hardware wallet
    ensures wallet.kind.HardwareWallet? && |CustomTokens(s.txTokens)| <= LedgerTxCustomTokenLimit ==>
      |CustomTokens(r.txTokens)| <= LedgerTxCustomTokenLimit
  {
    if wallet.kind.HardwareWallet? && !wallet.customTokenAllowed then
      s.(open := s.open + {NotSupportedModal})
    else if wallet.kind.HardwareWallet? && |CustomTokens(s.txTokens)| == LedgerTxCustomTokenLimit then
      s.(alertTitle := Some(TokenLimitTitle), alertBody := TokenLimitNotice(LedgerTxCustomTokenLimit),
         open := s.open + {LedgerAlertModal})
    else if |s.txTokens| == |known| then
      s.(errorMessage := AllTokensAddedMessage)
    else
      UnselectedExists(known, s.txTokens);
      var newToken := FirstUnselected(known, s.txTokens).value;
      AppendPreservesSelection(s.txTokens, known, newToken);
      FilterSnoc(s.txTokens, newToken, IsCustom);
      s.(txTokens := s.txTokens + [newToken], references := s.references + [s.nextRef], nextRef := s.nextRef + 1)
  }

  lemma AppendPreservesSelection(selected: seq<Token>, known: seq<Token>, t: Token)
    requires SelectionDrawnFrom(selected, known)
    requires t in known && t.uid !in UidsOf(selected)
    ensures SelectionDrawnFrom(selected + [t], known)
  {
    var s' := selected + [t];
    forall u | u in UidsOf(s') ensures u in UidsOf(selected) + {t.uid} {
      var i :| 0 <= i < |s'| && s'[i].uid == u;
      if i < |selected| {
        assert selected[i].uid == u;
      }
    }
    forall u | u in UidsOf(selected) ensures u in UidsOf(s') {
      var i :| 0 <= i < |selected| && selected[i].uid == u;
      assert s'[i].uid == u;
    }
    assert s'[|selected|].uid == t.uid;
    forall i, j | 0 <= i < j < |s'| ensures s'[i].uid != s'[j].uid {
      if j == |selected| {
        assert s'[i].uid in UidsOf(selected);
      }
    }
  }

  /** `tokenSelectChange`: the sub-form at `index` now holds `selected`; only
      that entry changes, the references stay. */
  function TokenSelectChangeStep(s: State, selected: Token, index: nat): (r: State)
    requires index < |s.txTokens|
    ensures |r.txTokens| == |s.txTokens| && r.txTokens[index] == selected
    ensures forall i :: 0 <= i < |s.txTokens| && i != index ==> r.txTokens[i] == s.txTokens[i]
    ensures r.references == s.references
    ensures Consistent(s) ==> Consistent(r)
  {
    s.(txTokens := s.txTokens[index := selected])
  }

  /** Replacing the leading HTR of a selection by a custom token puts that
      token in front of the selection's custom tokens. */
  lemma CustomTokensAfterReplacingHathor(ts: seq<Token>, t: Token)
    requires |ts| > 0 && ts[0] == HathorToken && IsCustom(t)
    ensures CustomTokens(ts[0 := t]) == [t] + CustomTokens(ts)
  {
    var rest := ts[1..];
    assert Filter([HathorToken], IsCustom) == [] by {
      FilterSnoc([], HathorToken, IsCustom);
      assert [] + [HathorToken] == [HathorToken];
    }
    assert Filter([t], IsCustom) == [t] by {
      FilterSnoc([], t, IsCustom);
      assert [] + [t] == [t];
    }
    assert CustomTokens(ts) == CustomTokens(rest) by {
      assert ts == [HathorToken] + rest;
      FilterAppend([HathorToken], rest, IsCustom);
    }
    assert CustomTokens(ts[0 := t]) == [t] + CustomTokens(rest) by {
      assert ts[0 := t] == [t] + rest;
      FilterAppend([t], rest, IsCustom);
    }
  }

  /** The custom-token limit of the Ledger path is checked only when a
      sub-form is added. Changing the HTR sub-form of a selection already at
      the limit to one more custom token is not refused, and
      `beforeSendLedger` then asks the device to verify one token more than
      the limit. */
  lemma TokenLimitOnlyCheckedOnAdd(s: State, wallet: Wallet, prepared: Result<TxData, Error>, t: Token)
    requires |s.txTokens| > 0 && s.txTokens[0] == HathorToken
    requires |CustomTokens(s.txTokens)| == LedgerTxCustomTokenLimit
    requires IsCustom(t) && t.uid in wallet.tokenSignatures
    requires forall i :: 0 <= i < |s.txTokens| && IsCustom(s.txTokens[i]) ==> s.txTokens[i].uid in wallet.tokenSignatures
    ensures var changed := TokenSelectChangeStep(s, t, 0);
      |CustomTokens(changed.txTokens)| == LedgerTxCustomTokenLimit + 1 &&
      var r := BeforeSendLedgerStep(changed, wallet, prepared);
      |r.state.sent| == |s.sent| + 1 && r.state.sent[|s.sent|].SendTokensRequest? &&
      |r.state.sent[|s.sent|].tokens| == LedgerTxCustomTokenLimit + 1
  {
    var changed := TokenSelectChangeStep(s, t, 0);
    assert changed.txTokens == s.txTokens[0 := t];
    CustomTokensAfterReplacingHathor(s.txTokens, t);
    var before := CustomTokens(s.txTokens);
    var custom := CustomTokens(changed.txTokens);
    assert custom == [t] + before;
    forall i | 0 <= i < |custom| ensures custom[i].uid in wallet.tokenSignatures {
      if i > 0 {
        assert custom[i] == before[i - 1];
        assert before[i - 1] in s.txTokens && IsCustom(before[i - 1]);
      }
    }
    NoMissingSignatures(custom, wallet.tokenSignatures);
    assert |MissingSignatures(custom, wallet.tokenSignatures)| == 0;
    var r := BeforeSendLedgerStep(changed, wallet, prepared);
    assert r.state.sent == s.sent + [SendTokensRequest(TokenSignatures(custom, wallet.tokenSignatures))];
  }

  /** `removeToken`: the entry at `index` leaves both the selection and the
      references (`splice(index, 1)` on both), keeping them aligned. */
  function RemoveTokenStep(s: State, index: nat): (r: State)
    ensures index < |s.txTokens| && Consistent(s) ==>
      |r.txTokens| == |s.txTokens| - 1 && |r.references| == |r.txTokens| &&
      forall i :: 0 <= i < |r.txTokens| ==>
        r.txTokens[i] == s.txTokens[if i < index then i else i + 1] &&
        r.references[i] == s.references[if i < index then i else i + 1]
    ensures Consistent(s) ==> Consistent(r)
  {
    s.(txTokens := RemoveAt(s.txTokens, index), references := RemoveAt(s.references, index))
  }

  // ---------------------------------------------------------------------
  // The screen
  // ---------------------------------------------------------------------

  class SendTokens {
    var txTokens: seq<Token>
    var references: seq<RefId>
    var nextRef: nat
    var data: Option<TxData>
    var sendTransaction: Option<PendingTx>
    var errorMessage: string
    var ledgerStep: nat
    var ledgerModalTitle: string
    var alertTitle: Option<string>
    var alertBody: AlertBody
    var open: set<Dialog>
    var sent: seq<LedgerRequest>
    var effects: seq<Effect>

    ghost function Snapshot(): State
      reads this
    {
      State(txTokens, references, nextRef, data, sendTransaction, errorMessage, ledgerStep,
            ledgerModalTitle, alertTitle, alertBody, open, sent, effects)
    }

    ghost predicate Valid()
      reads this
    {
      Consistent(Snapshot())
    }

    constructor ()
      ensures Valid() && Snapshot() == InitialState()
    {
      txTokens := [HathorToken];
      references := [0];
      nextRef := 1;
      data := None;
      sendTransaction := None;
      errorMessage := "";
      ledgerStep := 0;
      ledgerModalTitle := ValidateOutputsTitle;
      alertTitle := None;
      alertBody := NoBody;
      open := {};
      sent := [];
      effects := [];
    }

    /** `getData`: ask each sub-form, in reference order, for its data. */
    method GetData(forms: RefId -> Option<SubFormData>) returns (r: Option<TxData>)
      ensures r == Aggregate(references, forms)
    {
      var acc := TxData([], [], []);
      var i := 0;
      while i < |references|
        invariant 0 <= i <= |references|
        invariant Aggregate(references[..i], forms) == Some(acc)
      {
        assert references[..i + 1][..i] == references[..i];
        var dataOne := forms(references[i]);
        if dataOne.None? {
          return None;
        }
        acc := TxData(acc.inputs + dataOne.value.inputs, acc.outputs + dataOne.value.outputs, acc.tokens);
        i := i + 1;
      }
      assert references[..i] == references;
      r := Some(acc);
    }

    method HandleSendError(e: Error) returns (thrown: Option<Error>)
      requires Valid()
      modifies this
      ensures Valid() && Outcome(Snapshot(), thrown) == HandleSendErrorStep(old(Snapshot()), e)
    {
      if IsRecoverable(e.kind) {
        open := open - {AlertModal};
        errorMessage := e.message;
        ledgerStep := 0;
        thrown := None;
      } else {
        thrown := Some(e);
      }
    }

    method OnSendError(message: string)
      requires Valid()
      modifies this
      ensures Valid() && Snapshot() == OnSendErrorStep(old(Snapshot()), message)
    {
      open := open - {AlertModal};
      errorMessage := message;
      ledgerStep := 0;
    }

    method OnSendSuccess()
      requires Valid()
      modifies this
      ensures Valid() && Snapshot() == OnSendSuccessStep(old(Snapshot()))
    {
      open := open - {AlertModal};
      effects := effects + [UpdateSharedAddress];
      effects := effects + [Navigate(WalletPath)];
    }

    method ExecuteSendLedger(wallet: Wallet, prepared: Result<TxData, Error>) returns (thrown: Option<Error>)
      requires Valid()
      modifies this
      ensures Valid() && Outcome(Snapshot(), thrown) == ExecuteSendLedgerStep(old(Snapshot()), wallet, prepared)
    {
      if data.None? {
        return Some(NullDataCrash);
      }
      sendTransaction := Some(PendingTx(data.value.inputs, data.value.outputs, None));
      if prepared.Failure? {
        errorMessage := prepared.error.message;
        ledgerStep := 0;
        return None;
      }
      data := Some(prepared.value);
      var changeInfo := CollectChangeInfo(data.value.outputs, wallet.keys);
      if changeInfo.None? {
        return Some(UnknownChangeKeyCrash);
      }
      var useOldProtocol := !wallet.customTokenAllowed;
      sent := sent + [SendTxRequest(data.value, changeInfo.value, useOldProtocol)];
      open := open + {AlertModal};
      thrown := None;
    }

    method BeforeSendLedger(wallet: Wallet, prepared: Result<TxData, Error>) returns (thrown: Option<Error>)
      requires Valid()
      modifies this
      ensures Valid() && Outcome(Snapshot(), thrown) == BeforeSendLedgerStep(old(Snapshot()), wallet, prepared)
    {
      var custom := CustomTokens(txTokens);
      if |custom| == 0 {
        thrown := ExecuteSendLedger(wallet, prepared);
        return;
      }
      var missing := MissingSignatures(custom, wallet.tokenSignatures);
      if |missing| != 0 {
        ShowUnverifiedTokens(missing);
        return None;
      }
      NoMissingSignatures(custom, wallet.tokenSignatures);
      Send(SendTokensRequest(TokenSignatures(custom, wallet.tokenSignatures)));
      thrown := None;
    }

    /** Shows the Ledger alert listing the tokens without a stored signature. */
    method ShowUnverifiedTokens(missing: seq<Token>)
      modifies this
      ensures Snapshot() == old(Snapshot()).(
        alertTitle := Some(UnverifiedTokensTitle), alertBody := TokenList(missing),
        open := old(open) + {LedgerAlertModal})
    {
      alertTitle := Some(UnverifiedTokensTitle);
      alertBody := TokenList(missing);
      open := open + {LedgerAlertModal};
    }

    /** Sends `request` to the Ledger device. */
    method Send(request: LedgerRequest)
      modifies this
      ensures Snapshot() == old(Snapshot()).(sent := old(sent) + [request])
    {
      sent := sent + [request];
    }

    method BeforeSend(formValid: bool, forms: RefId -> Option<SubFormData>, wallet: Wallet,
                      prepared: Result<TxData, Error>) returns (thrown: Option<Error>)
      requires Valid()
      modifies this
      ensures Valid() && Outcome(Snapshot(), thrown) == BeforeSendStep(old(Snapshot()), formValid, forms, wallet, prepared)
    {
      if !formValid {
        return None;
      }
      var aggregated := GetData(forms);
      if aggregated.None? {
        return None;
      }
      errorMessage := "";
      data := aggregated;
      if wallet.kind.SoftwareWallet? {
        open := open + {PinModal};
        return None;
      }
      thrown := BeforeSendLedger(wallet, prepared);
      if thrown.Some? {
        thrown := HandleSendError(thrown.value);
      }
    }

    method HandleSendToken(reply: DeviceReply<seq<string>>, wallet: Wallet, prepared: Result<TxData, Error>)
      returns (thrown: Option<Error>)
      requires Valid()
      modifies this
      ensures Valid() && Outcome(Snapshot(), thrown) == HandleSendTokenStep(old(Snapshot()), reply, wallet, prepared)
    {
      if reply.Failed? {
        thrown := HandleSendError(Error(LedgerError, reply.message));
        return;
      }
      if |reply.data| == 0 {
        thrown := ExecuteSendLedger(wallet, prepared);
        return;
      }
      var tokenList := FailedTokens(txTokens, reply.data);
      alertTitle := Some(InvalidTokensTitle);
      alertBody := TokenList(tokenList);
      open := open + {LedgerAlertModal};
      thrown := None;
    }

    method HandleTxSent(reply: DeviceReply<()>, keys: map<string, nat>) returns (thrown: Option<Error>)
      requires Valid()
      modifies this
      ensures Valid() && Outcome(Snapshot(), thrown) == HandleTxSentStep(old(Snapshot()), reply, keys)
    {
      if reply.Ok? {
        sent := sent + [GetSignaturesRequest(data, keys)];
        thrown := None;
      } else {
        thrown := HandleSendError(Error(LedgerError, reply.message));
      }
    }

    method OnLedgerSuccess(signatures: seq<string>, attachError: Option<Error>) returns (thrown: Option<Error>)
      requires Valid()
      modifies this
      ensures Valid() && Outcome(Snapshot(), thrown) == OnLedgerSuccessStep(old(Snapshot()), signatures, attachError)
    {
      if sendTransaction.None? {
        thrown := HandleSendError(NullSendTransactionCrash);
        return;
      }
      if attachError.Some? {
        thrown := HandleSendError(attachError.value);
        return;
      }
      sendTransaction := Some(sendTransaction.value.(signatures := Some(signatures)));
      ledgerStep := 1;
      ledgerModalTitle := SendingTransactionTitle;
      thrown := None;
    }

    method HandleSignatures(reply: DeviceReply<seq<string>>, attachError: Option<Error>) returns (thrown: Option<Error>)
      requires Valid()
      modifies this
      ensures Valid() && Outcome(Snapshot(), thrown) == HandleSignaturesStep(old(Snapshot()), reply, attachError)
    {
      if reply.Ok? {
        thrown := OnLedgerSuccess(reply.data, attachError);
      } else {
        thrown := HandleSendError(Error(LedgerError, reply.message));
      }
    }

    method AddAnotherToken(wallet: Wallet, known: seq<Token>)
      requires Valid() && SelectionDrawnFrom(txTokens, known)
      modifies this
      ensures Valid() && Snapshot() == AddAnotherTokenStep(old(Snapshot()), wallet, known)
    {
      if wallet.kind.HardwareWallet? {
        if !wallet.customTokenAllowed {
          open := open + {NotSupportedModal};
          return;
        }
        if |CustomTokens(txTokens)| == LedgerTxCustomTokenLimit {
          ShowTokenLimit();
          return;
        }
      }
      if |txTokens| == |known| {
        errorMessage := AllTokensAddedMessage;
        return;
      }
      UnselectedExists(known, txTokens);
      AppendToken(FirstUnselected(known, txTokens).value);
    }

    /** Shows the Ledger alert saying the custom-token limit is reached. */
    method ShowTokenLimit()
      modifies this
      ensures Snapshot() == old(Snapshot()).(
        alertTitle := Some(TokenLimitTitle), alertBody := TokenLimitNotice(LedgerTxCustomTokenLimit),
        open := old(open) + {LedgerAlertModal})
    {
      alertTitle := Some(TokenLimitTitle);
      alertBody := TokenLimitNotice(LedgerTxCustomTokenLimit);
      open := open + {LedgerAlertModal};
    }

    /** Adds `token` to the selection, with a new reference for its sub-form. */
    method AppendToken(token: Token)
      modifies this
      ensures Snapshot() == old(Snapshot()).(
        txTokens := old(txTokens) + [token], references := old(references) + [old(nextRef)],
        nextRef := old(nextRef) + 1)
    {
      references := references + [nextRef];
      nextRef := nextRef + 1;
      txTokens := txTokens + [token];
    }

    method TokenSelectChange(selected: Token, index: nat)
      requires Valid() && index < |txTokens|
      modifies this
      ensures Valid() && Snapshot() == TokenSelectChangeStep(old(Snapshot()), selected, index)
    {
      txTokens := txTokens[index := selected];
    }

    method RemoveToken(index: nat)
      requires Valid()
      modifies this
      ensures Valid() && Snapshot() == RemoveTokenStep(old(Snapshot()), index)
    {
      txTokens := RemoveAt(txTokens, index);
      references := RemoveAt(references, index);
    }
  }
}
