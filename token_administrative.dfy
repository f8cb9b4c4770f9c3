/** The administrative panel of one custom token: it sorts the wallet's
    unspent outputs of that token into mint authorities, melt authorities
    and the plain amount the wallet holds, and shows the form of the action
    the user picked (mint, melt, delegate or destroy an authority). */
module TokenAdmin {
  import opened Common

  /** An output of a transaction in the wallet's history: the fields the
      panel reads (`decoded.address`, `token`, `value`, `token_data`,
      `spent_by`) and the two it writes (`tx_id`, `index`). */
  datatype Output = Output(
    address: string,
    token: string,
    value: int,
    tokenData: int,
    spentBy: Option<string>,
    txId: Option<string>,
    index: Option<nat>)

  datatype Tx = Tx(txId: string, outputs: seq<Output>)

  /** The wallet library's answers about the current wallet and outputs. */
  datatype WalletLib = WalletLib(
    isAddressMine: string -> bool,
    isMintOutput: Output -> bool,
    isMeltOutput: Output -> bool,
    isAuthorityOutput: Output -> bool)

  /** An output the panel looks at: it is the wallet's, of this token, and unspent. */
  predicate Considered(lib: WalletLib, uid: string, o: Output)
  {
    lib.isAddressMine(o.address) && o.token == uid && o.spentBy.None?
  }

  /** The output tagged with the transaction it belongs to and its position there. */
  function Annotate(o: Output, txId: string, index: nat): (r: Output)
    ensures r.txId == Some(txId) && r.index == Some(index)
    ensures r.(txId := o.txId, index := o.index) == o
  {
    o.(txId := Some(txId), index := Some(index))
  }

  /** The considered outputs among the first `n` outputs of `tx`, annotated, in order. */
  function KeptOf(lib: WalletLib, uid: string, tx: Tx, n: nat): seq<Output>
    requires n <= |tx.outputs|
  {
    if n == 0 then []
    else
      KeptOf(lib, uid, tx, n - 1) +
      (if Considered(lib, uid, tx.outputs[n - 1]) then [Annotate(tx.outputs[n - 1], tx.txId, n - 1)] else [])
  }

  /** The considered outputs of the whole history, transaction by transaction. */
  function Candidates(lib: WalletLib, uid: string, history: seq<Tx>): seq<Output>
  {
    if |history| == 0 then []
    else
      var last := history[|history| - 1];
      Candidates(lib, uid, history[..|history| - 1]) + KeptOf(lib, uid, last, |last.outputs|)
  }

  /** Where a considered output goes; the tests run in this order. */
  datatype Bucket = MintBucket | MeltBucket | AmountBucket | NoBucket

  function BucketOf(lib: WalletLib, o: Output): (b: Bucket)
    ensures b == MintBucket <==> lib.isMintOutput(o)
    ensures b == MeltBucket <==> !lib.isMintOutput(o) && lib.isMeltOutput(o)
    ensures b == AmountBucket <==> !lib.isMintOutput(o) && !lib.isMeltOutput(o) && !lib.isAuthorityOutput(o)
  {
    if lib.isMintOutput(o) then MintBucket
    else if lib.isMeltOutput(o) then MeltBucket
    else if !lib.isAuthorityOutput(o) then AmountBucket
    else NoBucket
  }

  function InBucket(lib: WalletLib, b: Bucket): Output -> bool
  {
    o => BucketOf(lib, o) == b
  }

  function SumValues(os: seq<Output>): int
  {
    if |os| == 0 then 0 else SumValues(os[..|os| - 1]) + os[|os| - 1].value
  }

  /** What the panel should hold for `history`. */
  function MintOutputs(lib: WalletLib, uid: string, history: seq<Tx>): seq<Output>
  {
    Filter(Candidates(lib, uid, history), InBucket(lib, MintBucket))
  }

  function MeltOutputs(lib: WalletLib, uid: string, history: seq<Tx>): seq<Output>
  {
    Filter(Candidates(lib, uid, history), InBucket(lib, MeltBucket))
  }

  function WalletAmount(lib: WalletLib, uid: string, history: seq<Tx>): int
  {
    SumValues(Filter(Candidates(lib, uid, history), InBucket(lib, AmountBucket)))
  }

  /** Within a transaction: exactly the considered outputs, each tagged with
      the transaction's id and its own position. */
  lemma {:induction false} KeptOfExact(lib: WalletLib, uid: string, tx: Tx, n: nat, o: Output)
    requires n <= |tx.outputs|
    ensures o in KeptOf(lib, uid, tx, n) <==>
      exists k :: 0 <= k < n && Considered(lib, uid, tx.outputs[k]) && o == Annotate(tx.outputs[k], tx.txId, k)
    decreases n
  {
    if n > 0 {
      KeptOfExact(lib, uid, tx, n - 1, o);
    }
  }

  /** The considered outputs of the history are exactly the outputs that are
      mine, of this token and unspent, each annotated with its transaction's
      id and its position in that transaction. */
  lemma {:induction false} CandidatesExact(lib: WalletLib, uid: string, history: seq<Tx>, o: Output)
    ensures o in Candidates(lib, uid, history) <==>
      exists i, k :: 0 <= i < |history| && 0 <= k < |history[i].outputs| &&
        Considered(lib, uid, history[i].outputs[k]) && o == Annotate(history[i].outputs[k], history[i].txId, k)
    decreases |history|
  {
    if |history| > 0 {
      var init := history[..|history| - 1];
      var last := history[|history| - 1];
      CandidatesExact(lib, uid, init, o);
      KeptOfExact(lib, uid, last, |last.outputs|, o);
      assert forall i :: 0 <= i < |init| ==> init[i] == history[i];
      if o in Candidates(lib, uid, history) {
        if o in KeptOf(lib, uid, last, |last.outputs|) {
          var k :| 0 <= k < |last.outputs| && Considered(lib, uid, last.outputs[k]) && o == Annotate(last.outputs[k], last.txId, k);
          assert history[|history| - 1].outputs[k] == last.outputs[k];
        }
      } else {
        forall i, k | 0 <= i < |history| && 0 <= k < |history[i].outputs| && Considered(lib, uid, history[i].outputs[k])
          ensures o != Annotate(history[i].outputs[k], history[i].txId, k)
        {
          if i == |history| - 1 {
            assert history[i] == last;
          } else {
            assert history[i] == init[i];
          }
        }
      }
    }
  }

  /** Within one transaction the outputs keep the order of `tx.outputs`. */
  lemma {:induction false} KeptOfOrdered(lib: WalletLib, uid: string, tx: Tx, n: nat)
    requires n <= |tx.outputs|
    ensures forall j :: 0 <= j < |KeptOf(lib, uid, tx, n)| ==>
      KeptOf(lib, uid, tx, n)[j].index.Some? && KeptOf(lib, uid, tx, n)[j].index.value < n
    ensures forall a, b :: 0 <= a < b < |KeptOf(lib, uid, tx, n)| ==>
      KeptOf(lib, uid, tx, n)[a].index.value < KeptOf(lib, uid, tx, n)[b].index.value
    decreases n
  {
    if n > 0 {
      KeptOfOrdered(lib, uid, tx, n - 1);
    }
  }

  /** The history is walked transaction by transaction: the outputs of an
      earlier transaction all come before those of a later one. */
  lemma {:induction false} CandidatesAppend(lib: WalletLib, uid: string, h1: seq<Tx>, h2: seq<Tx>)
    ensures Candidates(lib, uid, h1 + h2) == Candidates(lib, uid, h1) + Candidates(lib, uid, h2)
    decreases |h2|
  {
    if |h2| == 0 {
      assert h1 + h2 == h1;
    } else {
      var init := h2[..|h2| - 1];
      assert (h1 + h2)[..|h1 + h2| - 1] == h1 + init;
      assert (h1 + h2)[|h1 + h2| - 1] == h2[|h2| - 1];
      CandidatesAppend(lib, uid, h1, init);
    }
  }

  lemma {:induction false} SumValuesAppend(a: seq<Output>, b: seq<Output>)
    ensures SumValues(a + b) == SumValues(a) + SumValues(b)
    decreases |b|
  {
    if |b| == 0 {
      assert a + b == a;
    } else {
      var init := b[..|b| - 1];
      assert (a + b)[..|a + b| - 1] == a + init;
      SumValuesAppend(a, init);
    }
  }

  /** What one output adds to bucket `b`'s list: itself when it belongs there. */
  function Placed(lib: WalletLib, o: Output, b: Bucket): seq<Output>
  {
    if BucketOf(lib, o) == b then [o] else []
  }

  /** The scan of the first `n` outputs of `tx`, output by output: the
      considered outputs of bucket `b`, annotated, in order. */
  function ScanBucket(lib: WalletLib, uid: string, tx: Tx, n: nat, b: Bucket): seq<Output>
    requires n <= |tx.outputs|
  {
    if n == 0 then []
    else
      ScanBucket(lib, uid, tx, n - 1, b) +
      (if Considered(lib, uid, tx.outputs[n - 1]) then Placed(lib, Annotate(tx.outputs[n - 1], tx.txId, n - 1), b) else [])
  }

  /** Scanning output by output keeps, per bucket, exactly the considered
      outputs of that bucket: the filter of the kept outputs. */
  lemma {:induction false} ScanBucketIsFilter(lib: WalletLib, uid: string, tx: Tx, n: nat, b: Bucket)
    requires n <= |tx.outputs|
    ensures ScanBucket(lib, uid, tx, n, b) == Filter(KeptOf(lib, uid, tx, n), InBucket(lib, b))
    decreases n
  {
    if n > 0 {
      ScanBucketIsFilter(lib, uid, tx, n - 1, b);
      var before := KeptOf(lib, uid, tx, n - 1);
      var o := Annotate(tx.outputs[n - 1], tx.txId, n - 1);
      if Considered(lib, uid, tx.outputs[n - 1]) {
        FilterSnoc(before, o, InBucket(lib, b));
      } else {
        assert KeptOf(lib, uid, tx, n) == before;
      }
    }
  }

  /** One more output adds its value to the sum exactly when it is an amount output. */
  lemma SumValuesPlaced(lib: WalletLib, xs: seq<Output>, o: Output)
    ensures SumValues(xs + Placed(lib, o, AmountBucket)) ==
      SumValues(xs) + (if BucketOf(lib, o) == AmountBucket then o.value else 0)
  {
    if BucketOf(lib, o) == AmountBucket {
      assert (xs + [o])[..|xs + [o]| - 1] == xs;
    } else {
      assert xs + [] == xs;
    }
  }

  /** One more transaction of the history extends the lists by what it contributes. */
  lemma HistoryStep(lib: WalletLib, uid: string, history: seq<Tx>, i: nat)
    requires i < |history|
    ensures var kept := KeptOf(lib, uid, history[i], |history[i].outputs|);
      MintOutputs(lib, uid, history[..i + 1]) == MintOutputs(lib, uid, history[..i]) + Filter(kept, InBucket(lib, MintBucket)) &&
      MeltOutputs(lib, uid, history[..i + 1]) == MeltOutputs(lib, uid, history[..i]) + Filter(kept, InBucket(lib, MeltBucket)) &&
      WalletAmount(lib, uid, history[..i + 1]) ==
        WalletAmount(lib, uid, history[..i]) + SumValues(Filter(kept, InBucket(lib, AmountBucket)))
  {
    var seen := Candidates(lib, uid, history[..i]);
    var kept := KeptOf(lib, uid, history[i], |history[i].outputs|);
    assert history[..i + 1][..i] == history[..i];
    assert Candidates(lib, uid, history[..i + 1]) == seen + kept;
    FilterAppend(seen, kept, InBucket(lib, MintBucket));
    FilterAppend(seen, kept, InBucket(lib, MeltBucket));
    FilterAppend(seen, kept, InBucket(lib, AmountBucket));
    SumValuesAppend(Filter(seen, InBucket(lib, AmountBucket)), Filter(kept, InBucket(lib, AmountBucket)));
  }

  /** Sorting any list of outputs into the four buckets loses and repeats nothing. */
  lemma BucketsSplit(lib: WalletLib, c: seq<Output>)
    ensures multiset(Filter(c, InBucket(lib, MintBucket))) + multiset(Filter(c, InBucket(lib, MeltBucket))) +
            multiset(Filter(c, InBucket(lib, AmountBucket))) + multiset(Filter(c, InBucket(lib, NoBucket)))
            == multiset(c)
  {
    var m1 := multiset(Filter(c, InBucket(lib, MintBucket)));
    var m2 := multiset(Filter(c, InBucket(lib, MeltBucket)));
    var m3 := multiset(Filter(c, InBucket(lib, AmountBucket)));
    var m4 := multiset(Filter(c, InBucket(lib, NoBucket)));
    forall x ensures (m1 + m2 + m3 + m4)[x] == multiset(c)[x] {
      FilterMultiplicity(c, InBucket(lib, MintBucket), x);
      FilterMultiplicity(c, InBucket(lib, MeltBucket), x);
      FilterMultiplicity(c, InBucket(lib, AmountBucket), x);
      FilterMultiplicity(c, InBucket(lib, NoBucket), x);
      match BucketOf(lib, x)
      case MintBucket => assert m1[x] == multiset(c)[x] && m2[x] == 0 && m3[x] == 0 && m4[x] == 0;
      case MeltBucket => assert m2[x] == multiset(c)[x] && m1[x] == 0 && m3[x] == 0 && m4[x] == 0;
      case AmountBucket => assert m3[x] == multiset(c)[x] && m1[x] == 0 && m2[x] == 0 && m4[x] == 0;
      case NoBucket => assert m4[x] == multiset(c)[x] && m1[x] == 0 && m2[x] == 0 && m3[x] == 0;
    }
    assert m1 + m2 + m3 + m4 == multiset(c);
  }

  /** Every considered output lands in exactly one of the four buckets:
      together the mint list, the melt list, the amount outputs and the
      ignored ones are the considered outputs, nothing dropped or repeated. */
  lemma BucketsPartition(lib: WalletLib, uid: string, history: seq<Tx>)
    ensures var c := Candidates(lib, uid, history);
      multiset(MintOutputs(lib, uid, history)) + multiset(MeltOutputs(lib, uid, history)) +
      multiset(Filter(c, InBucket(lib, AmountBucket))) + multiset(Filter(c, InBucket(lib, NoBucket)))
      == multiset(c)
  {
    BucketsSplit(lib, Candidates(lib, uid, history));
  }

  /** The amount held is additive over the history's transactions. */
  lemma WalletAmountAppend(lib: WalletLib, uid: string, h1: seq<Tx>, h2: seq<Tx>)
    ensures WalletAmount(lib, uid, h1 + h2) == WalletAmount(lib, uid, h1) + WalletAmount(lib, uid, h2)
  {
    CandidatesAppend(lib, uid, h1, h2);
    FilterAppend(Candidates(lib, uid, h1), Candidates(lib, uid, h2), InBucket(lib, AmountBucket));
    SumValuesAppend(Filter(Candidates(lib, uid, h1), InBucket(lib, AmountBucket)),
                    Filter(Candidates(lib, uid, h2), InBucket(lib, AmountBucket)));
  }

  /** The action picked in the panel; `NoAction` is the empty string. */
  datatype Action = NoAction | Mint | Melt | DelegateMint | DelegateMelt | DestroyMint | DestroyMelt

  predicate OnMintAuthority(a: Action) { a == DelegateMint || a == DestroyMint }
  predicate OnMeltAuthority(a: Action) { a == DelegateMelt || a == DestroyMelt }

  /** The form shown under the panel, with the lists handed to it. */
  datatype View =
    | NoView
    | MintView(mintOutputs: seq<Output>)
    | MeltView(meltOutputs: seq<Output>, walletAmount: int)
    | DelegateView(delegated: Action, authorityOutputs: seq<Output>)
    | DestroyView(destroyed: Action, authorityOutputs: seq<Output>)

  /** `renderBottom`: the form for the selected action. */
  function BottomView(action: Action, mintOutputs: seq<Output>, meltOutputs: seq<Output>, walletAmount: int): (r: View)
    ensures action == NoAction <==> r == NoView
    ensures action == Mint <==> r == MintView(mintOutputs)
    ensures action == Melt <==> r == MeltView(meltOutputs, walletAmount)
    ensures action == DelegateMint <==> r == DelegateView(DelegateMint, mintOutputs)
    ensures action == DelegateMelt <==> r == DelegateView(DelegateMelt, meltOutputs)
    ensures action == DestroyMint <==> r == DestroyView(DestroyMint, mintOutputs)
    ensures action == DestroyMelt <==> r == DestroyView(DestroyMelt, meltOutputs)
  {
    match action
    case NoAction => NoView
    case Mint => MintView(mintOutputs)
    case Melt => MeltView(meltOutputs, walletAmount)
    case DelegateMint => DelegateView(action, mintOutputs)
    case DelegateMelt => DelegateView(action, meltOutputs)
    case DestroyMint => DestroyView(action, mintOutputs)
    case DestroyMelt => DestroyView(action, meltOutputs)
  }

  /** With the lists the panel computes, a delegate or destroy form on the
      mint authority only receives mint authorities, one on the melt
      authority only melt authorities, and all of them are unspent outputs
      of the wallet and of this token. */
  lemma AuthorityFormsGetMatchingOutputs(lib: WalletLib, uid: string, history: seq<Tx>, action: Action)
    requires OnMintAuthority(action) || OnMeltAuthority(action)
    ensures var v := BottomView(action, MintOutputs(lib, uid, history), MeltOutputs(lib, uid, history),
                                WalletAmount(lib, uid, history));
      forall j :: 0 <= j < |v.authorityOutputs| ==>
        (OnMintAuthority(action) ==> lib.isMintOutput(v.authorityOutputs[j])) &&
        (OnMeltAuthority(action) ==> lib.isMeltOutput(v.authorityOutputs[j]) && !lib.isMintOutput(v.authorityOutputs[j])) &&
        exists i, k :: 0 <= i < |history| && 0 <= k < |history[i].outputs| &&
          Considered(lib, uid, history[i].outputs[k]) &&
          v.authorityOutputs[j] == Annotate(history[i].outputs[k], history[i].txId, k)
  {
    var v := BottomView(action, MintOutputs(lib, uid, history), MeltOutputs(lib, uid, history),
                        WalletAmount(lib, uid, history));
    forall j | 0 <= j < |v.authorityOutputs|
      ensures v.authorityOutputs[j] in Candidates(lib, uid, history)
    {
    }
    forall j | 0 <= j < |v.authorityOutputs|
      ensures exists i, k ::
        0 <= i < |history| && 0 <= k < |history[i].outputs| &&
        Considered(lib, uid, history[i].outputs[k]) &&
        v.authorityOutputs[j] == Annotate(history[i].outputs[k], history[i].txId, k)
    {
      CandidatesExact(lib, uid, history, v.authorityOutputs[j]);
    }
  }

  class TokenAdministrative {
    var mintOutputs: seq<Output>
    var meltOutputs: seq<Output>
    var walletAmount: int
    var action: Action

    constructor ()
      ensures mintOutputs == [] && meltOutputs == [] && walletAmount == 0 && action == NoAction
    {
      mintOutputs := [];
      meltOutputs := [];
      walletAmount := 0;
      action := NoAction;
    }

    /** `updateWalletInfo`: recompute the three lists from the history of
        transactions, storing them together at the end. */
    method UpdateWalletInfo(history: seq<Tx>, uid: string, lib: WalletLib)
      modifies this
      ensures mintOutputs == MintOutputs(lib, uid, history)
      ensures meltOutputs == MeltOutputs(lib, uid, history)
      ensures walletAmount == WalletAmount(lib, uid, history)
      ensures action == old(action)
    {
      var mint: seq<Output> := [];
      var melt: seq<Output> := [];
      var amount := 0;
      var i := 0;
      while i < |history|
        invariant 0 <= i <= |history|
        invariant mint == MintOutputs(lib, uid, history[..i])
        invariant melt == MeltOutputs(lib, uid, history[..i])
        invariant amount == WalletAmount(lib, uid, history[..i])
        invariant action == old(action)
      {
        var tx := history[i];
        HistoryStep(lib, uid, history, i);
        mint, melt, amount := ScanTransaction(tx, uid, lib, mint, melt, amount);
        i := i + 1;
      }
      assert history[..i] == history;
      mintOutputs, meltOutputs, walletAmount := mint, melt, amount;
    }

    /** The inner loop of `updateWalletInfo` over one transaction's outputs:
        it skips outputs that are not the wallet's, not of this token, or
        spent, tags the others and sorts them into the three lists. */
    static method ScanTransaction(tx: Tx, uid: string, lib: WalletLib, mint: seq<Output>, melt: seq<Output>, amount: int)
      returns (mint': seq<Output>, melt': seq<Output>, amount': int)
      ensures mint' == mint + Filter(KeptOf(lib, uid, tx, |tx.outputs|), InBucket(lib, MintBucket))
      ensures melt' == melt + Filter(KeptOf(lib, uid, tx, |tx.outputs|), InBucket(lib, MeltBucket))
      ensures amount' == amount + SumValues(Filter(KeptOf(lib, uid, tx, |tx.outputs|), InBucket(lib, AmountBucket)))
    {
      mint', melt', amount' := mint, melt, amount;
      var index := 0;
      while index < |tx.outputs|
        invariant 0 <= index <= |tx.outputs|
        invariant mint' == mint + ScanBucket(lib, uid, tx, index, MintBucket)
        invariant melt' == melt + ScanBucket(lib, uid, tx, index, MeltBucket)
        invariant amount' == amount + SumValues(ScanBucket(lib, uid, tx, index, AmountBucket))
      {
        ghost var mints := ScanBucket(lib, uid, tx, index, MintBucket);
        ghost var melts := ScanBucket(lib, uid, tx, index, MeltBucket);
        ghost var amounts := ScanBucket(lib, uid, tx, index, AmountBucket);
        var output := tx.outputs[index];
        if !lib.isAddressMine(output.address) || output.token != uid || output.spentBy.Some? {
          assert mints + [] == mints && melts + [] == melts && amounts + [] == amounts;
        } else {
          output := output.(txId := Some(tx.txId), index := Some(index));
          Associative(mint, mints, Placed(lib, output, MintBucket));
          Associative(melt, melts, Placed(lib, output, MeltBucket));
          SumValuesPlaced(lib, amounts, output);
          mint', melt', amount' := PlaceOutput(lib, output, mint', melt', amount');
        }
        index := index + 1;
      }
      ScanBucketIsFilter(lib, uid, tx, |tx.outputs|, MintBucket);
      ScanBucketIsFilter(lib, uid, tx, |tx.outputs|, MeltBucket);
      ScanBucketIsFilter(lib, uid, tx, |tx.outputs|, AmountBucket);
    }

    /** The `if` chain inside the scan: an output goes to the mint list, the
        melt list or the amount, tested in that order, or nowhere. */
    static method PlaceOutput(lib: WalletLib, output: Output, mint: seq<Output>, melt: seq<Output>, amount: int)
      returns (mint': seq<Output>, melt': seq<Output>, amount': int)
      ensures mint' == mint + (if BucketOf(lib, output) == MintBucket then [output] else [])
      ensures melt' == melt + (if BucketOf(lib, output) == MeltBucket then [output] else [])
      ensures amount' == amount + (if BucketOf(lib, output) == AmountBucket then output.value else 0)
    {
      mint', melt', amount' := mint, melt, amount;
      if lib.isMintOutput(output) {
        mint' := mint + [output];
      } else if lib.isMeltOutput(output) {
        melt' := melt + [output];
      } else if !lib.isAuthorityOutput(output) {
        amount' := amount + output.value;
      }
    }

    /** `actionClicked`: clear the selection, then select `clicked`. */
    method ActionClicked(clicked: Action)
      modifies this
      ensures action == clicked
      ensures mintOutputs == old(mintOutputs) && meltOutputs == old(meltOutputs) && walletAmount == old(walletAmount)
    {
      CleanStates();
      action := clicked;
    }

    /** `cancelAction`: back to the panel with no action selected. */
    method CancelAction()
      modifies this
      ensures action == NoAction
      ensures mintOutputs == old(mintOutputs) && meltOutputs == old(meltOutputs) && walletAmount == old(walletAmount)
    {
      CleanStates();
    }

    /** `cleanStates`. */
    method CleanStates()
      modifies this
      ensures action == NoAction
      ensures mintOutputs == old(mintOutputs) && meltOutputs == old(meltOutputs) && walletAmount == old(walletAmount)
    {
      action := NoAction;
    }
  }
}
