/** Clients of the record: what a protocol step can rely on, and what it
    cannot, when it drives the record through its public operations. */
module OffererScenarios {
  import opened Collaborators
  import opened OffererFields
  import opened OffererModels

  /** A new Java byte array holding `bytes`. */
  method BytesOf(bytes: seq<JByte>) returns (a: array<JByte>)
    ensures fresh(a) && a[..] == bytes
  {
    a := new JByte[|bytes|](i requires 0 <= i < |bytes| => bytes[i]);
  }

  /** Stores the four protocol values through their setters. */
  method StorePayoutValues(r: Offerer, amount: Option<Coin>, sig: array?<JByte>, outs: OutputList?, connected: OutputList?)
    modifies r
    ensures r.Fields() == old(r.Fields()).(payoutAmount := amount, payoutTxSignature := sig,
                                           outputs := outs, connectedOutputsForAllInputs := connected)
  {
    r.SetPayoutAmount(amount);
    r.SetPayoutTxSignature(sig);
    r.SetOutputs(outs);
    r.SetConnectedOutputsForAllInputs(connected);
  }

  /** The first half of a handshake on a fresh record: bind, then store the
      four protocol values. The trade key read after binding is the wallet's
      key for the offer, and the record then saves exactly the four values. */
  method Populate(offer: Offer, wallet: WalletService, user: User, amount: Coin,
                  signature: seq<JByte>, outs: seq<TransactionOutput>, connected: seq<TransactionOutput>)
    returns (tradeKey: seq<JByte>, saved: Snapshot)
    ensures tradeKey == wallet.addressEntryFor(offer.id).pubKey
    ensures saved == Snapshot(Some(signature), Some(amount), Some(connected), Some(outs))
  {
    var sig := BytesOf(signature);
    var o := new OutputList(outs);
    var c := new OutputList(connected);
    var r := new Offerer();
    r.OnAllServicesInitialized(Some(offer), Some(wallet), Some(user));
    tradeKey := r.GetTradeWalletPubKey();
    StorePayoutValues(r, Some(amount), sig, o, c);
    assert r.Fields() == Record(Some(offer), Some(wallet), Some(user), sig, Some(amount), c, o);
    saved := r.Save();
  }

  /** A whole handshake: populate a fresh record as above, save it, and
      restore. The restored record holds the same contents and is not bound. */
  method Handshake(offer: Offer, wallet: WalletService, user: User, amount: Coin,
                   signature: seq<JByte>, outs: seq<TransactionOutput>, connected: seq<TransactionOutput>)
    returns (tradeKey: seq<JByte>, saved: Snapshot, restored: Snapshot, restoredBound: bool)
    ensures tradeKey == wallet.addressEntryFor(offer.id).pubKey
    ensures saved == Snapshot(Some(signature), Some(amount), Some(connected), Some(outs))
    ensures restored == saved
    ensures !restoredBound
  {
    tradeKey, saved := Populate(offer, wallet, user, amount, signature, outs, connected);
    var back := new Offerer.Restore(saved);
    restored := back.Save();
    restoredBound := back.Fields().Bound();
  }

  /** The record keeps the caller's list, not a copy: an output the caller
      appends after `SetOutputs` shows up through `GetOutputs`. */
  method OutputsListIsShared(o: TransactionOutput) returns (seen: seq<TransactionOutput>)
    ensures seen == [o]
  {
    var r := new Offerer();
    var mine := new OutputList([]);
    r.SetOutputs(mine);
    mine.Add(o);
    seen := r.GetOutputs().items;
  }

  /** The record keeps the caller's signature array, not a copy: a byte the
      caller overwrites after `SetPayoutTxSignature` is what the getter and a
      save then see. */
  method SignatureArrayIsShared(b: JByte) returns (seen: JByte, saved: Option<seq<JByte>>)
    ensures seen == b
    ensures saved == Some([b])
  {
    var r := new Offerer();
    var sig := new JByte[1](_ => 0);
    r.SetPayoutTxSignature(sig);
    sig[0] := b;
    assert sig[..] == [b];
    seen := r.GetPayoutTxSignature()[0];
    saved := r.Save().payoutTxSignature;
  }

  /** The signature is not write-once and the amount may be cleared: a second
      set replaces the first, and setting null makes the value absent again. */
  method SettersOverwriteAndClear(first: Coin, second: Coin, sig1: array<JByte>, sig2: array<JByte>)
    returns (amount: Option<Coin>, cleared: Option<Coin>, signature: array?<JByte>)
    ensures amount == Some(second)
    ensures cleared == None
    ensures signature == sig2
  {
    var r := new Offerer();
    r.SetPayoutAmount(Some(first));
    r.SetPayoutAmount(Some(second));
    amount := r.GetPayoutAmount();
    r.SetPayoutTxSignature(sig1);
    r.SetPayoutTxSignature(sig2);
    signature := r.GetPayoutTxSignature();
    r.SetPayoutAmount(None);
    cleared := r.GetPayoutAmount();
  }

  /** Binding twice is allowed and the second binding replaces the first; so is
      binding null, which leaves the record unbound. */
  method RebindingOverwrites(u1: User, u2: User, offer: Offer, wallet: WalletService)
    returns (accountId: string, boundAfterNull: bool)
    ensures accountId == u2.accountId
    ensures !boundAfterNull
  {
    var r := new Offerer();
    r.OnAllServicesInitialized(Some(offer), Some(wallet), Some(u1));
    r.OnAllServicesInitialized(Some(offer), Some(wallet), Some(u2));
    accountId := r.GetAccountId();
    r.OnAllServicesInitialized(None, Some(wallet), Some(u2));
    boundAfterNull := r.Fields().Bound();
  }

  /** Makes the call that `op` stands for on the record. */
  method Call(r: Offerer, op: Op)
    modifies r
    ensures r.Fields() == Step(old(r.Fields()), op)
  {
    match op
    case SetOutputs(l) => r.SetOutputs(l);
    case SetPayoutTxSignature(a) => r.SetPayoutTxSignature(a);
    case SetPayoutAmount(c) => r.SetPayoutAmount(c);
    case SetConnectedOutputsForAllInputs(l) => r.SetConnectedOutputsForAllInputs(l);
    case OnAllServicesInitialized(o, w, u) => r.OnAllServicesInitialized(o, w, u);
  }

  /** Makes the calls `ops` on the record, one at a time and in order: the
      record ends up as `Run` says, so every lemma about runs applies to it. */
  method CallAll(r: Offerer, ops: seq<Op>)
    modifies r
    ensures r.Fields() == Run(old(r.Fields()), ops)
  {
    ghost var start := r.Fields();
    var k := 0;
    while k < |ops|
      invariant 0 <= k <= |ops|
      invariant r.Fields() == Run(start, ops[..k])
    {
      Call(r, ops[k]);
      RunAppend(start, ops[..k], ops[k]);
      assert ops[..k + 1] == ops[..k] + [ops[k]];
      k := k + 1;
    }
    assert ops[..k] == ops;
  }

  /** On a live record, after any sequence of calls each field holds the
      argument of the last call that wrote it. */
  method LastCallWins(r: Offerer, ops: seq<Op>, i: nat)
    requires i < |ops|
    requires forall j :: i < j < |ops| ==> Target(ops[j]) != Target(ops[i])
    modifies r
    ensures Current(r.Fields(), Target(ops[i])) == ops[i]
  {
    CallAll(r, ops);
    LastWriteWins(old(r.Fields()), ops, i);
  }
}
