/** The offerer's per-trade state record (`Offerer.java`): four persisted
    protocol values behind plain get/set pairs, three transient collaborator
    references bound after the backend services are ready, and read-only
    getters that reach through those references. */
module OffererModels {
  import opened Collaborators
  import opened OffererFields

  /** What survives a save and restore: the contents of the four persisted
      fields, read through their references. */
  datatype Snapshot = Snapshot(
    payoutTxSignature: Option<seq<JByte>>,
    payoutAmount: Option<Coin>,
    connectedOutputsForAllInputs: Option<seq<TransactionOutput>>,
    outputs: Option<seq<TransactionOutput>>)

  /** The values of the eight derived getters, each present exactly when the
      references it dereferences are set (otherwise the getter would throw). */
  datatype Derived = Derived(
    fiatAccount: Option<FiatAccount>,
    accountId: Option<string>,
    p2pSigPubKey: Option<PublicKey>,
    p2pEncryptPubKey: Option<PublicKey>,
    registrationPubKey: Option<seq<JByte>>,
    registrationKeyPair: Option<KeyPair>,
    addressEntry: Option<AddressEntry>,
    tradeWalletPubKey: Option<seq<JByte>>)

  class Offerer {
    // Transient: never saved, null until bound.
    var offer: Option<Offer>
    var walletService: Option<WalletService>
    var user: Option<User>

    // Persisted: saved and restored.
    var payoutTxSignature: array?<JByte>
    var payoutAmount: Option<Coin>
    var connectedOutputsForAllInputs: OutputList?
    var outputs: OutputList?  // amounts are checked against these, change outputs included

    /** The seven fields as a value. */
    function Fields(): Record
      reads this
    {
      Record(offer, walletService, user, payoutTxSignature, payoutAmount,
             connectedOutputsForAllInputs, outputs)
    }

    /** The record as saved: the persisted fields' contents, transient
        references dropped. */
    function Save(): Snapshot
      reads this, payoutTxSignature, connectedOutputsForAllInputs, outputs
    {
      Snapshot(
        if payoutTxSignature == null then None else Some(payoutTxSignature[..]),
        payoutAmount,
        if connectedOutputsForAllInputs == null then None else Some(connectedOutputsForAllInputs.items),
        if outputs == null then None else Some(outputs.items))
    }

    /** A new record: all four values absent, no reference bound. */
    constructor ()
      ensures Fields() == Fresh
      ensures !Fields().Bound()
      ensures Save() == Snapshot(None, None, None, None)
    {
      offer, walletService, user := None, None, None;
      payoutTxSignature, payoutAmount := null, None;
      connectedOutputsForAllInputs, outputs := null, null;
    }

    /** Deserialisation: the persisted fields come back with the saved
        contents, in newly allocated objects; the transient references stay
        null until bound again. */
    constructor Restore(s: Snapshot)
      ensures Save() == s
      ensures offer.None? && walletService.None? && user.None?
      ensures payoutTxSignature != null ==> fresh(payoutTxSignature)
      ensures connectedOutputsForAllInputs != null ==> fresh(connectedOutputsForAllInputs)
      ensures outputs != null ==> fresh(outputs)
      ensures outputs != null && connectedOutputsForAllInputs != null ==> outputs != connectedOutputsForAllInputs
    {
      offer, walletService, user := None, None, None;
      payoutAmount := s.payoutAmount;
      if s.payoutTxSignature.Some? {
        var bytes := s.payoutTxSignature.value;
        payoutTxSignature := new JByte[|bytes|](i requires 0 <= i < |bytes| => bytes[i]);
      } else {
        payoutTxSignature := null;
      }
      if s.connectedOutputsForAllInputs.Some? {
        connectedOutputsForAllInputs := new OutputList(s.connectedOutputsForAllInputs.value);
      } else {
        connectedOutputsForAllInputs := null;
      }
      if s.outputs.Some? {
        outputs := new OutputList(s.outputs.value);
      } else {
        outputs := null;
      }
      new;
      assert payoutTxSignature != null ==> payoutTxSignature[..] == s.payoutTxSignature.value;
    }

    /** Binds the three collaborators, overwriting any earlier binding; the
        persisted fields and what they refer to are left alone. */
    method OnAllServicesInitialized(offer: Option<Offer>, walletService: Option<WalletService>, user: Option<User>)
      modifies this
      ensures Fields() == Step(old(Fields()), Op.OnAllServicesInitialized(offer, walletService, user))
      ensures this.offer == offer && this.walletService == walletService && this.user == user
      ensures Save() == old(Save())
    {
      this.offer := offer;
      this.walletService := walletService;
      this.user := user;
    }

    // Derived getters. Each needs exactly the references it dereferences.

    function GetFiatAccount(): FiatAccount
      requires user.Some? && offer.Some?
      reads this
    {
      user.value.fiatAccountFor(offer.value.bankAccountId)
    }

    function GetAccountId(): string
      requires user.Some?
      reads this
    {
      user.value.accountId
    }

    function GetP2pSigPubKey(): PublicKey
      requires user.Some?
      reads this
    {
      user.value.p2pSigPubKey
    }

    function GetP2pEncryptPubKey(): PublicKey
      requires user.Some?
      reads this
    {
      user.value.p2pEncryptPubKey
    }

    function GetRegistrationPubKey(): seq<JByte>
      requires walletService.Some?
      reads this
    {
      walletService.value.registrationAddressEntry.pubKey
    }

    function GetRegistrationKeyPair(): KeyPair
      requires walletService.Some?
      reads this
    {
      walletService.value.registrationAddressEntry.keyPair
    }

    function GetAddressEntry(): AddressEntry
      requires walletService.Some? && offer.Some?
      reads this
    {
      walletService.value.addressEntryFor(offer.value.id)
    }

    function GetTradeWalletPubKey(): seq<JByte>
      requires walletService.Some? && offer.Some?
      reads this
    {
      GetAddressEntry().pubKey
    }

    /** All eight derived getters at once, `None` where the getter would
        dereference a null reference. */
    function DerivedGetters(): Derived
      reads this
    {
      var withUser := user.Some?;
      var withWallet := walletService.Some?;
      var withOffer := offer.Some?;
      Derived(
        if withUser && withOffer then Some(GetFiatAccount()) else None,
        if withUser then Some(GetAccountId()) else None,
        if withUser then Some(GetP2pSigPubKey()) else None,
        if withUser then Some(GetP2pEncryptPubKey()) else None,
        if withWallet then Some(GetRegistrationPubKey()) else None,
        if withWallet then Some(GetRegistrationKeyPair()) else None,
        if withWallet && withOffer then Some(GetAddressEntry()) else None,
        if withWallet && withOffer then Some(GetTradeWalletPubKey()) else None)
    }

    // Getter/setter pairs for the persisted fields: no check, no copy.

    function GetOutputs(): OutputList?
      reads this
    {
      outputs
    }

    method SetOutputs(outputs: OutputList?)
      modifies this
      ensures Fields() == Step(old(Fields()), Op.SetOutputs(outputs))
      ensures DerivedGetters() == old(DerivedGetters())
      ensures GetOutputs() == outputs
    {
      this.outputs := outputs;
    }

    function GetPayoutTxSignature(): array?<JByte>
      reads this
    {
      payoutTxSignature
    }

    method SetPayoutTxSignature(payoutTxSignature: array?<JByte>)
      modifies this
      ensures Fields() == Step(old(Fields()), Op.SetPayoutTxSignature(payoutTxSignature))
      ensures DerivedGetters() == old(DerivedGetters())
      ensures GetPayoutTxSignature() == payoutTxSignature
    {
      this.payoutTxSignature := payoutTxSignature;
    }

    function GetPayoutAmount(): Option<Coin>
      reads this
    {
      payoutAmount
    }

    method SetPayoutAmount(payoutAmount: Option<Coin>)
      modifies this
      ensures Fields() == Step(old(Fields()), Op.SetPayoutAmount(payoutAmount))
      ensures DerivedGetters() == old(DerivedGetters())
      ensures GetPayoutAmount() == payoutAmount
    {
      this.payoutAmount := payoutAmount;
    }

    function GetConnectedOutputsForAllInputs(): OutputList?
      reads this
    {
      connectedOutputsForAllInputs
    }

    method SetConnectedOutputsForAllInputs(connectedOutputsForAllInputs: OutputList?)
      modifies this
      ensures Fields() == Step(old(Fields()), Op.SetConnectedOutputsForAllInputs(connectedOutputsForAllInputs))
      ensures DerivedGetters() == old(DerivedGetters())
      ensures GetConnectedOutputsForAllInputs() == connectedOutputsForAllInputs
    {
      this.connectedOutputsForAllInputs := connectedOutputsForAllInputs;
    }
  }

  /** Two records whose persisted fields refer to the same objects save
      alike, whatever their transient references are: the references are
      never written. */
  lemma SaveIgnoresReferences(a: Offerer, b: Offerer)
    requires a.payoutTxSignature == b.payoutTxSignature && a.payoutAmount == b.payoutAmount
    requires a.connectedOutputsForAllInputs == b.connectedOutputsForAllInputs && a.outputs == b.outputs
    ensures a.Save() == b.Save()
  {
  }

  /** The derived getters read only the transient references: two records
      with the same references agree on all eight getters (including on which
      of them are defined), whatever their persisted fields hold. */
  lemma DerivedGettersReadOnlyReferences(a: Offerer, b: Offerer)
    requires a.offer == b.offer && a.walletService == b.walletService && a.user == b.user
    ensures a.DerivedGetters() == b.DerivedGetters()
  {
  }

  /** Each derived getter reads no more than its own collaborators: the
      account values and peer-to-peer keys only the user, the registration
      keys only the wallet, the fiat account only the user and the offer's
      bank account identifier, and the trade address entry and trade key only
      the wallet and the offer's identifier. */
  lemma EachGetterReadsOnlyItsCollaborators(a: Offerer, b: Offerer)
    ensures a.user.Some? && a.user == b.user ==>
      a.GetAccountId() == b.GetAccountId() &&
      a.GetP2pSigPubKey() == b.GetP2pSigPubKey() && a.GetP2pEncryptPubKey() == b.GetP2pEncryptPubKey()
    ensures a.walletService.Some? && a.walletService == b.walletService ==>
      a.GetRegistrationPubKey() == b.GetRegistrationPubKey() &&
      a.GetRegistrationKeyPair() == b.GetRegistrationKeyPair()
    ensures (a.user.Some? && a.user == b.user && a.offer.Some? && b.offer.Some? &&
             a.offer.value.bankAccountId == b.offer.value.bankAccountId) ==>
      a.GetFiatAccount() == b.GetFiatAccount()
    ensures (a.walletService.Some? && a.walletService == b.walletService && a.offer.Some? && b.offer.Some? &&
             a.offer.value.id == b.offer.value.id) ==>
      a.GetAddressEntry() == b.GetAddressEntry() && a.GetTradeWalletPubKey() == b.GetTradeWalletPubKey()
  {
  }

  /** Resuming after a restart: restoring a record from its save and binding
      the same collaborators again gives a new record that saves alike and
      answers every derived getter alike. Nothing needs to be bound for this. */
  method ResumeAfterRestart(r: Offerer) returns (back: Offerer)
    ensures back != r
    ensures back.Save() == r.Save()
    ensures back.offer == r.offer && back.walletService == r.walletService && back.user == r.user
    ensures back.DerivedGetters() == r.DerivedGetters()
  {
    back := new Offerer.Restore(r.Save());
    back.OnAllServicesInitialized(r.offer, r.walletService, r.user);
    DerivedGettersReadOnlyReferences(back, r);
  }
}
