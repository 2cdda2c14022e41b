/** The types the offerer's record holds or reaches through.
    Their internals belong to other components (the offer, the wallet service,
    the user registry, bitcoinj); here they are opaque types, or datatypes that
    expose exactly the values and lookups the record uses. */
module Collaborators {

  /** A Java reference that may be null, for value-like types. */
  datatype Option<+T> = None | Some(value: T)

  /** A Java `byte`: a signed 8-bit integer. */
  newtype JByte = b: int | -128 <= b < 128

  /** bitcoinj `Coin`: an immutable amount. */
  type Coin(==)

  /** bitcoinj `TransactionOutput`. */
  type TransactionOutput(==)

  /** bitcoinj `DeterministicKey`: a key pair. */
  type KeyPair(==)

  /** `java.security.PublicKey`. */
  type PublicKey(==)

  /** A fiat bank account of the user. */
  type FiatAccount(==)

  /** A wallet address entry: its public key bytes and its key pair. */
  datatype AddressEntry = AddressEntry(pubKey: seq<JByte>, keyPair: KeyPair)

  /** What the record reads of an offer: its trade identifier and the
      identifier of the bank account it is paid into. */
  datatype Offer = Offer(id: string, bankAccountId: string)

  /** What the record reads of the wallet service: the registration address
      entry, and the address entry kept for each offer identifier. */
  datatype WalletService = WalletService(
    registrationAddressEntry: AddressEntry,
    addressEntryFor: string -> AddressEntry)

  /** What the record reads of the user: the account identifier, the two
      peer-to-peer public keys, and the fiat account for each bank account
      identifier. */
  datatype User = User(
    accountId: string,
    p2pSigPubKey: PublicKey,
    p2pEncryptPubKey: PublicKey,
    fiatAccountFor: string -> FiatAccount)

  /** A `java.util.List<TransactionOutput>`: a mutable object that the record
      and its callers may share. */
  class OutputList {
    var items: seq<TransactionOutput>

    constructor (items: seq<TransactionOutput>)
      ensures this.items == items
    {
      this.items := items;
    }

    /** `List.add`: appends at the end. */
    method Add(o: TransactionOutput)
      modifies this
      ensures items == old(items) + [o]
    {
      items := items + [o];
    }
  }
}
