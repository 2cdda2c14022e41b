/** The offerer's record as a value: its seven fields, the five operations that
    assign them, and what any sequence of those operations leaves behind. */
module OffererFields {
  import opened Collaborators

  /** The seven fields of the record. The first three are the transient
      collaborator references, the last four the persisted protocol values;
      `null` and `None` stand for Java's null. */
  datatype Record = Record(
    offer: Option<Offer>,
    walletService: Option<WalletService>,
    user: Option<User>,
    payoutTxSignature: array?<JByte>,
    payoutAmount: Option<Coin>,
    connectedOutputsForAllInputs: OutputList?,
    outputs: OutputList?)
  {
    /** All three collaborator references are set. */
    predicate Bound() {
      offer.Some? && walletService.Some? && user.Some?
    }
  }

  /** A freshly constructed record: every field null. */
  const Fresh: Record := Record(None, None, None, null, None, null, null)

  /** The five things one assignment can write: each persisted field alone,
      or the three collaborator references together. */
  datatype Field =
    | OutputsField
    | PayoutTxSignatureField
    | PayoutAmountField
    | ConnectedOutputsField
    | ServicesField

  /** The record's mutators, with their arguments. Every argument may be null. */
  datatype Op =
    | SetOutputs(outputs: OutputList?)
    | SetPayoutTxSignature(payoutTxSignature: array?<JByte>)
    | SetPayoutAmount(payoutAmount: Option<Coin>)
    | SetConnectedOutputsForAllInputs(connectedOutputsForAllInputs: OutputList?)
    | OnAllServicesInitialized(offer: Option<Offer>, walletService: Option<WalletService>, user: Option<User>)

  /** The field an operation writes. */
  function Target(op: Op): Field {
    match op
    case SetOutputs(_) => OutputsField
    case SetPayoutTxSignature(_) => PayoutTxSignatureField
    case SetPayoutAmount(_) => PayoutAmountField
    case SetConnectedOutputsForAllInputs(_) => ConnectedOutputsField
    case OnAllServicesInitialized(_, _, _) => ServicesField
  }

  /** The current value of field `f`, as the operation that would write it.
      The five fields have five different types; packing each value in its
      own mutator lets one lemma speak of "the value of field f" for every
      field at once, and compare it with the argument of a call. */
  function Current(s: Record, f: Field): (op: Op)
    ensures Target(op) == f
    ensures Step(s, op) == s  // writing the current value back changes nothing
  {
    match f
    case OutputsField => SetOutputs(s.outputs)
    case PayoutTxSignatureField => SetPayoutTxSignature(s.payoutTxSignature)
    case PayoutAmountField => SetPayoutAmount(s.payoutAmount)
    case ConnectedOutputsField => SetConnectedOutputsForAllInputs(s.connectedOutputsForAllInputs)
    case ServicesField => OnAllServicesInitialized(s.offer, s.walletService, s.user)
  }

  /** One plain assignment, with no check and no copy. */
  function Step(s: Record, op: Op): Record {
    match op
    case SetOutputs(l) => s.(outputs := l)
    case SetPayoutTxSignature(a) => s.(payoutTxSignature := a)
    case SetPayoutAmount(c) => s.(payoutAmount := c)
    case SetConnectedOutputsForAllInputs(l) => s.(connectedOutputsForAllInputs := l)
    case OnAllServicesInitialized(o, w, u) => s.(offer := o, walletService := w, user := u)
  }

  /** The record after the operations `ops`, in order. */
  function Run(s: Record, ops: seq<Op>): Record
    decreases |ops|
  {
    if ops == [] then s else Run(Step(s, ops[0]), ops[1..])
  }

  /** Running one more operation is one more step after the others; this is
      what lets a caller that makes its calls one at a time follow `Run`. */
  lemma {:induction false} RunAppend(s: Record, ops: seq<Op>, op: Op)
    ensures Run(s, ops + [op]) == Step(Run(s, ops), op)
    decreases |ops|
  {
    if ops != [] {
      assert (ops + [op])[1..] == ops[1..] + [op];
      RunAppend(Step(s, ops[0]), ops[1..], op);
    }
  }

  /** An operation stores exactly its argument in its own field and leaves
      every other field as it was. */
  lemma StepFrame(s: Record, op: Op, f: Field)
    ensures Current(Step(s, op), f) == if f == Target(op) then op else Current(s, f)
  {
  }

  /** Two writes to the same field keep only the second. */
  lemma SecondWriteWins(s: Record, a: Op, b: Op)
    requires Target(a) == Target(b)
    ensures Step(Step(s, a), b) == Step(s, b)
  {
  }

  /** Writes to different fields do not interfere. */
  lemma DistinctWritesCommute(s: Record, a: Op, b: Op)
    requires Target(a) != Target(b)
    ensures Step(Step(s, a), b) == Step(Step(s, b), a)
  {
  }

  /** A field that no operation of `ops` writes keeps its value. */
  lemma {:induction false} UntouchedFieldKeepsValue(s: Record, ops: seq<Op>, f: Field)
    requires forall i :: 0 <= i < |ops| ==> Target(ops[i]) != f
    ensures Current(Run(s, ops), f) == Current(s, f)
    decreases |ops|
  {
    if ops != [] {
      StepFrame(s, ops[0], f);
      assert forall i :: 0 <= i < |ops[1..]| ==> ops[1..][i] == ops[i + 1];
      UntouchedFieldKeepsValue(Step(s, ops[0]), ops[1..], f);
    }
  }

  /** After any sequence of operations, a field holds the argument of the last
      operation that wrote it: earlier writes are simply overwritten. */
  lemma {:induction false} LastWriteWins(s: Record, ops: seq<Op>, i: nat)
    requires i < |ops|
    requires forall j :: i < j < |ops| ==> Target(ops[j]) != Target(ops[i])
    ensures Current(Run(s, ops), Target(ops[i])) == ops[i]
    decreases |ops|
  {
    assert forall j :: 0 <= j < |ops[1..]| ==> ops[1..][j] == ops[j + 1];
    if i == 0 {
      StepFrame(s, ops[0], Target(ops[0]));
      UntouchedFieldKeepsValue(Step(s, ops[0]), ops[1..], Target(ops[0]));
    } else {
      LastWriteWins(Step(s, ops[0]), ops[1..], i - 1);
    }
  }

  /** Any number of (re)bindings leaves the four persisted fields as they were:
      only the three references change. */
  lemma {:induction false} BindingKeepsPersistedFields(s: Record, ops: seq<Op>)
    requires forall i :: 0 <= i < |ops| ==> ops[i].OnAllServicesInitialized?
    ensures var t := Run(s, ops);
      t.payoutTxSignature == s.payoutTxSignature && t.payoutAmount == s.payoutAmount &&
      t.connectedOutputsForAllInputs == s.connectedOutputsForAllInputs && t.outputs == s.outputs
  {
    UntouchedFieldKeepsValue(s, ops, OutputsField);
    UntouchedFieldKeepsValue(s, ops, PayoutTxSignatureField);
    UntouchedFieldKeepsValue(s, ops, PayoutAmountField);
    UntouchedFieldKeepsValue(s, ops, ConnectedOutputsField);
  }

  /** Setters never touch the references: a run without a binding is bound
      exactly when the record it started from was. */
  lemma {:induction false} SettersKeepBinding(s: Record, ops: seq<Op>)
    requires forall i :: 0 <= i < |ops| ==> !ops[i].OnAllServicesInitialized?
    ensures var t := Run(s, ops);
      t.offer == s.offer && t.walletService == s.walletService && t.user == s.user &&
      (t.Bound() <==> s.Bound())
  {
    UntouchedFieldKeepsValue(s, ops, ServicesField);
  }

  /** The record is bound after a run exactly when the last binding in it
      passed three non-null references; nothing refuses a second binding. */
  lemma {:induction false} BoundAfterLastBinding(s: Record, ops: seq<Op>, i: nat)
    requires i < |ops| && ops[i].OnAllServicesInitialized?
    requires forall j :: i < j < |ops| ==> !ops[j].OnAllServicesInitialized?
    ensures Run(s, ops).Bound() <==>
      ops[i].offer.Some? && ops[i].walletService.Some? && ops[i].user.Some?
  {
    LastWriteWins(s, ops, i);
  }
}
