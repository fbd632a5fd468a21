/**
 * `Transaction` of the home application: the three kinds of transaction,
 * their Portuguese display names, the select options built from them, and
 * the transaction object.  Amounts are integers (cents) and dates are
 * milliseconds since the epoch.
 */
module Transactions {
  import opened Wrappers

  datatype TransactionType = Deposit | Transfer | Payment

  /** The three kinds in declaration order. */
  const AllTypes: seq<TransactionType> := [Deposit, Transfer, Payment]

  /** The string value of a kind (`"Deposit"`, `"Transfer"`, `"Payment"`). */
  function TypeName(t: TransactionType): string {
    match t
    case Deposit => "Deposit"
    case Transfer => "Transfer"
    case Payment => "Payment"
  }

  /** The kind a string value names, if any. */
  function TypeOfName(s: string): (r: Option<TransactionType>)
    ensures r.Some? ==> TypeName(r.value) == s
    ensures forall t :: TypeName(t) == s ==> r == Some(t)
  {
    if s == "Deposit" then Some(Deposit)
    else if s == "Transfer" then Some(Transfer)
    else if s == "Payment" then Some(Payment)
    else None
  }

  /** `transactionTypeDisplayNames`. */
  function DisplayName(t: TransactionType): string {
    match t
    case Deposit => "Depósito"
    case Transfer => "Transferência"
    case Payment => "Pagamento"
  }

  datatype SelectOption = SelectOption(value: string, caption: string)

  /** `transactionSelectOptions`. */
  const SelectOptions: seq<SelectOption> := [
    SelectOption("Deposit", "Depósito"),
    SelectOption("Transfer", "Transferência"),
    SelectOption("Payment", "Pagamento")
  ]

  /** What a transaction holds at one moment; `description` is optional. */
  datatype TransactionRecord = TransactionRecord(
    id: string, kind: TransactionType, amount: int, date: int, description: Option<string>)

  /**
   * A transaction.  `Account.updateTransaction` changes the kind, amount
   * and date of one in place, so it is an object.
   */
  class Transaction {
    var id: string
    var kind: TransactionType
    var amount: int
    var date: int
    var description: Option<string>

    /**
     * `new Transaction(type, amount, date, description, id)`: the id is
     * `id || crypto.randomUUID()`, with `freshId` the generated one.
     */
    constructor(kind: TransactionType, amount: int, date: int, description: Option<string>,
                id: Option<string>, freshId: string)
      ensures Record() == TransactionRecord(
        if id.Some? && id.value != "" then id.value else freshId, kind, amount, date, description)
    {
      this.id := if id.Some? && id.value != "" then id.value else freshId;
      this.kind := kind;
      this.amount := amount;
      this.date := date;
      this.description := description;
    }

    function Record(): TransactionRecord
      reads this
    {
      TransactionRecord(id, kind, amount, date, description)
    }
  }

  /** The `k`-th identifier of a stream. */
  function IdAt(stream: nat -> string, k: nat): string {
    stream(k)
  }

  /** `crypto.randomUUID()`: a stream of identifiers, consumed one by one. */
  class IdSource {
    const stream: nat -> string
    var used: nat

    constructor(stream: nat -> string)
      ensures this.stream == stream && used == 0
    {
      this.stream := stream;
      used := 0;
    }

    method Next() returns (id: string)
      modifies this
      ensures id == IdAt(stream, old(used)) && used == old(used) + 1
    {
      id := stream(used);
      used := used + 1;
    }
  }

  /* ---------------------------------- properties ---------------------------------- */

  /** The options list the three kinds in order, each captioned (its `label`) with its display name. */
  lemma SelectOptionsFollowTypes()
    ensures |SelectOptions| == |AllTypes| == 3
    ensures forall i :: 0 <= i < 3 ==>
      SelectOptions[i].value == TypeName(AllTypes[i]) && SelectOptions[i].caption == DisplayName(AllTypes[i])
  {
  }

  /** Every option value names a kind, and the option's caption (its `label`) is that kind's display name. */
  lemma OptionLabelsAreDisplayNames(o: SelectOption)
    requires o in SelectOptions
    ensures TypeOfName(o.value).Some? && o.caption == DisplayName(TypeOfName(o.value).value)
  {
  }
}
