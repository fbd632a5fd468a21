/**
 * `AccountService` of the home application: one user's account kept as
 * JSON under `"@bytebank/account-data:" + email` in the shared
 * `StorageService`, read back with its transactions sorted newest first,
 * created with five opening transactions when nothing is stored, and saved
 * after every change.  A call that throws is a `Failure`.
 */
module AccountStore {
  import opened Wrappers
  import opened Json
  import opened Transactions
  import opened Accounts
  import UiStorage

  const AccountKeyPrefix := "@bytebank/account-data"
  const MissingEmailError := "AccountService deve ser inicializado com um email de usuário."
  const MalformedAccountError := "stored account is not an account"

  /** `getAccountKey`. */
  function AccountKey(email: string): (k: string)
    ensures k == "@bytebank/account-data:" + email
  {
    AccountKeyPrefix + ":" + email
  }

  /* ------------------------------- sorting by date ------------------------------- */

  /** Newest first. */
  predicate SortedByDateDesc(rs: seq<TransactionRecord>) {
    forall i, j :: 0 <= i < j < |rs| ==> rs[i].date >= rs[j].date
  }

  /** `x` placed before the first record that is not newer than it. */
  function InsertByDate(x: TransactionRecord, rs: seq<TransactionRecord>): (r: seq<TransactionRecord>)
    ensures |r| == |rs| + 1
  {
    if rs == [] || rs[0].date <= x.date then [x] + rs
    else [rs[0]] + InsertByDate(x, rs[1..])
  }

  /** Inserting behind a newer head leaves the head in front. */
  lemma InsertByDateBehind(x: TransactionRecord, a: TransactionRecord, rs: seq<TransactionRecord>)
    requires a.date > x.date
    ensures InsertByDate(x, [a] + rs) == [a] + InsertByDate(x, rs)
  {
    assert ([a] + rs)[1..] == rs;
  }

  /**
   * `sort((a, b) => b.date - a.date)`: newest first, and (the sort being
   * stable) records of equal date in their original order.
   */
  function SortByDateDesc(rs: seq<TransactionRecord>): (r: seq<TransactionRecord>)
    ensures |r| == |rs|
  {
    if rs == [] then [] else InsertByDate(rs[0], SortByDateDesc(rs[1..]))
  }

  lemma {:induction false} InsertByDatePermutes(x: TransactionRecord, rs: seq<TransactionRecord>)
    ensures multiset(InsertByDate(x, rs)) == multiset(rs) + multiset{x}
  {
    if rs != [] && rs[0].date > x.date {
      InsertByDatePermutes(x, rs[1..]);
      assert rs == [rs[0]] + rs[1..];
    }
  }

  lemma {:induction false} InsertByDateElements(x: TransactionRecord, rs: seq<TransactionRecord>)
    ensures forall y :: y in InsertByDate(x, rs) ==> y == x || y in rs
  {
    if rs != [] && rs[0].date > x.date {
      InsertByDateElements(x, rs[1..]);
    }
  }

  /** A record at least as new as every record of a sorted list can go in front of it. */
  lemma SortedCons(a: TransactionRecord, rs: seq<TransactionRecord>)
    requires SortedByDateDesc(rs) && forall y :: y in rs ==> a.date >= y.date
    ensures SortedByDateDesc([a] + rs)
  {
    var r := [a] + rs;
    forall i, j | 0 <= i < j < |r|
      ensures r[i].date >= r[j].date
    {
      assert r[j] == rs[j - 1];
      if i > 0 {
        assert r[i] == rs[i - 1];
      }
    }
  }

  lemma {:induction false} InsertByDateSorted(x: TransactionRecord, rs: seq<TransactionRecord>)
    requires SortedByDateDesc(rs)
    ensures SortedByDateDesc(InsertByDate(x, rs))
  {
    if rs == [] || rs[0].date <= x.date {
      SortedCons(x, rs);
    } else {
      var rest := InsertByDate(x, rs[1..]);
      assert SortedByDateDesc(rs[1..]);
      InsertByDateSorted(x, rs[1..]);
      InsertByDateElements(x, rs[1..]);
      forall y | y in rest
        ensures rs[0].date >= y.date
      {
        if y != x {
          var k :| 0 <= k < |rs[1..]| && rs[1..][k] == y;
          assert rs[k + 1] == y;
        }
      }
      SortedCons(rs[0], rest);
    }
  }

  /** Sorting keeps the same records, each as often as before. */
  lemma {:induction false} SortPermutes(rs: seq<TransactionRecord>)
    ensures multiset(SortByDateDesc(rs)) == multiset(rs)
  {
    if rs != [] {
      SortPermutes(rs[1..]);
      InsertByDatePermutes(rs[0], SortByDateDesc(rs[1..]));
      assert rs == [rs[0]] + rs[1..];
    }
  }

  /** Sorting leaves the records newest first. */
  lemma {:induction false} SortIsSorted(rs: seq<TransactionRecord>)
    ensures SortedByDateDesc(SortByDateDesc(rs))
  {
    if rs != [] {
      SortIsSorted(rs[1..]);
      InsertByDateSorted(rs[0], SortByDateDesc(rs[1..]));
    }
  }

  lemma {:induction false} InsertByDateSum(x: TransactionRecord, rs: seq<TransactionRecord>)
    ensures Sum(InsertByDate(x, rs)) == x.amount + Sum(rs)
  {
    if rs != [] && rs[0].date > x.date {
      InsertByDateSum(x, rs[1..]);
    }
  }

  /** Sorting keeps the total amount. */
  lemma {:induction false} SortKeepsSum(rs: seq<TransactionRecord>)
    ensures Sum(SortByDateDesc(rs)) == Sum(rs)
  {
    if rs != [] {
      SortKeepsSum(rs[1..]);
      InsertByDateSum(rs[0], SortByDateDesc(rs[1..]));
    }
  }

  /** A list already newest first is left as it is. */
  lemma {:induction false} SortSortedIsIdentity(rs: seq<TransactionRecord>)
    requires SortedByDateDesc(rs)
    ensures SortByDateDesc(rs) == rs
  {
    if rs != [] {
      assert SortedByDateDesc(rs[1..]);
      SortSortedIsIdentity(rs[1..]);
      assert rs == [rs[0]] + rs[1..];
      if |rs| > 1 {
        assert rs[1..][0].date <= rs[0].date;
      }
    }
  }

  /** The records of date `d`, in their order. */
  function OfDate(rs: seq<TransactionRecord>, d: int): seq<TransactionRecord> {
    if rs == [] then [] else (if rs[0].date == d then [rs[0]] else []) + OfDate(rs[1..], d)
  }

  /** Inserting passes over newer records only, so `x` stays ahead of every record of its own date. */
  lemma {:induction false} InsertByDateOfDate(x: TransactionRecord, rs: seq<TransactionRecord>, d: int)
    ensures OfDate(InsertByDate(x, rs), d) == OfDate([x] + rs, d)
  {
    if rs != [] && rs[0].date > x.date {
      InsertByDateOfDate(x, rs[1..], d);
      assert ([x] + rs)[1..] == rs;
      assert ([x] + rs[1..])[1..] == rs[1..];
      assert ([rs[0]] + InsertByDate(x, rs[1..]))[1..] == InsertByDate(x, rs[1..]);
    }
  }

  /**
   * The sort is stable, as `Array.prototype.sort` is: the records of any one
   * date come out in the order they went in.
   */
  lemma {:induction false} SortIsStable(rs: seq<TransactionRecord>, d: int)
    ensures OfDate(SortByDateDesc(rs), d) == OfDate(rs, d)
  {
    if rs != [] {
      SortIsStable(rs[1..], d);
      InsertByDateOfDate(rs[0], SortByDateDesc(rs[1..]), d);
      assert ([rs[0]] + SortByDateDesc(rs[1..]))[1..] == SortByDateDesc(rs[1..]);
    }
  }

  /** The list the transactions' objects are rearranged into. */
  function InsertObject(x: Transaction, ts: seq<Transaction>): (r: seq<Transaction>)
    reads x, set t | t in ts
    ensures RecordsOf(r) == InsertByDate(x.Record(), RecordsOf(ts))
    ensures x in r && (forall t :: t in ts ==> t in r) && forall t :: t in r ==> t == x || t in ts
    ensures x !in ts && Distinct(ts) ==> Distinct(r)
  {
    if ts == [] || ts[0].date <= x.date then
      RecordsCons(x, ts);
      DistinctCons(x, ts);
      [x] + ts
    else
      InsertObjectAfter(x, ts, InsertObject(x, ts[1..]))
  }

  /** `ts[0]` stays first when it is newer than `x`; `rest` is `x` inserted into the others. */
  function InsertObjectAfter(x: Transaction, ts: seq<Transaction>, rest: seq<Transaction>): (r: seq<Transaction>)
    reads x, set t | t in ts
    requires ts != [] && ts[0].date > x.date
    requires x in rest && (forall t :: t in ts[1..] ==> t in rest) && forall t :: t in rest ==> t == x || t in ts[1..]
    requires RecordsOf(rest) == InsertByDate(x.Record(), RecordsOf(ts[1..]))
    requires x !in ts[1..] && Distinct(ts[1..]) ==> Distinct(rest)
    ensures RecordsOf(r) == InsertByDate(x.Record(), RecordsOf(ts))
    ensures x in r && (forall t :: t in ts ==> t in r) && forall t :: t in r ==> t == x || t in ts
    ensures x !in ts && Distinct(ts) ==> Distinct(r)
  {
    var t := ts[0];
    assert ts == [t] + ts[1..];
    RecordsCons(t, ts[1..]);
    RecordsCons(t, rest);
    InsertByDateBehind(x.Record(), t.Record(), RecordsOf(ts[1..]));
    DistinctCons(t, ts[1..]);
    DistinctCons(t, rest);
    [t] + rest
  }

  /** `transactions.sort(...)` on the objects: the records end up as `SortByDateDesc` orders them. */
  function SortObjects(ts: seq<Transaction>): (r: seq<Transaction>)
    reads set t | t in ts
    ensures RecordsOf(r) == SortByDateDesc(RecordsOf(ts))
    ensures (forall t :: t in ts ==> t in r) && forall t :: t in r ==> t in ts
    ensures Distinct(ts) ==> Distinct(r)
  {
    if ts == [] then []
    else
      var t, rest := ts[0], SortObjects(ts[1..]);
      assert ts == [t] + ts[1..];
      RecordsCons(t, ts[1..]);
      DistinctCons(t, ts[1..]);
      InsertObject(t, rest)
  }

  /** Filtering a list that is newest first keeps it newest first. */
  lemma {:induction false} KeptStaysSorted(rs: seq<TransactionRecord>, ids: set<string>)
    requires SortedByDateDesc(rs)
    ensures SortedByDateDesc(Kept(rs, ids))
  {
    if rs != [] {
      KeptStaysSorted(rs[1..], ids);
      assert forall y :: y in Kept(rs[1..], ids) ==> y in rs[1..];
    }
  }

  /* ------------------------------- the stored JSON ------------------------------- */

  /**
   * One transaction as `JSON.stringify` writes it: the `Date` as its JSON
   * text, and no `description` member when there is none.
   */
  function TransactionJson(dates: DateCodec, r: TransactionRecord): (j: Json)
    ensures j.JObj? && Member(j, "id") == JStr(r.id) && Member(j, "type") == JStr(TypeName(r.kind))
    ensures Member(j, "amount") == JNum(r.amount) && Member(j, "date") == JStr(dates.toJson(r.date))
    ensures r.description.Some? <==> Member(j, "description").JStr?
    ensures r.description.Some? ==> Member(j, "description") == JStr(r.description.value)
  {
    var m := map["id" := JStr(r.id), "type" := JStr(TypeName(r.kind)), "amount" := JNum(r.amount),
                 "date" := JStr(dates.toJson(r.date))];
    JObj(if r.description.Some? then m["description" := JStr(r.description.value)] else m)
  }

  /** The `transactions` array of `JSON.stringify(account)`: one entry per transaction, in order. */
  function TransactionsJson(dates: DateCodec, rs: seq<TransactionRecord>): (js: seq<Json>)
    ensures |js| == |rs| && forall i :: 0 <= i < |rs| ==> js[i] == TransactionJson(dates, rs[i])
  {
    if rs == [] then [] else [TransactionJson(dates, rs[0])] + TransactionsJson(dates, rs[1..])
  }

  /** `JSON.stringify(account)`: its balance and its transactions. */
  function AccountJson(dates: DateCodec, balance: int, rs: seq<TransactionRecord>): Json {
    JObj(map["balance" := JNum(balance), "transactions" := JArr(TransactionsJson(dates, rs))])
  }

  /**
   * `new Date(t.date)` on a stored date: a number is that time, `null` the
   * epoch, `true` and `false` are 1 and 0, text goes through the date
   * parser.  `None` stands for the values this model does not turn into a
   * time (arrays and objects).
   */
  function DateOf(dates: DateCodec, j: Json): Option<int> {
    match j
    case JNum(n) => Some(n)
    case JStr(s) => dates.parse(s)
    case JBool(b) => Some(if b then 1 else 0)
    case JNull => Some(0)
    case _ => None
  }

  /**
   * `new Transaction(t.type, t.amount, new Date(t.date), t.description, t.id)`
   * for one stored entry.  A `null` entry throws (`t.type` on `null`); a
   * falsy `id` is `""`, for which a new one is then generated.  `None` also
   * stands for the entries whose values this model cannot hold: a `type`
   * that names none of the three kinds, an `amount` that is not a number,
   * a date that is no time, an `id` or `description` that is truthy but not
   * text.
   */
  function TransactionOf(dates: DateCodec, j: Json): (r: Option<TransactionRecord>)
    ensures j == JNull ==> r.None?
    ensures r.Some? ==> Member(j, "type") == JStr(TypeName(r.value.kind)) && Member(j, "amount") == JNum(r.value.amount)
    ensures r.Some? ==> DateOf(dates, Member(j, "date")) == Some(r.value.date)
    ensures r.Some? ==> (r.value.id == "" <==> !Truthy(Member(j, "id")))
    ensures r.Some? && r.value.id != "" ==> Member(j, "id") == JStr(r.value.id)
    ensures r.Some? ==> (r.value.description.Some? <==> Member(j, "description").JStr?)
  {
    var id, kind, amount, date, description :=
      Member(j, "id"), Member(j, "type"), Member(j, "amount"), DateOf(dates, Member(j, "date")), Member(j, "description");
    if j == JNull then None
    else if (Truthy(id) && !id.JStr?) || !kind.JStr? || TypeOfName(kind.s).None? || !amount.JNum? || date.None?
       || !(description.JStr? || description == JNull) then None
    else
      Some(TransactionRecord(if Truthy(id) then id.s else "", TypeOfName(kind.s).value, amount.n, date.value,
                             if description.JStr? then Some(description.s) else None))
  }

  /** `savedData.transactions.map(...)`: every entry read, or `None` when one of them is not. */
  function TransactionsOf(dates: DateCodec, js: seq<Json>): (r: Option<seq<TransactionRecord>>)
    ensures r.Some? ==> |r.value| == |js| && forall i :: 0 <= i < |js| ==> TransactionOf(dates, js[i]) == Some(r.value[i])
    ensures JNull in js ==> r.None?
  {
    if js == [] then Some([])
    else match (TransactionOf(dates, js[0]), TransactionsOf(dates, js[1..]))
      case (Some(x), Some(rest)) =>
        assert forall i :: 1 <= i < |js| ==> js[i] == js[1..][i - 1];
        Some([x] + rest)
      case _ => None
  }

  /**
   * `savedData.balance` and `savedData.transactions` read as above, for a
   * truthy saved value.  Without a `transactions` array, `.map` throws.  A
   * missing or `null` balance counts as 0 (the `Account` constructor's
   * default, and what arithmetic makes of `null`); a balance of any other
   * kind than a number is `None` as well.
   */
  function AccountOf(dates: DateCodec, j: Json): (r: Option<(int, seq<TransactionRecord>)>)
    ensures !Member(j, "transactions").JArr? ==> r.None?
    ensures r.Some? ==> TransactionsOf(dates, Member(j, "transactions").items) == Some(r.value.1)
    ensures r.Some? ==> r.value.0 == if Member(j, "balance").JNum? then Member(j, "balance").n else 0
  {
    var balance, items := Member(j, "balance"), Member(j, "transactions");
    if !items.JArr? || !(balance.JNum? || balance == JNull) then None
    else match TransactionsOf(dates, items.items)
      case None => None
      case Some(rs) => Some((if balance.JNum? then balance.n else 0, rs))
  }

  lemma {:induction false} TransactionsRoundTrip(dates: DateCodec, rs: seq<TransactionRecord>)
    requires DatesLawful(dates)
    ensures TransactionsOf(dates, TransactionsJson(dates, rs)) == Some(rs)
  {
    if rs != [] {
      TransactionsRoundTrip(dates, rs[1..]);
      assert TransactionsJson(dates, rs)[1..] == TransactionsJson(dates, rs[1..]);
      TransactionRoundTrip(dates, rs[0]);
      assert rs == [rs[0]] + rs[1..];
    }
  }

  /** One record reads back as itself, its date through the date's JSON text, with or without a description. */
  lemma TransactionRoundTrip(dates: DateCodec, r: TransactionRecord)
    requires DatesLawful(dates)
    ensures TransactionOf(dates, TransactionJson(dates, r)) == Some(r)
  {
    var j := TransactionJson(dates, r);
    assert dates.parse(dates.toJson(r.date)) == Some(r.date);
    assert DateOf(dates, Member(j, "date")) == Some(r.date);
    if r.description.None? {
      assert Member(j, "description") == JNull;
    }
  }

  /** What is saved reads back as the same balance and records. */
  lemma AccountRoundTrip(dates: DateCodec, balance: int, rs: seq<TransactionRecord>)
    requires DatesLawful(dates)
    ensures AccountOf(dates, AccountJson(dates, balance, rs)) == Some((balance, rs))
  {
    TransactionsRoundTrip(dates, rs);
  }

  /* -------------------------- generated ids while reading -------------------------- */

  /** How many records have no id. */
  function Missing(rs: seq<TransactionRecord>): nat {
    if rs == [] then 0 else Missing(rs[..|rs| - 1]) + (if rs[|rs| - 1].id == "" then 1 else 0)
  }

  /** The records with the ids missing among them taken, in order, from `stream(n)`, `stream(n + 1)`, … */
  function FillIds(rs: seq<TransactionRecord>, stream: nat -> string, n: nat): (r: seq<TransactionRecord>)
    ensures |r| == |rs|
  {
    if rs == [] then []
    else
      var init, last := rs[..|rs| - 1], rs[|rs| - 1];
      FillIds(init, stream, n) + [if last.id == "" then last.(id := stream(n + Missing(init))) else last]
  }

  lemma {:induction false} FillIdsWhenNoneMissing(rs: seq<TransactionRecord>, stream: nat -> string, n: nat)
    requires forall x :: x in rs ==> x.id != ""
    ensures FillIds(rs, stream, n) == rs
  {
    if rs != [] {
      FillIdsWhenNoneMissing(rs[..|rs| - 1], stream, n);
      assert rs == rs[..|rs| - 1] + [rs[|rs| - 1]];
    }
  }

  /* -------------------------------- the first account -------------------------------- */

  const July20 := 1752969600000
  const July21 := 1753056000000
  const July22 := 1753142400000

  /** The five opening transactions, in the order they are written, with generated ids. */
  function InitialRecords(stream: nat -> string, n: nat): seq<TransactionRecord> {
    [ TransactionRecord(stream(n), Payment, 2700, July20, Some("Valor incial")),
      TransactionRecord(stream(n + 1), Transfer, -500, July21, Some("Valor incial")),
      TransactionRecord(stream(n + 2), Deposit, 50, July21, Some("Valor incial")),
      TransactionRecord(stream(n + 3), Deposit, 100, July21, Some("Valor incial")),
      TransactionRecord(stream(n + 4), Deposit, 150, July22, Some("Valor incial")) ]
  }

  /**
   * The account `getAccountData` returns for what is stored (`None`: it
   * throws, or the stored value holds what `AccountOf` does not read),
   * `stream(n)` being the next identifier generated.
   */
  function Loaded(dates: DateCodec, saved: Json, stream: nat -> string, n: nat): Option<(int, seq<TransactionRecord>)> {
    if !Truthy(saved) then Some((2500, SortByDateDesc(InitialRecords(stream, n))))
    else match AccountOf(dates, saved)
      case None => None
      case Some((balance, rs)) => Some((balance, SortByDateDesc(FillIds(rs, stream, n))))
  }

  /** One new transaction object per record, holding exactly that record. */
  method NewTransactions(rs: seq<TransactionRecord>) returns (ts: seq<Transaction>)
    ensures RecordsOf(ts) == rs
    ensures Distinct(ts) && forall t :: t in ts ==> fresh(t)
  {
    ts := [];
    var k := 0;
    while k < |rs|
      invariant 0 <= k <= |rs| && |ts| == k
      invariant forall i :: 0 <= i < k ==> ts[i].Record() == rs[i]
      invariant Distinct(ts) && forall t :: t in ts ==> fresh(t)
    {
      var r := rs[k];
      var t := new Transaction(r.kind, r.amount, r.date, r.description, None, r.id);
      DistinctSnoc(ts, t);
      ts := ts + [t];
      k := k + 1;
    }
  }

  /** Saving after a load that may itself have saved leaves one write of the key. */
  lemma OverwriteAfterLoad(m0: map<string, string>, m1: map<string, string>, k: string, v: string, w: string)
    requires m1 == m0 || m1 == m0[k := v]
    ensures m1[k := w] == m0[k := w]
  {
  }

  /** `account.transactions.sort((a, b) => b.date.getTime() - a.date.getTime())`. */
  method SortTransactions(account: Account)
    requires account.Valid()
    modifies account
    ensures account.Valid() && account.balance == old(account.balance)
    ensures account.Records() == SortByDateDesc(old(account.Records()))
  {
    var sorted := SortObjects(account.transactions);
    ghost var records := RecordsOf(sorted);
    assert records == SortByDateDesc(old(account.Records()));
    account.transactions := sorted;
    assert account.Records() == records;
  }

  class AccountService {
    const storage: UiStorage.StorageService
    const userEmail: string
    const ids: IdSource
    const dates: DateCodec

    /** The constructor proper, once the e-mail is known to be present. */
    constructor(storage: UiStorage.StorageService, userEmail: string, ids: IdSource, dates: DateCodec)
      requires userEmail != ""
      ensures this.storage == storage && this.userEmail == userEmail && this.ids == ids && this.dates == dates
    {
      this.storage := storage;
      this.userEmail := userEmail;
      this.ids := ids;
      this.dates := dates;
    }

    /** What is stored under the account key. */
    function Saved(): Json
      reads storage.store
    {
      storage.GetItem(AccountKey(userEmail))
    }

    /** `saveAccountData`. */
    method SaveAccountData(account: Account)
      modifies storage.store
      ensures storage.store != null ==>
        storage.store.items == old(storage.store.items)[AccountKey(userEmail) := storage.codec.stringify(AccountJson(dates, account.balance, account.Records()))]
      ensures account.balance == old(account.balance) && account.transactions == old(account.transactions)
      ensures account.Records() == old(account.Records())
    {
      storage.SetItem(AccountKey(userEmail), AccountJson(dates, account.balance, account.Records()));
    }

    /** `createInitialAccount`: balance 2500 and the five opening transactions, newest first. */
    method CreateInitialAccount() returns (account: Account)
      modifies ids
      ensures fresh(account) && account.Valid() && forall t :: t in account.transactions ==> fresh(t)
      ensures account.balance == 2500
      ensures account.Records() == SortByDateDesc(InitialRecords(ids.stream, old(ids.used)))
      ensures ids.used == old(ids.used) + 5
    {
      var rs := OpeningRecords();
      var ts := NewTransactions(rs);
      var sorted := SortObjects(ts);
      ghost var records := RecordsOf(sorted);
      assert records == SortByDateDesc(rs);
      account := new Account(2500, sorted);
      assert account.Records() == records;
    }

    /** The five opening transactions, each taking the next generated id. */
    method OpeningRecords() returns (rs: seq<TransactionRecord>)
      modifies ids
      ensures rs == InitialRecords(ids.stream, old(ids.used)) && ids.used == old(ids.used) + 5
    {
      var id1 := ids.Next();
      var id2 := ids.Next();
      var id3 := ids.Next();
      var id4 := ids.Next();
      var id5 := ids.Next();
      rs := [ TransactionRecord(id1, Payment, 2700, July20, Some("Valor incial")),
              TransactionRecord(id2, Transfer, -500, July21, Some("Valor incial")),
              TransactionRecord(id3, Deposit, 50, July21, Some("Valor incial")),
              TransactionRecord(id4, Deposit, 100, July21, Some("Valor incial")),
              TransactionRecord(id5, Deposit, 150, July22, Some("Valor incial")) ];
    }

    /** Takes, in order, a generated id for every record that has none. */
    method FillMissingIds(rs: seq<TransactionRecord>) returns (filled: seq<TransactionRecord>)
      modifies ids
      ensures filled == FillIds(rs, ids.stream, old(ids.used))
      ensures ids.used == old(ids.used) + Missing(rs)
    {
      var n := ids.used;
      filled := [];
      var k := 0;
      while k < |rs|
        invariant 0 <= k <= |rs|
        invariant filled == FillIds(rs[..k], ids.stream, n)
        invariant ids.used == n + Missing(rs[..k])
      {
        var r := rs[k];
        assert rs[..k + 1][..k] == rs[..k];
        if r.id == "" {
          var id := ids.Next();
          r := r.(id := id);
        }
        filled := filled + [r];
        k := k + 1;
      }
      assert rs[..k] == rs;
    }

    /** Builds the transaction objects of a stored account, generating the missing ids. */
    method MakeTransactions(rs: seq<TransactionRecord>) returns (ts: seq<Transaction>)
      modifies ids
      ensures RecordsOf(ts) == FillIds(rs, ids.stream, old(ids.used))
      ensures ids.used == old(ids.used) + Missing(rs)
      ensures Distinct(ts) && forall t :: t in ts ==> fresh(t)
    {
      var filled := FillMissingIds(rs);
      ts := NewTransactions(filled);
    }

    /** The stored branch of `getAccountData`: the objects, then sorted newest first. */
    method RestoreAccount(balance: int, rs: seq<TransactionRecord>) returns (account: Account)
      modifies ids
      ensures fresh(account) && account.Valid() && forall t :: t in account.transactions ==> fresh(t)
      ensures account.balance == balance
      ensures account.Records() == SortByDateDesc(FillIds(rs, ids.stream, old(ids.used)))
    {
      var ts := MakeTransactions(rs);
      account := new Account(balance, SortObjects(ts));
    }

    /**
     * `getAccountData`: the stored account with its transactions newest
     * first; with nothing stored, the opening account, which is saved.
     */
    method GetAccountData() returns (r: Result<Account>)
      modifies storage.store, ids
      ensures var l := Loaded(dates, old(Saved()), ids.stream, old(ids.used));
        (r.Success? <==> l.Some?)
        && (r.Success? ==> r.value.balance == l.value.0 && r.value.Records() == l.value.1)
      ensures r.Success? ==> fresh(r.value) && r.value.Valid() && forall t :: t in r.value.transactions ==> fresh(t)
      ensures storage.store != null ==>
        storage.store.items == if Truthy(old(Saved())) then old(storage.store.items)
                               else old(storage.store.items)[AccountKey(userEmail) := storage.codec.stringify(AccountJson(dates, r.value.balance, r.value.Records()))]
      ensures r.Failure? && storage.store != null ==> storage.store.items == old(storage.store.items)
    {
      var savedData := storage.GetItem(AccountKey(userEmail));
      if Truthy(savedData) {
        match AccountOf(dates, savedData)
        case None =>
          return Failure(MalformedAccountError);
        case Some((balance, rs)) =>
          var account := RestoreAccount(balance, rs);
          return Success(account);
      }
      var initialAccount := CreateInitialAccount();
      SaveAccountData(initialAccount);
      return Success(initialAccount);
    }

    /**
     * `addTransaction`: on the loaded account, then newest first again, then
     * saved.  The load draws its identifiers from `ids`; `freshId` is the one
     * `crypto.randomUUID()` gives the new transaction.
     */
    method AddTransaction(kind: TransactionType, amount: int, date: int, description: Option<string>, freshId: string)
      returns (r: Result<Account>)
      modifies storage.store, ids
      ensures var l := Loaded(dates, old(Saved()), ids.stream, old(ids.used));
        (r.Success? <==> l.Some?)
        && (r.Success? ==>
              r.value.balance == l.value.0 + amount
              && r.value.Records() == SortByDateDesc(l.value.1 + [TransactionRecord(freshId, kind, amount, date, description)]))
      ensures r.Success? ==> fresh(r.value) && r.value.Valid()
      ensures r.Success? && storage.store != null ==>
        storage.store.items == old(storage.store.items)[AccountKey(userEmail) := storage.codec.stringify(AccountJson(dates, r.value.balance, r.value.Records()))]
      ensures r.Failure? && storage.store != null ==> storage.store.items == old(storage.store.items)
    {
      r := GetAccountData();
      if r.Failure? {
        return;
      }
      var account := r.value;
      ghost var loadedItems := if storage.store != null then storage.store.items else map[];
      ghost var loadedJson := storage.codec.stringify(AccountJson(dates, account.balance, account.Records()));
      AddAndSave(account, TransactionRecord(freshId, kind, amount, date, description));
      if storage.store != null {
        OverwriteAfterLoad(old(storage.store.items), loadedItems, AccountKey(userEmail), loadedJson,
                           storage.codec.stringify(AccountJson(dates, account.balance, account.Records())));
      }
    }

    /** The part of `addTransaction` after the load: add, sort, save. */
    method AddAndSave(account: Account, added: TransactionRecord)
      requires account.Valid()
      modifies account, storage.store
      ensures account.Valid()
      ensures account.balance == old(account.balance) + added.amount
      ensures account.Records() == SortByDateDesc(old(account.Records()) + [added])
      ensures storage.store != null ==>
        storage.store.items == old(storage.store.items)[AccountKey(userEmail) := storage.codec.stringify(AccountJson(dates, account.balance, account.Records()))]
    {
      ghost var before := account.Records();
      account.AddTransaction(added.kind, added.amount, added.date, added.description, added.id);
      assert account.Records() == before + [added];
      SortTransactions(account);
      ghost var sorted := account.Records();
      SaveAccountData(account);
      assert account.Records() == sorted;
    }

    /** `deleteTransactions`: on the loaded account, then saved; the order is already newest first. */
    method DeleteTransactions(idsToDelete: Option<seq<string>>) returns (r: Result<Account>)
      modifies storage.store, ids
      ensures var l := Loaded(dates, old(Saved()), ids.stream, old(ids.used));
        (r.Success? <==> l.Some?)
        && (r.Success? && idsToDelete.Some? && idsToDelete.value != [] ==>
              r.value.balance == l.value.0 - Sum(Removed(l.value.1, SetOf(idsToDelete.value)))
              && r.value.Records() == Kept(l.value.1, SetOf(idsToDelete.value)))
        && (r.Success? && (idsToDelete.None? || idsToDelete.value == []) ==>
              r.value.balance == l.value.0 && r.value.Records() == l.value.1)
      ensures r.Success? ==> fresh(r.value) && r.value.Valid() && SortedByDateDesc(r.value.Records())
      ensures r.Success? && storage.store != null ==>
        storage.store.items == old(storage.store.items)[AccountKey(userEmail) := storage.codec.stringify(AccountJson(dates, r.value.balance, r.value.Records()))]
      ensures r.Failure? && storage.store != null ==> storage.store.items == old(storage.store.items)
    {
      ghost var l := Loaded(dates, Saved(), ids.stream, ids.used);
      LoadedIsSorted(dates, Saved(), ids.stream, ids.used);
      r := GetAccountData();
      if r.Failure? {
        return;
      }
      var account := r.value;
      ghost var loadedItems := if storage.store != null then storage.store.items else map[];
      ghost var loadedJson := storage.codec.stringify(AccountJson(dates, account.balance, account.Records()));
      DeleteAndSave(account, idsToDelete);
      if storage.store != null {
        OverwriteAfterLoad(old(storage.store.items), loadedItems, AccountKey(userEmail), loadedJson,
                           storage.codec.stringify(AccountJson(dates, account.balance, account.Records())));
      }
    }

    /** The part of `deleteTransactions` after the load: delete, save. */
    method DeleteAndSave(account: Account, idsToDelete: Option<seq<string>>)
      requires account.Valid() && SortedByDateDesc(account.Records())
      modifies account, storage.store
      ensures account.Valid() && SortedByDateDesc(account.Records())
      ensures idsToDelete.Some? && idsToDelete.value != [] ==>
        account.balance == old(account.balance) - Sum(Removed(old(account.Records()), SetOf(idsToDelete.value)))
        && account.Records() == Kept(old(account.Records()), SetOf(idsToDelete.value))
      ensures idsToDelete.None? || idsToDelete.value == [] ==>
        account.balance == old(account.balance) && account.Records() == old(account.Records())
      ensures storage.store != null ==>
        storage.store.items == old(storage.store.items)[AccountKey(userEmail) := storage.codec.stringify(AccountJson(dates, account.balance, account.Records()))]
    {
      ghost var before := account.Records();
      account.DeleteTransactions(idsToDelete);
      ghost var after := account.Records();
      if idsToDelete.Some? && idsToDelete.value != [] {
        KeptStaysSorted(before, SetOf(idsToDelete.value));
      }
      assert SortedByDateDesc(after);
      SaveAccountData(account);
      assert account.Records() == after;
    }

    /** The part of `updateTransaction` after the load: update, sort, save. */
    method UpdateAndSave(account: Account, id: string, newKind: TransactionType, newAmount: int, newDate: int)
      requires account.Valid() && SortedByDateDesc(account.Records())
      modifies account, storage.store, set t | t in account.transactions
      ensures account.Valid()
      ensures var rs, i := old(account.Records()), FindIndex(old(account.Records()), id);
        (i.None? ==> account.balance == old(account.balance) && account.Records() == rs)
        && (i.Some? ==>
              account.balance == old(account.balance) - rs[i.value].amount + newAmount
              && account.Records() == SortByDateDesc(rs[i.value := rs[i.value].(kind := newKind, amount := newAmount, date := newDate)]))
      ensures storage.store != null ==>
        storage.store.items == old(storage.store.items)[AccountKey(userEmail) := storage.codec.stringify(AccountJson(dates, account.balance, account.Records()))]
    {
      account.UpdateTransaction(id, newKind, newAmount, newDate);
      if FindIndex(old(account.Records()), id).None? {
        SortSortedIsIdentity(old(account.Records()));
      }
      SortTransactions(account);
      SaveAccountData(account);
    }

    /** `updateTransaction`: on the loaded account, then newest first again, then saved. */
    method UpdateTransaction(id: string, newKind: TransactionType, newAmount: int, newDate: int)
      returns (r: Result<Account>)
      modifies storage.store, ids
      ensures var l := Loaded(dates, old(Saved()), ids.stream, old(ids.used));
        (r.Success? <==> l.Some?)
        && (r.Success? && FindIndex(l.value.1, id).None? ==>
              r.value.balance == l.value.0 && r.value.Records() == l.value.1)
        && (r.Success? && FindIndex(l.value.1, id).Some? ==>
              var i := FindIndex(l.value.1, id).value;
              r.value.balance == l.value.0 - l.value.1[i].amount + newAmount
              && r.value.Records() == SortByDateDesc(l.value.1[i := l.value.1[i].(kind := newKind, amount := newAmount, date := newDate)]))
      ensures r.Success? ==> fresh(r.value) && r.value.Valid()
      ensures r.Success? && storage.store != null ==>
        storage.store.items == old(storage.store.items)[AccountKey(userEmail) := storage.codec.stringify(AccountJson(dates, r.value.balance, r.value.Records()))]
      ensures r.Failure? && storage.store != null ==> storage.store.items == old(storage.store.items)
    {
      ghost var l := Loaded(dates, Saved(), ids.stream, ids.used);
      LoadedIsSorted(dates, Saved(), ids.stream, ids.used);
      r := GetAccountData();
      if r.Failure? {
        return;
      }
      var account := r.value;
      ghost var loadedItems := if storage.store != null then storage.store.items else map[];
      ghost var loadedJson := storage.codec.stringify(AccountJson(dates, account.balance, account.Records()));
      UpdateAndSave(account, id, newKind, newAmount, newDate);
      if storage.store != null {
        OverwriteAfterLoad(old(storage.store.items), loadedItems, AccountKey(userEmail), loadedJson,
                           storage.codec.stringify(AccountJson(dates, account.balance, account.Records())));
      }
    }
  }

  /** `new AccountService(email)`: an empty e-mail throws. */
  method NewAccountService(storage: UiStorage.StorageService, userEmail: string, ids: IdSource, dates: DateCodec)
    returns (r: Result<AccountService>)
    ensures userEmail == "" ==> r == Failure(MissingEmailError)
    ensures userEmail != "" ==>
      (r.Success? && fresh(r.value) && r.value.userEmail == userEmail && r.value.storage == storage && r.value.ids == ids && r.value.dates == dates)
  {
    if userEmail == "" {
      return Failure(MissingEmailError);
    }
    var service := new AccountService(storage, userEmail, ids, dates);
    return Success(service);
  }

  /* ---------------------------------- properties ---------------------------------- */

  /** The opening transactions, newest first: the deposit of 150 on the 22nd leads, the payment of 2700 on the 20th closes. */
  lemma InitialAccountOrder(stream: nat -> string, n: nat)
    ensures var rs := InitialRecords(stream, n);
      SortByDateDesc(rs) == [rs[4], rs[1], rs[2], rs[3], rs[0]]
  {
    var rs := InitialRecords(stream, n);
    var s4, s3, s2, s1 := rs[1..][1..][1..][1..], rs[1..][1..][1..], rs[1..][1..], rs[1..];
    assert s4 == [rs[4]] && s3 == [rs[3]] + s4 && s2 == [rs[2]] + s3 && s1 == [rs[1]] + s2;
    assert SortByDateDesc(s4) == [rs[4]];
    assert InsertByDate(rs[3], [rs[4]]) == [rs[4], rs[3]];
    assert SortByDateDesc(s3) == [rs[4], rs[3]];
    assert InsertByDate(rs[2], [rs[3]]) == [rs[2], rs[3]];
    assert InsertByDate(rs[2], [rs[4], rs[3]]) == [rs[4], rs[2], rs[3]];
    assert SortByDateDesc(s2) == [rs[4], rs[2], rs[3]];
    assert InsertByDate(rs[1], [rs[2], rs[3]]) == [rs[1], rs[2], rs[3]];
    assert InsertByDate(rs[1], [rs[4], rs[2], rs[3]]) == [rs[4], rs[1], rs[2], rs[3]];
    assert SortByDateDesc(s1) == [rs[4], rs[1], rs[2], rs[3]];
    assert InsertByDate(rs[0], []) == [rs[0]];
    assert InsertByDate(rs[0], [rs[3]]) == [rs[3], rs[0]];
    assert InsertByDate(rs[0], [rs[2], rs[3]]) == [rs[2], rs[3], rs[0]];
    assert InsertByDate(rs[0], [rs[1], rs[2], rs[3]]) == [rs[1], rs[2], rs[3], rs[0]];
  }

  /** The opening account: its balance is the sum of its transactions. */
  lemma InitialAccountBalanced(stream: nat -> string, n: nat)
    ensures Sum(SortByDateDesc(InitialRecords(stream, n))) == 2500
  {
    var rs := InitialRecords(stream, n);
    InitialAccountOrder(stream, n);
    var sorted := [rs[4], rs[1], rs[2], rs[3], rs[0]];
    assert sorted[1..][1..][1..][1..] == [rs[0]];
    assert Sum([rs[0]]) == 2700;
    assert Sum(sorted[1..][1..][1..]) == 2800;
    assert Sum(sorted[1..][1..]) == 2850;
    assert Sum(sorted[1..]) == 2350;
  }

  /** A saved account with ids in place, newest first, is read back unchanged. */
  lemma SaveThenLoad(dates: DateCodec, balance: int, rs: seq<TransactionRecord>, stream: nat -> string, n: nat)
    requires DatesLawful(dates) && SortedByDateDesc(rs) && forall x :: x in rs ==> x.id != ""
    ensures Loaded(dates, AccountJson(dates, balance, rs), stream, n) == Some((balance, rs))
  {
    AccountRoundTrip(dates, balance, rs);
    FillIdsWhenNoneMissing(rs, stream, n);
    SortSortedIsIdentity(rs);
  }

  /** Every account the service hands out lists its transactions newest first. */
  lemma LoadedIsSorted(dates: DateCodec, saved: Json, stream: nat -> string, n: nat)
    ensures Loaded(dates, saved, stream, n).Some? ==> SortedByDateDesc(Loaded(dates, saved, stream, n).value.1)
  {
    if !Truthy(saved) {
      SortIsSorted(InitialRecords(stream, n));
    } else if AccountOf(dates, saved).Some? {
      SortIsSorted(FillIds(AccountOf(dates, saved).value.1, stream, n));
    }
  }

  /** Adding keeps `balance - Σ amounts` of the loaded account. */
  lemma AddKeepsBalanceGap(balance: int, rs: seq<TransactionRecord>, x: TransactionRecord)
    ensures (balance + x.amount) - Sum(SortByDateDesc(rs + [x])) == balance - Sum(rs)
  {
    SortKeepsSum(rs + [x]);
    SumAppend(rs, x);
  }
}
