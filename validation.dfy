/**
 * The statement data structures and their validation (src/core/validation.py).
 *
 * Dataclass fields are annotated but not enforced, so a field holds a
 * dynamically typed `Dyn`; the `isinstance` tests of the source are tests of
 * its constructor.  `Account` and `Statement` are classes because their
 * setters update them in place; the checks read a snapshot of a statement
 * (`StatementView`).  The checks are registered in a list and
 * `ValidateStatement` runs them in registration order.
 */
module Validation {
  import opened Wrappers
  import opened Text

  /** A Python value as the checks see it. */
  datatype Dyn =
    | DateTime(ordinal: int)  // a datetime, to the day
    | Float(cents: int)       // a float holding a whole number of cents
    | Int(i: int)
    | Str(s: string)
    | PathValue(p: string)
    | NoneValue

  /** Python truthiness of a value. */
  predicate Truthy(v: Dyn) {
    match v
    case DateTime(_) => true
    case Float(c) => c != 0
    case Int(i) => i != 0
    case Str(s) => s != []
    case PathValue(_) => true
    case NoneValue => false
  }

  /** The numeric value of a float or an int, in cents; `None` for the values arithmetic rejects. */
  function Cents(v: Dyn): Option<int> {
    match v
    case Float(c) => Some(c)
    case Int(i) => Some(100 * i)
    case _ => None
  }

  function Abs(x: int): nat {
    if x < 0 then -x else x
  }

  datatype Transaction = Transaction(
    postingDate: Dyn,
    amount: Dyn,
    balance: Dyn,
    desc: Dyn,
    transactionDate: Dyn)

  // ---------------------------------------------------------------------
  // Constructing a Transaction
  // ---------------------------------------------------------------------

  /** The keyword arguments of a `Transaction(...)` call; `None` for one left out. */
  datatype Call = Call(
    postingDate: Option<Dyn>,
    amount: Option<Dyn>,
    balance: Option<Dyn>,
    desc: Option<Dyn>,
    transactionDate: Option<Dyn>)

  function OrNone(v: Option<Dyn>): Dyn {
    if v.Some? then v.value else NoneValue
  }

  /** The dataclass constructor as declared: only `transaction_date` has a default. */
  function NewTransactionAsWritten(c: Call): (r: Result<Transaction>)
    ensures r.Ok? <==> c.postingDate.Some? && c.amount.Some? && c.balance.Some? && c.desc.Some?
    ensures r.Err? ==> r.error == TypeError
  {
    if c.postingDate.Some? && c.amount.Some? && c.balance.Some? && c.desc.Some? then
      Ok(Transaction(c.postingDate.value, c.amount.value, c.balance.value, c.desc.value, OrNone(c.transactionDate)))
    else Err(TypeError)
  }

  /** A call that leaves out `balance`, as the card and loan parsers do, raises TypeError. */
  lemma OmittedBalanceRaises()
    ensures NewTransactionAsWritten(Call(Some(DateTime(738000)), Some(Float(-1250)), None,
                                         Some(Str("INTEREST CHARGE")), None)) == Err(TypeError)
  {
  }

  /** The constructor with `balance` defaulting to None, like `transaction_date`. */
  function NewTransaction(c: Call): (r: Result<Transaction>)
    ensures r.Ok? <==> c.postingDate.Some? && c.amount.Some? && c.desc.Some?
    ensures r.Err? ==> r.error == TypeError
    ensures r.Ok? ==> r.value.balance == OrNone(c.balance) && r.value.transactionDate == OrNone(c.transactionDate)
    ensures r.Ok? ==> r.value.postingDate == c.postingDate.value && r.value.amount == c.amount.value
                      && r.value.desc == c.desc.value
  {
    if c.postingDate.Some? && c.amount.Some? && c.desc.Some? then
      Ok(Transaction(c.postingDate.value, c.amount.value, OrNone(c.balance), c.desc.value, OrNone(c.transactionDate)))
    else Err(TypeError)
  }

  /** The default changes nothing for a call that passes a balance. */
  lemma NewTransactionAgrees(c: Call)
    requires c.balance.Some?
    ensures NewTransaction(c) == NewTransactionAsWritten(c)
  {
  }

  // ---------------------------------------------------------------------
  // Accounts and statements
  // ---------------------------------------------------------------------

  /** The messages `validate_initial`, `validate_account_info` and `validate_complete` raise with. */
  datatype AccountIssue =
    | AccountNumNotStr
    | StartBalanceNotFloat
    | EndBalanceNotFloat
    | AccountIdNotInt
    | AccountNameNotStr
    | StatementIdNotInt

  /** The fields of an account the checks read. */
  datatype AccountView = AccountView(accountNum: Dyn, startBalance: Dyn, endBalance: Dyn, transactions: seq<Transaction>)

  class Account {
    var accountNum: Dyn
    var startBalance: Dyn
    var endBalance: Dyn
    var transactions: seq<Transaction>
    var accountId: Dyn
    var accountName: Dyn
    var statementId: Dyn

    constructor(accountNum: Dyn, startBalance: Dyn, endBalance: Dyn, transactions: seq<Transaction>)
      ensures this.accountNum == accountNum && this.startBalance == startBalance
      ensures this.endBalance == endBalance && this.transactions == transactions
      ensures accountId == NoneValue && accountName == NoneValue && statementId == NoneValue
    {
      this.accountNum := accountNum;
      this.startBalance := startBalance;
      this.endBalance := endBalance;
      this.transactions := transactions;
      accountId := NoneValue;
      accountName := NoneValue;
      statementId := NoneValue;
    }

    function View(): AccountView
      reads this
    {
      AccountView(accountNum, startBalance, endBalance, transactions)
    }

    /** `add_account_info`: set both fields when the id is an int and the name a str, else raise. */
    method AddAccountInfo(accountId: Dyn, accountName: Dyn) returns (r: Option<Error>)
      modifies this
      ensures r.None? <==> accountId.Int? && accountName.Str?
      ensures r.Some? ==> r.value == ValidationError
      ensures r.None? ==> this.accountId == accountId && this.accountName == accountName
      ensures r.Some? ==> this.accountId == old(this.accountId) && this.accountName == old(this.accountName)
      ensures r.None? ==> AccountInfoIssues() == []
      ensures View() == old(View()) && statementId == old(statementId)
    {
      if !accountId.Int? {
        return Some(ValidationError);
      }
      if !accountName.Str? {
        return Some(ValidationError);
      }
      this.accountId := accountId;
      this.accountName := accountName;
      r := None;
    }

    /** `add_statement_id`: set the field when the id is an int, else raise. */
    method AddStatementId(statementId: Dyn) returns (r: Option<Error>)
      modifies this
      ensures r.None? <==> statementId.Int?
      ensures r.Some? ==> r.value == ValidationError
      ensures this.statementId == (if r.None? then statementId else old(this.statementId))
      ensures View() == old(View()) && accountId == old(accountId) && accountName == old(accountName)
    {
      if !statementId.Int? {
        return Some(ValidationError);
      }
      this.statementId := statementId;
      r := None;
    }

    /** The complaints of `validate_initial`, in the order it collects them. */
    function InitialIssues(): (es: seq<AccountIssue>)
      reads this
      ensures AccountNumNotStr in es <==> !accountNum.Str?
      ensures StartBalanceNotFloat in es <==> !startBalance.Float?
      ensures EndBalanceNotFloat in es <==> !endBalance.Float?
      ensures es == [] <==> accountNum.Str? && startBalance.Float? && endBalance.Float?
    {
      (if accountNum.Str? then [] else [AccountNumNotStr])
      + (if startBalance.Float? then [] else [StartBalanceNotFloat])
      + (if endBalance.Float? then [] else [EndBalanceNotFloat])
    }

    /** The complaints of `validate_account_info`. */
    function AccountInfoIssues(): (es: seq<AccountIssue>)
      reads this
      ensures AccountIdNotInt in es <==> !accountId.Int?
      ensures AccountNameNotStr in es <==> !accountName.Str?
      ensures es == [] <==> accountId.Int? && accountName.Str?
    {
      (if accountId.Int? then [] else [AccountIdNotInt])
      + (if accountName.Str? then [] else [AccountNameNotStr])
    }

    /** `validate_initial`: raise when any complaint was collected. */
    function ValidateInitial(): (r: Option<Error>)
      reads this
      ensures r.None? <==> accountNum.Str? && startBalance.Float? && endBalance.Float?
      ensures r.Some? ==> r.value == ValidationError
    {
      if InitialIssues() == [] then None else Some(ValidationError)
    }

    /** `validate_account_info`. */
    function ValidateAccountInfo(): (r: Option<Error>)
      reads this
      ensures r.None? <==> accountId.Int? && accountName.Str?
      ensures r.Some? ==> r.value == ValidationError
    {
      if AccountInfoIssues() == [] then None else Some(ValidationError)
    }

    /** `validate_complete`: every field typed as declared, the optional ones included. */
    function ValidateComplete(): (r: Option<Error>)
      reads this
      ensures r.None? <==> accountNum.Str? && startBalance.Float? && endBalance.Float?
                           && accountId.Int? && accountName.Str? && statementId.Int?
      ensures r.Some? ==> r.value == ValidationError
    {
      var initial := ValidateInitial();
      if initial.Some? then initial
      else
        var info := ValidateAccountInfo();
        if info.Some? then info
        else if statementId.Int? then None
        else Some(ValidationError)
    }
  }

  /** An account fresh from a parser, passed through both setters, is complete iff its own fields are typed. */
  method CompleteAccount(a: Account, accountId: int, accountName: string, statementId: int) returns (r: Option<Error>)
    modifies a
    ensures r == a.ValidateComplete()
    ensures r.None? <==> old(a.ValidateInitial()).None?
  {
    var e1 := a.AddAccountInfo(Int(accountId), Str(accountName));
    var e2 := a.AddStatementId(Int(statementId));
    r := a.ValidateComplete();
  }

  /** The fields of a statement the checks read. */
  datatype StatementView = StatementView(
    startDate: int,
    endDate: int,
    accounts: seq<AccountView>,
    stid: Dyn,
    fpath: Dyn)

  function Views(accounts: seq<Account>): (vs: seq<AccountView>)
    reads set a | a in accounts
    ensures |vs| == |accounts|
    ensures forall k :: 0 <= k < |accounts| ==> vs[k] == accounts[k].View()
  {
    if accounts == [] then [] else Views(accounts[..|accounts| - 1]) + [accounts[|accounts| - 1].View()]
  }

  class Statement {
    var startDate: int
    var endDate: int
    var accounts: seq<Account>
    var stid: Dyn
    var fpath: Dyn
    var dpath: Dyn
    var md5hash: Dyn

    constructor(startDate: int, endDate: int, accounts: seq<Account>, stid: Dyn, fpath: Dyn)
      ensures this.startDate == startDate && this.endDate == endDate && this.accounts == accounts
      ensures this.stid == stid && this.fpath == fpath
      ensures dpath == NoneValue && md5hash == NoneValue
    {
      this.startDate := startDate;
      this.endDate := endDate;
      this.accounts := accounts;
      this.stid := stid;
      this.fpath := fpath;
      dpath := NoneValue;
      md5hash := NoneValue;
    }

    function View(): StatementView
      reads this, set a | a in accounts
    {
      StatementView(startDate, endDate, Views(accounts), stid, fpath)
    }

    /** `add_md5hash`: set the hash when it is a str, else raise. */
    method AddMd5hash(md5hash: Dyn) returns (r: Option<Error>)
      modifies this
      ensures r.None? <==> md5hash.Str?
      ensures r.Some? ==> r.value == ValidationError
      ensures this.md5hash == (if r.None? then md5hash else old(this.md5hash))
      ensures accounts == old(accounts) && dpath == old(dpath)
      ensures startDate == old(startDate) && endDate == old(endDate) && stid == old(stid) && fpath == old(fpath)
    {
      if !md5hash.Str? {
        return Some(ValidationError);
      }
      this.md5hash := md5hash;
      r := None;
    }

    /** `add_dpath`: set the destination path, whatever it is. */
    method AddDpath(dpath: Dyn)
      modifies this
      ensures this.dpath == dpath
      ensures accounts == old(accounts) && md5hash == old(md5hash)
      ensures startDate == old(startDate) && endDate == old(endDate) && stid == old(stid) && fpath == old(fpath)
    {
      this.dpath := dpath;
    }
  }

  // ---------------------------------------------------------------------
  // Issues and how the checks gather them
  // ---------------------------------------------------------------------

  /** The messages the registered checks return. */
  datatype Issue =
    | MissingStid
    | MissingFpath
    | OutsideRange(posting: int)
    | FarFromPosting(transaction: int, posting: int)
    | InvalidAmount(amount: Dyn)
    | InvalidBalance(balance: Dyn)
    | EmptyDescription(t: Transaction)
    | BalanceMismatch(accountNum: Dyn, discrepancy: nat)

  /** Run two steps in order: the first exception stops everything, otherwise the lists are joined. */
  function Then(a: Result<seq<Issue>>, b: Result<seq<Issue>>): Result<seq<Issue>> {
    if a.Err? then a else if b.Err? then b else Ok(a.value + b.value)
  }

  lemma ThenAssoc(a: Result<seq<Issue>>, b: Result<seq<Issue>>, c: Result<seq<Issue>>)
    ensures Then(Then(a, b), c) == Then(a, Then(b, c))
  {
    if a.Ok? && b.Ok? && c.Ok? {
      assert (a.value + b.value) + c.value == a.value + (b.value + c.value);
    }
  }

  /** Apply `f` to each element in order, extending one list of issues, and stop at the first exception. */
  function Gather<T>(xs: seq<T>, f: T -> Result<seq<Issue>>): Result<seq<Issue>> {
    if xs == [] then Ok([]) else Then(Gather(xs[..|xs| - 1], f), f(xs[|xs| - 1]))
  }

  lemma GatherStep<T>(xs: seq<T>, i: nat, f: T -> Result<seq<Issue>>)
    requires i < |xs|
    ensures Gather(xs[..i + 1], f) == Then(Gather(xs[..i], f), f(xs[i]))
  {
    assert xs[..i + 1][..i] == xs[..i];
  }

  /** Once an exception is raised no later element changes the outcome. */
  lemma {:induction false} GatherStops<T>(xs: seq<T>, n: nat, f: T -> Result<seq<Issue>>)
    requires n <= |xs| && Gather(xs[..n], f).Err?
    ensures Gather(xs, f) == Gather(xs[..n], f)
    decreases |xs| - n
  {
    if n < |xs| {
      GatherStep(xs, n, f);
      GatherStops(xs, n + 1, f);
    } else {
      assert xs[..n] == xs;
    }
  }

  /** Gathering over a concatenation gathers over each part in turn. */
  lemma {:induction false} GatherConcat<T>(a: seq<T>, b: seq<T>, f: T -> Result<seq<Issue>>)
    ensures Gather(a + b, f) == Then(Gather(a, f), Gather(b, f))
    decreases |b|
  {
    if b == [] {
      assert a + b == a;
      if Gather(a, f).Ok? {
        assert Gather(a, f).value + [] == Gather(a, f).value;
      }
    } else {
      var b' := b[..|b| - 1];
      assert (a + b)[..|a + b| - 1] == a + b';
      assert (a + b)[|a + b| - 1] == b[|b| - 1];
      GatherConcat(a, b', f);
      ThenAssoc(Gather(a, f), Gather(b', f), f(b[|b| - 1]));
    }
  }

  /** Gathering succeeds iff every step does, and then its issues are exactly the steps' issues. */
  lemma {:induction false} GatherOk<T>(xs: seq<T>, f: T -> Result<seq<Issue>>)
    ensures Gather(xs, f).Ok? <==> forall k :: 0 <= k < |xs| ==> f(xs[k]).Ok?
    ensures Gather(xs, f).Ok? ==>
              (forall k, x :: 0 <= k < |xs| && x in f(xs[k]).value ==> x in Gather(xs, f).value)
              && (forall x :: x in Gather(xs, f).value ==> exists k :: 0 <= k < |xs| && x in f(xs[k]).value)
    ensures Gather(xs, f).Err? ==> exists k :: 0 <= k < |xs| && f(xs[k]) == Gather(xs, f)
  {
    if xs != [] {
      var p := xs[..|xs| - 1];
      var last := xs[|xs| - 1];
      GatherOk(p, f);
      assert forall k :: 0 <= k < |p| ==> p[k] == xs[k];
      if Gather(p, f).Err? {
        var k :| 0 <= k < |p| && f(p[k]) == Gather(p, f);
        assert f(xs[k]) == Gather(xs, f);
      }
    }
  }

  /** No issue at all means no step found any. */
  lemma {:induction false} GatherEmpty<T>(xs: seq<T>, f: T -> Result<seq<Issue>>)
    requires Gather(xs, f) == Ok([])
    ensures forall k :: 0 <= k < |xs| ==> f(xs[k]) == Ok([])
  {
    if xs != [] {
      var p := xs[..|xs| - 1];
      assert Gather(p, f).Ok? && f(xs[|xs| - 1]).Ok?;
      assert Gather(p, f).value + f(xs[|xs| - 1]).value == [];
      GatherEmpty(p, f);
      assert forall k :: 0 <= k < |p| ==> p[k] == xs[k];
    }
  }

  // ---------------------------------------------------------------------
  // validate_metadata
  // ---------------------------------------------------------------------

  /** `validate_metadata`: one complaint each for a missing statement type and a missing path. */
  function ValidateMetadata(v: StatementView): (es: seq<Issue>)
    ensures MissingStid in es <==> v.stid == NoneValue
    ensures MissingFpath in es <==> v.fpath == NoneValue
    ensures forall x :: x in es ==> x == MissingStid || x == MissingFpath
    ensures |es| == (if v.stid == NoneValue then 1 else 0) + (if v.fpath == NoneValue then 1 else 0)
  {
    (if v.stid == NoneValue then [MissingStid] else [])
    + (if v.fpath == NoneValue then [MissingFpath] else [])
  }

  // ---------------------------------------------------------------------
  // validate_transactions
  // ---------------------------------------------------------------------

  /**
   * The loop body of `validate_transactions` for one transaction.  A posting
   * date that is not a datetime cannot be compared with the statement dates,
   * a truthy transaction date that is not a datetime cannot be subtracted,
   * and a description that is not a str has no `strip`: each raises before
   * the "Invalid ..." message appended just before it is ever returned.
   */
  function TransactionIssues(t: Transaction, start: int, end: int): (r: Result<seq<Issue>>)
    ensures r.Err? <==> !t.postingDate.DateTime? || (Truthy(t.transactionDate) && !t.transactionDate.DateTime?)
                        || !t.desc.Str?
    ensures r.Err? ==> r.error == (if t.desc.Str? || !t.postingDate.DateTime?
                                     || (Truthy(t.transactionDate) && !t.transactionDate.DateTime?)
                                   then TypeError else AttributeError)
    ensures r.Ok? ==> var pd := t.postingDate.ordinal;
              (OutsideRange(pd) in r.value <==> pd < start || pd > end)
    ensures r.Ok? ==> var td := t.transactionDate;
              ((exists a, b :: FarFromPosting(a, b) in r.value) <==> td.DateTime? && Abs(td.ordinal - t.postingDate.ordinal) > 30)
    ensures r.Ok? ==> (InvalidAmount(t.amount) in r.value <==> !t.amount.Float?)
    ensures r.Ok? ==> (InvalidBalance(t.balance) in r.value <==> !t.balance.Float?)
    ensures r.Ok? ==> (EmptyDescription(t) in r.value <==> IsBlank(t.desc.s))
    ensures r.Ok? ==> |r.value| <= 5
  {
    if !t.postingDate.DateTime? then Err(TypeError)
    else
      var pd := t.postingDate.ordinal;
      var range := if pd < start || pd > end then [OutsideRange(pd)] else [];
      if Truthy(t.transactionDate) && !t.transactionDate.DateTime? then Err(TypeError)
      else
        var gap :=
          if Truthy(t.transactionDate) && Abs(t.transactionDate.ordinal - pd) > 30
          then [FarFromPosting(t.transactionDate.ordinal, pd)] else [];
        if !t.desc.Str? then Err(AttributeError)
        else
          var amount := if t.amount.Float? then [] else [InvalidAmount(t.amount)];
          var balance := if t.balance.Float? then [] else [InvalidBalance(t.balance)];
          var desc := if IsBlank(t.desc.s) then [EmptyDescription(t)] else [];
          var issues := range + gap + amount + balance + desc;
          assert forall i :: i in issues <==> i in range || i in gap || i in amount || i in balance || i in desc;
          Ok(issues)
  }

  /** A transaction that is well typed and inside the statement period raises nothing and gets no complaint. */
  lemma CleanTransaction(t: Transaction, start: int, end: int)
    requires t.postingDate.DateTime? && start <= t.postingDate.ordinal <= end
    requires t.transactionDate == NoneValue
             || (t.transactionDate.DateTime? && Abs(t.transactionDate.ordinal - t.postingDate.ordinal) <= 30)
    requires t.amount.Float? && t.balance.Float? && t.desc.Str? && !IsBlank(t.desc.s)
    ensures TransactionIssues(t, start, end) == Ok([])
  {
  }

  function CheckTransaction(start: int, end: int): Transaction -> Result<seq<Issue>> {
    (t: Transaction) => TransactionIssues(t, start, end)
  }

  function CheckAccountTransactions(start: int, end: int): AccountView -> Result<seq<Issue>> {
    (a: AccountView) => Gather(a.transactions, CheckTransaction(start, end))
  }

  /** What `validate_transactions` returns or raises. */
  function TransactionCheck(v: StatementView): Result<seq<Issue>> {
    Gather(v.accounts, CheckAccountTransactions(v.startDate, v.endDate))
  }

  /** `validate_transactions`: the nested loops over accounts and their transactions. */
  method ValidateTransactions(v: StatementView) returns (r: Result<seq<Issue>>)
    ensures r == TransactionCheck(v)
  {
    var errors: seq<Issue> := [];
    var j := 0;
    while j < |v.accounts|
      invariant 0 <= j <= |v.accounts|
      invariant Gather(v.accounts[..j], CheckAccountTransactions(v.startDate, v.endDate)) == Ok(errors)
    {
      var issues := ValidateAccountTransactions(v.accounts[j].transactions, v.startDate, v.endDate);
      AccountDone(v, j);
      if issues.Err? {
        GatherStops(v.accounts, j + 1, CheckAccountTransactions(v.startDate, v.endDate));
        assert v.accounts[..|v.accounts|] == v.accounts;
        return Err(issues.error);
      }
      errors := errors + issues.value;
      j := j + 1;
    }
    assert v.accounts[..j] == v.accounts;
    r := Ok(errors);
  }

  /** The inner loop of `validate_transactions`, over one account's transactions. */
  method ValidateAccountTransactions(ts: seq<Transaction>, start: int, end: int) returns (r: Result<seq<Issue>>)
    ensures r == Gather(ts, CheckTransaction(start, end))
  {
    var errors: seq<Issue> := [];
    var i := 0;
    while i < |ts|
      invariant 0 <= i <= |ts|
      invariant Gather(ts[..i], CheckTransaction(start, end)) == Ok(errors)
    {
      var issues := TransactionIssues(ts[i], start, end);
      GatherStep(ts, i, CheckTransaction(start, end));
      if issues.Err? {
        GatherStops(ts, i + 1, CheckTransaction(start, end));
        assert ts[..|ts|] == ts;
        return Err(issues.error);
      }
      errors := errors + issues.value;
      i := i + 1;
    }
    assert ts[..i] == ts;
    r := Ok(errors);
  }

  /** The issues of account `j` follow those of the accounts before it. */
  lemma AccountDone(v: StatementView, j: nat)
    requires j < |v.accounts|
    ensures Gather(v.accounts[..j + 1], CheckAccountTransactions(v.startDate, v.endDate))
            == Then(Gather(v.accounts[..j], CheckAccountTransactions(v.startDate, v.endDate)),
                    Gather(v.accounts[j].transactions, CheckTransaction(v.startDate, v.endDate)))
  {
    GatherStep(v.accounts, j, CheckAccountTransactions(v.startDate, v.endDate));
  }

  /** Each transaction of each account is checked, and the result holds exactly their complaints. */
  lemma TransactionCheckCollects(v: StatementView, j: nat, i: nat)
    requires j < |v.accounts| && i < |v.accounts[j].transactions|
    ensures TransactionCheck(v).Ok? ==>
              TransactionIssues(v.accounts[j].transactions[i], v.startDate, v.endDate).Ok?
              && forall x :: x in TransactionIssues(v.accounts[j].transactions[i], v.startDate, v.endDate).value
                             ==> x in TransactionCheck(v).value
  {
    var step := CheckAccountTransactions(v.startDate, v.endDate);
    var inner := CheckTransaction(v.startDate, v.endDate);
    GatherOk(v.accounts, step);
    GatherOk(v.accounts[j].transactions, inner);
  }

  // ---------------------------------------------------------------------
  // validate_balances
  // ---------------------------------------------------------------------

  /** `sum(t.amount for t in transactions)`, in cents; `None` when an amount is not a number. */
  function SumAmounts(ts: seq<Transaction>): Option<int> {
    if ts == [] then Some(0)
    else
      var rest := SumAmounts(ts[..|ts| - 1]);
      var last := Cents(ts[|ts| - 1].amount);
      if rest.None? || last.None? then None else Some(rest.value + last.value)
  }

  /** The loop body of `validate_balances` for one account. */
  function AccountBalanceIssues(a: AccountView): (r: Result<seq<Issue>>)
    ensures r.Err? <==> Cents(a.endBalance).None? || Cents(a.startBalance).None? || SumAmounts(a.transactions).None?
    ensures r.Err? ==> r.error == TypeError
    ensures r.Ok? ==>
              var d := Abs(Cents(a.endBalance).value - Cents(a.startBalance).value - SumAmounts(a.transactions).value);
              (r.value == [] <==> d <= 1) && (r.value != [] ==> r.value == [BalanceMismatch(a.accountNum, d)])
  {
    var endC := Cents(a.endBalance);
    var startC := Cents(a.startBalance);
    if endC.None? || startC.None? then Err(TypeError)
    else
      var change := endC.value - startC.value;
      var total := SumAmounts(a.transactions);
      if total.None? then Err(TypeError)
      else
        var discrepancy := Abs(change - total.value);
        if discrepancy > 1 then Ok([BalanceMismatch(a.accountNum, discrepancy)]) else Ok([])
  }

  /** What `validate_balances` returns or raises. */
  function BalanceCheck(v: StatementView): Result<seq<Issue>> {
    Gather(v.accounts, AccountBalanceIssues)
  }

  /** `validate_balances`: the loop over accounts. */
  method ValidateBalances(v: StatementView) returns (r: Result<seq<Issue>>)
    ensures r == BalanceCheck(v)
  {
    var errors: seq<Issue> := [];
    var j := 0;
    while j < |v.accounts|
      invariant 0 <= j <= |v.accounts|
      invariant Gather(v.accounts[..j], AccountBalanceIssues) == Ok(errors)
    {
      var issues := AccountBalanceIssues(v.accounts[j]);
      GatherStep(v.accounts, j, AccountBalanceIssues);
      if issues.Err? {
        GatherStops(v.accounts, j + 1, AccountBalanceIssues);
        return Err(issues.error);
      }
      errors := errors + issues.value;
      j := j + 1;
    }
    assert v.accounts[..j] == v.accounts;
    r := Ok(errors);
  }

  /** An account reconciles when its balance change and its amounts differ by at most one cent. */
  predicate Reconciles(a: AccountView) {
    Cents(a.endBalance).Some? && Cents(a.startBalance).Some? && SumAmounts(a.transactions).Some?
    && Abs(Cents(a.endBalance).value - Cents(a.startBalance).value - SumAmounts(a.transactions).value) <= 1
  }

  /** The balance check passes with no complaint iff every account reconciles. */
  lemma BalanceCheckIffReconciled(v: StatementView)
    requires BalanceCheck(v).Ok?
    ensures forall k :: 0 <= k < |v.accounts| ==> AccountBalanceIssues(v.accounts[k]).Ok?
    ensures BalanceCheck(v).value == [] <==> forall k :: 0 <= k < |v.accounts| ==> Reconciles(v.accounts[k])
  {
    GatherOk(v.accounts, AccountBalanceIssues);
    if BalanceCheck(v).value == [] {
      GatherEmpty(v.accounts, AccountBalanceIssues);
      forall k | 0 <= k < |v.accounts|
        ensures Reconciles(v.accounts[k])
      {
        var f := AccountBalanceIssues;
        assert f(v.accounts[k]) == AccountBalanceIssues(v.accounts[k]);
        assert AccountBalanceIssues(v.accounts[k]).Ok?;
      }
    } else {
      var x := BalanceCheck(v).value[0];
      assert x in BalanceCheck(v).value;
    }
  }

  // ---------------------------------------------------------------------
  // The registry and validate_statement
  // ---------------------------------------------------------------------

  /** The check functions that can be registered. */
  datatype Check = Metadata | Transactions | Balances

  /** What calling a registered check returns or raises. */
  function RunCheck(c: Check, v: StatementView): Result<seq<Issue>> {
    match c
    case Metadata => Ok(ValidateMetadata(v))
    case Transactions => TransactionCheck(v)
    case Balances => BalanceCheck(v)
  }

  function CheckOn(v: StatementView): Check -> Result<seq<Issue>> {
    (c: Check) => RunCheck(c, v)
  }

  /** What `validate_statement` does: the logged complaints, or the exception it raises. */
  function ValidateStatementSpec(checks: seq<Check>, v: StatementView, hardFail: bool): Result<seq<Issue>> {
    var all := Gather(checks, CheckOn(v));
    if all.Ok? && all.value != [] && hardFail then Err(ValidationError) else all
  }

  /** The checks raise only TypeError or AttributeError of their own. */
  lemma CheckErrors(c: Check, v: StatementView)
    ensures RunCheck(c, v).Err? ==> RunCheck(c, v).error == TypeError || RunCheck(c, v).error == AttributeError
  {
    match c
    case Metadata =>
    case Transactions =>
      GatherOk(v.accounts, CheckAccountTransactions(v.startDate, v.endDate));
      if TransactionCheck(v).Err? {
        var k :| 0 <= k < |v.accounts| && CheckAccountTransactions(v.startDate, v.endDate)(v.accounts[k]) == TransactionCheck(v);
        GatherOk(v.accounts[k].transactions, CheckTransaction(v.startDate, v.endDate));
      }
    case Balances =>
      GatherOk(v.accounts, AccountBalanceIssues);
  }

  /**
   * `validate_statement` raises ValidationError exactly when the checks
   * found something and hard failure was asked for; without hard failure
   * it only passes on what the checks did.
   */
  lemma ValidationErrorIffHardFail(checks: seq<Check>, v: StatementView, hardFail: bool)
    ensures ValidateStatementSpec(checks, v, hardFail) == Err(ValidationError)
            <==> hardFail && Gather(checks, CheckOn(v)).Ok? && Gather(checks, CheckOn(v)).value != []
    ensures !hardFail ==> ValidateStatementSpec(checks, v, hardFail) == Gather(checks, CheckOn(v))
  {
    GatherOk(checks, CheckOn(v));
    if Gather(checks, CheckOn(v)).Err? {
      var k :| 0 <= k < |checks| && CheckOn(v)(checks[k]) == Gather(checks, CheckOn(v));
      CheckErrors(checks[k], v);
    }
  }

  /** Registering one more check appends its complaints after those of the earlier ones. */
  lemma RegistrationOrder(checks: seq<Check>, c: Check, v: StatementView)
    ensures Gather(checks + [c], CheckOn(v)) == Then(Gather(checks, CheckOn(v)), RunCheck(c, v))
  {
    GatherConcat(checks, [c], CheckOn(v));
    assert Gather([c], CheckOn(v)) == Then(Gather([], CheckOn(v)), RunCheck(c, v));
    assert [c][..0] == [];
  }

  /** With the three checks the module registers, the complaints come metadata first, then transactions, then balances. */
  lemma DefaultChecksInOrder(v: StatementView)
    requires TransactionCheck(v).Ok? && BalanceCheck(v).Ok?
    ensures Gather([Metadata, Transactions, Balances], CheckOn(v))
            == Ok(ValidateMetadata(v) + TransactionCheck(v).value + BalanceCheck(v).value)
  {
    var f := CheckOn(v);
    assert [Metadata, Transactions, Balances][..2] == [Metadata, Transactions];
    assert [Metadata, Transactions][..1] == [Metadata];
    assert [Metadata][..0] == [];
    assert [] + ValidateMetadata(v) == ValidateMetadata(v);
    assert Gather([Metadata], f) == Then(Ok([]), f(Metadata));
  }

  /** Call a registered check. */
  method Invoke(c: Check, v: StatementView) returns (found: Result<seq<Issue>>)
    ensures found == RunCheck(c, v)
  {
    match c {
      case Metadata => found := Ok(ValidateMetadata(v));
      case Transactions => found := ValidateTransactions(v);
      case Balances => found := ValidateBalances(v);
    }
  }

  /** `VALIDATION_CHECKS` with `register_validation` and `validate_statement`. */
  class Validator {
    var checks: seq<Check>

    /** The module's own registrations, in source order. */
    constructor()
      ensures checks == [Metadata, Transactions, Balances]
    {
      checks := [Metadata, Transactions, Balances];
    }

    /** `register_validation`: append a check. */
    method Register(c: Check)
      modifies this
      ensures checks == old(checks) + [c]
    {
      checks := checks + [c];
    }

    /** `validate_statement(statement, hard_fail)`. */
    method ValidateStatement(st: Statement, hardFail: bool) returns (r: Result<seq<Issue>>)
      ensures r == ValidateStatementSpec(checks, st.View(), hardFail)
    {
      var checks := this.checks;
      var v := st.View();
      var f := CheckOn(v);
      var errors: seq<Issue> := [];
      var i := 0;
      while i < |checks|
        invariant 0 <= i <= |checks|
        invariant Gather(checks[..i], f) == Ok(errors)
      {
        var found := Invoke(checks[i], v);
        GatherStep(checks, i, f);
        if found.Err? {
          GatherStops(checks, i + 1, f);
          return Err(found.error);
        }
        errors := errors + found.value;
        i := i + 1;
      }
      assert checks[..i] == checks;
      if errors != [] && hardFail {
        return Err(ValidationError);
      }
      r := Ok(errors);
    }
  }
}
