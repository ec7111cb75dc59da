/** A credit account: its balance may go negative down to minus the credit
    limit, it has no upper bound, and interest is charged only on a negative
    balance. */
module CreditAccounts {
  import JavaInt

  /** The constructor check that rejected the parameters. */
  datatype ParamError = NegativeInitialBalance | NonPositiveCreditLimit | NonPositiveRate

  datatype Option<T> = None | Some(value: T)

  /** The constructor's checks, in the order it makes them: the first one
      that fails names the error; None when all three pass. */
  function CheckParams(initialBalance: int, creditLimit: int, rate: int): (r: Option<ParamError>)
    ensures r == None <==> initialBalance >= 0 && creditLimit > 0 && rate > 0
    ensures r == Some(NegativeInitialBalance) <==> initialBalance < 0
    ensures r == Some(NonPositiveCreditLimit) <==> initialBalance >= 0 && creditLimit <= 0
    ensures r == Some(NonPositiveRate) <==> initialBalance >= 0 && creditLimit > 0 && rate <= 0
  {
    if initialBalance < 0 then Some(NegativeInitialBalance)
    else if creditLimit <= 0 then Some(NonPositiveCreditLimit)
    else if rate <= 0 then Some(NonPositiveRate)
    else None
  }

  /** The object invariant of an account, on its three fields. */
  predicate Inv(balance: int, creditLimit: int, rate: int) {
    creditLimit > 0 && rate > 0 && balance >= -creditLimit
  }

  /** Every parameter triple the constructor accepts gives a state that
      satisfies the invariant, and the constructor is strictly stricter than
      the invariant: it refuses a negative starting balance that the
      invariant would allow. */
  lemma AcceptedParamsSatisfyInv(initialBalance: int, creditLimit: int, rate: int)
    ensures CheckParams(initialBalance, creditLimit, rate) == None ==> Inv(initialBalance, creditLimit, rate)
    ensures Inv(-1, 1, 1) && CheckParams(-1, 1, 1) == Some(NegativeInitialBalance)
  {
  }

  /** What a guarded operation reports, and the balance it leaves. */
  datatype Outcome = Outcome(ok: bool, balance: int)

  /** A payment of `amount` from `balance`: accepted exactly when the amount
      is positive and the new balance stays at or above `-creditLimit`
      (reaching it is allowed); an accepted payment lowers the balance by
      exactly `amount`, a rejected one leaves it as it was. */
  function PayStep(balance: int, creditLimit: int, amount: int): (r: Outcome)
    ensures r.ok == (amount > 0 && balance - amount >= -creditLimit)
    ensures r.balance == if r.ok then balance - amount else balance
    ensures balance >= -creditLimit ==> r.balance >= -creditLimit
  {
    if amount <= 0 then Outcome(false, balance)
    else
      var newBalance := balance - amount;
      if newBalance < -creditLimit then Outcome(false, balance)
      else Outcome(true, newBalance)
  }

  /** A deposit of `amount`: accepted exactly when it is positive, with no
      upper bound; it never lowers the balance, so the credit-limit bound is
      kept. */
  function AddStep(balance: int, amount: int): (r: Outcome)
    ensures r.ok == (amount > 0)
    ensures r.balance == if r.ok then balance + amount else balance
    ensures r.balance >= balance
  {
    if amount <= 0 then Outcome(false, balance)
    else Outcome(true, balance + amount)
  }

  /** Paying exactly down to the credit limit succeeds; one unit more is
      refused and changes nothing. */
  lemma PayBoundaryExact(balance: int, creditLimit: int)
    requires balance >= -creditLimit && balance + creditLimit > 0
    ensures PayStep(balance, creditLimit, balance + creditLimit) == Outcome(true, -creditLimit)
    ensures PayStep(balance, creditLimit, balance + creditLimit + 1) == Outcome(false, balance)
  {
  }

  /** A deposit undoes an accepted payment of the same amount. */
  lemma AddUndoesPay(balance: int, creditLimit: int, amount: int)
    requires PayStep(balance, creditLimit, amount).ok
    ensures AddStep(PayStep(balance, creditLimit, amount).balance, amount) == Outcome(true, balance)
  {
  }

  /** A payment of the same amount undoes any accepted deposit, on an
      account that satisfies the credit-limit bound. */
  lemma PayUndoesAdd(balance: int, creditLimit: int, amount: int)
    requires balance >= -creditLimit && amount > 0
    ensures PayStep(AddStep(balance, amount).balance, creditLimit, amount) == Outcome(true, balance)
  {
  }

  /** `pay` on Java's 32-bit `int`, as the source computes it: the
      difference `balance - amount` wraps around before it is compared with
      the credit limit. */
  function PayAsWritten(balance: int, creditLimit: int, amount: int): (r: Outcome)
    requires JavaInt.IsInt32(balance) && JavaInt.IsInt32(amount)
    requires 0 < creditLimit <= JavaInt.MaxInt32
    ensures JavaInt.IsInt32(r.balance)
    ensures JavaInt.IsInt32(balance - amount) ==> r == PayStep(balance, creditLimit, amount)
  {
    if amount <= 0 then Outcome(false, balance)
    else
      var newBalance := JavaInt.Wrap32(balance - amount);
      if newBalance < -creditLimit then Outcome(false, balance)
      else Outcome(true, newBalance)
  }

  /** The wrap-around lets a payment through that should be refused, and
      the payment then RAISES the balance: from -2, paying the largest `int`
      leaves the largest `int`. */
  lemma PayAsWrittenRaisesBalance()
    ensures PayAsWritten(-2, 5000, JavaInt.MaxInt32) == Outcome(true, JavaInt.MaxInt32)
    ensures PayStep(-2, 5000, JavaInt.MaxInt32) == Outcome(false, -2)
  {
  }

  /** The intended payment, computed on the true difference, can be stored
      back in a 32-bit `int`, and refuses every payment whose difference
      would overflow. */
  lemma PayStepFitsInt32(balance: int, creditLimit: int, amount: int)
    requires JavaInt.IsInt32(balance) && JavaInt.IsInt32(amount)
    requires 0 < creditLimit <= JavaInt.MaxInt32 && balance >= -creditLimit
    ensures JavaInt.IsInt32(PayStep(balance, creditLimit, amount).balance)
    ensures !JavaInt.IsInt32(balance - amount) ==> !PayStep(balance, creditLimit, amount).ok
  {
  }

  /** `add` on Java's 32-bit `int`, as the source computes it: the sum
      `balance + amount` wraps around, and nothing checks it. */
  function AddAsWritten(balance: int, amount: int): (r: Outcome)
    requires JavaInt.IsInt32(balance) && JavaInt.IsInt32(amount)
    ensures JavaInt.IsInt32(r.balance)
    ensures JavaInt.IsInt32(balance + amount) ==> r == AddStep(balance, amount)
  {
    if amount <= 0 then Outcome(false, balance)
    else Outcome(true, JavaInt.Wrap32(balance + amount))
  }

  /** The wrap-around breaks the credit-limit bound: an account opened with
      the largest `int` as its balance accepts a deposit of 1 and is left at
      the smallest `int`, far below `-creditLimit`. */
  lemma AddAsWrittenBreaksBound()
    ensures CheckParams(JavaInt.MaxInt32, 5000, 15) == None
    ensures AddAsWritten(JavaInt.MaxInt32, 1) == Outcome(true, JavaInt.MinInt32)
    ensures JavaInt.MinInt32 < -5000
  {
  }

  /** One call of the account's public mutating API. */
  datatype Call = Pay(amount: int) | Add(amount: int)

  /** One call on an account with the given balance and credit limit. */
  function Apply(balance: int, creditLimit: int, call: Call): (r: Outcome)
    ensures r.ok == (call.amount > 0 && (call.Pay? ==> balance - call.amount >= -creditLimit))
    ensures balance >= -creditLimit ==> r.balance >= -creditLimit
  {
    match call
    case Pay(x) => PayStep(balance, creditLimit, x)
    case Add(x) => AddStep(balance, x)
  }

  /** The balance after making the calls in order, starting from `balance`. */
  function Run(balance: int, creditLimit: int, calls: seq<Call>): int
    decreases |calls|
  {
    if calls == [] then balance
    else Run(Apply(balance, creditLimit, calls[0]).balance, creditLimit, calls[1..])
  }

  /** No sequence of calls takes the balance below `-creditLimit`. */
  lemma {:induction false} RunKeepsBound(balance: int, creditLimit: int, calls: seq<Call>)
    requires balance >= -creditLimit
    ensures Run(balance, creditLimit, calls) >= -creditLimit
    decreases |calls|
  {
    if calls != [] {
      RunKeepsBound(Apply(balance, creditLimit, calls[0]).balance, creditLimit, calls[1..]);
    }
  }

  /** Calls with a non-positive amount are all refused, so a run made only
      of them leaves the balance where it was. */
  lemma {:induction false} RunOfRefusedCalls(balance: int, creditLimit: int, calls: seq<Call>)
    requires forall i :: 0 <= i < |calls| ==> calls[i].amount <= 0
    ensures Run(balance, creditLimit, calls) == balance
    decreases |calls|
  {
    if calls != [] {
      RunOfRefusedCalls(balance, creditLimit, calls[1..]);
    }
  }

  class CreditAccount {
    var balance: int
    var creditLimit: int
    var rate: int

    ghost predicate Valid()
      reads this
    {
      Inv(balance, creditLimit, rate)
    }

    /** Sets the fields; reached only once every parameter check has passed
        (see Open). */
    constructor (initialBalance: int, creditLimit: int, rate: int)
      requires CheckParams(initialBalance, creditLimit, rate) == None
      ensures Valid()
      ensures balance == initialBalance && this.creditLimit == creditLimit && this.rate == rate
    {
      this.balance := initialBalance;
      this.creditLimit := creditLimit;
      this.rate := rate;
    }

    /** The credit limit: the positive amount the balance may go below zero. */
    function CreditLimit(): (r: int)
      reads this
      requires Valid()
      ensures r > 0 && balance >= -r
    {
      creditLimit
    }

    /** A payment from the account, as PayStep describes it; only the balance
        can change. */
    method Pay(amount: int) returns (ok: bool)
      requires Valid()
      modifies this
      ensures Valid()
      ensures Outcome(ok, balance) == PayStep(old(balance), old(creditLimit), amount)
      ensures creditLimit == old(creditLimit) && rate == old(rate)
    {
      if amount <= 0 {
        return false;
      }
      var newBalance := balance - amount;
      if newBalance < -creditLimit {
        return false;
      }
      balance := newBalance;
      return true;
    }

    /** A deposit into the account, as AddStep describes it; only the balance
        can change. */
    method Add(amount: int) returns (ok: bool)
      requires Valid()
      modifies this
      ensures Valid()
      ensures Outcome(ok, balance) == AddStep(old(balance), amount)
      ensures creditLimit == old(creditLimit) && rate == old(rate)
    {
      if amount <= 0 {
        return false;
      }
      balance := balance + amount;
      return true;
    }

    /** The interest for a year on the current balance: nothing on a balance
        of zero or more, otherwise `balance * rate` percent rounded toward
        zero, as Java's integer division does. */
    function YearChange(): (r: int)
      reads this
      ensures balance >= 0 ==> r == 0
      ensures balance < 0 ==> JavaInt.IsTruncatedQuotient(balance * rate, 100, r)
    {
      if balance < 0 then JavaInt.Div(balance * rate, 100) else 0
    }
  }

  /** On a valid account the yearly figure is never positive (no interest
      is paid out), is within one unit of `balance * rate / 100`, and never
      exceeds `rate` percent of the credit limit in magnitude. */
  lemma YearChangeBounds(a: CreditAccount)
    requires a.Valid()
    ensures a.YearChange() <= 0
    ensures a.balance < 0 ==> a.balance * a.rate <= 100 * a.YearChange() < a.balance * a.rate + 100
    ensures 100 * a.YearChange() >= -(a.creditLimit * a.rate)
  {
  }

  /** The result of opening an account: the new account, or the check that
      refused its parameters. */
  datatype Opened = Opened(account: CreditAccount) | Rejected(error: ParamError)

  /** Creates an account, or refuses the parameters without creating anything
      when any check fails. The fields are set only after all checks pass. */
  method Open(initialBalance: int, creditLimit: int, rate: int) returns (r: Opened)
    ensures r.Rejected? <==> CheckParams(initialBalance, creditLimit, rate) != None
    ensures r.Rejected? ==> CheckParams(initialBalance, creditLimit, rate) == Some(r.error)
    ensures r.Opened? ==> fresh(r.account) && r.account.Valid()
    ensures r.Opened? ==> r.account.balance == initialBalance && r.account.creditLimit == creditLimit
                          && r.account.rate == rate
  {
    var err := CheckParams(initialBalance, creditLimit, rate);
    if err.Some? {
      return Rejected(err.value);
    }
    var account := new CreditAccount(initialBalance, creditLimit, rate);
    return Opened(account);
  }
}
