# Credit account balance state machine

A model of the `CreditAccount` class of a small banking exercise. The class holds a
balance, a credit limit and an interest rate. The balance may go negative, but never
below minus the credit limit, and it has no upper bound. `pay` and `add` are guarded
operations: each either commits a new balance and returns `true`, or returns `false` and
changes nothing. `yearChange` charges yearly interest only on a negative balance and
rounds toward zero, as Java's integer division does. The constructor refuses a negative
initial balance, a non-positive credit limit and a non-positive rate.

Files:
- `java_int.dfy` (module `JavaInt`): Java's truncating `/` for a positive divisor,
  specified by an independent definition that is proved to determine the quotient
  uniquely. It also holds the 32-bit `int` range and its wrap-around.
- `credit_account.dfy` (module `CreditAccounts`): the class `CreditAccount` with fields
  `balance`, `creditLimit` and `rate`. The object invariant is `Valid()`. The pure
  transition functions `PayStep` and `AddStep` specify the methods `Pay` and `Add`.
  The file also holds the constructor checks (`CheckParams`), the factory `Open` for the
  exception path, and lemmas about single calls and about whole sequences of calls.
- `credit_account_examples.dfy` (module `CreditAccountExamples`): rows of the unit tests
  written as client code, with assertions that follow from the contracts alone.

The constructor throws `IllegalArgumentException`. The model has `Open` return
`Rejected(error)` instead, and creates no object in that case. The Javadoc of the
constructor calls the credit limit and the rate "non-negative", but the code refuses 0
for both. The model follows the code.

Java `int`s are modelled as unbounded integers. The 32-bit wrap-around in `pay` and `add` is
modelled separately, under "Findings".

## Model

| member | source | states |
|---|---|---|
| `CreditAccounts.CheckParams` | src/main/java/ru/netology/javaqadiplom/CreditAccount.java:21-37 | The parameters are accepted exactly when initialBalance >= 0, creditLimit > 0 and rate > 0. Otherwise the error names the first failing check, in the constructor's order (initial balance, then credit limit, then rate). |
| `CreditAccounts.AcceptedParamsSatisfyInv` | src/main/java/ru/netology/javaqadiplom/CreditAccount.java:21-42 | Accepted parameters give a state that satisfies the invariant. The constructor is stricter than the invariant: it refuses the valid state (-1, 1, 1). |
| `CreditAccounts.Open` | src/main/java/ru/netology/javaqadiplom/CreditAccount.java:21-42 | Refuses exactly when a check fails, reports that check, and creates nothing. Otherwise it returns a fresh valid account whose three fields equal the arguments. |
| `CreditAccounts.CreditAccount.constructor` | src/main/java/ru/netology/javaqadiplom/CreditAccount.java:39-41 | Given accepted parameters, the fields are exactly the arguments and the invariant holds. |
| `CreditAccounts.PayStep` | src/main/java/ru/netology/javaqadiplom/CreditAccount.java:56-67 | A payment is accepted iff amount > 0 and balance - amount >= -creditLimit, so reaching the limit exactly is allowed. If accepted, the balance drops by exactly amount; if rejected, it is unchanged. The bound balance >= -creditLimit is preserved. |
| `CreditAccounts.CreditAccount.Pay` | src/main/java/ru/netology/javaqadiplom/CreditAccount.java:56-67 | The returned flag and the new balance are PayStep of the old balance. `Valid()` is kept. creditLimit and rate do not change. |
| `CreditAccounts.AddStep` | src/main/java/ru/netology/javaqadiplom/CreditAccount.java:83-89 | A deposit is accepted iff amount > 0, with no upper bound. If accepted, the balance rises by exactly amount; if rejected, it is unchanged. The balance never decreases. |
| `CreditAccounts.CreditAccount.Add` | src/main/java/ru/netology/javaqadiplom/CreditAccount.java:83-89 | The returned flag and the new balance are AddStep of the old balance. `Valid()` is kept. creditLimit and rate do not change. |
| `CreditAccounts.PayBoundaryExact` | src/main/java/ru/netology/javaqadiplom/CreditAccount.java:61-64 | Paying down to exactly -creditLimit succeeds. Paying one unit more is refused and leaves the balance unchanged. |
| `CreditAccounts.AddUndoesPay` | src/main/java/ru/netology/javaqadiplom/CreditAccount.java:56-89 | After an accepted payment, a deposit of the same amount succeeds and restores the original balance. |
| `CreditAccounts.PayUndoesAdd` | src/main/java/ru/netology/javaqadiplom/CreditAccount.java:56-89 | On a balance within the bound, a payment of the same amount after a deposit always succeeds and restores the original balance. |
| `CreditAccounts.Apply` | src/main/java/ru/netology/javaqadiplom/CreditAccount.java:56-89 | A single pay or add call succeeds iff its amount is positive and, for a payment, the limit is respected. It preserves the bound. |
| `CreditAccounts.RunKeepsBound` | src/main/java/ru/netology/javaqadiplom/CreditAccount.java:22-89 | No sequence of pay and add calls takes a balance within the bound below -creditLimit (by induction on the sequence). |
| `CreditAccounts.RunOfRefusedCalls` | src/main/java/ru/netology/javaqadiplom/CreditAccount.java:57-59 | A sequence of calls whose amounts are all <= 0 leaves the balance unchanged. |
| `CreditAccounts.CreditAccount.CreditLimit` | src/main/java/ru/netology/javaqadiplom/CreditAccount.java:109-111 | The credit limit of a valid account is positive and bounds the debt: balance >= -creditLimit. |
| `CreditAccounts.CreditAccount.YearChange` | src/main/java/ru/netology/javaqadiplom/CreditAccount.java:100-107 | Returns 0 when balance >= 0. Otherwise it returns balance * rate / 100 truncated toward zero, as the reference definition of the truncated quotient describes. It reads the state and changes nothing. |
| `CreditAccounts.YearChangeBounds` | src/main/java/ru/netology/javaqadiplom/CreditAccount.java:91-107 | On a valid account the yearly figure is never positive. For a negative balance it lies in [balance*rate/100, balance*rate/100 + 1) in exact arithmetic. It is never larger in magnitude than rate percent of the credit limit. |
| `JavaInt.Div` | src/main/java/ru/netology/javaqadiplom/CreditAccount.java:103 | Java's `/` for a positive divisor: q*b is the nearest multiple of b to a on the zero side, and the remainder keeps the sign of a and is smaller than b. |
| `JavaInt.DivUnique` | src/main/java/ru/netology/javaqadiplom/CreditAccount.java:103 | Any value that satisfies the truncated-quotient definition equals Div, so the definition fixes the quotient (for example -4999/100 = -49 and -1/100 = 0). |
| `JavaInt.Wrap32` | src/main/java/ru/netology/javaqadiplom/CreditAccount.java:61 | The value a Java `int` holds: in range, congruent to the true result modulo 2^32, and equal to it when it already fits. |
| `CreditAccounts.PayAsWritten` | src/main/java/ru/netology/javaqadiplom/CreditAccount.java:56-67 | `pay` with the 32-bit wrapping subtraction. It agrees with PayStep whenever balance - amount fits in an `int`. |
| `CreditAccounts.PayAsWrittenRaisesBalance` | src/main/java/ru/netology/javaqadiplom/CreditAccount.java:61-65 | From balance -2 with credit limit 5000, pay(2147483647) is accepted as written and leaves the balance at 2147483647. PayStep refuses the same call. |
| `CreditAccounts.AddAsWritten` | src/main/java/ru/netology/javaqadiplom/CreditAccount.java:83-89 | `add` with the 32-bit wrapping sum. The result is always an `int`, and it agrees with AddStep whenever balance + amount fits in an `int`. |
| `CreditAccounts.AddAsWrittenBreaksBound` | src/main/java/ru/netology/javaqadiplom/CreditAccount.java:83-89 | The constructor accepts (2147483647, 5000, 15). Written as-is, add(1) on that account returns true and leaves the balance at -2147483648, below -creditLimit. |
| `CreditAccounts.PayStepFitsInt32` | src/main/java/ru/netology/javaqadiplom/CreditAccount.java:61-65 | For 32-bit arguments on a valid account, the intended payment's result always fits in an `int`, and every call whose difference would overflow is refused. |

## Left out

- `Account` and `SavingAccount` are outside this model. `getBalance` and `getRate` belong to `Account`; the model reads the `balance` and `rate` fields directly instead.
- The exception message text is not modelled; only which check failed is. The message for a negative initial balance quotes the rate rather than the balance.
- CreditAccounts.AddStep: 32-bit wrap-around of `balance += amount` is left out on purpose; the balance is an unbounded integer. In the source the sum wraps, which breaks `balance >= -creditLimit`, against the promise of the `add` Javadoc that an operation leading to an incorrect state returns false and changes nothing. So AddStep's "never decreases" holds only for unbounded integers, as does RunKeepsBound's "no sequence of pay and add calls takes the balance below -creditLimit". The as-written behaviour is AddAsWritten (see Findings).
- CreditAccounts.CreditAccount.Add: same as AddStep, which it is specified by.
- CreditAccounts.RunKeepsBound: holds for unbounded integers only; with 32-bit `add` the bound breaks (AddAsWrittenBreaksBound).
- CreditAccounts.CreditAccount.YearChange: 32-bit overflow of `balance * rate` is not modelled; the product is taken exactly. In the source the overflow can make `yearChange` positive on a valid account: balance -2 with rate 1500000000 gives the product -3000000000, which wraps to 1294967296, so the result is 12949672.
- CreditAccounts.YearChangeBounds: its "never positive" and its bound by rate percent of the credit limit hold only with the exact product, not with the 32-bit product of the source.
- CreditAccounts.CreditAccount.Pay: the class method uses unbounded integers; the 32-bit behaviour of the source is modelled separately by PayAsWritten (see Findings).
- Concurrency: a check-then-set on the balance from several threads is not modelled; the model is sequential.

## Findings

| source | as written | input that shows it | evidently intended | confidence | as-written member | corrected member |
|---|---|---|---|---|---|---|
| src/main/java/ru/netology/javaqadiplom/CreditAccount.java:61-65 | `int newBalance = balance - amount` wraps around before it is compared with `-creditLimit` | account (0, 5000, 15) after pay(2), so the balance is -2, then pay(2147483647): the difference wraps to 2147483647, the call is accepted, and the balance rises | refuse any payment whose true result is below -creditLimit (for example, by computing the difference in `long`), so that a payment never raises the balance | high (derived by proof; not executed) | `CreditAccounts.PayAsWritten`, `CreditAccounts.PayAsWrittenRaisesBalance` | `CreditAccounts.PayStep`, `CreditAccounts.PayStepFitsInt32` |
| src/main/java/ru/netology/javaqadiplom/CreditAccount.java:87 | `balance += amount` wraps around, and no check follows | CreditAccount(2147483647, 5000, 15), then add(1): it returns true and leaves the balance at -2147483648, below -creditLimit | a deposit never lowers the balance, so `balance >= -creditLimit` is kept (for example, by holding the balance in a wider type) | high for the defect; the form of the fix is a judgement (not executed) | `CreditAccounts.AddAsWritten`, `CreditAccounts.AddAsWrittenBreaksBound` | `CreditAccounts.AddStep`, `CreditAccounts.RunKeepsBound` |
