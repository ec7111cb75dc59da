/** Scenarios from the account's unit tests, written as clients of the
    contracts: each assertion follows from the contracts of Open, Pay, Add
    and YearChange alone. */
module CreditAccountExamples {
  import opened CreditAccounts

  method ConstructionScenarios()
  {
    var r := Open(0, 1, 1);
    assert r.Opened? && r.account.balance == 0 && r.account.creditLimit == 1 && r.account.rate == 1;
    r := Open(-1, 5000, 15);
    assert r == Rejected(NegativeInitialBalance);
    r := Open(3000, 0, 15);
    assert r == Rejected(NonPositiveCreditLimit);
    r := Open(3000, 5000, 0);
    assert r == Rejected(NonPositiveRate);
  }

  method PayScenarios()
  {
    var a := new CreditAccount(1, 5000, 15);
    var ok := a.Pay(5001);
    assert ok && a.balance == -5000;
    ok := a.Pay(1);
    assert !ok && a.balance == -5000;

    var b := new CreditAccount(0, 5000, 15);
    ok := b.Pay(5001);
    assert !ok && b.balance == 0;
    ok := b.Pay(0);
    assert !ok && b.balance == 0;
    ok := b.Pay(-1);
    assert !ok && b.balance == 0;
    ok := b.Pay(4999);
    assert ok && b.balance == -4999;
    ok := b.Pay(2);
    assert !ok && b.balance == -4999;
  }

  method AddScenarios()
  {
    var a := new CreditAccount(0, 5000, 15);
    var ok := a.Pay(5000);
    ok := a.Add(5001);
    assert ok && a.balance == 1;
    ok := a.Add(0);
    assert !ok && a.balance == 1;
    ok := a.Add(-1);
    assert !ok && a.balance == 1;
    ok := a.Add(3000);
    assert ok && a.balance == 3001;
  }

  method YearChangeScenarios()
  {
    var a := new CreditAccount(0, 5000, 1);
    var ok := a.Pay(4999);
    var c := a.YearChange();
    JavaInt.DivUnique(-4999, 100, -49);
    assert c == -49;

    var f := new CreditAccount(0, 5000, 1);
    ok := f.Pay(1);
    c := f.YearChange();
    JavaInt.DivUnique(-1, 100, 0);
    assert c == 0;

    var b := new CreditAccount(0, 5000, 2);
    ok := b.Pay(1);
    c := b.YearChange();
    JavaInt.DivUnique(-2, 100, 0);
    assert c == 0;

    var d := new CreditAccount(0, 5000, 15);
    ok := d.Pay(5000);
    c := d.YearChange();
    JavaInt.DivUnique(-75000, 100, -750);
    assert c == -750;

    var e := new CreditAccount(3000, 5000, 15);
    c := e.YearChange();
    assert c == 0;
  }
}
