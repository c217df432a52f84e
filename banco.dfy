/**
  The customer's account (`Cliente.Conta`): one exact-decimal balance,
  `saldo`, that starts at zero and changes only through a withdrawal
  (`sacar`) or a deposit (`depositar`), each guarded by checks that throw
  `BancoException`.

  `BigDecimal` is modelled by `real`: the account only adds, subtracts and
  compares amounts, so a balance built from decimal amounts stays an exact
  decimal. The exception is modelled by an explicit `Outcome`.
*/
module Banco {

  /** The two reasons for which a `BancoException` is thrown. */
  datatype BancoError = InvalidAmount | InsufficientFunds

  /** The message each `BancoException` carries, shown to the user by the teller. */
  function Message(e: BancoError): (m: string)
    ensures m == "Quantia deve ser maior que zero" <==> e == InvalidAmount
    ensures m == "Saldo Insuficiente para saque" <==> e == InsufficientFunds
  {
    match e
    case InvalidAmount => "Quantia deve ser maior que zero"
    case InsufficientFunds => "Saldo Insuficiente para saque"
  }

  /** Each error kind has its own message. */
  lemma MessagesDiffer()
    ensures Message(InvalidAmount) != Message(InsufficientFunds)
  {
  }

  /** How an account operation ends: normally, or by throwing `BancoException`. */
  datatype Outcome = Success | Failure(error: BancoError)

  /** An operation asked of the account, with the amount it was given. */
  datatype Movement = Withdrawal(quantia: real) | Deposit(quantia: real)

  /** What an operation reports, and the balance it leaves behind. */
  datatype Transaction = Transaction(outcome: Outcome, saldo: real)

  /** The change a movement makes to the balance when it succeeds. */
  function Delta(m: Movement): (d: real)
  {
    match m
    case Withdrawal(q) => -q
    case Deposit(q) => q
  }

  /**
    The reference behaviour of `sacar` and `depositar` on a balance.
    A withdrawal checks that the amount is positive before it checks that
    the balance covers it.
  */
  function Apply(saldo: real, m: Movement): (t: Transaction)
    ensures t.outcome.Failure? ==> t.saldo == saldo
    ensures t.outcome == Success ==> t.saldo == saldo + Delta(m)
    ensures m.quantia <= 0.0 ==> t.outcome == Failure(InvalidAmount)
    ensures saldo >= 0.0 ==> t.saldo >= 0.0
  {
    match m
    case Withdrawal(q) =>
      if q <= 0.0 then Transaction(Failure(InvalidAmount), saldo)
      else if saldo < q then Transaction(Failure(InsufficientFunds), saldo)
      else Transaction(Success, saldo - q)
    case Deposit(q) =>
      if q <= 0.0 then Transaction(Failure(InvalidAmount), saldo)
      else Transaction(Success, saldo + q)
  }

  /** A deposit of a positive amount succeeds and adds exactly that amount. */
  lemma DepositAdds(saldo: real, q: real)
    requires q > 0.0
    ensures Apply(saldo, Deposit(q)) == Transaction(Success, saldo + q)
  {
  }

  /** A deposit of zero or less fails with `InvalidAmount` and changes nothing. */
  lemma DepositRejectsNonPositive(saldo: real, q: real)
    requires q <= 0.0
    ensures Apply(saldo, Deposit(q)) == Transaction(Failure(InvalidAmount), saldo)
  {
  }

  /**
    A withdrawal of zero or less fails with `InvalidAmount` whatever the
    balance, also when the amount exceeds it: positivity is checked first.
  */
  lemma WithdrawChecksAmountFirst(saldo: real, q: real)
    requires q <= 0.0
    ensures Apply(saldo, Withdrawal(q)) == Transaction(Failure(InvalidAmount), saldo)
  {
  }

  /** A positive withdrawal larger than the balance fails with `InsufficientFunds`. */
  lemma WithdrawRejectsOverdraft(saldo: real, q: real)
    requires 0.0 < q && saldo < q
    ensures Apply(saldo, Withdrawal(q)) == Transaction(Failure(InsufficientFunds), saldo)
  {
  }

  /** A positive withdrawal the balance covers succeeds and subtracts exactly that amount. */
  lemma WithdrawSubtracts(saldo: real, q: real)
    requires 0.0 < q <= saldo
    ensures Apply(saldo, Withdrawal(q)) == Transaction(Success, saldo - q)
  {
  }

  /** The balance left by a sequence of operations, successful or not. */
  function ApplyAll(saldo: real, ms: seq<Movement>): (r: real)
    decreases |ms|
  {
    if ms == [] then saldo else ApplyAll(Apply(saldo, ms[0]).saldo, ms[1..])
  }

  /** No sequence of deposits and withdrawals makes a non-negative balance negative. */
  lemma {:induction false} BalanceNeverNegative(saldo: real, ms: seq<Movement>)
    requires saldo >= 0.0
    ensures ApplyAll(saldo, ms) >= 0.0
    decreases |ms|
  {
    if ms != [] {
      BalanceNeverNegative(Apply(saldo, ms[0]).saldo, ms[1..]);
    }
  }

  /**
    Exact arithmetic: depositing a positive amount and then withdrawing it
    succeeds both times and gives back the original balance.
  */
  lemma DepositThenWithdrawRestores(saldo: real, q: real)
    requires saldo >= 0.0 && q > 0.0
    ensures Apply(saldo, Deposit(q)).outcome == Success
    ensures Apply(saldo + q, Withdrawal(q)) == Transaction(Success, saldo)
    ensures ApplyAll(saldo, [Deposit(q), Withdrawal(q)]) == saldo
  {
    var ms := [Deposit(q), Withdrawal(q)];
    assert ms[1..] == [Withdrawal(q)] && ms[1..][1..] == [];
    calc {
      ApplyAll(saldo, ms);
      ApplyAll(saldo + q, [Withdrawal(q)]);
      ApplyAll(saldo, []);
    }
  }

  /**
    From an empty account: deposit 100.50, withdraw 50.25, withdraw 100
    (more than the balance), deposit -5 (not positive).
  */
  lemma Scenario()
    ensures Apply(0.0, Deposit(100.50)) == Transaction(Success, 100.50)
    ensures Apply(100.50, Withdrawal(50.25)) == Transaction(Success, 50.25)
    ensures Apply(50.25, Withdrawal(100.0)) == Transaction(Failure(InsufficientFunds), 50.25)
    ensures Apply(50.25, Deposit(-5.0)) == Transaction(Failure(InvalidAmount), 50.25)
    ensures ApplyAll(0.0, [Deposit(100.50), Withdrawal(50.25), Withdrawal(100.0), Deposit(-5.0)]) == 50.25
  {
  }

  /** The account of a customer; its balance is updated in place. */
  class Conta {
    var saldo: real

    /** The account invariant: the balance is never negative. */
    ghost predicate Valid()
      reads this
    {
      saldo >= 0.0
    }

    /** A new account holds zero. */
    constructor ()
      ensures Valid() && saldo == 0.0
    {
      saldo := 0.0;
    }

    /** `sacar`: withdraw `quantia`, or report why not and leave the balance alone. */
    method Sacar(quantia: real) returns (o: Outcome)
      requires Valid()
      modifies this
      ensures Valid()
      ensures Transaction(o, saldo) == Apply(old(saldo), Withdrawal(quantia))
    {
      if quantia <= 0.0 {
        o := Failure(InvalidAmount);
      } else if saldo < quantia {
        o := Failure(InsufficientFunds);
      } else {
        saldo := saldo - quantia;
        o := Success;
      }
    }

    /** `depositar`: deposit `quantia`, or report why not and leave the balance alone. */
    method Depositar(quantia: real) returns (o: Outcome)
      requires Valid()
      modifies this
      ensures Valid()
      ensures Transaction(o, saldo) == Apply(old(saldo), Deposit(quantia))
    {
      if quantia <= 0.0 {
        o := Failure(InvalidAmount);
      } else {
        saldo := saldo + quantia;
        o := Success;
      }
    }

    /** `getSaldo`: a copy of the balance; the account is not changed. */
    method GetSaldo() returns (r: real)
      ensures r == saldo
    {
      r := 0.0 + saldo;
    }
  }
}
