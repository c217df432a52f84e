# Bank teller for one account, in Dafny

This project models `GerenciaBancoEmJava.java`, a console bank teller that
serves one customer per run and proves properties of the model. The model has
two parts:

- `banco.dfy`, module `Banco`: the customer's account (`Cliente.Conta`). It
  holds one exact-decimal balance `saldo` that starts at zero. It has a
  withdrawal (`sacar`), a deposit (`depositar`) and a balance query
  (`getSaldo`). A failed check throws `BancoException` in Java; here it is
  an explicit `Outcome` with one of two error kinds.
  - `InvalidAmount`: "Quantia deve ser maior que zero".
  - `InsufficientFunds`: "Saldo Insuficiente para saque".

  `Apply` is a pure function that gives the reference behaviour of both
  operations. The class `Conta` updates its `saldo` field in place. Each of
  its methods is proved to do exactly what `Apply` describes, and to keep
  the account invariant `saldo >= 0`.
- `caixa.dfy`, module `Caixa`: the teller (`CaixaEletronico`) and the menu
  loop of `operarContaAtual`. Console input is a sequence of `Token`s, one
  per line read. A token is an abstraction: it gives a line the one kind
  that both readers in the loop (`Scanner.nextInt` and `new BigDecimal`)
  agree on, so only lines they read the same way are modelled:
  - `Integer(n)`: a plain integer numeral such as "42". `nextInt` accepts
    it only when `n` fits a Java `int`. `new BigDecimal` always accepts it.
  - `Decimal(q)`: a plain numeral with a fraction part such as "2.5". Only
    `BigDecimal` accepts it.
  - `Text`: a non-blank line that neither reader accepts, such as "abc".

  `Step` is one pass of the loop. It reads the option line and, for options
  2 and 3, the amount line after it. It dispatches to the account, and it
  maps every caught exception to a `Report`:
  - a `BancoException` becomes `Done(Failure(e))`;
  - an `InputMismatchException` becomes `NotANumber`;
  - any other exception becomes `UnknownFailure`. Two cases reach this
    branch: a `NumberFormatException` for an amount that is not a number,
    and a `NoSuchElementException` when the amount line is missing.

  `Run` repeats `Step` until option 4 sets the mode to `Terminated` or the
  input runs out. The method `CaixaEletronico.OperarContaAtual` has a
  `while` loop that calls the account's methods. It is proved equal to
  `Run`.

`BigDecimal` is modelled by Dafny's `real`. The account only adds, subtracts
and compares amounts, so no rounding happens. Java's `int` range for the
option is written out as `INT_MIN`/`INT_MAX`.

## Model

| member | source | states |
|---|---|---|
| `Banco.Message` | GerenciaBancoEmJava.java:62-66 | the message is "Quantia deve ser maior que zero" exactly for `InvalidAmount` and "Saldo Insuficiente para saque" exactly for `InsufficientFunds` (the same `InvalidAmount` text is thrown at line 78) |
| `Banco.MessagesDiffer` | GerenciaBancoEmJava.java:62-66 | the two error kinds carry different messages |
| `Banco.Apply` | GerenciaBancoEmJava.java:61-82 | a failed operation leaves the balance unchanged; a successful one changes it by exactly the signed amount; an amount ≤ 0 always fails with `InvalidAmount`; a non-negative balance stays non-negative |
| `Banco.DepositAdds` | GerenciaBancoEmJava.java:76-81 | a deposit of `q > 0` succeeds and leaves `saldo + q` |
| `Banco.DepositRejectsNonPositive` | GerenciaBancoEmJava.java:77-79 | a deposit of `q ≤ 0` fails with `InvalidAmount` and the balance is unchanged |
| `Banco.WithdrawChecksAmountFirst` | GerenciaBancoEmJava.java:62-66 | a withdrawal of `q ≤ 0` fails with `InvalidAmount` whatever the balance, even when `q` exceeds it |
| `Banco.WithdrawRejectsOverdraft` | GerenciaBancoEmJava.java:64-65 | a withdrawal with `0 < q` and `saldo < q` fails with `InsufficientFunds` and the balance is unchanged |
| `Banco.WithdrawSubtracts` | GerenciaBancoEmJava.java:62-67 | a withdrawal with `0 < q ≤ saldo` succeeds and leaves `saldo - q` |
| `Banco.BalanceNeverNegative` | GerenciaBancoEmJava.java:54-82 | no sequence of deposits and withdrawals, successful or failed, makes a non-negative balance (and so a new account's zero) negative |
| `Banco.DepositThenWithdrawRestores` | GerenciaBancoEmJava.java:67-80 | depositing `q > 0` and then withdrawing `q` both succeed and give back the exact original balance |
| `Banco.Scenario` | GerenciaBancoEmJava.java:61-82 | from 0: deposit 100.50 gives 100.50; withdraw 50.25 gives 50.25; withdraw 100 fails with `InsufficientFunds`; deposit -5 fails with `InvalidAmount`; 50.25 remains |
| `Banco.Conta.constructor` | GerenciaBancoEmJava.java:54 | a new account holds zero and satisfies the invariant |
| `Banco.Conta.Sacar` | GerenciaBancoEmJava.java:61-69 | the outcome and the new balance are those `Apply` gives for a withdrawal from the old balance; the invariant is kept |
| `Banco.Conta.Depositar` | GerenciaBancoEmJava.java:76-82 | the outcome and the new balance are those `Apply` gives for a deposit to the old balance; the invariant is kept |
| `Banco.Conta.GetSaldo` | GerenciaBancoEmJava.java:89-91 | returns a value equal to the balance and modifies nothing |
| `Caixa.NextInt` | GerenciaBancoEmJava.java:152 | an option is read exactly when the token is an integer within Java's `int` range, and then it is that integer |
| `Caixa.ParseQuantia` | GerenciaBancoEmJava.java:124-129 | an amount line fails to parse exactly when it is not a number; an integer numeral gives that integer and a decimal numeral gives that decimal |
| `Caixa.Shown` | GerenciaBancoEmJava.java:166-182 | every report except option 1's customer details prints one line; a `BancoException` prints exactly its `Message` (line 177); success prints "Sucesso !" (lines 68 and 81); a non-numeric option prints "Digite uma opção válida (apenas números)" (line 179) |
| `Caixa.ErrorsShownApart` | GerenciaBancoEmJava.java:171-182 | no error or unknown option is shown as "Sucesso !", and the two account errors print different lines |
| `Caixa.Step` | GerenciaBancoEmJava.java:147-184 | for the corrected loop (a rejected option line is consumed): a pass consumes input; it terminates exactly when the option line is `4`, and reports `Closing` exactly then; an unrecognised option or any caught error leaves the mode `MenuLoop` and the balance unchanged; only a successful operation changes the balance; a `ShowData` report carries the current balance; a non-negative balance stays non-negative |
| `Caixa.StepReadsOneOrTwoLines` | GerenciaBancoEmJava.java:152-164 | a pass reads the option line and, only for options 2 and 3, one amount line |
| `Caixa.Dispatches` | GerenciaBancoEmJava.java:159-164 | option 2 withdraws and option 3 deposits the amount on the next line: the pass gives exactly the outcome and balance `Apply` gives, stays in the loop and reads both lines |
| `Caixa.OtherLinesKeepBalance` | GerenciaBancoEmJava.java:155-173 | an option line other than 2 and 3 reads only itself and leaves the balance unchanged; option 1 shows the current balance; an `int` option outside 1 to 4 is reported as unrecognised |
| `Caixa.BadAmountIsUnknownFailure` | GerenciaBancoEmJava.java:124-128 | options 2 and 3 with an amount line that is not a number report an unknown failure (line 182), read both lines and leave the balance unchanged |
| `Caixa.MissingAmountIsUnknownFailure` | GerenciaBancoEmJava.java:124-126 | options 2 and 3 with no amount line left report an unknown failure (line 182) and leave the balance unchanged |
| `Caixa.SkipsRejectedOption` | GerenciaBancoEmJava.java:175-179 | a non-numeric option is reported as `NotANumber`, the balance is unchanged and the next pass reads the following line |
| `Caixa.Run` | GerenciaBancoEmJava.java:146-185 | for the corrected loop: the loop reads the whole input unless it terminates; a non-negative balance stays non-negative over any input; a terminated session stays as it is |
| `Caixa.TerminatesOnlyByExit` | GerenciaBancoEmJava.java:165-184 | a run ends `Terminated` exactly when option 4 was reported, and that is its last report: errors never end the run |
| `Caixa.NoExitNeverTerminates` | GerenciaBancoEmJava.java:165-169 | an input in which no line is the integer 4 (not even an amount line) leaves the session in `MenuLoop` with all input read |
| `Caixa.MenuScenario` | GerenciaBancoEmJava.java:165-182 | for the corrected loop: option 9 and a non-numeric option are reported and keep balance and loop; option 4 then exits |
| `Caixa.DepositWithdrawMenu` | GerenciaBancoEmJava.java:159-164 | from 0, option 3 with 100.50 and then option 2 with 50.25 both succeed, leave 50.25 and keep the loop going |
| `Caixa.StepAsWritten` | GerenciaBancoEmJava.java:146-184 | one pass of the loop as written: a token `nextInt` rejects is reported as `NotANumber` and left unread, with mode and balance unchanged; otherwise the pass is the corrected `Step`; a non-negative balance stays non-negative |
| `Caixa.IterateAsWritten` | GerenciaBancoEmJava.java:146-185 | `k` passes of the loop as written show at most `k` reports, never read more than the input, keep a non-negative balance non-negative, and stop early only on exit or at the end of the input |
| `Caixa.MismatchRepeatsForever` | GerenciaBancoEmJava.java:146-179 | for the loop as written: after a rejected option line, every later pass reports `NotANumber` again, reads nothing and changes nothing |
| `Caixa.NonNumericOption` | GerenciaBancoEmJava.java:152-179 | for the input "abc", "4": as written the loop never reaches the exit; with the rejected line skipped it exits on the second pass |
| `Caixa.CaixaEletronico.constructor` | GerenciaBancoEmJava.java:105-117 | the teller holds a fresh customer account with balance zero |
| `Caixa.CaixaEletronico.Atender` | GerenciaBancoEmJava.java:147-184 | for the corrected loop: one pass on the real account gives the mode, report, unread input and new balance that `Step` gives for the old balance |
| `Caixa.CaixaEletronico.OperarContaAtual` | GerenciaBancoEmJava.java:144-187 | for the corrected loop: the loop gives the final mode, balance, reports and unread input that `Run` gives from the account's starting balance; it keeps the account invariant |

## Left out

- Console output is modelled only as one `Report` per pass, with `Caixa.Shown` giving the line each report prints. The prompts, the menu text, the banner lines, `e.printStackTrace()` and the customer details printed by option 1 are left out.
- The input is given to the model as a token sequence. The model does not reproduce how `Scanner` splits text into lines and tokens.
- The amount string is not parsed into digits (`new BigDecimal(quantia)`). A token is already a number or `Text`, and `ParseQuantia` only tells the two apart.
- `Cliente.toString` and its `toPlainString` formatting are left out. The model keeps only the balance that option 1 shows.
- The customer's name, surname and id are left out. `novoCliente` reads and stores these strings, but no logic depends on them. The constructor `CaixaEletronico.constructor` stands for `new CaixaEletronico()` followed by `novoCliente()`.
- A line gets one kind for both readers. Lines they read differently are not modelled: a blank line (which `nextInt` skips), a numeral padded with spaces (which `nextInt` accepts and `BigDecimal` rejects), a numeral with an exponent such as "1e3" (which only `BigDecimal` accepts), and locale grouping separators.
- `INPUT.close()` and `System.exit(0)` are left out. Here the run ends in the `Terminated` state.
- `Caixa.Run` and `Caixa.IterateAsWritten`: when the input runs out, the model stops in `MenuLoop`. The Java loop would instead catch `NoSuchElementException` on every later pass, print "Um erro desconhecido ocorreu, prosseguindo..." and never end. The model cannot follow a run past the end of its input.
- `BigDecimal` scale is not modelled (for example, 1.0 and 1.00 are the same `real`). The account only compares such values with `compareTo`, and the scale shows up only in printed output.
- The `null` customer before `novoCliente` is not modelled. `main` always creates the customer before the loop starts.

## Findings

| source | as written | input that shows it | evidently intended | confidence | as-written member | corrected member |
|---|---|---|---|---|---|---|
| GerenciaBancoEmJava.java:152 | `INPUT.nextInt()` throws `InputMismatchException` for a token that is not an `int`. `Scanner` does not move past that token. The handler prints "Digite uma opção válida (apenas números)" and the `while (true)` loop reads the same token again, so it repeats forever. | the menu line "abc" (also "2.5", or "9999999999", which does not fit an `int`) | the rejected line is skipped, so the user can type a new option, as the handler's message asks | high (not executed; based on the documented behaviour of `java.util.Scanner`) | `Caixa.MismatchRepeatsForever` | `Caixa.SkipsRejectedOption` |

The as-written loop is `Caixa.StepAsWritten` and `Caixa.IterateAsWritten`.
Everything else in the model uses the corrected `Caixa.Step`, which consumes
the rejected line.
