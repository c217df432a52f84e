/**
  The teller (`CaixaEletronico`): a menu loop that reads a selection,
  dispatches it to the customer's account and recovers from every error.

  Console input is modelled as a sequence of tokens, one per line read;
  what the loop prints is modelled as one `Report` per pass.
*/
module Caixa {
  import opened Banco

  /**
    One line of console input, abstracted to the kind the two parsers in
    the loop agree on. Only lines that both `Scanner.nextInt` and
    `new BigDecimal` read the same way are modelled: a plain numeral
    without blanks, exponent or grouping separators, or a non-blank line
    that neither parser accepts.
  */
  datatype Token =
    | Integer(n: int)   // a plain integer numeral such as "42": `nextInt` takes it when it fits an `int`, `BigDecimal` always
    | Decimal(q: real)  // a plain numeral with a fraction part such as "2.5": only `BigDecimal` takes it
    | Text              // a non-blank line neither parser accepts, such as "abc"

  datatype Option<T> = None | Some(value: T)

  /** The range of Java's 32-bit `int`. */
  const INT_MIN: int := -0x8000_0000
  const INT_MAX: int := 0x7FFF_FFFF

  /**
    `Scanner.nextInt` on one token: `None` stands for the
    `InputMismatchException` it throws for a token that is not an `int`.
  */
  function NextInt(t: Token): (r: Option<int>)
    ensures r.Some? <==> t.Integer? && INT_MIN <= t.n <= INT_MAX
    ensures r.Some? ==> r.value == t.n
  {
    match t
    case Integer(n) => if INT_MIN <= n <= INT_MAX then Some(n) else None
    case _ => None
  }

  /**
    `new BigDecimal(line)`: `None` stands for the `NumberFormatException`
    it throws for a line that is not a decimal number.
  */
  function ParseQuantia(t: Token): (r: Option<real>)
    ensures r.None? <==> t.Text?
    ensures t.Integer? ==> r == Some(t.n as real)
    ensures t.Decimal? ==> r == Some(t.q)
  {
    match t
    case Integer(n) => Some(n as real)
    case Decimal(q) => Some(q)
    case Text => None
  }

  /** The states of the menu loop. */
  datatype Mode = MenuLoop | Terminated

  /** The teller's state between two passes: the loop's mode and the account balance. */
  datatype Session = Session(mode: Mode, saldo: real)

  /** What one pass of the loop shows the user. */
  datatype Report =
    | ShowData(saldo: real)     // option 1: the customer's details with this balance
    | Done(outcome: Outcome)    // options 2 and 3: "Sucesso !" or the exception's message
    | Unrecognised              // any other integer option
    | NotANumber                // InputMismatchException: "Digite uma opção válida (apenas números)"
    | UnknownFailure            // any other exception: "Um erro desconhecido ocorreu, prosseguindo..."
    | Closing                   // option 4: "Finalizando conta..."

  /**
    The line the teller prints for a report. The customer's details that
    option 1 prints are not modelled, so `ShowData` gives `None`.
  */
  function Shown(r: Report): (line: Option<string>)
    ensures line.None? <==> r.ShowData?
    ensures r.Done? && r.outcome.Failure? ==> line == Some(Message(r.outcome.error))
    ensures r == Done(Success) ==> line == Some("Sucesso !")
    ensures r == NotANumber ==> line == Some("Digite uma opção válida (apenas números)")
  {
    match r
    case ShowData(_) => None
    case Done(Success) => Some("Sucesso !")
    case Done(Failure(e)) => Some(Message(e))
    case Unrecognised => Some("Opção não reconhecida, digite uma operação válida")
    case NotANumber => Some("Digite uma opção válida (apenas números)")
    case UnknownFailure => Some("Um erro desconhecido ocorreu, prosseguindo...")
    case Closing => Some("Finalizando conta...")
  }

  /** An error is never shown as "Sucesso !", and each error kind is shown by its own message. */
  lemma ErrorsShownApart(r: Report)
    requires IsError(r)
    ensures Shown(r) != Shown(Done(Success))
    ensures Shown(Done(Failure(InvalidAmount))) != Shown(Done(Failure(InsufficientFunds)))
  {
  }

  /** The reports that stand for an error the loop catches or an option it does not know. */
  predicate IsError(r: Report)
  {
    r.Unrecognised? || r.NotANumber? || r.UnknownFailure? || (r.Done? && r.outcome.Failure?)
  }

  /** The result of one pass: new mode and balance, what was shown, the unread input. */
  datatype StepResult = StepResult(mode: Mode, saldo: real, report: Report, rest: seq<Token>)

  /**
    One pass of the `while (true)` loop of `operarContaAtual`, from the
    menu prompt to the end of the `try`/`catch`. Options 2 and 3 read one
    more line, the amount. A rejected option line is consumed (see the
    README's findings for the loop as written).
  */
  function Step(saldo: real, input: seq<Token>): (r: StepResult)
    requires input != []
    ensures |r.rest| < |input|
    ensures r.mode == Terminated <==> input[0] == Integer(4)
    ensures r.report == Closing <==> r.mode == Terminated
    ensures IsError(r.report) ==> r.mode == MenuLoop && r.saldo == saldo
    ensures r.saldo != saldo ==> r.report == Done(Success)
    ensures r.report.ShowData? ==> r.report.saldo == saldo
    ensures saldo >= 0.0 ==> r.saldo >= 0.0
  {
    var rest := input[1..];
    match NextInt(input[0])
    case None => StepResult(MenuLoop, saldo, NotANumber, rest)
    case Some(op) =>
      if op == 1 then
        StepResult(MenuLoop, saldo, ShowData(saldo), rest)
      else if op == 2 || op == 3 then
        if rest == [] then
          // the amount line is missing: NoSuchElementException
          StepResult(MenuLoop, saldo, UnknownFailure, rest)
        else
          match ParseQuantia(rest[0])
          case None => StepResult(MenuLoop, saldo, UnknownFailure, rest[1..])
          case Some(q) =>
            var t := Apply(saldo, if op == 2 then Withdrawal(q) else Deposit(q));
            StepResult(MenuLoop, t.saldo, Done(t.outcome), rest[1..])
      else if op == 4 then
        StepResult(Terminated, saldo, Closing, rest)
      else
        StepResult(MenuLoop, saldo, Unrecognised, rest)
  }

  /** A pass reads the option line and, for options 2 and 3, the amount line after it. */
  lemma StepReadsOneOrTwoLines(saldo: real, input: seq<Token>)
    requires input != []
    ensures var r := Step(saldo, input);
      r.rest == input[1..] || (|input| >= 2 && r.rest == input[2..] && input[0] in {Integer(2), Integer(3)})
  {
  }

  /**
    Option 2 withdraws and option 3 deposits the amount on the next line:
    the pass does exactly what `Apply` describes and reads both lines.
  */
  lemma Dispatches(saldo: real, op: int, t: Token, rest: seq<Token>)
    requires (op == 2 || op == 3) && ParseQuantia(t).Some?
    ensures var q := ParseQuantia(t).value;
      var tr := Apply(saldo, if op == 2 then Withdrawal(q) else Deposit(q));
      Step(saldo, [Integer(op), t] + rest) == StepResult(MenuLoop, tr.saldo, Done(tr.outcome), rest)
  {
    assert ([Integer(op), t] + rest)[1..] == [t] + rest;
    assert ([t] + rest)[1..] == rest;
  }

  /**
    Every option line other than 2 and 3 reads only itself and leaves the
    balance alone: option 1 shows the balance, and an `int` outside 1 to 4
    is reported as unrecognised.
  */
  lemma OtherLinesKeepBalance(saldo: real, t: Token, rest: seq<Token>)
    requires t != Integer(2) && t != Integer(3)
    ensures var r := Step(saldo, [t] + rest);
      && r.saldo == saldo && r.rest == rest
      && (t == Integer(1) ==> r.report == ShowData(saldo))
      && (t.Integer? && INT_MIN <= t.n <= INT_MAX && !(1 <= t.n <= 4) ==> r.report == Unrecognised)
  {
    assert ([t] + rest)[1..] == rest;
  }

  /**
    Options 2 and 3 with an amount line that is not a number: the
    `NumberFormatException` is reported as an unknown failure, both lines
    are read and the balance is unchanged.
  */
  lemma BadAmountIsUnknownFailure(saldo: real, op: int, t: Token, rest: seq<Token>)
    requires (op == 2 || op == 3) && ParseQuantia(t).None?
    ensures Step(saldo, [Integer(op), t] + rest) == StepResult(MenuLoop, saldo, UnknownFailure, rest)
  {
    assert ([Integer(op), t] + rest)[1..] == [t] + rest;
    assert ([t] + rest)[1..] == rest;
  }

  /**
    Options 2 and 3 as the last line: the missing amount line
    (`NoSuchElementException`) is reported as an unknown failure and the
    balance is unchanged.
  */
  lemma MissingAmountIsUnknownFailure(saldo: real, op: int)
    requires op == 2 || op == 3
    ensures Step(saldo, [Integer(op)]) == StepResult(MenuLoop, saldo, UnknownFailure, [])
  {
  }

  /** A non-numeric option line is reported and skipped; the next pass reads the line after it. */
  lemma SkipsRejectedOption(saldo: real, t: Token, rest: seq<Token>)
    requires NextInt(t).None?
    ensures Step(saldo, [t] + rest) == StepResult(MenuLoop, saldo, NotANumber, rest)
  {
    assert ([t] + rest)[1..] == rest;
  }

  /** Where a run of the loop ends, what it showed, and the input left unread. */
  datatype Trace = Trace(session: Session, reports: seq<Report>, rest: seq<Token>)

  /**
    The menu loop run over a whole input, pass after pass, until option 4
    is chosen or the input is used up.
  */
  function Run(s: Session, input: seq<Token>): (r: Trace)
    decreases |input|
    ensures s.mode == Terminated ==> r == Trace(s, [], input)
    ensures s.saldo >= 0.0 ==> r.session.saldo >= 0.0
    ensures r.rest == [] || r.session.mode == Terminated
    ensures |r.reports| <= |input|
  {
    if s.mode == Terminated || input == [] then
      Trace(s, [], input)
    else
      var st := Step(s.saldo, input);
      var r := Run(Session(st.mode, st.saldo), st.rest);
      Trace(r.session, [st.report] + r.reports, r.rest)
  }

  /**
    A run ends in `Terminated` exactly when option 4 was chosen, and that
    choice is its last pass: no error, and no other option, ends the loop.
  */
  lemma {:induction false} TerminatesOnlyByExit(s: Session, input: seq<Token>)
    requires s.mode == MenuLoop
    ensures var r := Run(s, input);
      && (r.session.mode == Terminated <==> Closing in r.reports)
      && (forall i :: 0 <= i < |r.reports| - 1 ==> r.reports[i] != Closing)
    decreases |input|
  {
    if input != [] {
      var st := Step(s.saldo, input);
      if st.mode == MenuLoop {
        TerminatesOnlyByExit(Session(st.mode, st.saldo), st.rest);
      }
    }
  }

  /**
    An input in which no line is the integer 4 never ends the session.
    (This also excludes an amount line "4"; `TerminatesOnlyByExit` is the
    exact statement.)
  */
  lemma {:induction false} NoExitNeverTerminates(s: Session, input: seq<Token>)
    requires s.mode == MenuLoop && Integer(4) !in input
    ensures Run(s, input).session.mode == MenuLoop
    ensures Run(s, input).rest == []
    decreases |input|
  {
    if input != [] {
      var st := Step(s.saldo, input);
      StepReadsOneOrTwoLines(s.saldo, input);
      var k := |input| - |st.rest|;
      assert Integer(4) !in st.rest by {
        forall j | 0 <= j < |st.rest|
          ensures st.rest[j] != Integer(4)
        {
          assert st.rest[j] == input[k + j];
        }
      }
      NoExitNeverTerminates(Session(st.mode, st.saldo), st.rest);
    }
  }

  /** A trace with `reports` shown before its own reports. */
  function Prefixed(reports: seq<Report>, t: Trace): (r: Trace)
  {
    Trace(t.session, reports + t.reports, t.rest)
  }

  /** Showing `a` and then `b` before a trace is showing `a + b` before it. */
  lemma PrefixedTwice(a: seq<Report>, b: seq<Report>, t: Trace)
    ensures Prefixed(a, Prefixed(b, t)) == Prefixed(a + b, t)
  {
    assert a + (b + t.reports) == (a + b) + t.reports;
  }

  /** One pass of the loop, followed by the run of the input it leaves. */
  lemma RunUnfolds(s: Session, input: seq<Token>)
    requires s.mode == MenuLoop && input != []
    ensures var st := Step(s.saldo, input);
      Run(s, input) == Prefixed([st.report], Run(Session(st.mode, st.saldo), st.rest))
  {
  }

  /**
    At the menu: the unknown option 9 and a non-numeric option are reported
    and the loop goes on with the balance untouched; option 4 then exits.
  */
  lemma MenuScenario()
    ensures Run(Session(MenuLoop, 50.25), [Integer(9), Text, Integer(4)])
         == Trace(Session(Terminated, 50.25), [Unrecognised, NotANumber, Closing], [])
  {
  }

  /**
    Through the menu: deposit 100.50 (option 3), then withdraw 50.25
    (option 2); both succeed, 50.25 remains and the loop goes on.
  */
  lemma DepositWithdrawMenu()
    ensures Run(Session(MenuLoop, 0.0), [Integer(3), Decimal(100.50), Integer(2), Decimal(50.25)])
         == Trace(Session(MenuLoop, 50.25), [Done(Success), Done(Success)], [])
  {
  }

  /**
    One pass of the loop AS WRITTEN: `Scanner.nextInt` does not consume a
    token it rejects, so after `InputMismatchException` the same line is
    still the next input.
  */
  function StepAsWritten(saldo: real, input: seq<Token>): (r: StepResult)
    requires input != []
    ensures NextInt(input[0]).None? ==> r == StepResult(MenuLoop, saldo, NotANumber, input)
    ensures NextInt(input[0]).Some? ==> r == Step(saldo, input)
    ensures r.rest == input || |r.rest| < |input|
    ensures saldo >= 0.0 ==> r.saldo >= 0.0
  {
    if NextInt(input[0]).None? then StepResult(MenuLoop, saldo, NotANumber, input)
    else Step(saldo, input)
  }

  /** `k` passes of the loop as written (fewer when it exits or the input runs out). */
  function IterateAsWritten(s: Session, input: seq<Token>, k: nat): (r: Trace)
    ensures |r.reports| <= k
    ensures |r.rest| <= |input|
    ensures s.saldo >= 0.0 ==> r.session.saldo >= 0.0
    ensures r.rest == [] || r.session.mode == Terminated || |r.reports| == k
    decreases k
  {
    if k == 0 || s.mode == Terminated || input == [] then
      Trace(s, [], input)
    else
      var st := StepAsWritten(s.saldo, input);
      var r := IterateAsWritten(Session(st.mode, st.saldo), st.rest, k - 1);
      Trace(r.session, [st.report] + r.reports, r.rest)
  }

  /**
    As written, a rejected option line is never got past: every pass reports
    `NotANumber` again and reads nothing.
  */
  lemma {:induction false} MismatchRepeatsForever(s: Session, input: seq<Token>, k: nat)
    requires s.mode == MenuLoop && input != [] && NextInt(input[0]).None?
    ensures IterateAsWritten(s, input, k).session == s
    ensures IterateAsWritten(s, input, k).rest == input
    ensures |IterateAsWritten(s, input, k).reports| == k
    ensures forall i :: 0 <= i < k ==> IterateAsWritten(s, input, k).reports[i] == NotANumber
    decreases k
  {
    if k > 0 {
      MismatchRepeatsForever(s, input, k - 1);
    }
  }

  /**
    The input "abc" then "4": as written the loop never reaches the exit
    option; with the rejected line skipped, the second pass exits.
  */
  lemma NonNumericOption(k: nat)
    ensures IterateAsWritten(Session(MenuLoop, 0.0), [Text, Integer(4)], k).session.mode == MenuLoop
    ensures Run(Session(MenuLoop, 0.0), [Text, Integer(4)]).session.mode == Terminated
  {
    MismatchRepeatsForever(Session(MenuLoop, 0.0), [Text, Integer(4)], k);
  }

  /** The teller, bound to the one customer it serves. */
  class CaixaEletronico {
    /** The customer's account (`cliente.getConta()`). */
    const conta: Conta

    /** A teller with a new customer (`novoCliente`), whose account starts at zero. */
    constructor ()
      ensures fresh(conta) && conta.Valid() && conta.saldo == 0.0
    {
      conta := new Conta();
    }

    /**
      The body of the corrected menu loop (a rejected option line is
      consumed): one selection handled, every exception caught.
    */
    method Atender(input: seq<Token>) returns (mode: Mode, report: Report, rest: seq<Token>)
      requires input != [] && conta.Valid()
      modifies conta
      ensures conta.Valid()
      ensures StepResult(mode, conta.saldo, report, rest) == Step(old(conta.saldo), input)
    {
      mode, rest := MenuLoop, input[1..];
      var option := NextInt(input[0]);
      if option.None? {
        report := NotANumber;
      } else if option.value == 1 {
        var saldo := conta.GetSaldo();
        report := ShowData(saldo);
      } else if option.value == 2 || option.value == 3 {
        if rest == [] {
          report := UnknownFailure;
        } else {
          var quantia := ParseQuantia(rest[0]);
          rest := rest[1..];
          if quantia.None? {
            report := UnknownFailure;
          } else {
            var o;
            if option.value == 2 {
              o := conta.Sacar(quantia.value);
            } else {
              o := conta.Depositar(quantia.value);
            }
            report := Done(o);
          }
        }
      } else if option.value == 4 {
        mode, report := Terminated, Closing;
      } else {
        report := Unrecognised;
      }
    }

    /**
      `operarContaAtual`, with a rejected option line consumed: the
      corrected menu loop, run until option 4 or the end of the input; it
      does what `Run` describes.
    */
    method OperarContaAtual(input: seq<Token>) returns (mode: Mode, reports: seq<Report>, rest: seq<Token>)
      requires conta.Valid()
      modifies conta
      ensures conta.Valid()
      ensures Trace(Session(mode, conta.saldo), reports, rest) == Run(Session(MenuLoop, old(conta.saldo)), input)
    {
      mode, reports, rest := MenuLoop, [], input;
      ghost var whole := Run(Session(MenuLoop, conta.saldo), input);
      while mode == MenuLoop && rest != []
        invariant conta.Valid()
        invariant whole == Prefixed(reports, Run(Session(mode, conta.saldo), rest))
        decreases |rest|
      {
        ghost var before, seen := Session(mode, conta.saldo), rest;
        var report;
        mode, report, rest := Atender(rest);
        RunUnfolds(before, seen);
        PrefixedTwice(reports, [report], Run(Session(mode, conta.saldo), rest));
        reports := reports + [report];
      }
    }
  }
}
