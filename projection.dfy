/**
 The monthly wealth-projection state machine shared by both variants of the
 simulator (`prever_patrimonio` and `prever_patrimonio_sem_eventos`).

 Everything here is a specification. One trial is described by four
 recursive functions of its random draws, each giving one part of the loop's
 state at the end of month k:
 - `StatusAt`: `filho_ativa` and `demissao_meses` (they depend on the drawn
   events only);
 - `SalaryAt`: `sal` (events only);
 - `Wealth`: the event-path wealth `pat` (events and returns);
 - `Savings`: the savings-account wealth `pat_poup` (events only).
 The ideal path is `IdealSal` and `IdealPat`. The methods in the modules
 StreamlitApp and App run the source's loops and are proved to compute exactly
 these functions; the lemmas below state what the source promises about them.
 The one method here, `ApplyEvento`, is the event chain, which both files
 spell out identically.
 */
module Projection {

  /** The five life events drawn each month ('none', 'demissao', 'bonus', 'filho', 'promocao'). */
  datatype Evento = Nenhum | Demissao | Bonus | Filho | Promocao

  /** How the monthly contribution is asked for: a fraction of the surplus
      (Streamlit_app.py) or a fixed amount (app.py, `escolhas['investimento']`). */
  datatype Policy = Fraction(aporte: real) | Fixed(investimento: real)

  /** The five market parameters both programs obtain at start-up
      (INFLACAO, CRESC_SALARIO, RETORNO, VOLATILIDADE, POUPANCA_TAXA). */
  datatype Rates = Rates(inflacao: real, crescSalario: real, retorno: real, volatilidade: real, poupancaTaxa: real)

  /** Everything a trial depends on besides its random draws. */
  datatype Params = Params(
    patIni: real,
    salIni: real,
    escolhas: map<string, real>,
    inflacao: real,
    crescSalario: real,
    poupMensal: real,
    policy: Policy)

  /** The non-monetary part of a trial's state: `filho_ativa` and
      `demissao_meses`, the months left before the salary is restored. */
  datatype Status = Status(filhoAtiva: bool, demissaoMeses: int)

  const BonusValor: real := 5000.0
  const FilhoCusto: real := 800.0
  const PromocaoFator: real := 1.2
  const DemissaoFator: real := 0.5
  const DemissaoDuracao: int := 6

  /** The four expense categories summed every month. */
  const Categorias: seq<string> := ["moradia", "transporte", "lazer", "educacao"]

  function Max(a: real, b: real): real { if a >= b then a else b }

  function Min(a: real, b: real): real { if a <= b then a else b }

  /** `(1 + x) ** ano` with an integer exponent, as repeated multiplication. */
  function Pow(b: real, n: nat): real
  {
    if n == 0 then 1.0 else b * Pow(b, n - 1)
  }

  lemma MulNonNeg(x: real, y: real)
    ensures x >= 0.0 && y >= 0.0 ==> x * y >= 0.0
  {
  }

  lemma MulMonotone(x: real, a: real, b: real)
    ensures x >= 0.0 && a <= b ==> x * a <= x * b
  {
    if x >= 0.0 && a <= b {
      MulNonNeg(x, b - a);
    }
  }

  /** `escolhas.get(k, 0)`: a missing category costs nothing. */
  function Get(escolhas: map<string, real>, k: string): real
  {
    if k in escolhas then escolhas[k] else 0.0
  }

  /** `sum(escolhas.get(k, 0) for k in ks)`. */
  function SumCategories(escolhas: map<string, real>, ks: seq<string>): real
  {
    if ks == [] then 0.0 else Get(escolhas, ks[0]) + SumCategories(escolhas, ks[1..])
  }

  /** The uninflated monthly expense total of the four categories. */
  function BaseExpenses(escolhas: map<string, real>): real
  {
    SumCategories(escolhas, Categorias)
  }

  /** The uninflated expenses are the four categories' stored amounts, a
      missing category counting 0; they are non-negative when every stored
      amount is, and 0 when no category is stored. */
  lemma BaseExpensesSum(escolhas: map<string, real>)
    ensures BaseExpenses(escolhas)
         == Get(escolhas, "moradia") + Get(escolhas, "transporte") + Get(escolhas, "lazer") + Get(escolhas, "educacao")
    ensures (forall k :: k in escolhas ==> escolhas[k] >= 0.0) ==> BaseExpenses(escolhas) >= 0.0
    ensures (forall k :: k in Categorias ==> k !in escolhas) ==> BaseExpenses(escolhas) == 0.0
  {
    var e := escolhas;
    assert Categorias[1..] == ["transporte", "lazer", "educacao"];
    assert ["transporte", "lazer", "educacao"][1..] == ["lazer", "educacao"];
    assert ["lazer", "educacao"][1..] == ["educacao"];
    assert SumCategories(e, ["educacao"]) == Get(e, "educacao");
    assert SumCategories(e, ["lazer", "educacao"]) == Get(e, "lazer") + Get(e, "educacao");
    assert SumCategories(e, ["transporte", "lazer", "educacao"])
        == Get(e, "transporte") + Get(e, "lazer") + Get(e, "educacao");
  }

  /** `ano = (m - 1) // 12`: the number of whole years elapsed before month m. */
  function Ano(m: nat): nat
  {
    if m == 0 then 0 else (m - 1) / 12
  }

  /** `infl = (1 + INFLACAO) ** ano` for month m. */
  function Infl(inflacao: real, m: nat): real
  {
    Pow(1.0 + inflacao, Ano(m))
  }

  /** Expenses of month m: the base total inflated, plus the inflated child
      surcharge when the child flag is already set at the start of the month. */
  function Gastos(p: Params, filhoAtiva: bool, m: nat): real
  {
    var infl := Infl(p.inflacao, m);
    var gastos := BaseExpenses(p.escolhas) * infl;
    if filhoAtiva then gastos + FilhoCusto * infl else gastos
  }

  /** `sobra = max(sal - gastos, 0)`. */
  function Surplus(sal: real, gastos: real): (r: real)
    ensures r >= 0.0 && r >= sal - gastos
    ensures r == 0.0 || r == sal - gastos
    ensures sal >= gastos ==> r == sal - gastos
  {
    Max(sal - gastos, 0.0)
  }

  /** The amount the policy asks to invest out of a surplus. */
  function Requested(policy: Policy, sobra: real): real
  {
    match policy
    case Fraction(a) => sobra * a
    case Fixed(v) => v
  }

  /** A policy that never asks for a negative amount (aporte >= 0, investimento >= 0). */
  predicate NonNegPolicy(policy: Policy)
  {
    match policy
    case Fraction(a) => a >= 0.0
    case Fixed(v) => v >= 0.0
  }

  /** A policy under which the uncapped ideal-path rule and the capped rule agree. */
  predicate FitsSurplus(policy: Policy)
  {
    match policy
    case Fraction(a) => a <= 1.0
    case Fixed(_) => true
  }

  /** The contribution of the event path in both files: the requested amount,
      capped at the surplus (`min(sobra * aporte, sobra)`, `min(investimento, sobra)`). */
  function Contribution(policy: Policy, sobra: real): (r: real)
    ensures r <= sobra
    ensures r == Requested(policy, sobra) || r == sobra
    ensures Requested(policy, sobra) <= sobra ==> r == Requested(policy, sobra)
    ensures NonNegPolicy(policy) && sobra >= 0.0 ==> 0.0 <= r
  {
    if policy.Fraction? then MulNonNeg(sobra, policy.aporte); Min(Requested(policy, sobra), sobra)
    else Min(Requested(policy, sobra), sobra)
  }

  /** The contribution of the ideal path: Streamlit_app.py invests
      `sobra * aporte` there WITHOUT the cap, app.py keeps `min(investimento, sobra)`. */
  function IdealContribution(policy: Policy, sobra: real): (r: real)
    ensures NonNegPolicy(policy) && sobra >= 0.0 ==> 0.0 <= r
    ensures policy.Fraction? ==> r == Requested(policy, sobra)
    ensures FitsSurplus(policy) && sobra >= 0.0 ==> r == Contribution(policy, sobra)
  {
    match policy
    case Fraction(a) =>
      MulNonNeg(sobra, a);
      MulMonotone(sobra, a, 1.0);
      sobra * a
    case Fixed(_) => Contribution(policy, sobra)
  }

  /** One month of compounding at a given rate: `x * (1 + rate)`. */
  function Compound(x: real, rate: real): real
  {
    x * (1.0 + rate)
  }

  /** The annual salary raise: a factor (1 + CRESC_SALARIO) in months
      with m % 12 == 1 and m > 1, and 1 in every other month. */
  function GrowthFactor(crescSalario: real, m: nat): real
  {
    if m % 12 == 1 && m > 1 then 1.0 + crescSalario else 1.0
  }

  /** The salary times the month's annual raise factor. */
  function Raise(p: Params, sal: real, m: nat): real
  {
    sal * GrowthFactor(p.crescSalario, m)
  }

  /** The salary a layoff's end restores: sal_ini * (1 + CRESC_SALARIO) ** ano. */
  function RestoredSalary(p: Params, ano: nat): real
  {
    p.salIni * Pow(1.0 + p.crescSalario, ano)
  }

  /** Whether the drawn event starts a layoff: only with no countdown running. */
  predicate StartsLayoff(s: Status, ev: Evento)
  {
    ev == Demissao && s.demissaoMeses == 0
  }

  /** The countdown after the first `if` of the event chain. */
  function CountdownAfterLayoff(s: Status, ev: Evento): int
  {
    if StartsLayoff(s, ev) then DemissaoDuracao else s.demissaoMeses
  }

  /** The if / if / elif chain of one month, on the child flag and countdown. */
  function StatusEvent(s: Status, ev: Evento): Status
  {
    var d := CountdownAfterLayoff(s, ev);
    if d > 0 then s.(demissaoMeses := d - 1)
    else if ev == Filho then s.(filhoAtiva := true)
    else s
  }

  /** The same chain on the salary: halved by a layoff, restored to
      sal_ini * (1 + CRESC_SALARIO) ** ano when the countdown reaches zero,
      raised by 20% by a promotion. */
  function SalaryEvent(p: Params, sal: real, s: Status, ev: Evento, ano: nat): real
  {
    var sal1 := if StartsLayoff(s, ev) then sal * DemissaoFator else sal;
    var d := CountdownAfterLayoff(s, ev);
    if d > 0 then (if d - 1 == 0 then RestoredSalary(p, ano) else sal1)
    else if ev == Promocao then sal1 * PromocaoFator
    else sal1
  }

  /** The bonus the `elif evento == 'bonus'` branch adds to wealth: only
      when no countdown is running (a bonus draw never starts a layoff). */
  function BonusOf(s: Status, ev: Evento): real
  {
    if !(CountdownAfterLayoff(s, ev) > 0) && ev == Bonus then BonusValor else 0.0
  }

  /** The salary at the end of month m: the event, then the annual raise. */
  function SalaryMonth(p: Params, sal: real, s: Status, m: nat, ev: Evento): real
  {
    Raise(p, SalaryEvent(p, sal, s, ev, Ano(m)), m)
  }

  /** Child flag and countdown after k months of drawn events `ev`. */
  function StatusAt(ev: seq<Evento>, k: nat): Status
    requires k <= |ev|
  {
    if k == 0 then Status(false, 0) else StatusEvent(StatusAt(ev, k - 1), ev[k - 1])
  }

  /** The salary after k months of drawn events `ev`. */
  function SalaryAt(p: Params, ev: seq<Evento>, k: nat): real
    requires k <= |ev|
  {
    if k == 0 then p.salIni else SalaryMonth(p, SalaryAt(p, ev, k - 1), StatusAt(ev, k - 1), k, ev[k - 1])
  }

  /** The contribution of month m, computed from the salary and the child flag
      at the start of the month, before the event is applied. */
  function Invest(p: Params, sal: real, s: Status, m: nat): real
  {
    Contribution(p.policy, Surplus(sal, Gastos(p, s.filhoAtiva, m)))
  }

  /** Event-path wealth after one month: bonus, drawn return, contribution, floor at zero. */
  function WealthMonth(p: Params, pat: real, sal: real, s: Status, m: nat, ev: Evento, ret: real): real
  {
    Max(Compound(pat + BonusOf(s, ev), ret) + Invest(p, sal, s, m), 0.0)
  }

  /** Event-path wealth `pat` after k months. */
  function Wealth(p: Params, ev: seq<Evento>, rt: seq<real>, k: nat): real
    requires k <= |ev| && k <= |rt|
  {
    if k == 0 then p.patIni
    else WealthMonth(p, Wealth(p, ev, rt, k - 1), SalaryAt(p, ev, k - 1), StatusAt(ev, k - 1), k, ev[k - 1], rt[k - 1])
  }

  /** Savings-account wealth `pat_poup` after k months: the fixed monthly
      rate plus the same contribution as the event path. */
  function Savings(p: Params, ev: seq<Evento>, k: nat): real
    requires k <= |ev|
  {
    if k == 0 then p.patIni
    else Compound(Savings(p, ev, k - 1), p.poupMensal) + Invest(p, SalaryAt(p, ev, k - 1), StatusAt(ev, k - 1), k)
  }

  /** The ideal-path salary after k months: only the annual raise. */
  function IdealSal(p: Params, k: nat): real
  {
    if k == 0 then p.salIni else Raise(p, IdealSal(p, k - 1), k)
  }

  /** The ideal-path contribution of month m. */
  function IdealInvest(p: Params, m: nat): real
    requires m >= 1
  {
    IdealContribution(p.policy, Surplus(IdealSal(p, m - 1), Gastos(p, false, m)))
  }

  /** The ideal-path wealth after k months: fixed return, no event, no floor. */
  function IdealPat(p: Params, retMensal: real, k: nat): real
  {
    if k == 0 then p.patIni else Compound(IdealPat(p, retMensal, k - 1), retMensal) + IdealInvest(p, k)
  }

  /** The drawn event of one month, under the if / if / elif chain: a layoff
      starts only with no countdown running; while the countdown runs it is
      decremented and no other event applies, and the salary is restored when
      it reaches zero; otherwise a bonus, a child or a promotion applies. */
  method ApplyEvento(p: Params, ano: nat, evento: Evento,
                     pat0: real, sal0: real, filhoAtiva0: bool, demissaoMeses0: int)
    returns (pat: real, sal: real, filhoAtiva: bool, demissaoMeses: int)
    ensures Status(filhoAtiva, demissaoMeses) == StatusEvent(Status(filhoAtiva0, demissaoMeses0), evento)
    ensures sal == SalaryEvent(p, sal0, Status(filhoAtiva0, demissaoMeses0), evento, ano)
    ensures pat == pat0 + BonusOf(Status(filhoAtiva0, demissaoMeses0), evento)
  {
    pat, sal, filhoAtiva, demissaoMeses := pat0, sal0, filhoAtiva0, demissaoMeses0;
    if evento == Demissao && demissaoMeses == 0 {
      sal := sal * DemissaoFator;
      demissaoMeses := DemissaoDuracao;
    }
    if demissaoMeses > 0 {
      demissaoMeses := demissaoMeses - 1;
      if demissaoMeses == 0 {
        sal := RestoredSalary(p, ano);
      }
    } else if evento == Bonus {
      pat := pat + BonusValor;
    } else if evento == Filho {
      filhoAtiva := true;
    } else if evento == Promocao {
      sal := sal * PromocaoFator;
    }
  }

  // ---------------------------------------------------------------------------
  // Properties of one month

  /** With no active countdown, a drawn layoff halves the salary (before the
      annual raise) and leaves five further months of countdown; the child flag
      stays and no bonus is paid. */
  lemma LayoffStarts(p: Params, sal: real, s: Status, m: nat)
    requires s.demissaoMeses == 0
    ensures StatusEvent(s, Demissao) == s.(demissaoMeses := DemissaoDuracao - 1)
    ensures SalaryMonth(p, sal, s, m, Demissao) == Raise(p, sal * DemissaoFator, m)
    ensures BonusOf(s, Demissao) == 0.0
  {
  }

  /** While a countdown is active the drawn event is irrelevant (a second
      layoff included): the month goes exactly as if nothing were drawn. */
  lemma CountdownSuppressesEvents(p: Params, sal: real, s: Status, m: nat, ev: Evento)
    requires s.demissaoMeses > 0
    ensures StatusEvent(s, ev) == StatusEvent(s, Nenhum)
    ensures SalaryMonth(p, sal, s, m, ev) == SalaryMonth(p, sal, s, m, Nenhum)
    ensures BonusOf(s, ev) == 0.0
  {
  }

  /** A month with an active countdown lowers it by one and keeps the child
      flag; the salary only gets the annual raise, except in the month the
      countdown reaches zero, when it is first restored to the initial salary
      grown by the elapsed years. */
  lemma CountdownMonth(p: Params, sal: real, s: Status, m: nat, ev: Evento)
    requires s.demissaoMeses > 0
    ensures StatusEvent(s, ev) == s.(demissaoMeses := s.demissaoMeses - 1)
    ensures SalaryMonth(p, sal, s, m, ev)
         == Raise(p, if s.demissaoMeses == 1 then RestoredSalary(p, Ano(m)) else sal, m)
  {
  }

  /** The bonus, the child and the promotion take effect in a month that
      starts without a countdown, each changing one thing only: a bonus adds
      5000 and keeps the salary and the flags, a child sets the flag and keeps
      the salary, a promotion raises the salary by 20% and keeps the flags;
      nothing but a layoff starts a countdown. */
  lemma IdleMonthEvents(p: Params, sal: real, s: Status, m: nat)
    requires s.demissaoMeses == 0
    ensures BonusOf(s, Bonus) == BonusValor
    ensures StatusEvent(s, Bonus) == s && SalaryMonth(p, sal, s, m, Bonus) == Raise(p, sal, m)
    ensures StatusEvent(s, Filho) == s.(filhoAtiva := true)
    ensures BonusOf(s, Filho) == 0.0 && SalaryMonth(p, sal, s, m, Filho) == Raise(p, sal, m)
    ensures SalaryMonth(p, sal, s, m, Promocao) == Raise(p, sal * PromocaoFator, m)
    ensures BonusOf(s, Promocao) == 0.0 && StatusEvent(s, Promocao) == s
    ensures forall ev :: ev != Demissao ==> StatusEvent(s, ev).demissaoMeses == 0
  {
  }

  /** A month with no countdown and nothing drawn changes the salary by the
      annual raise only. */
  lemma QuietMonth(p: Params, sal: real, s: Status, m: nat)
    requires s.demissaoMeses == 0
    ensures StatusEvent(s, Nenhum) == s
    ensures SalaryMonth(p, sal, s, m, Nenhum) == Raise(p, sal, m)
    ensures BonusOf(s, Nenhum) == 0.0
  {
  }

  /** Every month's contribution lies between 0 and that month's surplus
      max(sal - gastos, 0), for a policy that asks for a non-negative amount. */
  lemma ContributionWithinSurplus(p: Params, sal: real, s: Status, m: nat)
    requires NonNegPolicy(p.policy)
    ensures 0.0 <= Invest(p, sal, s, m) <= Max(sal - Gastos(p, s.filhoAtiva, m), 0.0)
  {
  }

  /** The ideal path's contribution lies between 0 and that month's surplus
      when the policy asks for a non-negative amount that the ideal rule does
      not let exceed the surplus (`aporte <= 1`, or any fixed amount). */
  lemma IdealInvestWithinSurplus(p: Params, m: nat)
    requires m >= 1 && NonNegPolicy(p.policy) && FitsSurplus(p.policy)
    ensures 0.0 <= IdealInvest(p, m) <= Max(IdealSal(p, m - 1) - Gastos(p, false, m), 0.0)
  {
  }

  /** With the child flag set, the month's expenses include 800 * infl. */
  lemma GastosWithChild(p: Params, m: nat)
    ensures Gastos(p, true, m) == Gastos(p, false, m) + FilhoCusto * Infl(p.inflacao, m)
    ensures Gastos(p, false, m) == BaseExpenses(p.escolhas) * Infl(p.inflacao, m)
  {
  }

  /** The annual raise applies in months 13, 25, 37, ... and in no other
      month: there it multiplies the salary by (1 + CRESC_SALARIO), elsewhere
      it leaves it alone, so a non-zero salary with a non-zero growth rate
      changes exactly in those months. */
  lemma AnnualRaise(p: Params, sal: real, m: nat)
    ensures m % 12 == 1 && m > 1 ==> Raise(p, sal, m) == sal * (1.0 + p.crescSalario)
    ensures !(m % 12 == 1 && m > 1) ==> Raise(p, sal, m) == sal
    ensures sal != 0.0 && p.crescSalario != 0.0 ==> (Raise(p, sal, m) != sal <==> m % 12 == 1 && m > 1)
  {
  }

  // ---------------------------------------------------------------------------
  // Arithmetic helpers

  lemma AnoStep(k: nat)
    requires k >= 1
    ensures Ano(k) == Ano(k - 1) + (if k % 12 == 1 && k > 1 then 1 else 0)
  {
  }

  lemma PowSucc(b: real, n: nat)
    ensures Pow(b, n + 1) == b * Pow(b, n)
  {
  }

  lemma MulAssoc(s: real, b: real, x: real)
    ensures s * x * b == s * (b * x)
  {
  }

  lemma SavingsStepGrows(pp: real, rate: real, invest: real)
    requires pp >= 0.0 && rate >= 0.0 && invest >= 0.0
    ensures pp <= pp * (1.0 + rate) + invest
  {
    MulNonNeg(pp, rate);
    assert pp * (1.0 + rate) == pp + pp * rate;
  }

  // ---------------------------------------------------------------------------
  // Properties of whole trials

  /** The countdown is within 0..5 at the end of every month. */
  lemma {:induction false} CountdownBounded(ev: seq<Evento>, k: nat)
    requires k <= |ev|
    ensures 0 <= StatusAt(ev, k).demissaoMeses <= DemissaoDuracao - 1
  {
    if k > 0 {
      CountdownBounded(ev, k - 1);
    }
  }

  /** Event-path wealth is never negative, whatever returns were drawn
      (month 0 holds the initial wealth). */
  lemma WealthNonNegative(p: Params, ev: seq<Evento>, rt: seq<real>, k: nat)
    requires k <= |ev| && k <= |rt|
    requires p.patIni >= 0.0 || k > 0
    ensures Wealth(p, ev, rt, k) >= 0.0
  {
  }

  /** Once set, the child flag never reverts. */
  lemma {:induction false} ChildPersists(ev: seq<Evento>, j: nat, k: nat)
    requires j <= k <= |ev|
    requires StatusAt(ev, j).filhoAtiva
    ensures StatusAt(ev, k).filhoAtiva
  {
    if k > j {
      ChildPersists(ev, j, k - 1);
    }
  }

  /** A child drawn in month k with no countdown sets the flag; month k's own
      expenses carry the surcharge only if the flag was already set, and every
      later month's expenses include 800 * infl. */
  lemma ChildSurcharge(p: Params, ev: seq<Evento>, k: nat, m: nat)
    requires 1 <= k < m <= |ev|
    requires StatusAt(ev, k - 1).demissaoMeses == 0 && ev[k - 1] == Filho
    ensures StatusAt(ev, k).filhoAtiva
    ensures Gastos(p, StatusAt(ev, k - 1).filhoAtiva, k)
         == BaseExpenses(p.escolhas) * Infl(p.inflacao, k)
            + (if StatusAt(ev, k - 1).filhoAtiva then FilhoCusto * Infl(p.inflacao, k) else 0.0)
    ensures Gastos(p, StatusAt(ev, m - 1).filhoAtiva, m)
         == BaseExpenses(p.escolhas) * Infl(p.inflacao, m) + FilhoCusto * Infl(p.inflacao, m)
  {
    IdleMonthEvents(p, SalaryAt(p, ev, k - 1), StatusAt(ev, k - 1), k);
    ChildPersists(ev, k, m - 1);
    GastosWithChild(p, k);
    GastosWithChild(p, m);
  }

  /** From a month that ends with countdown c > 0, the next c - 1 months end
      with countdown c - 1 .. 1 and the c-th ends it. */
  lemma {:induction false} CountdownRuns(ev: seq<Evento>, j: nat, c: int)
    requires 1 <= c && j + c <= |ev|
    requires StatusAt(ev, j).demissaoMeses == c
    decreases c
    ensures forall i :: j <= i < j + c ==> StatusAt(ev, i).demissaoMeses == c - (i - j)
    ensures StatusAt(ev, j + c).demissaoMeses == 0
  {
    if c > 1 {
      CountdownRuns(ev, j + 1, c - 1);
    }
  }

  /** Layoff and recovery: a layoff drawn in month k with no active countdown
      halves the salary (before that month's annual raise) and pays no bonus;
      months k .. k+4 end with countdown 5 .. 1; month k+5 ends with countdown 0
      and the salary set to sal_ini * (1 + CRESC_SALARIO) ** ano(k+5), whatever
      promotions came before, then raised if k+5 is a raise month. */
  lemma LayoffRecovery(p: Params, ev: seq<Evento>, k: nat)
    requires 1 <= k && k + 5 <= |ev|
    requires StatusAt(ev, k - 1).demissaoMeses == 0 && ev[k - 1] == Demissao
    ensures SalaryAt(p, ev, k) == Raise(p, SalaryAt(p, ev, k - 1) * DemissaoFator, k)
    ensures BonusOf(StatusAt(ev, k - 1), ev[k - 1]) == 0.0
    ensures forall j :: k <= j < k + 5 ==> StatusAt(ev, j).demissaoMeses == 5 - (j - k)
    ensures StatusAt(ev, k + 5).demissaoMeses == 0
    ensures SalaryAt(p, ev, k + 5) == Raise(p, RestoredSalary(p, Ano(k + 5)), k + 5)
  {
    LayoffStarts(p, SalaryAt(p, ev, k - 1), StatusAt(ev, k - 1), k);
    CountdownRuns(ev, k, 5);
    CountdownMonth(p, SalaryAt(p, ev, k + 4), StatusAt(ev, k + 4), k + 5, ev[k + 4]);
  }

  /** One month of the savings path never lowers it. */
  lemma SavingsMonthGrows(p: Params, pp: real, sal: real, s: Status, m: nat)
    requires pp >= 0.0 && p.poupMensal >= 0.0 && NonNegPolicy(p.policy)
    ensures pp <= Compound(pp, p.poupMensal) + Invest(p, sal, s, m)
  {
    ContributionWithinSurplus(p, sal, s, m);
    SavingsStepGrows(pp, p.poupMensal, Invest(p, sal, s, m));
  }

  /** The savings path never decreases (and never goes negative) when the
      initial wealth, the savings rate and the policy are non-negative; it does
      not depend on the drawn returns at all. */
  lemma {:induction false} SavingsNonDecreasing(p: Params, ev: seq<Evento>, k: nat)
    requires k < |ev|
    requires p.patIni >= 0.0 && p.poupMensal >= 0.0 && NonNegPolicy(p.policy)
    ensures 0.0 <= Savings(p, ev, k) <= Savings(p, ev, k + 1)
  {
    if k > 0 {
      SavingsNonDecreasing(p, ev, k - 1);
    }
    SavingsMonthGrows(p, Savings(p, ev, k), SalaryAt(p, ev, k), StatusAt(ev, k), k + 1);
  }

  /** On the ideal path the salary after month k is sal_ini grown once per
      completed raise month: sal_ini * (1 + CRESC_SALARIO) ** ano(k). */
  lemma {:induction false} IdealSalary(p: Params, k: nat)
    ensures IdealSal(p, k) == RestoredSalary(p, Ano(k))
  {
    if k > 0 {
      IdealSalary(p, k - 1);
      AnoStep(k);
      var b := 1.0 + p.crescSalario;
      if k % 12 == 1 && k > 1 {
        PowSucc(b, Ano(k - 1));
        MulAssoc(p.salIni, b, Pow(b, Ano(k - 1)));
      }
    }
  }

  /** The salary a layoff's end restores is the ideal-path salary of that
      month, before that month's annual raise is applied on top of it: after a
      recovery in a raise month (13, 25, ...) the salary is one raise above the
      ideal path, in any other month it equals it. */
  lemma RecoveryAgainstIdeal(p: Params, ev: seq<Evento>, k: nat)
    requires 1 <= k && k + 5 <= |ev|
    requires StatusAt(ev, k - 1).demissaoMeses == 0 && ev[k - 1] == Demissao
    ensures SalaryAt(p, ev, k + 5) == Raise(p, IdealSal(p, k + 5), k + 5)
    ensures (k + 5) % 12 != 1 ==> SalaryAt(p, ev, k + 5) == IdealSal(p, k + 5)
    ensures (k + 5) % 12 == 1 ==> SalaryAt(p, ev, k + 5) == IdealSal(p, k + 5) * (1.0 + p.crescSalario)
  {
    LayoffRecovery(p, ev, k);
    IdealSalary(p, k + 5);
  }

  /** A trial in which no event is drawn never sets the child flag, never
      starts a countdown and keeps the ideal-path salary. */
  lemma {:induction false} NoEventsCareer(p: Params, ev: seq<Evento>, k: nat)
    requires k <= |ev|
    requires forall i :: 0 <= i < k ==> ev[i] == Nenhum
    ensures StatusAt(ev, k) == Status(false, 0)
    ensures SalaryAt(p, ev, k) == IdealSal(p, k)
  {
    if k > 0 {
      NoEventsCareer(p, ev, k - 1);
      QuietMonth(p, SalaryAt(p, ev, k - 1), StatusAt(ev, k - 1), k);
    }
  }

  /** A month with nothing drawn, no child and the ideal-path salary moves
      wealth exactly as the ideal path does, and keeps it non-negative. */
  lemma QuietWealthMonth(p: Params, w: real, m: nat, retMensal: real)
    requires m >= 1 && w >= 0.0 && retMensal >= -1.0
    requires NonNegPolicy(p.policy) && FitsSurplus(p.policy)
    ensures WealthMonth(p, w, IdealSal(p, m - 1), Status(false, 0), m, Nenhum, retMensal)
         == Compound(w, retMensal) + IdealInvest(p, m)
    ensures Compound(w, retMensal) + IdealInvest(p, m) >= 0.0
  {
    MulNonNeg(w, 1.0 + retMensal);
  }

  /** One step of the event-path wealth recursion. */
  lemma WealthStep(p: Params, ev: seq<Evento>, rt: seq<real>, k: nat)
    requires 1 <= k <= |ev| && k <= |rt|
    ensures Wealth(p, ev, rt, k)
         == WealthMonth(p, Wealth(p, ev, rt, k - 1), SalaryAt(p, ev, k - 1), StatusAt(ev, k - 1), k, ev[k - 1], rt[k - 1])
  {
  }

  /** One step of the savings recursion. */
  lemma SavingsStep(p: Params, ev: seq<Evento>, k: nat)
    requires 1 <= k <= |ev|
    ensures Savings(p, ev, k)
         == Compound(Savings(p, ev, k - 1), p.poupMensal) + Invest(p, SalaryAt(p, ev, k - 1), StatusAt(ev, k - 1), k)
  {
  }

  /** One step of the salary and state recursions. */
  lemma CareerStep(p: Params, ev: seq<Evento>, k: nat)
    requires 1 <= k <= |ev|
    ensures SalaryAt(p, ev, k) == SalaryMonth(p, SalaryAt(p, ev, k - 1), StatusAt(ev, k - 1), k, ev[k - 1])
    ensures StatusAt(ev, k) == StatusEvent(StatusAt(ev, k - 1), ev[k - 1])
  {
  }

  /** One step of the ideal-path wealth recursion. */
  lemma IdealPatStep(p: Params, retMensal: real, k: nat)
    requires k >= 1
    ensures IdealPat(p, retMensal, k) == Compound(IdealPat(p, retMensal, k - 1), retMensal) + IdealInvest(p, k)
  {
  }

  /** One month of a trial that has so far followed the ideal path, with
      nothing drawn and the ideal return, keeps following it. */
  lemma QuietStep(p: Params, ev: seq<Evento>, rt: seq<real>, retMensal: real, k: nat)
    requires 1 <= k <= |ev| && k <= |rt|
    requires ev[k - 1] == Nenhum && rt[k - 1] == retMensal
    requires StatusAt(ev, k - 1) == Status(false, 0) && SalaryAt(p, ev, k - 1) == IdealSal(p, k - 1)
    requires Wealth(p, ev, rt, k - 1) == IdealPat(p, retMensal, k - 1) >= 0.0
    requires retMensal >= -1.0 && NonNegPolicy(p.policy) && FitsSurplus(p.policy)
    ensures Wealth(p, ev, rt, k) == IdealPat(p, retMensal, k) >= 0.0
  {
    WealthStep(p, ev, rt, k);
    IdealPatStep(p, retMensal, k);
    QuietWealthMonth(p, Wealth(p, ev, rt, k - 1), k, retMensal);
  }

  /** The ideal-path salary does not depend on the savings-account rate. */
  lemma {:induction false} IdealSalIgnoresSavingsRate(p: Params, x: real, k: nat)
    ensures IdealSal(p.(poupMensal := x), k) == IdealSal(p, k)
  {
    if k > 0 {
      IdealSalIgnoresSavingsRate(p, x, k - 1);
    }
  }

  /** The ideal-path wealth does not depend on the savings-account rate. */
  lemma {:induction false} IdealPatIgnoresSavingsRate(p: Params, retMensal: real, x: real, k: nat)
    ensures IdealPat(p.(poupMensal := x), retMensal, k) == IdealPat(p, retMensal, k)
  {
    if k > 0 {
      IdealPatIgnoresSavingsRate(p, retMensal, x, k - 1);
      IdealSalIgnoresSavingsRate(p, x, k - 1);
      IdealInvestFrame(p.(poupMensal := x), p, k);
    }
  }

  /** The ideal-path contribution depends on the expense choices, the
      inflation rate, the policy and the salary only. */
  lemma IdealInvestFrame(p: Params, q: Params, m: nat)
    requires m >= 1 && p.escolhas == q.escolhas && p.inflacao == q.inflacao && p.policy == q.policy
    requires IdealSal(p, m - 1) == IdealSal(q, m - 1)
    ensures IdealInvest(p, m) == IdealInvest(q, m)
  {
    GastosFrame(p, q, false, m);
  }

  /** Expenses depend on the expense choices and the inflation rate only. */
  lemma GastosFrame(p: Params, q: Params, filhoAtiva: bool, m: nat)
    requires p.escolhas == q.escolhas && p.inflacao == q.inflacao
    ensures Gastos(p, filhoAtiva, m) == Gastos(q, filhoAtiva, m)
  {
  }

  /** A trial in which no event is drawn and every drawn return is the ideal
      path's fixed monthly return reproduces the ideal-path wealth exactly (the
      salary is `NoEventsCareer`), provided the policy never asks for a
      negative amount, the ideal rule agrees with the capped one, and the
      initial wealth is non-negative. */
  lemma {:induction false} NoEventsMatchesIdeal(p: Params, ev: seq<Evento>, rt: seq<real>, retMensal: real, k: nat)
    requires k <= |ev| && k <= |rt|
    requires forall i :: 0 <= i < k ==> ev[i] == Nenhum && rt[i] == retMensal
    requires p.patIni >= 0.0 && retMensal >= -1.0
    requires NonNegPolicy(p.policy) && FitsSurplus(p.policy)
    ensures Wealth(p, ev, rt, k) == IdealPat(p, retMensal, k)
    ensures IdealPat(p, retMensal, k) >= 0.0
  {
    if k > 0 {
      NoEventsMatchesIdeal(p, ev, rt, retMensal, k - 1);
      NoEventsCareer(p, ev, k - 1);
      QuietStep(p, ev, rt, retMensal, k);
    }
  }
}
