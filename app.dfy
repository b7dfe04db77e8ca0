/**
 The plain-Streamlit variant of the simulator (app.py): the contribution is
 the fixed amount `escolhas['investimento']`, capped at the month's surplus,
 in the event path and in the ideal path alike; the savings rate is
 POUPANCA_TAXA / 12 and the ideal path's return RETORNO / 12. The market
 parameters are not clamped in this file.

 The random draws of `prever_patrimonio` are parameters: `eventos[s]` and
 `retornos[s]` are trial s's drawn events and monthly returns.
 */
module App {
  import opened Projection

  /** The number of trials of the event simulation. */
  const Sim: nat := 500

  /** The parameters of one run of the app.py projection. */
  function ParamsOf(patIni: real, salIni: real, escolhas: map<string, real>, rates: Rates): Params
  {
    Params(patIni, salIni, escolhas, rates.inflacao, rates.crescSalario, rates.poupancaTaxa / 12.0,
           Fixed(Get(escolhas, "investimento")))
  }

  /** The displayed contribution `min(investimento, max(sobra, 0))`: never
      more than the surplus floored at zero, never negative for a
      non-negative amount, and the amount itself whenever it fits. */
  function InvestReal(investimento: real, sobra: real): (r: real)
    ensures r <= Max(sobra, 0.0)
    ensures investimento >= 0.0 ==> r >= 0.0
    ensures r == investimento || r == Max(sobra, 0.0)
    ensures investimento <= Max(sobra, 0.0) ==> r == investimento
  {
    Min(investimento, Max(sobra, 0.0))
  }

  /** The displayed contribution is the contribution the simulation makes in
      a month with that salary and those expenses. */
  lemma InvestRealIsContribution(investimento: real, salario: real, gastos: real)
    ensures InvestReal(investimento, salario - gastos) == Contribution(Fixed(investimento), Surplus(salario, gastos))
  {
  }

  /** The amount the button stores as `escolhas['investimento']` is
      `invest_real`, so for a slider value >= 0 the simulated policy never
      asks for a negative amount. */
  lemma StoredInvestmentNonNegative(patIni: real, salIni: real, escolhas: map<string, real>, rates: Rates,
                                    investimento: real, sobra: real)
    requires "investimento" in escolhas && escolhas["investimento"] == InvestReal(investimento, sobra)
    requires investimento >= 0.0
    ensures NonNegPolicy(ParamsOf(patIni, salIni, escolhas, rates).policy)
  {
  }

  /** For `investimento` >= 0 every month's contribution lies between 0 and
      that month's surplus, in the event path and in the ideal path. */
  lemma ContributionBounds(patIni: real, salIni: real, escolhas: map<string, real>, rates: Rates,
                           ev: seq<Evento>, k: nat)
    requires 1 <= k <= |ev| && Get(escolhas, "investimento") >= 0.0
    ensures var p := ParamsOf(patIni, salIni, escolhas, rates);
            0.0 <= Invest(p, SalaryAt(p, ev, k - 1), StatusAt(ev, k - 1), k)
                <= Max(SalaryAt(p, ev, k - 1) - Gastos(p, StatusAt(ev, k - 1).filhoAtiva, k), 0.0)
    ensures var p := ParamsOf(patIni, salIni, escolhas, rates);
            0.0 <= IdealInvest(p, k) <= Max(IdealSal(p, k - 1) - Gastos(p, false, k), 0.0)
  {
    var p := ParamsOf(patIni, salIni, escolhas, rates);
    ContributionWithinSurplus(p, SalaryAt(p, ev, k - 1), StatusAt(ev, k - 1), k);
    IdealInvestWithinSurplus(p, k);
  }

  /** The savings path `pat_poup * (1 + POUPANCA_TAXA / 12) + invest` never
      decreases, for a non-negative initial wealth, rate and amount. */
  lemma SavingsPathNonDecreasing(patIni: real, salIni: real, escolhas: map<string, real>, rates: Rates,
                                 ev: seq<Evento>, k: nat)
    requires k < |ev| && patIni >= 0.0 && rates.poupancaTaxa >= 0.0 && Get(escolhas, "investimento") >= 0.0
    ensures 0.0 <= Savings(ParamsOf(patIni, salIni, escolhas, rates), ev, k)
                <= Savings(ParamsOf(patIni, salIni, escolhas, rates), ev, k + 1)
  {
    SavingsNonDecreasing(ParamsOf(patIni, salIni, escolhas, rates), ev, k);
  }

  /** A trial with no event drawn and every return equal to RETORNO / 12
      follows `prever_patrimonio_sem_eventos` exactly. */
  lemma QuietTrialIsIdeal(patIni: real, salIni: real, escolhas: map<string, real>, rates: Rates,
                          ev: seq<Evento>, rt: seq<real>, k: nat)
    requires k <= |ev| && k <= |rt|
    requires forall i :: 0 <= i < k ==> ev[i] == Nenhum && rt[i] == rates.retorno / 12.0
    requires patIni >= 0.0 && rates.retorno >= -12.0 && Get(escolhas, "investimento") >= 0.0
    ensures Wealth(ParamsOf(patIni, salIni, escolhas, rates), ev, rt, k)
         == IdealPat(ParamsOf(patIni, salIni, escolhas, rates), rates.retorno / 12.0, k)
  {
    NoEventsMatchesIdeal(ParamsOf(patIni, salIni, escolhas, rates), ev, rt, rates.retorno / 12.0, k);
  }

  /** Steps 1 to 4 of a month: the inflation multiplier, the inflated
      expenses with the child surcharge when the flag was already set, the
      surplus floored at zero, and the fixed amount invested, capped at it. */
  method MonthContribution(p: Params, m: nat, sal0: real, filhoAtiva0: bool) returns (invest: real)
    requires m >= 1 && p.policy == Fixed(Get(p.escolhas, "investimento"))
    ensures invest == Contribution(p.policy, Surplus(sal0, Gastos(p, filhoAtiva0, m)))
  {
    var ano := (m - 1) / 12;
    assert ano == Ano(m);
    var infl := Pow(1.0 + p.inflacao, ano);
    var gastos := SumCategories(p.escolhas, Categorias) * infl;
    if filhoAtiva0 {
      gastos := gastos + FilhoCusto * infl;
    }
    assert gastos == Gastos(p, filhoAtiva0, m);
    var sobra := Max(sal0 - gastos, 0.0);
    invest := Min(Get(p.escolhas, "investimento"), sobra);
  }

  /** The body of the month loop of one trial: the contribution (from the
      state at the start of the month), the drawn event, the annual raise, the
      drawn return with the floor at zero, and the savings path. */
  method TrialMonth(p: Params, m: nat, evento: Evento, ret: real,
                    pat0: real, patPoup0: real, sal0: real, filhoAtiva0: bool, demissaoMeses0: int)
    returns (pat: real, patPoup: real, sal: real, filhoAtiva: bool, demissaoMeses: int)
    requires m >= 1 && p.policy == Fixed(Get(p.escolhas, "investimento"))
    ensures Status(filhoAtiva, demissaoMeses) == StatusEvent(Status(filhoAtiva0, demissaoMeses0), evento)
    ensures sal == SalaryMonth(p, sal0, Status(filhoAtiva0, demissaoMeses0), m, evento)
    ensures pat == WealthMonth(p, pat0, sal0, Status(filhoAtiva0, demissaoMeses0), m, evento, ret)
    ensures patPoup == Compound(patPoup0, p.poupMensal) + Invest(p, sal0, Status(filhoAtiva0, demissaoMeses0), m)
  {
    var invest := MonthContribution(p, m, sal0, filhoAtiva0);
    assert invest == Invest(p, sal0, Status(filhoAtiva0, demissaoMeses0), m);
    var ano := (m - 1) / 12;
    assert ano == Ano(m);
    pat, sal, filhoAtiva, demissaoMeses := ApplyEvento(p, ano, evento, pat0, sal0, filhoAtiva0, demissaoMeses0);
    if m % 12 == 1 && m > 1 {
      sal := sal * (1.0 + p.crescSalario);
    }
    pat := Max(Compound(pat, ret) + invest, 0.0);
    patPoup := Compound(patPoup0, p.poupMensal) + invest;
  }

  /** Month m of trial s: runs the month from the trial's state after m - 1
      months and writes column m of row s of both arrays. */
  method RecordMonth(p: Params, ev: seq<Evento>, rt: seq<real>, res: array2<real>, resPoup: array2<real>,
                     s: nat, m: nat, pat0: real, patPoup0: real, sal0: real, filhoAtiva0: bool, demissaoMeses0: int)
    returns (pat: real, patPoup: real, sal: real, filhoAtiva: bool, demissaoMeses: int)
    requires p.policy == Fixed(Get(p.escolhas, "investimento")) && res != resPoup
    requires s < res.Length0 == resPoup.Length0
    requires res.Length1 == resPoup.Length1 == |ev| + 1 && |rt| == |ev| && 1 <= m <= |ev|
    requires pat0 == Wealth(p, ev, rt, m - 1) && patPoup0 == Savings(p, ev, m - 1)
    requires sal0 == SalaryAt(p, ev, m - 1) && Status(filhoAtiva0, demissaoMeses0) == StatusAt(ev, m - 1)
    modifies res, resPoup
    ensures pat == Wealth(p, ev, rt, m) && patPoup == Savings(p, ev, m)
    ensures sal == SalaryAt(p, ev, m) && Status(filhoAtiva, demissaoMeses) == StatusAt(ev, m)
    ensures res[s, m] == pat && resPoup[s, m] == patPoup
    ensures forall i, j :: 0 <= i < res.Length0 && 0 <= j < res.Length1 && (i != s || j != m) ==>
              res[i, j] == old(res[i, j]) && resPoup[i, j] == old(resPoup[i, j])
  {
    pat, patPoup, sal, filhoAtiva, demissaoMeses :=
      TrialMonth(p, m, ev[m - 1], rt[m - 1], pat0, patPoup0, sal0, filhoAtiva0, demissaoMeses0);
    WealthStep(p, ev, rt, m);
    SavingsStep(p, ev, m);
    CareerStep(p, ev, m);
    res[s, m] := pat;
    resPoup[s, m] := patPoup;
  }

  /** One trial of `prever_patrimonio`: starting from the initial wealth,
      salary and an idle state, runs the months with trial s's drawn events
      and returns and writes row s of `res` and `resPoup` from column 1 on. */
  method RunTrial(p: Params, ev: seq<Evento>, rt: seq<real>, res: array2<real>, resPoup: array2<real>, s: nat)
    requires p.policy == Fixed(Get(p.escolhas, "investimento")) && res != resPoup
    requires s < res.Length0 == resPoup.Length0
    requires res.Length1 == resPoup.Length1 == |ev| + 1 && |rt| == |ev|
    requires res[s, 0] == p.patIni && resPoup[s, 0] == p.patIni
    modifies res, resPoup
    ensures forall j :: 0 <= j <= |ev| ==> res[s, j] == Wealth(p, ev, rt, j) && resPoup[s, j] == Savings(p, ev, j)
    ensures forall i, j :: 0 <= i < res.Length0 && i != s && 0 <= j < res.Length1 ==>
              res[i, j] == old(res[i, j]) && resPoup[i, j] == old(resPoup[i, j])
  {
    var pat := p.patIni;
    var patPoup := p.patIni;
    var sal := p.salIni;
    var filhoAtiva := false;
    var demissaoMeses := 0;
    for m := 1 to |ev| + 1
      invariant pat == Wealth(p, ev, rt, m - 1) && patPoup == Savings(p, ev, m - 1)
      invariant sal == SalaryAt(p, ev, m - 1) && Status(filhoAtiva, demissaoMeses) == StatusAt(ev, m - 1)
      invariant forall j {:trigger res[s, j]} :: 0 <= j < m ==> res[s, j] == Wealth(p, ev, rt, j)
      invariant forall j {:trigger resPoup[s, j]} :: 0 <= j < m ==> resPoup[s, j] == Savings(p, ev, j)
      invariant forall i, j :: 0 <= i < res.Length0 && i != s && 0 <= j < res.Length1 ==>
                  res[i, j] == old(res[i, j]) && resPoup[i, j] == old(resPoup[i, j])
    {
      pat, patPoup, sal, filhoAtiva, demissaoMeses :=
        RecordMonth(p, ev, rt, res, resPoup, s, m, pat, patPoup, sal, filhoAtiva, demissaoMeses);
    }
  }

  /** `prever_patrimonio`: Sim trials of `meses` months each. Row s of `res`
      is trial s's event-path wealth month by month and row s of `resPoup` its
      savings path; column 0 holds the initial wealth. */
  method PreverPatrimonio(patIni: real, salIni: real, escolhas: map<string, real>, meses: nat, rates: Rates,
                          eventos: seq<seq<Evento>>, retornos: seq<seq<real>>)
    returns (res: array2<real>, resPoup: array2<real>)
    requires |eventos| == Sim && |retornos| == Sim
    requires forall s :: 0 <= s < Sim ==> |eventos[s]| == meses && |retornos[s]| == meses
    ensures fresh(res) && fresh(resPoup)
    ensures res.Length0 == Sim && res.Length1 == meses + 1
    ensures resPoup.Length0 == Sim && resPoup.Length1 == meses + 1
    ensures forall s :: 0 <= s < Sim ==> res[s, 0] == patIni && resPoup[s, 0] == patIni
    ensures forall s, m :: 0 <= s < Sim && 0 <= m <= meses ==>
              res[s, m] == Wealth(ParamsOf(patIni, salIni, escolhas, rates), eventos[s], retornos[s], m)
    ensures forall s, m :: 0 <= s < Sim && 0 <= m <= meses ==>
              resPoup[s, m] == Savings(ParamsOf(patIni, salIni, escolhas, rates), eventos[s], m)
  {
    var p := ParamsOf(patIni, salIni, escolhas, rates);
    res := new real[Sim, meses + 1];
    resPoup := new real[Sim, meses + 1];
    for s := 0 to Sim
      invariant forall i :: 0 <= i < s ==> res[i, 0] == patIni && resPoup[i, 0] == patIni
    {
      res[s, 0] := patIni;
      resPoup[s, 0] := patIni;
    }

    for s := 0 to Sim
      invariant forall i :: s <= i < Sim ==> res[i, 0] == patIni && resPoup[i, 0] == patIni
      invariant forall i, j :: 0 <= i < s && 0 <= j <= meses ==>
                  res[i, j] == Wealth(p, eventos[i], retornos[i], j) && resPoup[i, j] == Savings(p, eventos[i], j)
    {
      RunTrial(p, eventos[s], retornos[s], res, resPoup, s);
    }
  }

  /** The body of the ideal path's month loop: the fixed amount capped at the
      surplus, then the annual raise and the return RETORNO / 12. */
  method IdealMonth(p: Params, m: nat, ret: real, pat0: real, sal0: real)
    returns (pat: real, sal: real)
    requires m >= 1 && p.policy == Fixed(Get(p.escolhas, "investimento"))
    ensures sal == Raise(p, sal0, m)
    ensures pat == Compound(pat0, ret) + IdealContribution(p.policy, Surplus(sal0, Gastos(p, false, m)))
  {
    var ano := (m - 1) / 12;
    assert ano == Ano(m);
    var infl := Pow(1.0 + p.inflacao, ano);
    var gastos := SumCategories(p.escolhas, Categorias) * infl;
    assert gastos == Gastos(p, false, m);
    var sobra := Max(sal0 - gastos, 0.0);
    var invest := Min(Get(p.escolhas, "investimento"), sobra);
    sal := sal0;
    if m % 12 == 1 && m > 1 {
      sal := sal * (1.0 + p.crescSalario);
    }
    pat := Compound(pat0, ret) + invest;
  }

  /** `prever_patrimonio_sem_eventos`: the ideal path month by month, with the
      fixed monthly return RETORNO / 12; entry 0 is the initial wealth. */
  method PreverPatrimonioSemEventos(patIni: real, salIni: real, escolhas: map<string, real>, meses: nat, rates: Rates)
    returns (res: array<real>)
    ensures fresh(res) && res.Length == meses + 1 && res[0] == patIni
    ensures forall m :: 0 <= m <= meses ==>
              res[m] == IdealPat(ParamsOf(patIni, salIni, escolhas, rates), rates.retorno / 12.0, m)
  {
    var p := ParamsOf(patIni, salIni, escolhas, rates);
    res := new real[meses + 1];
    var pat := patIni;
    var sal := salIni;
    res[0] := patIni;
    for m := 1 to meses + 1
      invariant pat == IdealPat(p, rates.retorno / 12.0, m - 1) && sal == IdealSal(p, m - 1)
      invariant forall j {:trigger res[j]} :: 0 <= j < m ==> res[j] == IdealPat(p, rates.retorno / 12.0, j)
    {
      var ret := rates.retorno / 12.0;
      pat, sal := IdealMonth(p, m, ret, pat, sal);
      IdealPatStep(p, ret, m);
      res[m] := pat;
    }
  }
}
