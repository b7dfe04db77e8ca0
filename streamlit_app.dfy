/**
 The Streamlit variant of the simulator: the contribution is a fraction
 `aporte_percentual` of the month's surplus, the market parameters are clamped
 once at start-up, and a short rule list suggests improvements.

 The random draws of `prever_patrimonio` are parameters: `eventos[s]` and
 `retornos[s]` are trial s's drawn events and monthly returns. The monthly
 savings rate `poup_mensal` is computed in the source with a fractional
 exponent and is a parameter here.
 */
module StreamlitApp {
  import opened Projection

  /** The number of trials of the event simulation. */
  const Sim: nat := 500

  const MaxRetorno: real := 0.20
  const MaxVolatilidade: real := 0.50

  /** The parameters of one run of the Streamlit projection. */
  function ParamsOf(patIni: real, salIni: real, escolhas: map<string, real>, aportePercentual: real,
                    rates: Rates, poupMensal: real): Params
  {
    Params(patIni, salIni, escolhas, rates.inflacao, rates.crescSalario, poupMensal, Fraction(aportePercentual))
  }

  /** The safety clamp applied to the start-up parameters: the yearly return is
      capped at 20% and the volatility at 50%; nothing else changes. */
  function Clamp(r: Rates): (c: Rates)
    ensures c.retorno <= MaxRetorno && c.volatilidade <= MaxVolatilidade
    ensures c.retorno == r.retorno || c.retorno == MaxRetorno
    ensures c.volatilidade == r.volatilidade || c.volatilidade == MaxVolatilidade
    ensures r.retorno <= MaxRetorno ==> c.retorno == r.retorno
    ensures r.volatilidade <= MaxVolatilidade ==> c.volatilidade == r.volatilidade
    ensures c.inflacao == r.inflacao && c.crescSalario == r.crescSalario && c.poupancaTaxa == r.poupancaTaxa
  {
    r.(retorno := Min(r.retorno, MaxRetorno), volatilidade := Min(r.volatilidade, MaxVolatilidade))
  }

  /** Clamping twice is clamping once. */
  lemma ClampIdempotent(r: Rates)
    ensures Clamp(Clamp(r)) == Clamp(r)
  {
  }

  const MsgGastos: string := "Reduza moradia ou lazer para < 50% do salário."
  const MsgSobra: string := "Aumente a sobra para pelo menos 30% do salário."
  const MsgInvestimento: string := "Invista pelo menos 50% da sobra."
  const MsgMoradia: string := "Morar com pais ou quitinete economiza R$1.000+/mês."
  const MsgCaminhoCerto: string := "Você já está no caminho certo!"

  predicate GastosAltos(gastos: real, salario: real) { gastos > salario * 0.7 }

  predicate SobraBaixa(sobra: real, salario: real) { sobra < salario * 0.3 }

  predicate InvestimentoBaixo(sobra: real, escolhas: map<string, real>)
  {
    "investimento" in escolhas && escolhas["investimento"] < sobra * 0.5
  }

  predicate MoradiaCara(escolhas: map<string, real>) { "moradia" in escolhas && escolhas["moradia"] > 1000.0 }

  /** `[m]` when the condition holds, `[]` otherwise: one conditional append. */
  function When(c: bool, m: string): seq<string>
  {
    if c then [m] else []
  }

  /** The position of a message in the rule list; the encouraging message comes last. */
  function Rank(msg: string): nat
  {
    if msg == MsgGastos then 0
    else if msg == MsgSobra then 1
    else if msg == MsgInvestimento then 2
    else if msg == MsgMoradia then 3
    else 4
  }

  /** The improvement suggestions: exactly the messages of the rules that
      fire, once each and in rule order, or the single encouraging message
      when none fires. */
  function SugerirOtimizacao(gastos: real, sobra: real, salario: real, escolhas: map<string, real>): (r: seq<string>)
    ensures |r| >= 1
    ensures forall i :: 0 <= i < |r| ==> r[i] in [MsgGastos, MsgSobra, MsgInvestimento, MsgMoradia, MsgCaminhoCerto]
    ensures forall i, j :: 0 <= i < j < |r| ==> Rank(r[i]) < Rank(r[j])
    ensures MsgGastos in r <==> GastosAltos(gastos, salario)
    ensures MsgSobra in r <==> SobraBaixa(sobra, salario)
    ensures MsgInvestimento in r <==> InvestimentoBaixo(sobra, escolhas)
    ensures MsgMoradia in r <==> MoradiaCara(escolhas)
    ensures MsgCaminhoCerto in r ==> r == [MsgCaminhoCerto]
    ensures r == [MsgCaminhoCerto]
        <==> !GastosAltos(gastos, salario) && !SobraBaixa(sobra, salario)
             && !InvestimentoBaixo(sobra, escolhas) && !MoradiaCara(escolhas)
  {
    var sugestoes := When(GastosAltos(gastos, salario), MsgGastos)
                   + When(SobraBaixa(sobra, salario), MsgSobra)
                   + When(InvestimentoBaixo(sobra, escolhas), MsgInvestimento)
                   + When(MoradiaCara(escolhas), MsgMoradia);
    if sugestoes == [] then [MsgCaminhoCerto] else sugestoes
  }

  /** For aporte_percentual >= 0 every month's contribution of the event path
      lies between 0 and that month's surplus max(sal - gastos, 0). */
  lemma ContributionBounds(patIni: real, salIni: real, escolhas: map<string, real>, aportePercentual: real,
                           rates: Rates, poupMensal: real, ev: seq<Evento>, k: nat)
    requires 1 <= k <= |ev| && aportePercentual >= 0.0
    ensures var p := ParamsOf(patIni, salIni, escolhas, aportePercentual, rates, poupMensal);
            0.0 <= Invest(p, SalaryAt(p, ev, k - 1), StatusAt(ev, k - 1), k)
                <= Max(SalaryAt(p, ev, k - 1) - Gastos(p, StatusAt(ev, k - 1).filhoAtiva, k), 0.0)
  {
    var p := ParamsOf(patIni, salIni, escolhas, aportePercentual, rates, poupMensal);
    ContributionWithinSurplus(p, SalaryAt(p, ev, k - 1), StatusAt(ev, k - 1), k);
  }

  /** The savings path of every trial never decreases, for a non-negative
      initial wealth, savings rate and aporte_percentual. */
  lemma SavingsPathNonDecreasing(patIni: real, salIni: real, escolhas: map<string, real>, aportePercentual: real,
                                 rates: Rates, poupMensal: real, ev: seq<Evento>, k: nat)
    requires k < |ev| && patIni >= 0.0 && poupMensal >= 0.0 && aportePercentual >= 0.0
    ensures var p := ParamsOf(patIni, salIni, escolhas, aportePercentual, rates, poupMensal);
            0.0 <= Savings(p, ev, k) <= Savings(p, ev, k + 1)
  {
    SavingsNonDecreasing(ParamsOf(patIni, salIni, escolhas, aportePercentual, rates, poupMensal), ev, k);
  }

  /** A trial with no event drawn and every return equal to `ret_mensal`
      follows `prever_patrimonio_sem_eventos` exactly, when 0 <= aporte <= 1
      (so that the uncapped ideal rule and the capped one agree). */
  lemma QuietTrialIsIdeal(patIni: real, salIni: real, escolhas: map<string, real>, aportePercentual: real,
                          rates: Rates, poupMensal: real, retMensal: real, ev: seq<Evento>, rt: seq<real>, k: nat)
    requires k <= |ev| && k <= |rt|
    requires forall i :: 0 <= i < k ==> ev[i] == Nenhum && rt[i] == retMensal
    requires patIni >= 0.0 && retMensal >= -1.0 && 0.0 <= aportePercentual <= 1.0
    ensures Wealth(ParamsOf(patIni, salIni, escolhas, aportePercentual, rates, poupMensal), ev, rt, k)
         == IdealPat(ParamsOf(patIni, salIni, escolhas, aportePercentual, rates, 0.0), retMensal, k)
  {
    var p := ParamsOf(patIni, salIni, escolhas, aportePercentual, rates, poupMensal);
    NoEventsMatchesIdeal(p, ev, rt, retMensal, k);
    IdealPatIgnoresSavingsRate(p, retMensal, 0.0, k);
  }

  /** Steps 1 to 4 of a month: the inflation multiplier, the inflated
      expenses with the child surcharge when the flag was already set, the
      surplus floored at zero, and the fraction of it invested, capped at it. */
  method MonthContribution(p: Params, m: nat, sal0: real, filhoAtiva0: bool) returns (invest: real)
    requires m >= 1 && p.policy.Fraction?
    ensures invest == Contribution(p.policy, Surplus(sal0, Gastos(p, filhoAtiva0, m)))
  {
    var ano := (m - 1) / 12;
    assert ano == Ano(m);
    var infl := Pow(1.0 + p.inflacao, ano);
    var gastos := SumCategories(p.escolhas, Categorias) * infl;
    if filhoAtiva0 {
      gastos := gastos + FilhoCusto * infl;
    }
    assert gastos == Gastos(p, filhoAtiva0, m);
    var sobra := Max(sal0 - gastos, 0.0);
    invest := Min(sobra * p.policy.aporte, sobra);
  }

  /** The body of the month loop of one trial: the contribution (from the
      state at the start of the month), the drawn event, the annual raise, the
      drawn return with the floor at zero, and the savings path. */
  method TrialMonth(p: Params, m: nat, evento: Evento, ret: real,
                    pat0: real, patPoup0: real, sal0: real, filhoAtiva0: bool, demissaoMeses0: int)
    returns (pat: real, patPoup: real, sal: real, filhoAtiva: bool, demissaoMeses: int)
    requires m >= 1 && p.policy.Fraction?
    ensures Status(filhoAtiva, demissaoMeses) == StatusEvent(Status(filhoAtiva0, demissaoMeses0), evento)
    ensures sal == SalaryMonth(p, sal0, Status(filhoAtiva0, demissaoMeses0), m, evento)
    ensures pat == WealthMonth(p, pat0, sal0, Status(filhoAtiva0, demissaoMeses0), m, evento, ret)
    ensures patPoup == Compound(patPoup0, p.poupMensal) + Invest(p, sal0, Status(filhoAtiva0, demissaoMeses0), m)
  {
    var invest := MonthContribution(p, m, sal0, filhoAtiva0);
    assert invest == Invest(p, sal0, Status(filhoAtiva0, demissaoMeses0), m);
    var ano := (m - 1) / 12;
    assert ano == Ano(m);
    pat, sal, filhoAtiva, demissaoMeses := ApplyEvento(p, ano, evento, pat0, sal0, filhoAtiva0, demissaoMeses0);
    if m % 12 == 1 && m > 1 {
      sal := sal * (1.0 + p.crescSalario);
    }
    pat := Max(Compound(pat, ret) + invest, 0.0);
    patPoup := Compound(patPoup0, p.poupMensal) + invest;
  }

  /** Month m of trial s: runs the month from the trial's state after m - 1
      months and writes column m of row s of both arrays. */
  method RecordMonth(p: Params, ev: seq<Evento>, rt: seq<real>, res: array2<real>, resPoup: array2<real>,
                     s: nat, m: nat, pat0: real, patPoup0: real, sal0: real, filhoAtiva0: bool, demissaoMeses0: int)
    returns (pat: real, patPoup: real, sal: real, filhoAtiva: bool, demissaoMeses: int)
    requires p.policy.Fraction? && res != resPoup
    requires s < res.Length0 == resPoup.Length0
    requires res.Length1 == resPoup.Length1 == |ev| + 1 && |rt| == |ev| && 1 <= m <= |ev|
    requires pat0 == Wealth(p, ev, rt, m - 1) && patPoup0 == Savings(p, ev, m - 1)
    requires sal0 == SalaryAt(p, ev, m - 1) && Status(filhoAtiva0, demissaoMeses0) == StatusAt(ev, m - 1)
    modifies res, resPoup
    ensures pat == Wealth(p, ev, rt, m) && patPoup == Savings(p, ev, m)
    ensures sal == SalaryAt(p, ev, m) && Status(filhoAtiva, demissaoMeses) == StatusAt(ev, m)
    ensures res[s, m] == pat && resPoup[s, m] == patPoup
    ensures forall i, j :: 0 <= i < res.Length0 && 0 <= j < res.Length1 && (i != s || j != m) ==>
              res[i, j] == old(res[i, j]) && resPoup[i, j] == old(resPoup[i, j])
  {
    pat, patPoup, sal, filhoAtiva, demissaoMeses :=
      TrialMonth(p, m, ev[m - 1], rt[m - 1], pat0, patPoup0, sal0, filhoAtiva0, demissaoMeses0);
    WealthStep(p, ev, rt, m);
    SavingsStep(p, ev, m);
    CareerStep(p, ev, m);
    res[s, m] := pat;
    resPoup[s, m] := patPoup;
  }

  /** One trial of `prever_patrimonio`: starting from the initial wealth,
      salary and an idle state, runs the months with trial s's drawn events
      and returns and writes row s of `res` and `resPoup` from column 1 on. */
  method RunTrial(p: Params, ev: seq<Evento>, rt: seq<real>, res: array2<real>, resPoup: array2<real>, s: nat)
    requires p.policy.Fraction? && res != resPoup
    requires s < res.Length0 == resPoup.Length0
    requires res.Length1 == resPoup.Length1 == |ev| + 1 && |rt| == |ev|
    requires res[s, 0] == p.patIni && resPoup[s, 0] == p.patIni
    modifies res, resPoup
    ensures forall j :: 0 <= j <= |ev| ==> res[s, j] == Wealth(p, ev, rt, j) && resPoup[s, j] == Savings(p, ev, j)
    ensures forall i, j :: 0 <= i < res.Length0 && i != s && 0 <= j < res.Length1 ==>
              res[i, j] == old(res[i, j]) && resPoup[i, j] == old(resPoup[i, j])
  {
    var pat := p.patIni;
    var patPoup := p.patIni;
    var sal := p.salIni;
    var filhoAtiva := false;
    var demissaoMeses := 0;
    for m := 1 to |ev| + 1
      invariant pat == Wealth(p, ev, rt, m - 1) && patPoup == Savings(p, ev, m - 1)
      invariant sal == SalaryAt(p, ev, m - 1) && Status(filhoAtiva, demissaoMeses) == StatusAt(ev, m - 1)
      invariant forall j {:trigger res[s, j]} :: 0 <= j < m ==> res[s, j] == Wealth(p, ev, rt, j)
      invariant forall j {:trigger resPoup[s, j]} :: 0 <= j < m ==> resPoup[s, j] == Savings(p, ev, j)
      invariant forall i, j :: 0 <= i < res.Length0 && i != s && 0 <= j < res.Length1 ==>
                  res[i, j] == old(res[i, j]) && resPoup[i, j] == old(resPoup[i, j])
    {
      pat, patPoup, sal, filhoAtiva, demissaoMeses :=
        RecordMonth(p, ev, rt, res, resPoup, s, m, pat, patPoup, sal, filhoAtiva, demissaoMeses);
    }
  }

  /** `prever_patrimonio`: Sim trials of `meses` months each. Row s of `res`
      is trial s's event-path wealth month by month and row s of `resPoup` its
      savings path; column 0 holds the initial wealth. */
  method PreverPatrimonio(patIni: real, salIni: real, escolhas: map<string, real>, meses: nat,
                          aportePercentual: real, rates: Rates, poupMensal: real,
                          eventos: seq<seq<Evento>>, retornos: seq<seq<real>>)
    returns (res: array2<real>, resPoup: array2<real>)
    requires |eventos| == Sim && |retornos| == Sim
    requires forall s :: 0 <= s < Sim ==> |eventos[s]| == meses && |retornos[s]| == meses
    ensures fresh(res) && fresh(resPoup)
    ensures res.Length0 == Sim && res.Length1 == meses + 1
    ensures resPoup.Length0 == Sim && resPoup.Length1 == meses + 1
    ensures forall s :: 0 <= s < Sim ==> res[s, 0] == patIni && resPoup[s, 0] == patIni
    ensures forall s, m :: 0 <= s < Sim && 0 <= m <= meses ==>
              res[s, m] == Wealth(ParamsOf(patIni, salIni, escolhas, aportePercentual, rates, poupMensal), eventos[s], retornos[s], m)
    ensures forall s, m :: 0 <= s < Sim && 0 <= m <= meses ==>
              resPoup[s, m] == Savings(ParamsOf(patIni, salIni, escolhas, aportePercentual, rates, poupMensal), eventos[s], m)
  {
    var p := ParamsOf(patIni, salIni, escolhas, aportePercentual, rates, poupMensal);
    res := new real[Sim, meses + 1];
    resPoup := new real[Sim, meses + 1];
    for s := 0 to Sim
      invariant forall i :: 0 <= i < s ==> res[i, 0] == patIni && resPoup[i, 0] == patIni
    {
      res[s, 0] := patIni;
      resPoup[s, 0] := patIni;
    }

    for s := 0 to Sim
      invariant forall i :: s <= i < Sim ==> res[i, 0] == patIni && resPoup[i, 0] == patIni
      invariant forall i, j :: 0 <= i < s && 0 <= j <= meses ==>
                  res[i, j] == Wealth(p, eventos[i], retornos[i], j) && resPoup[i, j] == Savings(p, eventos[i], j)
    {
      RunTrial(p, eventos[s], retornos[s], res, resPoup, s);
    }
  }

  /** The body of the ideal path's month loop: the contribution is the
      fraction of the surplus WITHOUT the cap, then the annual raise and the
      fixed monthly return. */
  method IdealMonth(p: Params, m: nat, retMensal: real, pat0: real, sal0: real)
    returns (pat: real, sal: real)
    requires m >= 1 && p.policy.Fraction?
    ensures sal == Raise(p, sal0, m)
    ensures pat == Compound(pat0, retMensal) + IdealContribution(p.policy, Surplus(sal0, Gastos(p, false, m)))
  {
    var ano := (m - 1) / 12;
    assert ano == Ano(m);
    var infl := Pow(1.0 + p.inflacao, ano);
    var gastos := SumCategories(p.escolhas, Categorias) * infl;
    assert gastos == Gastos(p, false, m);
    var sobra := Max(sal0 - gastos, 0.0);
    var invest := sobra * p.policy.aporte;
    sal := sal0;
    if m % 12 == 1 && m > 1 {
      sal := sal * (1.0 + p.crescSalario);
    }
    pat := Compound(pat0, retMensal) + invest;
  }

  /** `prever_patrimonio_sem_eventos`: the ideal path month by month, with the
      fixed monthly return `ret_mensal`; entry 0 is the initial wealth. */
  method PreverPatrimonioSemEventos(patIni: real, salIni: real, escolhas: map<string, real>, meses: nat,
                                    aportePercentual: real, rates: Rates, retMensal: real)
    returns (res: array<real>)
    ensures fresh(res) && res.Length == meses + 1 && res[0] == patIni
    ensures forall m :: 0 <= m <= meses ==>
              res[m] == IdealPat(ParamsOf(patIni, salIni, escolhas, aportePercentual, rates, 0.0), retMensal, m)
  {
    var p := ParamsOf(patIni, salIni, escolhas, aportePercentual, rates, 0.0);
    res := new real[meses + 1];
    var pat := patIni;
    var sal := salIni;
    res[0] := patIni;
    for m := 1 to meses + 1
      invariant pat == IdealPat(p, retMensal, m - 1) && sal == IdealSal(p, m - 1)
      invariant forall j {:trigger res[j]} :: 0 <= j < m ==> res[j] == IdealPat(p, retMensal, j)
    {
      pat, sal := IdealMonth(p, m, retMensal, pat, sal);
      IdealPatStep(p, retMensal, m);
      res[m] := pat;
    }
  }
}
