# Wealth projection: a verified model of the monthly simulation

The repository is a personal-finance simulator in two near-identical
variants, `Streamlit_app.py` and `app.py`. Each one projects a person's net
worth month by month along three trajectories:

- **Event path ("vida real").** `prever_patrimonio` runs 500 trials. In each
  month of a trial one life event is drawn (none, layoff, bonus, child,
  promotion) and one stochastic return.
- **Savings path ("poupança").** It is computed in the same loop. A fixed
  savings rate replaces the drawn return, and it receives the same
  contribution.
- **Ideal path.** `prever_patrimonio_sem_eventos` runs one deterministic
  trajectory with no events and a fixed monthly return.

This model covers the state machine of one month and the loops that record
it into result arrays. It also covers the safety clamp on the start-up
market parameters, the improvement suggestions of `Streamlit_app.py` and the
displayed contribution `invest_real` of `app.py`.

The project has three modules:

- `Projection` (`projection.dfy`) defines one trial as four recursive
  specification functions of its drawn events and returns:
  - `StatusAt`: the child flag and the layoff countdown;
  - `SalaryAt`: the salary;
  - `Wealth`: the event-path wealth;
  - `Savings`: the savings-path wealth.

  The ideal path is the pair `IdealSal` and `IdealPat`. The lemmas state what
  the program promises about these functions. The event chain shared by both
  files is the method `ApplyEvento`.
- `StreamlitApp` (`streamlit_app.dfy`) holds the `Streamlit_app.py` variant.
  The contribution is the fraction `aporte_percentual` of the surplus. Its
  methods fill a 500 × (meses+1) `array2` per result, and they are proved to
  compute exactly `Wealth` and `Savings` for every trial and month.
  `PreverPatrimonioSemEventos` fills an `array` that is proved to equal
  `IdealPat`.
- `App` (`app.dfy`) holds the `app.py` variant in the same way. The
  contribution is the fixed amount `escolhas['investimento']`, capped at the
  surplus. The savings rate is `POUPANCA_TAXA / 12` and the ideal return is
  `RETORNO / 12`.

Amounts are Dafny `real`s. `escolhas.get(k, 0)` is a map lookup that
defaults to 0. `(1 + x) ** ano` with an integer `ano` is the recursive `Pow`.
The module-level constants `INFLACAO`, `CRESC_SALARIO`, `RETORNO`,
`VOLATILIDADE` and `POUPANCA_TAXA` become a `Rates` parameter. The random
draws are parameters: `eventos[s]` and `retornos[s]` are trial s's events
and monthly returns.

Some behaviours of the code are easy to misread; the model follows the code:

- **Layoff recovery.** A layoff sets the countdown to 6, and the same month
  lowers it to 5. The salary therefore comes back at the end of the fifth
  month after the layoff month (`LayoffRecovery`).
- **Restoration and the annual raise.** Both can happen in the same month.
  The restoration formula already counts that month's year, and the restored
  salary then also gets that month's raise, so a recovery in months 13, 25,
  37, ... leaves the salary one raise above the ideal path
  (`RecoveryAgainstIdeal`).
- **Child flag.** It is set after the month's expenses are computed, so the
  surcharge starts the month after the child is drawn (`ChildSurcharge`).
- **Bonus.** It is paid only when the countdown is not positive after the
  layoff test; a bonus drawn during a countdown is lost.
- **Uncapped ideal contribution.** The ideal path of `Streamlit_app.py`
  invests `sobra * aporte_percentual` without the cap
  `min(·, sobra)` that its event path applies. `IdealContribution` models
  this, and the two agree only for `aporte_percentual <= 1`
  (`QuietTrialIsIdeal`).
- **No clamp in `app.py`.** Only `Streamlit_app.py` clamps the start-up
  return and volatility.

## Model

| member | source | states |
|---|---|---|
| Projection.BaseExpensesSum | Streamlit_app.py:62 | the uninflated expenses are the sum of the stored amounts of moradia, transporte, lazer and educacao, a missing category counting 0; they are non-negative when every stored amount is, and 0 when no category is stored |
| Projection.Surplus | Streamlit_app.py:64 | the surplus is non-negative and at least salary minus expenses; it is one of the two; it is exactly salary minus expenses when the salary covers them |
| Projection.Contribution | Streamlit_app.py:67 | the event-path contribution never exceeds the surplus; it is the requested amount or the surplus; it is the requested amount when that fits; it is non-negative for a non-negative policy and surplus |
| Projection.IdealContribution | Streamlit_app.py:103 | the fraction variant's ideal contribution is the uncapped `sobra * aporte`; it is non-negative for a non-negative policy; it equals the capped contribution when aporte <= 1 and always for the fixed amount |
| Projection.ApplyEvento | Streamlit_app.py:69-77 | the if / if / elif chain yields the new child flag and countdown, the new salary (halved, restored or raised 20%) and the wealth plus the bonus, exactly as the month's specification functions give them |
| Projection.LayoffStarts | Streamlit_app.py:70-73 | with no countdown running, a drawn layoff halves the salary before the annual raise, leaves countdown 5, keeps the child flag and pays no bonus |
| Projection.CountdownSuppressesEvents | Streamlit_app.py:72-77 | while a countdown runs, any drawn event, a second layoff included, has the same effect as no event, and no bonus is paid |
| Projection.CountdownMonth | Streamlit_app.py:72-74 | a month with a running countdown lowers it by one; the salary is only raised, except when the countdown reaches zero, when it is first restored to sal_ini * (1 + CRESC_SALARIO) ** ano |
| Projection.IdleMonthEvents | Streamlit_app.py:75-77 | with no countdown running, a bonus adds 5000 and keeps the salary and flags; a child sets the flag, keeps the salary and pays no bonus; a promotion multiplies the salary by 1.2, keeps the flags and pays no bonus; no event but a layoff starts a countdown |
| Projection.QuietMonth | Streamlit_app.py:69-79 | a month with no countdown and no event keeps the flags, pays no bonus and changes the salary by the annual raise only |
| Projection.ContributionWithinSurplus | Streamlit_app.py:64-67 | every month's contribution lies between 0 and max(sal - gastos, 0) for a non-negative policy |
| Projection.IdealInvestWithinSurplus | app.py:130-131 | the ideal-path contribution lies between 0 and the ideal month's surplus when the policy is non-negative and cannot exceed the surplus |
| Projection.GastosWithChild | Streamlit_app.py:60-63 | a month's expenses are the four categories times (1 + INFLACAO) ** ano, plus 800 times the same factor when the child flag is set |
| Projection.AnnualRaise | Streamlit_app.py:79 | the raise multiplies the salary by (1 + CRESC_SALARIO) in months 13, 25, 37, ... and leaves it alone otherwise; a non-zero salary with a non-zero rate changes exactly in those months |
| Projection.CountdownBounded | Streamlit_app.py:70-74 | at the end of every month the countdown lies in 0..5 |
| Projection.WealthNonNegative | Streamlit_app.py:82 | event-path wealth is never negative after month 0, whatever returns were drawn |
| Projection.ChildPersists | Streamlit_app.py:76 | once the child flag is set it stays set for the rest of the trial |
| Projection.ChildSurcharge | Streamlit_app.py:63-76 | a child drawn without a countdown sets the flag; that month's expenses carry the surcharge only if it was already set; every later month's expenses include 800 * infl |
| Projection.CountdownRuns | Streamlit_app.py:72-73 | a countdown c > 0 runs down c-1 .. 1 over the next months and reaches 0 exactly c months later |
| Projection.LayoffRecovery | Streamlit_app.py:70-79 | a layoff in month k halves the salary and pays no bonus; months k..k+4 end with countdown 5..1; month k+5 ends with countdown 0 and the salary restored to sal_ini * (1 + CRESC_SALARIO) ** ano(k+5) and then raised, whatever promotions came before |
| Projection.SavingsMonthGrows | Streamlit_app.py:83 | one savings-path month never lowers a non-negative balance with a non-negative rate and policy |
| Projection.SavingsNonDecreasing | Streamlit_app.py:83 | for pat_ini >= 0, a monthly savings rate >= 0 and a policy asking for a non-negative amount, the savings path is non-negative and never decreases, whatever events are drawn |
| Projection.IdealSalary | Streamlit_app.py:105 | after k months the ideal-path salary is sal_ini * (1 + CRESC_SALARIO) ** ano(k), the formula a layoff's end restores before that month's raise |
| Projection.RecoveryAgainstIdeal | Streamlit_app.py:74-79 | the salary at a layoff's end is the ideal-path salary of that month with the month's raise applied once more: equal to the ideal path in a non-raise month, one raise (1 + CRESC_SALARIO) above it in a raise month |
| Projection.NoEventsCareer | Streamlit_app.py:69-79 | a trial with no event never sets the child flag or starts a countdown, and its salary is the ideal-path salary |
| Projection.NoEventsMatchesIdeal | Streamlit_app.py:59-107 | for pat_ini >= 0, an ideal monthly return >= -1 and a policy that asks for a non-negative amount and (for the fraction) at most the whole surplus, a trial with no event and every return equal to the ideal return has exactly the ideal-path wealth, which is non-negative |
| StreamlitApp.Clamp | Streamlit_app.py:157-158 | the return is capped at 0.20 and the volatility at 0.50; each is either kept or replaced by its cap, and kept when under it; the other three rates are unchanged |
| StreamlitApp.ClampIdempotent | Streamlit_app.py:157-158 | clamping twice is clamping once |
| StreamlitApp.SugerirOtimizacao | Streamlit_app.py:125-135 | the list holds exactly the messages of the rules that fire, once each and in rule order: at least one message, every one of the five, ranks strictly increasing, each suggestion present if and only if its rule fires; the encouraging message appears only alone, and the list is that message if and only if no rule fires |
| StreamlitApp.ContributionBounds | Streamlit_app.py:64-67 | for aporte_percentual >= 0 every month's contribution in every trial lies between 0 and that month's surplus |
| StreamlitApp.SavingsPathNonDecreasing | Streamlit_app.py:83 | for non-negative initial wealth, savings rate and aporte, every trial's savings path is non-negative and never decreases |
| StreamlitApp.QuietTrialIsIdeal | Streamlit_app.py:90-107 | with pat_ini >= 0, ret_mensal >= -1 and 0 <= aporte <= 1, a trial with no event and every return equal to ret_mensal follows `prever_patrimonio_sem_eventos` exactly |
| StreamlitApp.MonthContribution | Streamlit_app.py:60-67 | the computed investment is the capped fraction of the surplus of the month's inflated expenses |
| StreamlitApp.TrialMonth | Streamlit_app.py:59-83 | one month of a trial yields the next flag, countdown, salary, event-path wealth and savings-path wealth, as the specification functions give them |
| StreamlitApp.RecordMonth | Streamlit_app.py:59-86 | from the state after month m-1, the loop body gives the state after month m and writes it into cell [s, m] of both arrays, changing no other cell |
| StreamlitApp.RunTrial | Streamlit_app.py:51-86 | trial s fills row s with Wealth and Savings of its draws for every month and leaves every other row unchanged |
| StreamlitApp.PreverPatrimonio | Streamlit_app.py:41-88 | returns two fresh 500 × (meses+1) arrays; column 0 holds pat_ini, and every cell [s, m] is Wealth and Savings of trial s after m months |
| StreamlitApp.IdealMonth | Streamlit_app.py:98-106 | one ideal month raises the salary and sets the wealth to its compounded value plus the uncapped contribution |
| StreamlitApp.PreverPatrimonioSemEventos | Streamlit_app.py:90-109 | returns a fresh array of meses+1 values whose entry m is the ideal-path wealth after m months, with pat_ini at 0 |
| App.InvestReal | app.py:153 | the displayed contribution never exceeds max(sobra, 0); it is non-negative for a non-negative amount; it is the amount or max(sobra, 0); it is the amount whenever that fits |
| App.InvestRealIsContribution | app.py:151-153 | the displayed contribution is the one the simulation makes in a month with that salary and those expenses |
| App.StoredInvestmentNonNegative | app.py:165-171 | with the stored `investimento` equal to invest_real of a non-negative slider value, the simulated policy never asks for a negative amount |
| App.ContributionBounds | app.py:95-96 | for investimento >= 0, every month's contribution on the event path and on the ideal path lies between 0 and that month's surplus |
| App.SavingsPathNonDecreasing | app.py:114 | for non-negative initial wealth, POUPANCA_TAXA and investimento, every trial's savings path is non-negative and never decreases |
| App.QuietTrialIsIdeal | app.py:120-136 | with pat_ini >= 0, RETORNO >= -12 (a monthly return >= -1) and investimento >= 0, a trial with no event and every return equal to RETORNO / 12 follows `prever_patrimonio_sem_eventos` exactly |
| App.MonthContribution | app.py:91-96 | the computed investment is the fixed amount capped at the surplus of the month's inflated expenses |
| App.TrialMonth | app.py:90-115 | one month of a trial yields the next flag, countdown, salary, event-path wealth and savings-path wealth, as the specification functions give them |
| App.RecordMonth | app.py:90-115 | from the state after month m-1, the loop body gives the state after month m and writes it into cell [s, m] of both arrays, changing no other cell |
| App.RunTrial | app.py:82-115 | trial s fills row s with Wealth and Savings of its draws for every month and leaves every other row unchanged |
| App.PreverPatrimonio | app.py:75-117 | returns two fresh 500 × (meses+1) arrays; column 0 holds pat_ini, and every cell [s, m] is Wealth and Savings of trial s after m months |
| App.IdealMonth | app.py:126-136 | one ideal month raises the salary and sets the wealth to its value compounded at RETORNO / 12 plus the capped contribution |
| App.PreverPatrimonioSemEventos | app.py:120-138 | returns a fresh array of meses+1 values whose entry m is the ideal-path wealth after m months at RETORNO / 12, with pat_ini at 0 |

## Left out

- `get_dados_reais` fetches the market indicators over HTTP, with fallback values. This is I/O, so the five rates are a parameter.
- The `Streamlit_app.py` monthly rates `(1 + RETORNO) ** (1/12) - 1` and `(1 + POUPANCA_TAXA) ** (1/12) - 1` use fractional exponents, which have no exact real arithmetic here. They are given as parameters (`retMensal`, `poupMensal`).
- The volatility `VOLATILIDADE / sqrt(12)` is left out. It only parameterises the random draws.
- `np.random.choice` and `np.random.normal` are randomness. The drawn events and returns are parameters, so the 0.90/0.03/0.03/0.02/0.02 probabilities and the normal distribution are not modelled.
- The pandas median and 10th/90th percentile aggregation over the trials is left out. These are library calls on floating-point data.
- The result arrays are modelled with exact reals. Floating-point rounding is not modelled.
- `gerar_tabela_anual`, `gerar_pdf`, the CSV export, the charts and the page layout are presentation, so they are left out.
- The session state and the widgets are left out. Only the step where the button stores `invest_real` as `escolhas['investimento']` is stated, as `App.StoredInvestmentNonNegative`.
- The default `aporte_percentual=0.3` of both Streamlit projections is not modelled: the fraction is always an explicit argument, and both call sites pass 0.3.
- StreamlitApp.SugerirOtimizacao: the source compares ints and floats loosely. The model compares reals, and `escolhas` entries are reals.
