# HogarFin loan simulator — a verified model

HogarFin is a Next.js application in which a real-estate advisor registers
clients and properties and simulates a mortgage under the Peruvian
"Fondo MiVivienda" style rules. The user picks a client, a property, a lender
and a rate, and may add grace months and fees. The simulator then:

- builds the French amortization schedule;
- computes the cash-flow indicators (VAN, TIR and TCEA);
- stores the simulation;
- exports it as CSV or printable HTML.

This project models the logic under those pages in Dafny and proves what the
pages promise about it:

- **Finance**: the amortization engine of the simulator. It covers the TNA→TEA
  step, the annuity payment, the discounted VAN, the TIR bisection and the
  three-phase schedule.
- **LegacySimulate**: the older copy of the engine on the first simulate page,
  modelled as written, with its own conventions.
- **DashboardSimulate**: the orchestration of a simulation. It covers the
  ordered validation, how the principal and the monthly fees are composed, the
  annualized TIR, the first regular payment, the persisted grace fields and the
  stored schedule rows, and the page state `runSimulation` leaves behind.
- **Exports**: the CSV line builder and the HTML `<tr>` builder.
- **SimulationHistory**: the history page. It covers the stored-row decoder,
  the expand/cache toggle, deleting, the search filter, the collapsed view and
  the detail CSV.
- **PropertyModal**, **ClientModal**, **LegacyProperties**, **Register**,
  **Settings** and **Login**: the form helpers and validators. Each validator
  is an early-return chain, so the first failing check decides the message.
- **ClientsPage**, **PropertiesPage**, **Middleware** and **Sidebar**: the
  list filters, the delete dialogs, the route guard and the navigation
  highlighting.
- **Wrappers**, **Numbers**, **Bisection**, **Strings** and **Lists**: shared
  helpers.
  - Wrappers holds Option.
  - Numbers holds integer powers of reals and Bernoulli's inequality.
  - Bisection is a generic halving search with its bracket invariant.
  - Strings models JavaScript trim, Latin-1 case mapping, `includes`,
    `split`/`join` and integer printing.
  - Lists holds `filter` and subsequences.

The model's conventions:

- **Numbers and parsing.** Amounts are exact `real`s. `Number(text)` is a
  parameter `num: string -> Option<real>`, where None stands for NaN or a
  non-finite value.
- **Display formatting.** The `n2`, `fmtP`, `fmtPs` and date formatters are
  function parameters.
- **Storage and external lookups.** Everything read from or written to storage
  is a parameter of the method that uses it, or a field the method updates.
  This covers the exchange-rate lookup, whether a plan was found, the insert
  outcome, the fetched rows and the delete outcome.
- **Page state.** A page's state is a class with `modifies` on its handlers.

## Model

| member | source | states |
|---|---|---|
| Finance.TeaFromTnaYearly | app/dashboard/simulate/_utils/finance.ts:3-7 | with one capitalization per year the TEA equals the nominal rate |
| Finance.TeaAtLeastTna | app/dashboard/simulate/_utils/finance.ts:5 | compounding (1+TNA/m)^m − 1 never yields less than the nominal rate |
| Finance.CalcCuotaRepaysPrincipal | app/dashboard/simulate/_utils/finance.ts:9-13 | for n ≥ 1 the n payments of `calcCuota`, discounted at i, sum exactly to the principal (both the i = 0 branch p/n and the annuity branch) |
| Finance.CuotaZeroRate | app/dashboard/simulate/_utils/finance.ts:11 | at rate 0 the payment times n is the principal |
| Finance.CuotaNonZeroRate | app/dashboard/simulate/_utils/finance.ts:12 | for i ≠ 0 the annuity payment times the discount-factor sum is the principal |
| Finance.DiscountFactorSumClosedForm | app/dashboard/simulate/_utils/finance.ts:12 | i·Σ_{t=1..n}(1+i)^−t = 1 − (1+i)^−n, the identity behind the annuity formula |
| Finance.VanAtZeroRate | app/dashboard/simulate/_utils/finance.ts:15-17 | at cokM = 0 the VAN is principal + Σ cfs |
| Finance.DiscountedSumAtZero | app/dashboard/simulate/_utils/finance.ts:16 | undiscounted fold equals the plain sum |
| Finance.DiscountedConstant | app/dashboard/simulate/_utils/finance.ts:16 | discounting n equal flows gives flow × discount-factor sum |
| Finance.VanAtOwnRateIsZero | app/dashboard/simulate/_utils/finance.ts:9-17 | the loan's own payments, negated, have VAN 0 at the loan rate |
| Finance.NegatedFlowsCancel | app/dashboard/simulate/_utils/finance.ts:15-17 | flows whose discounted sum is the principal, negated, give VAN 0 |
| Finance.DiscountedNegated | app/dashboard/simulate/_utils/finance.ts:15-17 | discounting n copies of −c gives minus the value of n copies of c |
| Finance.CalcTIR | app/dashboard/simulate/_utils/finance.ts:19-33 | the loop returns the bisection result; −1 exactly when f(1e−6)·f(1) > 0, otherwise a value in [1e−6, 1] |
| Finance.TirInBracket | app/dashboard/simulate/_utils/finance.ts:19-33 | the same sign/range facts about the bisection function itself |
| Finance.GenerateSchedule | app/dashboard/simulate/_utils/finance.ts:35-118 | the rows form a schedule: length gT+gP+max(0,n−gT−gP), period k+1, isGrace exactly on the first gT+gP rows, billing identities, the row shape of each phase |
| Finance.TotalGracePhase | app/dashboard/simulate/_utils/finance.ts:49-68 | gT rows of capitalizing grace; the balance left is principal·(1+tem)^gT |
| Finance.PartialGracePhase | app/dashboard/simulate/_utils/finance.ts:70-88 | gP interest-only rows appended; balance stays at the post-total-grace value |
| Finance.AmortizingPhase | app/dashboard/simulate/_utils/finance.ts:90-115 | the amortizing rows appended with the shared cuota, up to the schedule length |
| Finance.AppendFits | app/dashboard/simulate/_utils/finance.ts:49-115 | appending a row that fits keeps every row fitting |
| Finance.AmortizingRowFits | app/dashboard/simulate/_utils/finance.ts:93-115 | a row built from the previous balance by the amortizing rule fits the schedule |
| Finance.CapitalizeStep | app/dashboard/simulate/_utils/finance.ts:56-57 | capitalizing interest once multiplies the balance by (1+tem) |
| Finance.ScheduleLengthCases | app/dashboard/simulate/_utils/finance.ts:90-93 | the row count is n when grace fits in the term, gT+gP otherwise |
| Finance.AmortizingBalancesShrink | app/dashboard/simulate/_utils/finance.ts:93-115 | amortizing balances stay ≥ 0 and never increase |
| Finance.TotalGraceBalances | app/dashboard/simulate/_utils/finance.ts:49-68 | after the k-th total-grace row the balance is principal·(1+tem)^k and the base payment is 0 |
| Finance.CuotaNonNegative | app/dashboard/simulate/_utils/finance.ts:9-13 | a principal ≥ 0 gives a payment ≥ 0 whose n discounted payments are exactly the principal |
| Finance.AmortizingRun | app/dashboard/simulate/_utils/finance.ts:90-115 | before the k-th amortizing month the balance is cuota·Σ_{t=1..n−k}(1+tem)^−t, and the amortization so far is the post-grace balance minus that |
| Finance.ScheduleRepays | app/dashboard/simulate/_utils/finance.ts:35-118 | when the grace leaves months to amortize: the last balance is 0, each amortizing row's amortization plus interest is its base payment, and the amortizations add up to the post-grace balance |
| Finance.PhaseCuotaRepaysPostGraceBalance | app/dashboard/simulate/_utils/finance.ts:90-91 | the shared cuota repays the post-grace balance over max(1, n−gT−gP) months |
| Bisection.BisectInRange | app/dashboard/simulate/_utils/finance.ts:24-32 | every halving result stays inside the bracket |
| Bisection.BisectBracketsARoot | app/dashboard/simulate/_utils/finance.ts:24-32 | while the endpoint values have opposite signs (or one is 0) the bracket keeps a sign change and halves in width |
| Bisection.BracketWidth | app/dashboard/simulate/_utils/finance.ts:24-32 | after k halvings the width is (b−a)/2^k |
| Bisection.SignTests | app/dashboard/simulate/_utils/finance.ts:25-30 | the sign predicates the model reasons with are exactly the source's product tests `< 0` and `> 0` |
| Bisection.BracketKeepsSignChange | app/dashboard/simulate/_utils/finance.ts:27-32 | when f(a) ≠ 0 and the endpoint values are not of one strict sign, the final bracket keeps that property |
| LegacySimulate.PaymentFrenchRepays | app/simulate/page.tsx:50-54 | 0 for n ≤ 0; otherwise n payments discounted at r sum to the balance |
| LegacySimulate.PaymentFrenchZeroRate | app/simulate/page.tsx:52 | at rate 0 the payment is balance/n |
| LegacySimulate.NpvAtRate | app/simulate/page.tsx:94-100 | the loop computes Σ cfs[t]/(1+rate)^t, so index 0 is undiscounted |
| LegacySimulate.NpvOfLoan | app/simulate/page.tsx:94-100 | NPV of [principal]++flows equals the current engine's VAN of the flows (t vs t+1 conventions reconciled only in this lemma) |
| LegacySimulate.IrrMonthly | app/simulate/page.tsx:56-92 | the loop returns the specified IRR outcome |
| LegacySimulate.IrrOutcome | app/simulate/page.tsx:67-91 | null exactly when both endpoint NPVs are non-zero with a positive product; lo (first) or hi when its NPV is 0; any value found lies in [−0.9, 2.0] |
| LegacySimulate.TirAnnualBounds | app/simulate/page.tsx:307-309 | (1+irr)^12 − 1 is defined, ≥ 12·irr and ≥ −1 |
| LegacySimulate.BuildSchedule | app/simulate/page.tsx:243-299 | n rows numbered 1..n: g grace rows by grace type, then regular rows paying paymentFrench(post-grace balance, r, n−g) |
| LegacySimulate.GraceMonths | app/simulate/page.tsx:247-278 | g grace rows; balance left is the grace balance of the type |
| LegacySimulate.RegularMonths | app/simulate/page.tsx:284-299 | regular rows appended up to n |
| LegacySimulate.TotalGraceCapitalizes | app/simulate/page.tsx:247-262 | TOTAL grace rows pay 0 and leave principal·(1+r)^(k+1) |
| LegacySimulate.GraceRowAt | app/simulate/page.tsx:247-278 | each of the first g rows follows the grace-type rule (TOTAL capitalizes, PARTIAL pays interest, NONE all zero) |
| LegacySimulate.RegularRun | app/simulate/page.tsx:281-299 | before the k-th regular month the balance is payment·Σ_{t=1..n−k}(1+r)^−t, and the amortization so far is the grace balance minus that |
| LegacySimulate.LegacyScheduleRepays | app/simulate/page.tsx:243-299 | when g < n: the last balance is 0, each regular row's amortization plus interest is its payment, and the amortizations add up to the grace balance |
| LegacySimulate.FullGraceHasNoRegularRows | app/simulate/page.tsx:281-299 | when g = n every row is a grace row |
| LegacySimulate.Cashflows | app/simulate/page.tsx:304 | n+1 flows: +principal, then minus each payment |
| LegacySimulate.Validate | app/simulate/page.tsx:221-237 | each message iff every earlier check passed and its own failed, in the order client, property, plan, n ∉ (0,480], g ∉ [0,n], bonus < 0, principal ≤ 0 |
| LegacySimulate.LegacySimulatePage.BuildScheduleAndIndicators | app/simulate/page.tsx:217-323 | a rejected form sets the message and no preview; an accepted one sets the preview built from the schedule and indicators |
| DashboardSimulate.FindProperty | app/dashboard/simulate/page.tsx:194 | finds a property with the id iff one exists |
| DashboardSimulate.Validate | app/dashboard/simulate/page.tsx:178-198 | each message iff every earlier check passed and its own failed: client, property, entity, rate text, lookup, rate > 0, COK > 0, gT+gP < 12·years |
| DashboardSimulate.GraceRejectedLast | app/dashboard/simulate/page.tsx:196-198 | the grace message implies all earlier checks passed |
| DashboardSimulate.FxRate | app/dashboard/simulate/page.tsx:202-218 | the looked-up rate when present and non-zero, 3.75 otherwise |
| DashboardSimulate.ComposeAmounts | app/dashboard/simulate/page.tsx:202-245 | USD amounts scaled by the fx rate; bonus only with applyBono; principal = price − initial − bonus + upfront costs; fees = portes + periodic commission + admin costs |
| DashboardSimulate.UsdPrincipal | app/dashboard/simulate/page.tsx:239-245 | for USD: principal = fx·(price − initial − bonus) + costs |
| DashboardSimulate.PenPrincipalIgnoresFx | app/dashboard/simulate/page.tsx:202-245 | for PEN the exchange rate has no effect |
| DashboardSimulate.AnnualizeTir | app/dashboard/simulate/page.tsx:262-265 | (1+tirM)^12 − 1 for tirM > 0 (positive and ≥ 12·tirM), −1 otherwise |
| DashboardSimulate.FirstRegular | app/dashboard/simulate/page.tsx:273 | index of the first non-grace row, all earlier rows grace, or −1 if none |
| DashboardSimulate.MonthlyPaymentIsPhaseCuota | app/dashboard/simulate/page.tsx:273 | on a generated schedule the monthly payment is the shared cuota, or 0 when the grace fills the term |
| DashboardSimulate.GraceRecordRoundTrip | app/dashboard/simulate/page.tsx:339-340 | grace_type/grace_months recover (gT, gP) iff at most one of them is positive |
| DashboardSimulate.NullUnlessPositive | app/dashboard/simulate/page.tsx:341-345 | stored as null iff ≤ 0 |
| DashboardSimulate.StoredTirPresentIffPositive | app/dashboard/simulate/page.tsx:262-265 | the stored annual TIR is present iff the monthly TIR is positive |
| DashboardSimulate.EncodeRow | app/dashboard/simulate/page.tsx:356-372 | the schedule_rows record copies every field of the row: period, payment, base payment, interest, amortization, balance, the three charges, total payment, cash flow and the grace flag |
| DashboardSimulate.ClampTermYears | app/dashboard/simulate/page.tsx:533-536 | term in [5,25], kept when in range, 5 for 0 or unparsable, 25 above 25, 5 for a non-zero value below 5 |
| DashboardSimulate.ClampGrace | app/dashboard/simulate/page.tsx:629-632 | grace months ≥ 0, kept when ≥ 0 |
| DashboardSimulate.ClampsIdempotent | app/dashboard/simulate/page.tsx:533-536 | clamping twice is clamping once |
| DashboardSimulate.Cashflows | app/dashboard/simulate/page.tsx:259 | one flow per row, the row's cashflow |
| DashboardSimulate.InsertOf | app/dashboard/simulate/page.tsx:324-372 | the stored record: grace fields, tcea/tir null unless positive; schedule rows only when the simulation insert returned a record, then one encoded row per schedule row in order |
| DashboardSimulate.SimulatePage.Simulate | app/dashboard/simulate/page.tsx:247-295 | the results are the generated schedule, its TIR, annualized TIR as TCEA, VAN, first regular payment and the form's rate, currency and exchange rate |
| DashboardSimulate.SimulatePage.RunSimulation | app/dashboard/simulate/page.tsx:172-373 | a rejected check sets that error and no result; a principal ≤ 0 sets its own error; otherwise the results are the engine's schedule, TIR, VAN and payment, the record is inserted only when a rate plan was found, and the rows are sent and `saved` set only when that insert returned a record |
| Exports.DataCells | app/dashboard/simulate/_utils/exports.ts:27-38 | 10 cells in header order: the period, "GRACIA" iff grace and "NORMAL" otherwise, then n2 of interest, amortization, base payment, desgravamen, property insurance, monthly fees, balance and cash flow |
| Exports.ExcelLines | app/dashboard/simulate/_utils/exports.ts:12-38 | 14 + rows lines: title, blank, info rows (TCEA and TIR "N/D" when ≤ 0), blank, header, then each row's cells in order |
| Exports.LineTexts | app/dashboard/simulate/_utils/exports.ts:41 | each line's cells joined by ";" |
| Exports.Csv | app/dashboard/simulate/_utils/exports.ts:41-42 | the BOM, then the lines joined by "\n" with no quoting |
| Exports.CsvReadsBack | app/dashboard/simulate/_utils/exports.ts:41-42 | when no cell holds ';' or '\n', splitting the text recovers every line and cell |
| Exports.SemicolonInClientSplitsCell | app/dashboard/simulate/_utils/exports.ts:14-41 | for any a and b without ';', the client name a;b splits into the cells a and b, since nothing is escaped |
| Exports.SplitClientLine | app/dashboard/simulate/_utils/exports.ts:41 | a two-cell line whose second cell holds one separator splits into three cells |
| Exports.SplitThree | app/dashboard/simulate/_utils/exports.ts:41 | splitting a+sep+b+sep+c gives [a,b,c] |
| Exports.PdfRowMarksGrace | app/dashboard/simulate/_utils/exports.ts:63-71 | a row opens with class "grace" iff it is a grace row; grace rows show the G badge after the period |
| Exports.PdfRowsAppend | app/dashboard/simulate/_utils/exports.ts:61-74 | the rows text of a concatenation is the concatenation of the texts |
| Exports.PdfRowsInOrder | app/dashboard/simulate/_utils/exports.ts:61-74 | each schedule row's `<tr>` appears in place, between the earlier and later rows |
| SimulationHistory.DecodeRow | app/dashboard/simulate/history/page.tsx:87-99 | period, balance, interest and amortization are copied from the stored row |
| SimulationHistory.DecodeEncode | app/dashboard/simulate/history/page.tsx:87-99 | decoding a stored row gives back the row that was stored |
| SimulationHistory.DecodeOlderRow | app/dashboard/simulate/history/page.tsx:87-99 | a row without the newer columns decodes as a regular row: base and total payment = payment, cashflow = −payment, other charges 0, and the total still adds up |
| SimulationHistory.DecodeRows | app/dashboard/simulate/history/page.tsx:87-99 | one decoded row per stored row, in order |
| SimulationHistory.Toggle | app/dashboard/simulate/history/page.tsx:75-78 | closes iff that simulation was open, and otherwise opens exactly that simulation |
| SimulationHistory.ToggleTwice | app/dashboard/simulate/history/page.tsx:75-78 | toggling twice restores the state iff nothing or that simulation was open |
| SimulationHistory.RemoveSimulationExactly | app/dashboard/simulate/history/page.tsx:111 | no simulation with the id is left, every other is kept with its multiplicity, in order |
| SimulationHistory.EmptySearchKeepsLinked | app/dashboard/simulate/history/page.tsx:148-157 | the empty search keeps exactly simulations with some non-null relation |
| SimulationHistory.SearchIgnoresCase | app/dashboard/simulate/history/page.tsx:149 | only the lowercased search matters |
| SimulationHistory.SearchNarrows | app/dashboard/simulate/history/page.tsx:148-157 | a match for a longer search is a match for any search it contains |
| SimulationHistory.FilterSimulationsInOrder | app/dashboard/simulate/history/page.tsx:150 | the result is a subsequence of the list and every kept simulation matches |
| SimulationHistory.VisibleRows | app/dashboard/simulate/history/page.tsx:354 | collapsed shows the first min(6, len) rows, expanded all |
| SimulationHistory.HiddenCount | app/dashboard/simulate/history/page.tsx:355-358 | the "y k periodos más" note appears iff collapsed and len > 6 |
| SimulationHistory.CollapsedViewAccountsForAll | app/dashboard/simulate/history/page.tsx:354-358 | shown rows plus the noted count is the row count |
| SimulationHistory.DetailLines | app/dashboard/simulate/history/page.tsx:118-139 | 14 + rows lines; TCEA/TIR "N/D" when falsy, VAN "N/D" only when null; data rows via DataCells |
| SimulationHistory.ZeroTceaHiddenZeroVanShown | app/dashboard/simulate/history/page.tsx:128-129 | a zero TCEA prints "N/D" while a zero VAN prints its amount |
| SimulationHistory.HistoryPage.LoadDetail | app/dashboard/simulate/history/page.tsx:74-104 | cached: toggle only; uncached: store the decoded rows and open it |
| SimulationHistory.HistoryPage.DeleteSim | app/dashboard/simulate/history/page.tsx:106-114 | confirmed: remove that id, clear expanded only if it was that id; unconfirmed: nothing changes |
| PropertyModal.SanitizeMatchesSpec | app/dashboard/properties/_components/PropertyModal.tsx:29-34 | the sanitizer equals: digits before the first '.', then '.' and the first 10 digits after it |
| PropertyModal.SanitizeShape | app/dashboard/properties/_components/PropertyModal.tsx:29-34 | output has only digits and at most one '.', the integer part being the digits typed before the first '.' |
| PropertyModal.SanitizeIdempotent | app/dashboard/properties/_components/PropertyModal.tsx:29-34 | sanitizing twice is sanitizing once |
| PropertyModal.JoinSplitRemoves | app/dashboard/properties/_components/PropertyModal.tsx:33 | `split(c).join("")` removes every c |
| PropertyModal.CommaPositionsOnDigits | app/dashboard/properties/_components/PropertyModal.tsx:39 | on digits a ',' goes before p iff 0 < p and (len − p) mod 3 = 0 |
| PropertyModal.GroupKeepsDigits | app/dashboard/properties/_components/PropertyModal.tsx:39 | grouping keeps the digits and adds no '.' |
| PropertyModal.FormatKeepsFirstDecimalPart | app/dashboard/properties/_components/PropertyModal.tsx:36-42 | the text between the first and second '.' is copied; anything after a second '.' is dropped |
| PropertyModal.FormatRoundTrip | app/dashboard/properties/_components/PropertyModal.tsx:205-206 | sanitizing the formatted form of a sanitized text gives it back |
| PropertyModal.Validate | app/dashboard/properties/_components/PropertyModal.tsx:82-113 | None iff all checks pass; each message, the currency one included, iff all earlier checks pass and its own fails |
| PropertyModal.InitialPaymentBounds | app/dashboard/properties/_components/PropertyModal.tsx:99-102 | an accepted form has 0 ≤ initial ≤ price, with a blank initial read as 0 |
| PropertyModal.Submit | app/dashboard/properties/_components/PropertyModal.tsx:115-135 | saves iff valid; payload has trimmed name/location, the type and a known currency as chosen, price and area parsed from their texts, initial 0 when blank, no client |
| ClientModal.EmailFormatIff | app/dashboard/clients/_components/ClientModal.tsx:114 | the scan accepts iff no whitespace and some '@' at index ≥ 1 and later '.' leave non-empty runs between and after |
| ClientModal.CheckDni | app/dashboard/clients/_components/ClientModal.tsx:94-97 | passes iff 8 ASCII digits; missing, non-numeric, wrong length reported in that order |
| ClientModal.CheckNames | app/dashboard/clients/_components/ClientModal.tsx:99-110 | passes iff both names use only the listed letters, spaces and apostrophes; messages in source order |
| ClientModal.CheckEmail | app/dashboard/clients/_components/ClientModal.tsx:112-115 | passes iff the email has the name@domain.tld shape |
| ClientModal.CheckPhone | app/dashboard/clients/_components/ClientModal.tsx:117-121 | passes iff digits with length ≥ 6; the "negative" message is never produced |
| ClientModal.CheckProfile | app/dashboard/clients/_components/ClientModal.tsx:123-131 | residence, occupation, income range, education level non-blank, in order |
| ClientModal.CheckAmounts | app/dashboard/clients/_components/ClientModal.tsx:133-149 | income and expenses finite ≥ 0, dependents a finite integer ≥ 0, in order |
| ClientModal.Validate | app/dashboard/clients/_components/ClientModal.tsx:93-154 | None iff every group passes and a user is present; never the phone-sign message |
| ClientModal.AcceptedForm | app/dashboard/clients/_components/ClientModal.tsx:93-154 | an accepted form's fields have the promised shapes |
| ClientModal.DniReportedFirst | app/dashboard/clients/_components/ClientModal.tsx:94-97 | a DNI problem is reported before anything else |
| ClientModal.UserCheckedLast | app/dashboard/clients/_components/ClientModal.tsx:151 | a missing user is reported iff every field check passed |
| ClientModal.Submit | app/dashboard/clients/_components/ClientModal.tsx:156-180 | saves iff valid, with every text field trimmed and income, expenses and dependents parsed from their trimmed texts |
| LegacyProperties.Validate | app/properties/page.tsx:87-94 | first failure in order: client, price missing or ≤ 0, initial < 0, location, initial > price |
| LegacyProperties.InitialEqualToPriceAccepted | app/properties/page.tsx:92 | initial = price is accepted (strict comparison) |
| LegacyProperties.InsertOf | app/properties/page.tsx:96-105 | area_m2 null iff the area text is empty |
| LegacyProperties.PropertiesPage.CreateProperty | app/properties/page.tsx:81-123 | no user: silent; failing check: its message; success: record inserted, form reset to "", "", "0", "", "" |
| Register.Rules | app/auth/register/page.tsx:9-17 | the five rules: length ≥ 8, A-Z, a-z, 0-9, a character outside A-Za-z0-9 |
| Register.CanSubmitImpliesMatch | app/auth/register/page.tsx:50-63 | a submittable form has matching, non-empty passwords |
| Register.NonAsciiIsSpecial | app/auth/register/page.tsx:15 | a space or accented letter satisfies the special rule |
| Register.RulesGrow | app/auth/register/page.tsx:9-17 | appending characters keeps every satisfied rule |
| Login.FriendlyAuthError | app/auth/login/page.tsx:9-14 | the credentials phrase wins, then the confirmation phrase, else the message unchanged |
| Login.CredentialsMatchIgnoresCase | app/auth/login/page.tsx:10-11 | any casing of the phrase anywhere in the message maps to the credentials text |
| Login.CredentialsRuleFirst | app/auth/login/page.tsx:11-12 | when both phrases occur the first rule wins |
| Login.CanSubmit | app/auth/login/page.tsx:27-29 | submittable only with a long enough email and password and not loading |
| Login.CanSubmitIgnoresPadding | app/auth/login/page.tsx:27-29 | the email is measured trimmed: padding it with whitespace changes nothing |
| Login.BlankEmailCannotSubmit | app/auth/login/page.tsx:27-29 | an all-whitespace email never enables the button, however long |
| Settings.PasswordProblem | app/dashboard/settings/page.tsx:126-132 | None iff length ≥ 8, equal to the confirmation, A-Z, 0-9 and a special character; messages in source order |
| Settings.LowercaseNotRequired | app/dashboard/settings/page.tsx:126-132 | a password without lowercase letters is accepted |
| Settings.SentPasswordsFollowRules | app/dashboard/settings/page.tsx:126-135 | an accepted password meets the rules and equals its confirmation |
| Settings.SecurityTab.ChangePassword | app/dashboard/settings/page.tsx:125-144 | failure: error and no update; success: update sent and the three fields cleared |
| Settings.OwnedIds | app/dashboard/settings/page.tsx:174-176 | exactly the ids of the user's simulations |
| Settings.DataTab.DeleteAllSimulations | app/dashboard/settings/page.tsx:171-183 | nothing unless the confirmation is "ELIMINAR"; then the user's rows and simulations go and the text is cleared |
| Settings.DeletionLeavesNothingOwned | app/dashboard/settings/page.tsx:174-179 | no simulation of the user and no row of one remains |
| Settings.Initials | app/dashboard/settings/page.tsx:185 | upper-cased first letters of the names, else of the email, else "U" |
| Settings.ClampDefaultTerm | app/dashboard/settings/page.tsx:409 | clamped to [5,25]; NaN stays NaN |
| ClientsPage.FilterClients | app/dashboard/clients/page.tsx:73-81 | blank query keeps the list; else keeps exactly the clients whose lowercased haystack contains the query |
| ClientsPage.FilterClientsExactly | app/dashboard/clients/page.tsx:76-80 | multiplicities and order of the kept clients |
| ClientsPage.LongerQueryNarrows | app/dashboard/clients/page.tsx:74-80 | if the trimmed q1 occurs in the trimmed q2 then filter(q2) ⊆ filter(q1) |
| ClientsPage.ClientsView.AskDelete | app/dashboard/clients/page.tsx:50-53 | opens the dialog for the id |
| ClientsPage.ClientsView.CancelDelete | app/dashboard/clients/page.tsx:60-64 | no-op while busy; otherwise closes and clears the id |
| ClientsPage.ClientsView.ConfirmDelete | app/dashboard/clients/page.tsx:66-71 | no-op without an id; otherwise deletes (reload drops the client on success) and closes |
| ClientsPage.DeleteRemovesOnlyThatClient | app/dashboard/clients/page.tsx:187-199 | the reloaded list lacks exactly that id |
| PropertiesPage.FilterProperties | app/dashboard/properties/page.tsx:48-56 | blank query keeps all; else keeps exactly the properties whose haystack contains the query |
| PropertiesPage.FilterPropertiesExactly | app/dashboard/properties/page.tsx:51-55 | multiplicities and order of the kept properties |
| PropertiesPage.UsdQueryKeepsUsd | app/dashboard/properties/page.tsx:48-56 | the query "usd" keeps every USD property |
| PropertiesPage.PropertiesView.AskDelete | app/dashboard/properties/page.tsx:104-107 | opens the dialog for the id |
| PropertiesPage.PropertiesView.CancelDelete | app/dashboard/properties/page.tsx:109-113 | no-op while busy |
| PropertiesPage.PropertiesView.DeleteProperty | app/dashboard/properties/page.tsx:115-128 | false without a user; true iff the delete succeeded, which drops the property |
| PropertiesPage.PropertiesView.ConfirmDelete | app/dashboard/properties/page.tsx:130-137 | closes and clears the id only on success; with a user `busy` ends false, without one it is unchanged |
| Middleware.Decide | middleware.ts:31-48 | login redirect iff no session on /dashboard…; board redirect iff session on /auth…; else pass through |
| Middleware.NoRedirectLoop | middleware.ts:35-46 | a redirect target never redirects again in the same session state |
| Middleware.RawPrefixMatch | middleware.ts:31-32 | any path merely starting with "/auth" or "/dashboard" counts |
| Sidebar.FalsyDropped | app/dashboard/_components/Sidebar.tsx:22-24 | false, undefined and "" arguments do not change `cn` |
| Sidebar.CnSplitsBack | app/dashboard/_components/Sidebar.tsx:22-24 | without spaces in class names, splitting `cn` gives the truthy arguments in order |
| Sidebar.NestedPageActive | app/dashboard/_components/Sidebar.tsx:51-52 | any page below an href activates it (e.g. /dashboard/simulate/history) |
| Sidebar.SiblingNotActive | app/dashboard/_components/Sidebar.tsx:51-52 | href followed by a character other than '/' does not (e.g. /dashboard/clientsX) |
| Sidebar.AtMostOneActive | app/dashboard/_components/Sidebar.tsx:51-52 | for unnested hrefs at most one item is active |
| Sidebar.NavUnnested | app/dashboard/_components/Sidebar.tsx:15-20 | the sidebar's four hrefs are unnested |
| Numbers.Bernoulli | app/dashboard/simulate/page.tsx:265 | (1+h)^n ≥ 1 + n·h for h ≥ −1, used for the TIR annualization bound |
| Strings.TrimStart | app/dashboard/clients/_components/ClientModal.tsx:94 | the leading part removed is all whitespace and the rest starts with a non-whitespace character |
| Strings.TrimEnd | app/dashboard/clients/_components/ClientModal.tsx:94 | the trailing part removed is all whitespace and the rest ends with a non-whitespace character |
| Strings.Trim | app/dashboard/clients/_components/ClientModal.tsx:94 | no longer than the text, and a non-empty result starts and ends with a non-whitespace character |
| Strings.TrimEmptyIff | app/dashboard/clients/_components/ClientModal.tsx:94 | a text trims to "" iff it is all whitespace |
| Strings.SplitJoin | app/dashboard/simulate/_utils/exports.ts:41 | splitting a join on a separator absent from the parts returns the parts |
| Strings.ContainsTransitive | app/dashboard/clients/page.tsx:80 | `includes` is transitive |
| Strings.ContainsToLower | app/auth/login/page.tsx:10-11 | an occurrence survives lowercasing both sides |
| Lists.Filter | app/dashboard/clients/page.tsx:76 | `filter` keeps only passing elements and every passing element |
| Lists.FilterIsSubsequence | app/dashboard/clients/page.tsx:76 | `filter` keeps the original order |
| Lists.FilterMultiplicity | app/dashboard/clients/page.tsx:76 | `filter` keeps every copy of a passing element and none of a failing one |

Definitions that carry no contract of their own are specified by the rows
above that state their properties:

- Finance.CalcCuota (finance.ts:9-13): Finance.CalcCuotaRepaysPrincipal, Finance.CuotaNonNegative.
- Finance.CalcVAN (finance.ts:15-17): Finance.VanAtZeroRate, Finance.VanAtOwnRateIsZero.
- Finance.Tir (finance.ts:19-33): Finance.TirInBracket, Finance.CalcTIR.
- Finance.PostGraceBalance (finance.ts:49-68): Finance.TotalGracePhase, Finance.ScheduleRepays.
- Finance.PhaseCuota (finance.ts:90-91): Finance.PhaseCuotaRepaysPostGraceBalance, DashboardSimulate.MonthlyPaymentIsPhaseCuota.
- LegacySimulate.PaymentFrench (page.tsx:50-54): LegacySimulate.PaymentFrenchRepays, LegacySimulate.PaymentFrenchZeroRate.
- LegacySimulate.Npv (page.tsx:94-100): LegacySimulate.NpvAtRate, LegacySimulate.NpvOfLoan.
- LegacySimulate.Irr (page.tsx:56-92): LegacySimulate.IrrOutcome, LegacySimulate.IrrMonthly.
- PropertyModal.SanitizeDecimal (PropertyModal.tsx:29-34): PropertyModal.SanitizeMatchesSpec, PropertyModal.SanitizeShape, PropertyModal.SanitizeIdempotent.
- PropertyModal.FormatWithCommas (PropertyModal.tsx:36-42): PropertyModal.FormatKeepsFirstDecimalPart, PropertyModal.FormatRoundTrip.
- SimulationHistory.RemoveSimulation (history/page.tsx:111): SimulationHistory.RemoveSimulationExactly.
- SimulationHistory.FilterSimulations (history/page.tsx:148-157): SimulationHistory.FilterSimulationsInOrder, SimulationHistory.EmptySearchKeepsLinked, SimulationHistory.SearchIgnoresCase.
- Bisection.Bisect (finance.ts:24-32): Bisection.BisectInRange, Bisection.BisectBracketsARoot, Bisection.BracketWidth.
- Sidebar.Cn (Sidebar.tsx:22-24): Sidebar.FalsyDropped, Sidebar.CnSplitsBack.
- Sidebar.Active (Sidebar.tsx:51-52): Sidebar.NestedPageActive, Sidebar.SiblingNotActive, Sidebar.AtMostOneActive.
- Register.AllRulesOk (register/page.tsx:50): Register.Rules, Register.RulesGrow, Register.NonAsciiIsSpecial.
- Register.PasswordsMatch (register/page.tsx:51): Register.CanSubmitImpliesMatch.
- Register.CanSubmit (register/page.tsx:53-63): Register.CanSubmitImpliesMatch.
- SimulationHistory.Matches, the `filtered` test (history/page.tsx:148-157): SimulationHistory.EmptySearchKeepsLinked, SimulationHistory.SearchIgnoresCase, SimulationHistory.SearchNarrows.
- SimulationHistory.DetailCsv (history/page.tsx:140-141): SimulationHistory.DetailLines, Exports.Csv, Exports.CsvReadsBack.
- Exports.PdfRow, one `<tr>` (exports.ts:62-71): Exports.PdfRowMarksGrace.
- Exports.PdfRows, the joined `<tr>` rows (exports.ts:61-74): Exports.PdfRowsAppend, Exports.PdfRowsInOrder.

## Left out

- Fractional powers: `calcTEM`'s (1+TEA)^(1/12) step, `toMonthlyRate` on the older page and the monthly COK conversion are not modelled; the monthly rate `tem` and the monthly COK `cokM` are inputs of the methods that need them.
- Finance.CalcCuota, Finance.CalcVAN, LegacySimulate.PaymentFrench, LegacySimulate.NpvAtRate, Finance.GenerateSchedule, DashboardSimulate.SimulatePage.RunSimulation: require the rate to be > −1 (or ≠ −1), because at −1 the JavaScript division yields Infinity or NaN, which reals cannot express.
- Floating point: rounding, NaN and Infinity are not modelled; `Number()` is the abstract parameter `num`, None meaning NaN or non-finite.
- Fractional month and year counts: terms and grace months are integers.
- Finance.CalcTIR: the sign-change bracket is preserved only while f(1e−6) ≠ 0; when f(1e−6) = 0 the page's loop keeps moving a to the midpoint, and the model states exactly that.
- Finance.TirInBracket: the root-bracketing property is stated for the generic search in Bisection.BisectBracketsARoot, not re-proved for the TIR objective.
- Display formatting (`n2`, `fmtP`, `fmtPs`, `toLocaleDateString`, `Intl.NumberFormat`) is a parameter; its output is not constrained.
- Exports.PdfRowMarksGrace: the absence of the G badge on non-grace rows is stated only at the row's start, since the formatted amounts that follow are arbitrary strings.
- The HTML document wrapper and header block of `exportPDF`, and the DOM download, `window.open`/`print`, `setTimeout` and scrolling are not modelled.
- All storage and authentication I/O: queries, inserts, deletes, the chunked `schedule_rows` insert and the exchange-rate lookup enter as parameters or as the fields a method updates.
- Reloading a list after a save or delete is modelled by its effect (the deleted record is gone), not by a new query.
- Case mapping covers ASCII and Latin-1 only; JavaScript's full Unicode `toLowerCase`/`toUpperCase` (including ÿ and µ, which map outside Latin-1) is not modelled.
- String lengths are counted in characters, not UTF-16 code units.
- Middleware.Decide: the `matcher` configuration that limits which paths reach the middleware, and the cookie adapters, are not modelled.
- ClientsPage.LongerQueryNarrows: stated for a trimmed q1 occurring in the trimmed q2, not for raw query texts.
- ClientModal: the initial form state built from an edited client is not modelled.
- The presentation components, layouts, the board greeting and the old login/register pages are not modelled.
