# Plan entitlement and gating of the BarberBoss front end

BarberBoss is a single-page mock-up for barbershop owners. Its one piece of
logic is the subscription model. `types.ts` defines three tiers (FREE, PRO,
BUSINESS) and the `PLAN_CONFIGS` table, which maps each tier to quotas and
capability flags. `App.tsx` consults that table to decide what the user sees
and may do:

- whether another service may be added;
- whether the financial dashboard and the AI coach are locked;
- which plan buttons can be clicked;
- whether the "Equipe" entry appears in the sidebar;
- whether the estimated revenue is shown.

The `App` component holds the signed-in user and the current view. It changes
them when a plan is bought and when a service is added.

The project has two modules:

- `types.dfy` (module `Types`) models `types.ts`. It holds the records, the
  limits table `PlanConfigs`, its lookup `LimitsFor`, and lemmas giving each
  tier's values. Further lemmas show that the table is total and monotone along
  FREE < PRO < BUSINESS.
- `app.dfy` (module `Barbershop`) models `App.tsx`. The gates are predicates
  and functions over `LimitsFor(user.plan)`. The revenue `reduce` and the
  CONFIRMED `filter` are recursive functions, with lemmas about sums, order and
  idempotence. The sidebar's in-place `push` is a method. `App`,
  `ServicesManager` and `AIAssistant` are classes whose methods state their
  whole new state.

Prices are whole reais (`int`). Date-based ids, clock-based dates and the text
from the generative-AI client are parameters.

`App.tsx` does not clamp negative counts, has no "next tier that unlocks X"
lookup and has no configuration-error path, so the model has none of them
either. The photo quota, the custom-domain flag and the commission rate appear
only in the table, because `App.tsx` never reads them.

Two behaviours of the code are proved as they stand:

- The FREE button is disabled only when the current plan is FREE. A PRO or
  BUSINESS user can therefore move to FREE. A PRO user with six services then
  holds more than FREE's quota of five (`DowngradeCanExceedQuota`). In general,
  any PRO or BUSINESS user with more than five services who moves to FREE is at
  the limit and above quota (`DowngradeExceedsQuota`).
- The estimated revenue sums the price of every appointment, including
  cancelled ones.

## Model

| member | source | states |
|---|---|---|
| Types.PlanConfigs | types.ts:54-82 | the limits table: FREE with 5 services, 10 photos and no capability; PRO and BUSINESS with 9999 of each and every capability except team management, which only BUSINESS has; commission 0 everywhere |
| Types.LimitsFor | types.ts:54-82 | every tier has an entry in the limits table, so the lookup is total |
| Types.TableTotal | types.ts:2-6 | the table's keys are exactly FREE, PRO and BUSINESS (three entries), and the tier order has no ties |
| Types.FreeLimits | types.ts:55-63 | FREE allows 5 services and 10 photos, and all four capability flags are false |
| Types.ProLimits | types.ts:64-72 | PRO allows 9999 services and 9999 photos and has the dashboard, custom domain and AI reports, but no team management |
| Types.BusinessLimits | types.ts:73-81 | BUSINESS has PRO's quotas, and all four flags are true |
| Types.CommissionInRange | types.ts:58 | every tier's commission is 0, which lies in [0, 100] |
| Types.Monotone | types.ts:54-82 | along FREE < PRO < BUSINESS, no quota decreases and no flag is lost |
| Barbershop.AtLimit | App.tsx:308 | computes `atLimit`: the service count has reached the tier's `maxServices` |
| Barbershop.WithinQuota | App.tsx:308 | model-only predicate, not in the source: the service count does not exceed the tier's `maxServices` |
| Barbershop.SlotsLabel | App.tsx:342 | computes the slot counter's quota: "∞" when `maxServices` exceeds 100, the number otherwise |
| Barbershop.AtLimitByTier | App.tsx:307-308 | adding is blocked exactly at 5 or more services on FREE, and at 9999 or more on PRO and BUSINESS |
| Barbershop.HigherTierNeverBlocks | App.tsx:308 | if adding is allowed, it stays allowed after a change to a tier that is no lower |
| Barbershop.SlotsLabelByTier | App.tsx:342 | the slot counter shows 5 on FREE and "∞" on the other tiers |
| Barbershop.AddKeepsQuota | App.tsx:345-354 | adding one service while not at the limit keeps the count within the tier's quota |
| Barbershop.UpgradeKeepsQuota | App.tsx:571 | changing to a tier that is no lower keeps the service count within quota |
| Barbershop.DowngradeCanExceedQuota | App.tsx:177 | the FREE button is selectable from PRO, and a PRO user with six services who moves to FREE exceeds FREE's quota |
| Barbershop.DowngradeExceedsQuota | App.tsx:177 | for every PRO or BUSINESS user with more than five services, the FREE button is selectable and the move to FREE leaves the user at the limit and above quota |
| Barbershop.DraftService | App.tsx:313-331 | no service is produced iff the name or the price is empty; otherwise the service carries the form's name, price and duration and the given id, with description "Serviço padrão." on FREE and the generated text on other tiers |
| Barbershop.DashboardLocked | App.tsx:246-247 | computes `isLocked` of the financial dashboard: the tier lacks the dashboard flag |
| Barbershop.AICoachLocked | App.tsx:419-426 | computes the AI coach's lock, used both by `askAI`'s early return and by `isLocked`: the tier lacks the AI-reports flag |
| Barbershop.PlanButtonDisabled | App.tsx:177-195 | computes each plan button's `disabled`: FREE iff the current plan is FREE, PRO iff it is PRO or BUSINESS, BUSINESS iff it is BUSINESS |
| Barbershop.LocksByTier | App.tsx:246-247 | the financial dashboard is locked iff the dashboard flag is false, and the AI coach iff the AI flag is false; with this table, both happen exactly on FREE |
| Barbershop.PlanButtonRule | App.tsx:169-197 | a plan button is disabled iff it is the current plan, or it is PRO while the current plan is BUSINESS; a selectable plan always differs from the current one |
| Barbershop.SidebarNav | App.tsx:469-478 | the sidebar lists Dashboard, Agenda, Serviços and "Planos & Billing" in that order, plus a fifth "team" entry iff the plan is BUSINESS, which is iff the tier has team management |
| Barbershop.Revenue | App.tsx:603 | computes the `reduce` over appointments: the sum of their prices, folded from the left starting at 0 |
| Barbershop.EstimatedRevenue | App.tsx:603 | computes "Receita Est.": "Bloqueado" (None) on FREE, otherwise the sum of all appointment prices |
| Barbershop.Upcoming | App.tsx:621 | the "Próximos" list is no longer than the input, contains only CONFIRMED appointments from the input, and contains every CONFIRMED appointment |
| Barbershop.UpcomingAppend | App.tsx:621 | the filter distributes over concatenation, so the original order is kept |
| Barbershop.UpcomingIdempotent | App.tsx:621 | filtering the filtered list changes nothing |
| Barbershop.RevenueAppend | App.tsx:603 | the revenue sum of a concatenation is the sum of the two parts' revenue |
| Barbershop.EstimatedRevenueGate | App.tsx:603 | "Bloqueado" is shown iff the plan is FREE, which is iff the dashboard is locked; otherwise the value is the sum of all appointment prices |
| Barbershop.UpcomingRevenueBound | App.tsx:603 | with non-negative prices, the upcoming appointments' total lies between 0 and the sum of all appointment prices |
| Barbershop.MockUser | App.tsx:16-36 | builds MOCK_USER with its two services, three appointments (one CONFIRMED) and two portfolio images; the appointment dates are parameters |
| Barbershop.MockUserFacts | App.tsx:16-36 | the initial user is on FREE with 2 of 5 services, has one upcoming appointment, and has R$ 90 of appointments behind the locked estimate |
| Barbershop.App.constructor | App.tsx:557-559 | the app starts with the mock user on the dashboard view |
| Barbershop.App.Navigate | App.tsx:508 | a navigation click changes only the view |
| Barbershop.App.Upgrade | App.tsx:562-576 | the plan becomes the chosen one, the rest of the user is unchanged, and the view becomes the dashboard |
| Barbershop.App.AddService | App.tsx:578-583 | exactly one service is appended at the end of the list; every other user field and the view are unchanged |
| Barbershop.ServicesManager.constructor | App.tsx:309-310 | the form starts empty, with duration 30, and the modal closed |
| Barbershop.ServicesManager.OpenModal | App.tsx:345 | the "Novo Serviço" click opens the modal iff the user is not at the limit |
| Barbershop.ServicesManager.CloseModal | App.tsx:401 | "Cancelar" closes the modal and keeps the form as typed |
| Barbershop.ServicesManager.HandleAdd | App.tsx:313-334 | with an empty name or price nothing changes; otherwise the drafted service is appended to the app's user, and the form is reset and the modal closed |
| Barbershop.AIAssistant.constructor | App.tsx:415-416 | the coach starts with no answer and not loading |
| Barbershop.AIAssistant.AskAI | App.tsx:418-424 | while the coach is locked, nothing changes; otherwise the answer becomes the generated advice and loading ends |

## Left out

- PaymentModal, its two-second fake confirmation and its card fields are not modelled. They are a timer and form markup.
- The confetti flag and its three-second timeout in `handleUpgrade` are not modelled. They are display only.
- The generative-AI client is not modelled. Its answers are the `aiDescription` and `advice` parameters. The prompt text built from the shop name and appointment count is left out.
- The `isGenerating` and `loading` flags are not modelled while a request is pending. Each awaited call is collapsed into one step.
- Ids from `Date.now()` and the mock appointments' dates are parameters.
- The form fields' `onChange` edits are not modelled. They are plain field updates of the form.
- `Number()` conversion of the price and duration fields is not modelled. An empty price field is `None`, and any other value is a whole number of reais.
- JS numbers are modelled as unbounded integers, with no floating point.
- The rendering switch in `renderView`, the charts, the mock weekly income, Icons, Button, Badge and MobileNav's markup are presentation only.
- The photo quota, the custom-domain flag and the commission rate are never read by `App.tsx`, so no gate uses them.
