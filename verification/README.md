# A verified model of billing, access and limits

Dafny models of the parts of the bot whose correctness rests on state that outlives a call: the
order and ledger machine, the versioned synchronisation of access credentials, the request
limiter, the text splitter, and the arithmetic and graph rules around them. Each module says what
the code does, branch by branch, and proves what the code promises, for every input or every run.

## How it is laid out

| files | what they model |
|---|---|
| `Ledger`, `Account`, `Fifo` | ledger rows, idempotency keys, balances, credit lots and the FIFO attribution of debits |
| `Referral` | tiers, the bonus of a payment, the reversal loop |
| `Billing` | orders, users and one function per entry point: creation, payment, cancellation, refund, wallet purchase, checkout, ban, unban, holds, admin adjustments |
| `BillingInvariant`, `BillingTheorems`, `BillingConditions` | the run invariant (which rows an order may have in which state), what follows from it, and when exactly the machine refunds, sells and rewards |
| `OrderService` | the same entry points as methods that change fields step by step and roll back on a raised error |
| `CredentialSync`, `CredentialTheorems`, `CredentialService` | desired state and version of a credential, nodes that fence on versions, messages that may arrive late, retired credentials |
| `RateLimiter`, `RateLimiterTheorems`, `RateLimiterRuns` | the token bucket table with pruning and LRU eviction, against a plain table |
| `TextSplitter`, `TextLimits` | splitting a message into parts with re-inserted quote tags, as functions with a bound on the cuts and as loops that compute them |
| `TextSplitterSpec`, `TextSplitterParts` | what a good split is, said without the splitter, and that it is one wherever the tags leave room |
| `TextSplitterTheorems`, `TextSplitterGuard` | the exact conditions under which the splitter ends and keeps its limit |
| `Strings`, `Options` | white space, trimming, decimal numbers, optional values |
| `TariffChange`, `Coverage` | proration of a tariff change; the end of a subscription under purchases and refunds |
| `ReferralGraph` | the referrer walk and acyclicity of the referral graph |
| `Traffic` | reboot-tolerant counters and the archive of removed devices |
| `OriginOutbox`, `OriginOutboxTheorems` | moving subscriptions between origin servers with a durable cleanup outbox |

`dafny verify dfyconfig.toml` checks everything.

## Assumptions about the surroundings

- A service call is one transaction: it commits or it raises and leaves nothing behind.
- Money is whole roubles, as the ledger enforces (`database/repositories/account_ledger_repo.py:53-64`).
- Clocks, payment amounts, provisioning results, node replies and message delivery are parameters,
  quantified over all values.
- Nodes keep their register for a credential durably and compare versions; generated credentials
  and server ids are never used twice.
- The limiter and the tariff arithmetic are over exact reals, not floats.

## Findings

- **Refund of a credited top-up.** The balance check at the end of the refund
  (`services/order_service.py:800-801`) passes the user id by position to a function that takes it
  by keyword only (`database/repositories/account_ledger_repo.py:87-93`), and compares the snapshot
  it would return with zero. Either raises, so the refund is rolled back every time. `Billing.Config`
  makes this a parameter: all invariants are proved for both values, `RefundCommitsIff` says exactly
  which refunds commit, `ShippedNeverRefundsTopups` and `RefundIsLost` say what it means as the code
  stands.
- **Splitter bound and termination.** The docstring of `split_text_by_lines` promises every part
  within the limit. Both this and the end of the cutting loop depend on the opening tags. When every
  tag leaves room for its close tag and one more character (`TagsFit`), the splitter ends, every part
  fits, is as full as the next line allows and quoted where the text is, and nothing but line breaks
  is lost (`SplitFits`). Over all texts quoted by one tag the
  conditions are exact: each such text is split within the limit if and only if the limit is at least
  37 and the tag at most `limit - 14` characters long (`KeepsLimitIff`), and the splitter ends on each
  such text if and only if the limit is at least 37 and no cut stops at the end of the tag or in the
  middle of it (`FinishesIff`, `Escapes`), which for a tag without a second opening inside means a tag
  shorter than the limit (`PlainTagEscapesIff`). `OneLineOverflows`, `FortyIsExceeded`,
  `OneLineNeverEnds` and `FortyNeverEnds` give the failing inputs. Below 37 the code takes all tags
  out once; a text with a tag inside a tag still keeps one, and the loop can run for ever
  (`SmallLimitLoops`).
- **Limiter under memory pressure.** Pruning is unobservable; throwing out a key that was not full is
  always observable, on the very run on which it happens (`HarmShowsOnItsRun`). Such runs exist for
  every limiter that grants anything: one client more than the table has room for is enough
  (`CrowdShows`), so the bound goes unnoticed on all runs exactly when the bucket size is zero
  (`BoundUnobservableIff`).
- **Coverage.** The end of a subscription is the base plus the unrefunded days exactly as long as every
  event is exact (`EndIsSumIff`): a purchase not after the end, a refund that leaves time or happens to
  take as much as ending access does. A purchase after a gap or a refund of days already used breaks
  the sum (`LapsedRefundEndsAccess`).
- **Tariff change.** At equal daily rates more days left can mean fewer resulting days
  (`MoreDaysGiveFewerIff`, `SixteenDaysAreWorthLess`).
- **Referral walk.** Lookups skip soft-deleted users (`database/repositories/users_repo.py:47-57`), so a
  chain through one of them can hide a cycle. On every run of onboardings and soft deletions the graph
  is acyclic throughout exactly when nobody was bound who stood on the referrer's chain
  (`NeverACycleIff`); a run of five events ends in a cycle (`DeletedUserHidesACycle`). No code of the
  repository marks a user as deleted: lookups heed the mark and onboarding takes it off
  (`services/subscription.py:129-132`), so such rows can only come from outside it, as from a change by
  hand in the database. Without them there is never a cycle (`NeverACycle`).
- **Origins set without a look at the outbox.** Two writers of a subscription's origin cancel no
  cleanup waiting on the new server: the admin migration and the worker's placement of subscriptions
  without an origin. A cleanup aimed at the current origin appears exactly when one of them meets a
  waiting cleanup (`NeverAimedAtCurrentIff`), and both happen (`AdminRunAims`, `WorkerRunAims`). The
  sweep's own check still keeps live subscriptions safe (`SweepSparesTheLive`).

## Model

| member | source | states |
|---|---|---|
| OrderService.Desk.MarkOrderPaid | services/order_service.py:495-628 | a payment marks, takes or holds back its order by the rules, in the end state of the machine, or leaves the old state when anything raises; if the order may settle, and only then and once, the ledger gains its credit and the bonus it earned and nothing else; the run invariant is kept |
| OrderService.Desk.ProcessWebhookEvent | services/order_service.py:631-845 | a webhook changes only the order its ids select: not for somebody else's payment, to refunded only by a refund of the full amount of a paid order, and any other notice as stated row by row; another refund amount leaves status, ledger and access; refunded and gateway-canceled orders keep everything but the note of a late payment; it commits or rolls back as a whole and keeps the invariant |
| OrderService.Desk.SelectByExternal | services/order_service.py:659-671 | the search returns the one order with this payment id, or none when there is none |
| OrderService.Desk.SettleBenefits | services/order_service.py:67-120 | credit of a top-up, bonus of a real-money order and access are written in this order, and any error of a part is the error of the whole |
| OrderService.Desk.GrantReferralBonus | services/referral_bonus.py:251-406 | the ledger gains at most the one bonus row the machine calls for, computed by the tier scan |
| OrderService.Desk.Refund | services/order_service.py:743-839 | a full refund marks the order, takes back credit and bonus or revokes the access; any other amount only asks for review and changes nothing else |
| OrderService.Desk.MarkOrderCanceled | services/order_service.py:482-492 | only pending orders become canceled, none is pending afterwards, a recorded reason is never overwritten, paid and refunded orders and everything else stay |
| OrderService.Desk.PayFromWallet | services/order_service.py:430-474 | it succeeds exactly for a known user who is not held and can pay, with working provisioning; then the paid order, its access and one debit of its price are all that is new; otherwise nothing is |
| OrderService.Desk.CheckoutWalletOrder | services/white_internet_service.py:198-285 | a known user without holds whose balance covers the price gets the paid order and its access for one debit of the price; one whose balance does not gets a canceled order with the reason and no debit; anybody else gets nothing |
| OrderService.Desk.BanUser | services/ban_service.py:158-174 | every pending order of the user, and no other, is canceled with the ban as reason unless it has one; only the user's ban mark changes besides |
| OrderService.Desk.CreateOrderDebit | database/repositories/account_ledger_repo.py:209-261 | a debit row is written with its complete attribution, or an error leaves the ledger alone |
| BillingInvariant.StepKeeps | services/order_service.py:495-845 | every step (payment, poll, cancel, webhook, purchase, checkout, adjustment, ban, unban, holds, users) keeps the invariant on rows, lots, reversals and logs of every order |
| BillingInvariant.CreditedIffSettled | services/order_service.py:77-87 | a top-up has its payment credit exactly when it was settled |
| BillingTheorems.SettlementIsExact | services/order_service.py:67-120 | on every run an order is settled, granted and revoked at most once; a top-up has one credit if settled and none otherwise; a paid gateway order is either held or settled |
| BillingTheorems.PaymentSettlesIff | services/order_service.py:508-628 | a payment settles an order exactly when it is payable, paid in full and its user is neither banned nor on a hold that concerns it; never a second time |
| BillingTheorems.SettledOnlyInTheClear | services/order_service.py:590-620 | whatever the event, an order that becomes settled has a user who is not banned and not on hold |
| BillingTheorems.HeldIsReleased | services/order_service.py:512-539 | a held payment is settled by the next look at it exactly when its user is neither banned nor on a hold that concerns it, and is untouched otherwise |
| BillingTheorems.DuplicatePaymentIsIgnored | services/order_service.py:510-541 | after a payment left the order paid, any further notice or poll changes nothing |
| BillingTheorems.ClosedForever | services/order_service.py:543-561 | refunded orders never change again, gateway-canceled ones only in the note of a late payment, and neither gets another ledger row, on any continuation of a run |
| BillingTheorems.StepOnly | services/order_service.py:495-845 | an event leaves rows and state of all orders but its own alone, and of all orders if it is about none, except that a ban cancels pending orders |
| BillingTheorems.RefundConserves | services/order_service.py:765-839 | on every run the ledger rows of a refunded order that was settled sum to zero for every user, however it was paid; a held or never settled gateway order has none; an unsettled wallet purchase keeps its debit |
| BillingTheorems.RefundCommitsIff | services/order_service.py:743-839 | a full refund commits unless it is for a credited top-up and the balance check cannot be evaluated |
| BillingConditions.RefundedOnlyInFull | services/order_service.py:743-770 | whatever the event, an order becomes refunded only by a refund notice for all of its amount, of its own payment, that finds it paid |
| BillingConditions.NoticeRefundsIff | services/order_service.py:672-839 | such a notice refunds exactly when the order is paid, the amount is all of it, the payment is its own and the balance check of a credited top-up can be evaluated |
| BillingConditions.OtherAmountsAreOnlyNoted | services/order_service.py:743-765 | a refund notice of another amount, for an order that is not paid or for another payment leaves everything but the review mark |
| BillingConditions.FoundByItsNames | services/order_service.py:640-671 | a notice finds an order only by its id or the payment ids it was paid under, and a known id goes first |
| BillingConditions.NoticeMarks | services/order_service.py:672-742 | the row of the order after every notice that is no refund, and no other row changes |
| BillingConditions.ForeignNoticeIsIgnored | services/order_service.py:672-692 | a payment or refund whose id contradicts the recorded one changes nothing |
| BillingTheorems.ShippedNeverRefundsTopups | services/order_service.py:800-801 | as the code stands a settled top-up stays paid and settled on every continuation of every run |
| BillingTheorems.RefundIsLost | services/order_service.py:800-801 | one concrete run on which the refund is rolled back as the code stands and committed once the check can be evaluated |
| BillingTheorems.BalancesBackedOnEveryRun | services/order_service.py:437-474 | on every run a balance plus all refund debits and referral reversals is never negative |
| BillingTheorems.WalletPurchaseIff | services/order_service.py:430-474 | a purchase from the balance succeeds exactly when the user is known, not held, can pay and provisioning works; it lowers the balance by its price; credit lots never run out first |
| BillingConditions.PurchaseIff | services/order_service.py:430-474 | what a purchase from the balance leaves: the order, its access, one debit |
| BillingConditions.CheckoutIff | services/white_internet_service.py:198-285 | a checkout sells exactly to a known user without holds whose balance covers the price, and for the price; one who cannot pay is left a canceled order and an untouched ledger |
| BillingConditions.PaymentMarks | services/order_service.py:495-628 | the row of an order after any payment notice or poll, and no other row changes |
| BillingConditions.PaymentWrites | services/order_service.py:67-120 | a settling payment writes the credit of a top-up and then the bonus of its referrer, any other payment writes no row |
| BillingConditions.SettlementWrites | services/referral_bonus.py:251-406 | the bonus goes to another, live, unbanned referrer of a live purchaser, is the rounded share at the rate of their other active referrals, and is written whenever it is a rouble or more |
| BillingTheorems.EffectiveCountIsRecount | services/referral_bonus.py:310-327 | the decremented count equals a recount of active referrals with this order left out: a first qualifying payment never raises its own tier |
| BillingTheorems.BonusesAreBounded | services/referral_bonus.py:310-386 | on every run an order pays at most one bonus, never to its own purchaser, and at most the top rate's share |
| Account.OnlyClawbacksOverdraw | database/repositories/account_ledger_repo.py:87-104 | in every well-kept ledger only refund debits and reversals can take a user below zero |
| Account.BalanceHasLots | database/repositories/account_ledger_repo.py:418-488 | the open credit lots of a user always cover the balance, whatever was refunded or reversed |
| Account.AppendKeeps | database/repositories/account_ledger_repo.py:173-207 | writing any row that spends nothing keeps keys, backing, lots and totals in order |
| Fifo.AllocateFifo | database/repositories/account_ledger_repo.py:491-547 | the loop with its early exit draws exactly what a full pass in FIFO order draws |
| Fifo.DrawIsExact | database/repositories/account_ledger_repo.py:523-547 | a draw takes what the lots can give, all of it for this debit and from these lots |
| Fifo.DrawWithinCapacity | database/repositories/account_ledger_repo.py:523-547 | no lot is drawn on beyond what it has left |
| Fifo.CoveredDebitIsPlaced | database/repositories/account_ledger_repo.py:491-547 | a debit within the balance is always attributed completely |
| Fifo.OldestFirst | database/repositories/account_ledger_repo.py:491-547 | a lot is drawn on only when every lot before it is used up: bonuses and admin credits before money paid in, older before newer |
| Fifo.SpendKeeps | database/repositories/account_ledger_repo.py:209-261 | a debit row with its attribution keeps the account in order |
| Referral.GetReferralTier | services/referral_bonus.py:40-71 | the scan finds the last tier whose threshold is reached, and the next one if there is one |
| Referral.BonusBounds | services/referral_bonus.py:124-134 | the bonus is the integer part of its share and at most the top rate's share |
| Referral.ReverseReferralBonuses | services/referral_bonus.py:409-549 | the reversal loop writes exactly the rows of the specification |
| Referral.ReverseEachIsExact | services/referral_bonus.py:460-546 | the loop leaves each bonus of the order reversed exactly once over and no other bonus touched |
| Referral.ReverseBonusesIsIdempotent | services/referral_bonus.py:460-546 | reversing again, under the same or any other refund id, writes nothing |
| Referral.KeyMeansReversed | services/referral_bonus.py:336-343 | a used reversal key means its bonus is fully taken back, given one bonus per order and referrer |
| Referral.TwoBonusesLeaveOneUnreversed | services/referral_bonus.py:336-343 | why that is needed: of two bonuses under one key the second is never taken back |
| CredentialService.VlessSubscription.SyncUserToNodes | services/vless_subscription_service.py:465-527 | one round, one bump and retry on a conflict, and the record of a complete round; what goes out is only the state wanted for an active subscription of a user in good standing, to servers it concerns; the invariant is kept |
| CredentialService.VlessSubscription.ExecuteSync | services/vless_subscription_service.py:347-412 | the loop fills results and conflict flag as a round over the targets does |
| CredentialService.VlessSubscription.SyncClient | services/xray_node_client.py:208-269 | a newer version is applied, an equal one is idempotent, anything else is answered with the node's own state |
| CredentialService.VlessSubscription.DeprovisionUuid | services/vless_subscription_service.py:198-221 | the pending entry goes exactly when the attempt is complete, and that means every capable server in service, switched off or not, had an endpoint and confirmed |
| CredentialService.VlessSubscription.DeprovisionInBackground | services/vless_subscription_service.py:189-234 | the first attempt after a rotation; counts as a sync only while the subscription is off |
| CredentialService.VlessSubscription.RetryPending | services/vless_subscription_service.py:158-174 | the sweep over a copy of the pending list keeps the invariant |
| CredentialService.VlessSubscription.BanUser | services/ban_service.py:186-208 | the old credential is retired at the new version and put on the pending list once |
| CredentialService.VlessSubscription.UnbanUser | services/ban_service.py:270-280 | the filter on the pending list drops nothing |
| CredentialService.VlessSubscription.RotateUuid | database/repositories/vless_subscription_repo.py:329-360 | rotation raises the version and keeps the invariant |
| CredentialService.VlessSubscription.SyncAccess | services/subscription.py:438-452 | the stored state follows the access rule and costs a version exactly when it changes; the invariant is kept |
| CredentialService.ExtractNodeTargets | services/vless_subscription_service.py:308-330 | the targets are the servers with endpoint and key, in order |
| CredentialTheorems.NoneForgotten | services/ban_service.py:189-208 | on every run every retired credential is pending, or left the list at an attempt for it or a sweep after which every capable server in service, switched off or not and at least one, holds it disabled, then and at the end of the run |
| CredentialTheorems.StepDrops | services/vless_subscription_service.py:149-221 | whatever the event, an entry leaves the pending list only in an attempt for it or a sweep, and only if afterwards every capable server in service holds it disabled at its retirement version |
| CredentialTheorems.DeprovisionDropsIff | services/vless_subscription_service.py:198-221 | one attempt drops its credential exactly when there is a capable server in service, all of them, switched off or not, have an endpoint and all answer with verified inbounds |
| CredentialTheorems.ServersAre | services/vless_subscription_service.py:265-304 | a credential is kept in line on exactly the capable servers in service, and access is given only on those that are switched on |
| CredentialTheorems.RevocationAsks | services/vless_subscription_service.py:198-221 | an attempt sends the disable request to every such server with an endpoint and nothing else to anybody |
| CredentialTheorems.OnlyTheDesiredIsSent | services/vless_subscription_service.py:465-517 | a synchronisation sends the wanted state at the final version to every server it can ask, and nothing else |
| CredentialTheorems.CurrentIsCurrent | services/ban_service.py:189-208 | on every run the current credential is neither pending nor retired and no node is ahead of the version |
| CredentialTheorems.RevokedForever | services/xray_node_client.py:235-269 | once disabled at its retirement version a retired credential stays disabled, whatever late, repeated or reordered message arrives |
| CredentialTheorems.RevocationAlwaysAgreed | services/vless_subscription_service.py:415-462 | a node asked to disable a retired credential always agrees when it answers |
| CredentialTheorems.SyncConverges | services/vless_subscription_service.py:496-517 | a conflict costs exactly one version; every target whose last request was answered holds the desired state; its result is true exactly when its inbounds were verified |
| CredentialTheorems.RecordedMeansEverywhere | services/vless_subscription_service.py:518-526 | the synchronised version is recorded exactly when there is a server to keep in line and all of them had an endpoint and confirmed, and then all of them hold the desired state |
| CredentialTheorems.NodeAheadKeepsItsState | services/vless_subscription_service.py:500-517 | without the version bound one bump is not enough |
| CredentialTheorems.UnbanDropsNothing | services/ban_service.py:275-278 | the current credential is never on the pending list, so the filter changes nothing |
| CredentialTheorems.StepKeeps | services/vless_subscription_service.py:149-234 | every operation and every late message keeps the protocol invariant |
| RateLimiter.HttpRateLimiter.Check | utils/http_rate_limiter.py:31-60 | answer and new table are those of the specification; the table stays valid |
| RateLimiter.HttpRateLimiter.Cleanup | utils/http_rate_limiter.py:62-70 | collecting and deleting stale keys one by one equals pruning them all |
| RateLimiter.ServeKeeps | utils/http_rate_limiter.py:31-60 | no duplicates, at most `max_entries` keys, every bucket between empty and full |
| RateLimiterTheorems.PruningIsUnobservable | utils/http_rate_limiter.py:40-70 | on every run in which only full keys are thrown out, every answer is that of a table that never prunes |
| RateLimiterTheorems.HarmfulEvictionShows | utils/http_rate_limiter.py:40-46 | throwing out a key that was not full always changes a later answer |
| RateLimiterRuns.HarmShowsOnItsRun | utils/http_rate_limiter.py:40-46 | every run up to its first harmful eviction has a continuation with an answer the plain table would not give |
| RateLimiterRuns.CrowdShows | utils/http_rate_limiter.py:40-46 | whatever the limits, if the bucket holds a token: one client too many at once, then the first one again, gets such an answer |
| RateLimiterRuns.BoundUnobservableIff | utils/http_rate_limiter.py:31-60 | the bound on the table is unobservable on every run exactly when the bucket size is zero |
| RateLimiterRuns.WhoStays | utils/http_rate_limiter.py:40-70 | a request takes another key out only when there is no room: in a cleanup that is due everyone refilled and silent for two minutes, else the one at the front |
| RateLimiterTheorems.OrderIsLastAccess | utils/http_rate_limiter.py:45-60 | the dictionary order is the order of last requests, so the entry popped is the one silent longest |
| RateLimiterTheorems.GrantsAreBounded | utils/http_rate_limiter.py:47-55 | in any stretch of time a key gets at most a full bucket plus what flows in |
| RateLimiterTheorems.WaitingIsEnough | utils/http_rate_limiter.py:57-60 | after the promised wait the key is granted exactly when the bucket can hold a token, whatever others did |
| RateLimiterTheorems.WaitingLessIsNot | utils/http_rate_limiter.py:57-60 | a second less is not enough |
| RateLimiterTheorems.RunKeepsBounds | utils/http_rate_limiter.py:31-60 | size and bucket bounds hold after every run, even when time goes back |
| TextLimits.SplitTextByLines | utils/text_limits.py:6-112 | wherever the run ends, the loops compute the one result of the model, for every text and limit; if every tag leaves room, every part is non-empty and within the limit and the parts are the greedy split of the text |
| TextLimits.CutLine | utils/text_limits.py:79-97 | the inner loop yields exactly the cuts and the rest of the model |
| TextSplitterParts.SplitFits | utils/text_limits.py:33-112 | if every tag leaves room the run ends and the parts are slices of the text in order, only line breaks left out; a part that ends with a line could not have taken the next one, one that ends inside a line is full, each opens with the tag in force exactly where it starts inside a quote, and is closed exactly where one is open |
| TextSplitterParts.LeftmostTag | utils/text_limits.py:37-38 | the tag search finds the leftmost opening tag, and none only if there is none |
| TextSplitterParts.SlicesAreText | utils/text_limits.py:33-112 | apart from line breaks the slices spell the text: nothing is lost or repeated |
| TextSplitterParts.CutIsPiece | utils/text_limits.py:82-96 | with room a cut takes text beyond the inserted tag, fits with its close tag and leaves a shorter rest |
| TextSplitterTheorems.OneResult | utils/text_limits.py:33-112 | the bound on the cuts does not matter: a text has at most one result |
| TextSplitterTheorems.CutFitsIff | utils/text_limits.py:81-92 | any cut of a quoted rest fits exactly when its tag and close tag leave room, or it is of full length and ends in a close tag |
| TextSplitterTheorems.LoopEndsIff | utils/text_limits.py:81-96 | the cutting loop ends on every rest exactly when the limit holds a close tag and no cut stops at the end of the tag or in the middle of it |
| TextSplitterTheorems.PlainTagEscapesIff | utils/text_limits.py:82-96 | for a tag with no second opening inside it that means shorter than the limit |
| TextSplitterTheorems.NestedTagEscapes | utils/text_limits.py:82-96 | in general it does not: a longer tag that is cut in front of its second opening |
| TextSplitterTheorems.EveryTextEndsIff | utils/text_limits.py:33-112 | splitting ends on every text over a tag exactly when the cutting loop ends on every rest |
| TextSplitterTheorems.EveryTextFitsIff | utils/text_limits.py:33-112 | every text over a tag is split within the limit exactly when the tag has at most 14 characters less than the limit |
| TextSplitterTheorems.OneLineOverflows | utils/text_limits.py:63-92 | the first part of a line that opens with a longer tag and ends in its own close tag exceeds the limit by 13, unless the cut happens to end in a close tag |
| TextSplitterTheorems.OneLineNeverEnds | utils/text_limits.py:63-96 | such a line is split for ever if a cut stops at the end of the tag or in the middle of it |
| TextSplitterGuard.KeepsLimitIff | utils/text_limits.py:16-112 | with the guard for small limits: every text over a tag keeps the limit exactly when the limit is at least 37 and the tag has at most 14 characters less |
| TextSplitterGuard.FinishesIff | utils/text_limits.py:16-112 | with the guard: the splitter ends on every text over a tag exactly when the limit is at least 37 and no cut stops at the end of the tag or in the middle of it |
| TextSplitterGuard.SmallLimitLoops | utils/text_limits.py:22-26 | below 37 a text with a tag inside a tag survives the removal of tags and is split for ever |
| TextSplitterGuard.ExactTagNeverEnds | utils/text_limits.py:81-96 | a tag of exactly the limit with text behind it is never cut away |
| TextSplitterGuard.FortyNeverEnds | utils/text_limits.py:81-96 | one such text: a tag of 40 characters under a limit of 40 |
| TextSplitterGuard.FortyIsExceeded | utils/text_limits.py:63-92 | one text whose three parts have 53, 53 and 52 characters under a limit of 40 |
| TariffChange.RunningTariffIsConverted | services/order_service.py:131-146 | a running tariff is always converted, with started days counted whole and at most one day too many |
| TariffChange.DueCompletesThePrice | services/order_service.py:152-170 | the due amount lies between zero and the price, and with the unspent value makes up the price |
| TariffChange.QuoteIs | services/order_service.py:131-170 | the whole quote in whole numbers: unspent days times price over cycle, rounded half to even, against the new price; free days the same way, kept as they are where the daily prices differ by less than a millionth |
| TariffChange.NothingToConvert | services/order_service.py:131-150 | without a running tariff, or with one that costs nothing, the new one is simply bought |
| TariffChange.FreeSwitchIsFair | services/order_service.py:157-166 | a free switch to another rate gives at least a cycle and the unspent value to within half a day; at the same rate it keeps the days |
| TariffChange.MoreDaysNeverCostMore | services/order_service.py:152-170 | more days left never raise the due amount |
| TariffChange.MoreDaysGiveFewerIff | services/order_service.py:157-170 | exactly when more days left lower the resulting days |
| TariffChange.SixteenDaysAreWorthLess | services/order_service.py:157-170 | it happens: 15 days left give 30, 16 give 16 |
| TariffChange.ThereAndBack | services/order_service.py:152-166 | switching there and back for free moves the days by at most the roundings' worth |
| Coverage.Subscriber.FulfillOrder | services/fulfillment_service.py:33-51 | end, limit, tariff and the notes for a later revocation after a purchase or tariff change |
| Coverage.Subscriber.RevokeOrder | services/fulfillment_service.py:140-167 | end, limit and tariff after a revocation |
| Coverage.RevocationIsExact | services/fulfillment_service.py:159-166 | a revocation takes its days back exactly or ends access at once, grace included |
| Coverage.PurchaseGives | services/fulfillment_service.py:33-55 | an order gives its days behind the coverage left, or from now on for a tariff change or without coverage, and sets the limit and tariff it names and no other |
| Coverage.RevokedChangeRestoresIff | services/fulfillment_service.py:144-157 | revoking a tariff change gives everything back exactly when there was an end and nothing was set that had no value before |
| Coverage.EndIsSumIff | services/fulfillment_service.py:45-167 | for orders of any days, limit and tariff that are no tariff change, in any order of purchases and refunds: the end is at all times the base plus the days of unrefunded orders if and only if every later event is exact |
| Coverage.EndIsBasePlusPaidDays | services/fulfillment_service.py:45-167 | in particular while coverage never lapses |
| Coverage.LapsedRefundEndsAccess | services/fulfillment_service.py:158-167 | one run with an event that is not exact: the sum says a day, access is over |
| Coverage.BoughtAtTheEnd | services/fulfillment_service.py:45-48 | a purchase at the very end lapses for no time and keeps the sum |
| ReferralGraph.ValidateReferral | services/subscription.py:71-117 | the walk accepts exactly another live user whose chain stops within the depth limit and does not lead to the user; it ends |
| ReferralGraph.Registry.ProcessOnboarding | services/subscription.py:120-235 | a returning user is restored, a referrer is bound once, not for a known user after a top-up, and only if the walk accepts it; nobody else changes |
| ReferralGraph.BindingKeepsAcyclicIff | services/subscription.py:180-187 | binding keeps the graph acyclic exactly when the user is not on the referrer's chain, deleted users included |
| ReferralGraph.StepKeepsSoundIff | services/subscription.py:120-241 | an onboarding or soft deletion keeps the graph acyclic exactly when it binds nobody who is on the referrer's chain, deleted users included |
| ReferralGraph.NeverACycleIff | services/subscription.py:120-241 | on every run of onboardings and soft deletions the graph is acyclic throughout exactly when no event bound such a user |
| ReferralGraph.NeverACycle | services/subscription.py:120-241 | on every run of onboardings without soft deletion nobody is ever above themselves |
| ReferralGraph.DeletedUserHidesACycle | services/subscription.py:101-115 | a run of four onboardings and one soft deletion on which an accepted binding closes a cycle |
| Traffic.HostTraffic.AccumulateHostTrafficCycle | utils/traffic_helpers.py:10-47 | the three stored figures after a reading; the result says exactly whether anything changed |
| Traffic.NeverOvercounts | utils/traffic_helpers.py:10-47 | with reboots and cycle changes anywhere the credited bytes never exceed the true traffic, and the month shows what was credited in its cycle |
| Traffic.ExactWithoutReboots | utils/traffic_helpers.py:10-47 | without reboots every reading brings the account to the true traffic |
| Traffic.DeviceArchive.RecordDeviceTraffic | utils/traffic_helpers.py:79-92 | the archive total grows by exactly the new bytes, through the move of a legacy entry, and no other entry changes |
| OriginOutbox.Outbox.OperateInPlace | services/white_internet_service.py:450-493 | without payment, in a deactivation that forbids it, or without a replacement, nothing changes; a healthy origin stays; an unhealthy one is replaced by the candidate, cleanups waiting there are closed and one is queued for the old Xray origin |
| OriginOutbox.OperateIff | services/white_internet_service.py:588-634 | the same of every conversion, renewal, device slot and top-up: exactly when the origin moves and what moves with it |
| OriginOutbox.Outbox.SweepUnallocated | services/workers/white_internet_reconciliation.py:706-770 | the worker places live subscriptions without an origin one by one, until no server is free, touching no cleanup |
| OriginOutbox.Outbox.CancelPending | database/repositories/white_internet_repo.py:658-675 | exactly the pending rows of this server and credential are closed |
| OriginOutbox.Outbox.SweepOrphanCleanups | services/workers/white_internet_reconciliation.py:525-663 | one pass over the outbox, row by row |
| OriginOutbox.Outbox.MigrateServer | database/repositories/servers_repo.py:600-616 | every subscription of the list gets a cleanup row and the new origin |
| OriginOutboxTheorems.NeverAimedAtCurrentIff | services/white_internet_service.py:603-634 | on every run, admin moves and new placements included, no pending cleanup ever targets a current origin if and only if each such move or placement found no cleanup of its credentials waiting on the server |
| OriginOutboxTheorems.NeverAimedAtCurrent | services/white_internet_service.py:603-634 | in particular on every run of conversions, renewals, slots, top-ups, sweeps, failures and server deletions |
| OriginOutboxTheorems.NoOriginForgotten | services/white_internet_service.py:748-772 | on every run, admin moves and new placements included, an origin a credential was moved away from is queued, found disabled since the last move away, current again or gone |
| OriginOutboxTheorems.AdminMoveKeepsAimIff | database/repositories/servers_repo.py:600-613 | moving one subscription keeps that aim exactly when no cleanup of the credential waits on the target |
| OriginOutboxTheorems.AdminMigrationKeepsAimIff | database/repositories/servers_repo.py:600-616 | a whole migration keeps it exactly when no cleanup of any moved credential waits on the target |
| OriginOutboxTheorems.ReallocationKeepsAimIff | services/workers/white_internet_reconciliation.py:752-756 | placing a subscription without an origin keeps it exactly when no cleanup of its credential waits there |
| OriginOutboxTheorems.AdminRunAims | database/repositories/servers_repo.py:600-616 | a run of seven events on which an admin migration back to a recovered server leaves a cleanup aimed at the current origin |
| OriginOutboxTheorems.WorkerRunAims | bot/handlers/admin/servers/delete_routes.py:278-288 | a run of ten events, with a deletion the rules allow, on which the worker's placement does the same |
| OriginOutboxTheorems.SweepSparesTheLive | services/workers/white_internet_reconciliation.py:568-594 | no disable request goes out for a credential in use on that server, whatever rows there are |
| OriginOutboxTheorems.SweepClosesIff | services/workers/white_internet_reconciliation.py:525-663 | a waiting row is closed exactly when its server is unknown, its credential is in use there, or an Xray server that can be asked says it is disabled |
| OriginOutboxTheorems.RelocateKeepsAim | services/white_internet_service.py:882-908 | one migration closes the rows aimed at the new origin and writes none aimed at it |

## Left out

- Telegram, web and payment-gateway transport, keyboards, landing pages, logging, audit rows: I/O and UI.
- Locks, isolation and crashes inside a transaction; races inside one sync task.
- Notes on an order that no branch reads (notify flags, refund ids, hold reason text, the amount in a late-payment note).
- The retired payment and quote tables, chargebacks, and order creation rules beyond user and payment id.
- `services/white_internet_service.py` lifecycle beyond checkout and origin migration, and its intermediate commits.
- The version carried by an origin cleanup and the node's fencing of it; hard deletion of a subscription.
- Device-slot fulfilment and revocation of the second product.
- Node restarts that lose registers, and the bootstrap sync of a newly added server.
- Link text, hostnames, JSON, cryptography and timestamps.
- The real and bonus parts of a balance snapshot; only the position decides what this model covers.
- Traffic.DeviceArchive.RecordDeviceTraffic: takes the slot key as a parameter; how a name maps to a key is string work.
- TextLimits.SplitTextByLines: is asked for texts on which the run ends, as a method must end; which texts those are is proved beside it. Limits below zero and a missing text are left out.
- ReferralGraph.NeverACycleIff: soft deletion is an event of the model although no code of the repository performs it.
- RateLimiterTheorems.PruningIsUnobservable: for times that never go back, as the monotonic clock gives them.
- BillingTheorems.HeldIsReleased: for orders with a positive amount; a top-up for nothing is refused by the ledger every time.
- CredentialTheorems.RevokedForever: holds for servers that keep their registers.
