# Game shell: reward-and-balance flow and withdrawal eligibility

A Dafny model of the logic in a small mobile game shell. The shell has a
board screen with a rewarded-ad button and a cash-withdrawal form. Three
parts are modelled:

- **Session state** (`App.tsx`, module `Session`). The class `App` holds the
  current screen and the player's data. `NavigateTo` replaces the screen.
  `AddBalance` adds to the balance and keeps the level. A session starts on
  the game screen at level 15 with a balance of 135700. The pure updater
  `Added` and its fold `AddedAll` carry the lemmas about runs of
  `addBalance` calls.
- **Board and ad reward** (`components/GameScreen.tsx`, module `Game`).
  - The decorative 8×8 grid is `NewGrid`. It is a function of the symbol
    index drawn for each cell.
  - The ad flow is a three-state machine: `Idle`, `Loading`, `Rewarded`.
    It is written twice, and the two are tied together by contracts:
    - as a pure transition system (`CanOccur`, `Next`, `Reward`, and runs
      over event sequences);
    - as the class `GameScreen`, whose event methods update `adState` and
      call the session's `AddBalance` through the `app` it was mounted with.
- **Withdrawal form** (`components/WithdrawalScreen.tsx`, module
  `Withdrawal`). It has the confirm rule `IsConfirmDisabled` and the rule
  that disables an amount button. The class `WithdrawalScreen` holds the
  two selections and the setters that change them.
- Module `Navigation` (`App.tsx`) mounts the selected screen afresh on every
  navigation intent. That is why the form's selection resets on every entry.
- Module `Types` (`types.ts`) holds the `Screen`, `PaymentMethod` and
  `PlayerData` types.

The ad call and the reward banner's timer are asynchronous in the source.
Here each completion is an event delivered to the screen:

- `WatchAd` is a tap;
- `AdSettled(o)` is the ad settling, with the promise resolved `true` or
  `false`, or rejected;
- `DwellElapsed` is the 2-second banner timer firing.

A settlement can only arrive while its attempt is outstanding, which is
exactly while the state is `Loading`. The timer can only fire while the
banner is up, which is exactly while the state is `Rewarded`. `CanOccur`
states this. The class methods `OnAdSettled` and `OnDwellElapsed` require it.

An amount button is `disabled` when `balance < amount`, so its click never
happens (`components/WithdrawalScreen.tsx:54-56`). `ClickAmount` models that:
a click on a disabled button is a no-op. So no amount above the balance can
be selected. Every selection made through the form satisfies
`amount <= balance`, and `ReachableConfirm` shows that for such a selection
the balance test in the confirm rule never decides anything.

The game screen's withdraw button is never disabled
(`components/GameScreen.tsx:124-129`). An ad attempt can
therefore still be outstanding when the withdrawal form is shown. Its
handler then still calls the session's add-balance callback, and the root
container re-renders the form with the new balance (`App.tsx:37-42`).
`Navigation.AdSettledOnWithdrawal` models that path.

All amounts are whole numbers and are modelled as `int`.

## Model

| member | source | states |
|---|---|---|
| `Session.MountedViews` | App.tsx:30-42 | exactly one screen component is mounted; the game screen iff the selection is `Game`, the withdrawal screen iff it is `Withdrawal` |
| `Session.Added` | App.tsx:19-24 | the balance updater adds exactly `amount` to the balance and keeps the level |
| `Session.AddedAll` | App.tsx:19-24 | a run of `addBalance` calls, each applied to the previous call's result, never changes the level |
| `Session.AddedAllSum` | App.tsx:19-24 | after `addBalance(a1) … addBalance(an)` the balance is the start balance plus the sum of the amounts, and the level is unchanged |
| `Session.AddedAllAppend` | App.tsx:19-24 | a run of balance updates splits at any point: the later updates start from the earlier ones' result |
| `Session.SumNonNegative` | App.tsx:19-24 | amounts that are all non-negative add up to a non-negative total |
| `Session.BalanceMonotone` | App.tsx:19-24 | with no negative amount, the balance after a longer prefix of calls is at least the balance after a shorter one, and it stays non-negative from a non-negative start |
| `Session.InitialRun` | App.tsx:9-13 | from the initial data, any run of `addBalance` calls ends at level 15 with 135700 plus the sum of the amounts |
| `Session.App.constructor` | App.tsx:9-13 | a session starts on the `Game` screen with level 15 and balance 135700 |
| `Session.App.NavigateTo` | App.tsx:15-17 | the screen becomes exactly the one given, and the player data is unchanged |
| `Session.App.AddBalance` | App.tsx:19-24 | the balance becomes the old balance plus `amount`; the level and the screen are unchanged |
| `Session.App.OnWithdrawClick` | App.tsx:33 | the withdraw intent selects `Withdrawal`, mounts only the withdrawal screen, and keeps the player data |
| `Session.App.OnBackClick` | App.tsx:40 | the back intent selects `Game`, mounts only the game screen, and keeps the player data |
| `Game.NewGrid` | components/GameScreen.tsx:22-26 | the grid has `GRID_SIZE` = 8 rows of 8 cells, and every cell is a non-empty symbol from `FRUITS` |
| `Game.FlatShape` | components/GameScreen.tsx:86 | laying out `k` rows of `n` cells gives `k * n` cells, each taken from some row |
| `Game.BoardCells` | components/GameScreen.tsx:22-26 | the board shows exactly 64 cells, each an element of `FRUITS` |
| `Game.CanOccur` | components/GameScreen.tsx:35-46 | in `Idle` only a tap can arrive, since no ad or timer callback is outstanding; an ad settlement or a timer can only arrive outside `Idle` |
| `Game.Next` | components/GameScreen.tsx:36-54 | every step follows a legal edge of the flow; a step that keeps the state is an ignored tap outside `Idle`; `Rewarded` is entered only from `Loading` by a `true` settlement |
| `Game.Reward` | components/GameScreen.tsx:41-42 | a step pays either nothing or exactly `AD_REWARD`, and pays exactly when it goes from `Loading` into `Rewarded` |
| `Game.WatchAdDisabled` | components/GameScreen.tsx:118 | the watch-ad button is disabled exactly in the states where the handler's guard ignores a tap |
| `Game.OverlayShown` | components/GameScreen.tsx:95 | the overlay is shown exactly when the watch-ad button is disabled, that is in `Loading` and `Rewarded` |
| `Game.WatchAdGuard` | components/GameScreen.tsx:36 | a tap leaves the state unchanged exactly when the watch-ad button is disabled and the overlay is shown (every state but `Idle`); a tap never pays; in `Idle` it moves to `Loading` |
| `Game.Settlement` | components/GameScreen.tsx:40-54 | resolving `true` moves to `Rewarded` and pays 5000; resolving `false` or rejecting moves to `Idle` and pays nothing |
| `Game.StepShape` | components/GameScreen.tsx:35-55 | every step follows Idle→Loading, Loading→Rewarded, Loading→Idle or Rewarded→Idle, or is an ignored tap; the balance moves exactly on the step into `Rewarded` |
| `Game.EarnedPerGrant` | components/GameScreen.tsx:41-43 | over any run, the balance grows by `AD_REWARD` per paying settlement and by nothing else |
| `Game.NoDoubleReward` | components/GameScreen.tsx:35-43 | over any run, the paying settlements number at most the ad attempts started (plus one already outstanding at the start of the run) |
| `Game.VisitedLegal` | components/GameScreen.tsx:35-55 | every pair of consecutive states in any run is Idle→Loading, Loading→Rewarded, Loading→Idle, Rewarded→Idle, or a repeat of `Loading` or `Rewarded` by an ignored tap; `Idle` is never followed by `Idle` |
| `Game.TapsWhileLoading` | components/GameScreen.tsx:36-43 | however many taps arrive while loading, the settlement pays 5000 once on `true` and nothing otherwise |
| `Game.Unfold` | components/GameScreen.tsx:35-55 | handling an event followed by more events is handling the first event, then the rest from the state it left |
| `Game.AlwaysBackToIdle` | components/GameScreen.tsx:44-54 | from every state, whatever the ad's outcome, at most two events (settlement, then the banner timer) bring the flow back to `Idle` |
| `Game.Attempts` | components/GameScreen.tsx:35-55 | a paying attempt runs Idle, Loading, Rewarded, Idle and adds 5000; a declined or failed one runs Idle, Loading, Idle and adds nothing |
| `Game.GameScreen.constructor` | components/GameScreen.tsx:18-33 | mounting draws the grid from the given indices, starts the ad flow `Idle`, and sets the animation key to 1 when the balance is positive |
| `Game.GameScreen.HandleWatchAd` | components/GameScreen.tsx:35-40 | an attempt starts exactly when the state was `Idle`, and then the state is `Loading`; otherwise nothing changes |
| `Game.GameScreen.OnAdSettled` | components/GameScreen.tsx:40-54 | the state follows `Next`; the session's player data gains the reward through `AddBalance` on `true` and is otherwise unchanged; the screen selection is untouched |
| `Game.GameScreen.OnDwellElapsed` | components/GameScreen.tsx:44-46 | the banner timer returns the flow from `Rewarded` to `Idle` |
| `Game.RewardedScenario` | components/GameScreen.tsx:35-46 | a fresh session, a tap, an ignored second tap and a `true` ad end with balance 140700 after states Idle, Loading, Rewarded, Idle |
| `Game.UnpaidScenario` | components/GameScreen.tsx:47-54 | a fresh session, a tap and a `false` or rejected ad end with balance 135700 after states Idle, Loading, Idle |
| `Withdrawal.AmountsShape` | components/WithdrawalScreen.tsx:11 | the candidate amounts are six positive values, strictly increasing from 5000 to 200000 |
| `Withdrawal.IsConfirmDisabled` | components/WithdrawalScreen.tsx:26 | confirm is disabled exactly when no amount is selected, no provider is chosen, or the selected amount's own button would be disabled at this balance |
| `Withdrawal.AmountDisabled` | components/WithdrawalScreen.tsx:56 | the button rule `balance < amount`: at a balance of 200000 or more every candidate button is enabled, below 5000 every one is disabled |
| `Withdrawal.ConfirmEnabledIff` | components/WithdrawalScreen.tsx:26 | confirm is enabled iff an amount is selected that the balance covers and the provider is DANA or OVO |
| `Withdrawal.ConfirmExamples` | components/WithdrawalScreen.tsx:26 | at balance 135700, 200000 with DANA is disabled and 100000 with OVO is enabled |
| `Withdrawal.ConfirmMonotone` | components/WithdrawalScreen.tsx:26 | if confirm is enabled at one balance, it is enabled at any larger balance with the same selection |
| `Withdrawal.AmountButtons` | components/WithdrawalScreen.tsx:51-56 | one button per candidate amount, disabled iff the balance is below its amount; the disabled buttons form a suffix of the row |
| `Withdrawal.ReachableConfirm` | components/WithdrawalScreen.tsx:26 | for a selection made through enabled buttons, confirm is enabled iff both an amount and a provider are chosen |
| `Withdrawal.WithdrawalScreen.constructor` | components/WithdrawalScreen.tsx:14-15 | on entry nothing is selected and the provider is `None`, so confirm is disabled |
| `Withdrawal.WithdrawalScreen.ClickAmount` | components/WithdrawalScreen.tsx:51-56 | a click on a disabled amount button changes nothing; on an enabled one it selects that amount, which is then a candidate the balance covers |
| `Withdrawal.WithdrawalScreen.SelectMethod` | components/WithdrawalScreen.tsx:68-73 | the provider becomes DANA or OVO as clicked and is never `None` afterwards; the amount is unchanged |
| `Withdrawal.WithdrawalScreen.ReceiveBalance` | App.tsx:38-39 | a re-render with a new balance keeps the selection; a selection the old balance covered is still covered by a larger balance |
| `Withdrawal.WithdrawalScreen.ClickConfirm` | components/WithdrawalScreen.tsx:78-83 | the confirm button has no handler: the form is unchanged |
| `Withdrawal.EligibilityScenario` | components/WithdrawalScreen.tsx:26 | at balance 135700 the 200000 button does nothing and confirm stays disabled with DANA; 100000 with OVO enables confirm |
| `Navigation.WithdrawClicked` | App.tsx:37-42 | the withdraw intent mounts a fresh form with the current balance, nothing selected and confirm disabled; the player data is unchanged |
| `Navigation.BackClicked` | App.tsx:30-36 | the back intent mounts a fresh game screen with a new grid and an idle ad flow, bound to the same session |
| `Navigation.AdSettledOnWithdrawal` | components/GameScreen.tsx:40-43 | an ad that settles after the player left the game screen still pays through the session's `AddBalance`; the shown form gets the new balance and keeps its selection, which stays covered |
| `Navigation.LateRewardScenario` | App.tsx:37-42 | a tap, the withdraw intent while loading, then a `true` ad: the session and the shown form both have 140700 and the withdrawal screen stays selected |
| `Navigation.ReentryScenario` | components/WithdrawalScreen.tsx:14-15 | a selection made before leaving the withdrawal screen is gone on return, and the balance is unchanged |

## Left out

- Rendering, CSS classes, keyframe styles and icons are presentation only. The icons module is not part of this model.
- Currency formatting through the locale library (`Intl.NumberFormat`) is display only.
- The ad service (`services/adService.ts`) is a stub that resolves `true` after a delay. Its result is an input to `OnAdSettled` instead: resolved `true`, resolved `false`, or rejected.
- Timers, promises and `async`/`await` scheduling are not modelled. Ad settlement and the banner timer are discrete events. The 1.5-second ad delay and the 2-second banner duration are not modelled.
- React re-render and stale-closure behaviour is not modelled. The model reads `adState` when a tap is handled. The source's handler reads the value from its last render. Two taps before a re-render are therefore not covered.
- `Math.random` and its floating-point sampling are not modelled. The index drawn for each cell is a parameter in `[0, |FRUITS|)`.
- The grid's empty first render, before the mount effect fills it, is not modelled. The model builds the grid at mount.
- Logging to the console (`console.error` in the failure branch) is not modelled.
- JavaScript numbers are modelled as unbounded integers. Floating-point rounding above 2^53 does not arise at these magnitudes.
- The withdrawal form receives a new balance only through `ReceiveBalance`. The one path that changes the balance while the form is shown, a late ad settlement, is `Navigation.AdSettledOnWithdrawal`.
- The ad flow's state belongs to one mounted game screen. A screen mounted again after a visit to the withdrawal form starts `Idle` even if an older attempt is still outstanding. `Game.NoDoubleReward` therefore counts attempts per screen instance, not per session.
- Game.GameScreen.OnAdSettled: the animation key is bumped only on a paying settlement, the one place the balance changes after mount. The source's effect fires on any change of the balance. A screen that is no longer mounted ignores its state updates; the model still updates the unmounted screen object's `adState` and animation key, which nothing reads.
