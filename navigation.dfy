/**
  The root container's rendering (App.tsx): each navigation intent replaces
  the screen selection, and the screen it selects is mounted afresh with the
  session's current data. Mounting afresh is what resets each screen's own
  state on every entry.
 */
module Navigation {
  import opened Types
  import Session
  import Game
  import Withdrawal

  /**
    The game screen's withdraw intent: the withdrawal form is mounted with the
    current balance and nothing selected, so confirm starts disabled.
   */
  method WithdrawClicked(app: Session.App) returns (form: Withdrawal.WithdrawalScreen)
    modifies app
    ensures app.currentScreen == Withdrawal
    ensures Session.MountedViews(app.currentScreen) == {Session.WithdrawalView}
    ensures app.playerData == old(app.playerData)
    ensures fresh(form)
    ensures form.balance == app.playerData.balance
    ensures form.selectedAmount == Null && form.selectedMethod == None
    ensures form.Valid() && form.ConfirmDisabled()
  {
    app.OnWithdrawClick();
    form := new Withdrawal.WithdrawalScreen(app.playerData.balance);
  }

  /**
    The withdrawal screen's back intent: the game screen is mounted again with
    a newly drawn grid and an idle ad flow.
   */
  method BackClicked(app: Session.App, picks: seq<seq<nat>>) returns (screen: Game.GameScreen)
    requires Game.ValidPicks(picks)
    modifies app
    ensures app.currentScreen == Game
    ensures Session.MountedViews(app.currentScreen) == {Session.GameView}
    ensures app.playerData == old(app.playerData)
    ensures fresh(screen)
    ensures screen.app == app
    ensures screen.grid == Game.NewGrid(picks)
    ensures screen.adState == Game.Idle
  {
    app.OnBackClick();
    screen := new Game.GameScreen(app, picks);
  }

  /**
    An ad that settles after the player left the game screen: the unmounted
    screen's handler still calls the session's add-balance callback, and the
    root container re-renders the shown form with the new balance. The
    form's selection is kept and, since the balance only grew, stays covered.
   */
  method AdSettledOnWithdrawal(app: Session.App, screen: Game.GameScreen,
                               form: Withdrawal.WithdrawalScreen, outcome: Game.AdOutcome)
    requires screen.app == app && screen.adState == Game.Loading
    requires app.currentScreen == Withdrawal
    modifies screen`adState, screen`balanceKey, app, form`balance
    ensures app.playerData ==
      Session.Added(old(app.playerData), Game.Reward(Game.Loading, Game.AdSettled(outcome)))
    ensures app.currentScreen == Withdrawal
    ensures form.balance == app.playerData.balance
    ensures form.selectedAmount == old(form.selectedAmount)
    ensures form.selectedMethod == old(form.selectedMethod)
    ensures old(form.Valid()) && old(form.balance) == old(app.playerData.balance) ==> form.Valid()
  {
    screen.OnAdSettled(outcome);
    form.ReceiveBalance(app.playerData.balance);
  }

  /**
    A tap, then the withdraw intent while the ad is still loading, then a
    paying settlement: the session and the shown form both see 140700, and
    the withdrawal screen stays selected.
   */
  method LateRewardScenario(picks: seq<seq<nat>>) returns (sessionBalance: int, formBalance: int, shown: Screen)
    requires Game.ValidPicks(picks)
    ensures sessionBalance == 140700 && formBalance == 140700
    ensures shown == Withdrawal
  {
    var app := new Session.App();
    var board := new Game.GameScreen(app, picks);
    var started := board.HandleWatchAd();
    var form := WithdrawClicked(app);
    AdSettledOnWithdrawal(app, board, form, Game.Resolved(true));
    sessionBalance := app.playerData.balance;
    formBalance := form.balance;
    shown := app.currentScreen;
  }

  /**
    A selection does not survive leaving the withdrawal screen: 100000 is
    chosen, the player goes back to the game and returns, and the new form
    has nothing selected, while the balance is still 135700.
   */
  method ReentryScenario(picks: seq<seq<nat>>) returns (first: Nullable<int>, second: Nullable<int>, balance: int)
    requires Game.ValidPicks(picks)
    ensures first == Some(100000)
    ensures second == Null
    ensures balance == 135700
  {
    var app := new Session.App();
    var form := WithdrawClicked(app);
    form.ClickAmount(4);
    first := form.selectedAmount;
    var board := BackClicked(app, picks);
    form := WithdrawClicked(app);
    second := form.selectedAmount;
    balance := form.balance;
  }
}
