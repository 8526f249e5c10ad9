/**
  The session state holder (App.tsx): the single owner of the current screen
  and of the player's data. Children change it only through `NavigateTo` and
  `AddBalance`.
 */
module Session {
  import opened Types

  const INITIAL_LEVEL: int := 15
  const INITIAL_BALANCE: int := 135700

  /** The two screen components the root container can mount. */
  datatype View = GameView | WithdrawalView

  /**
    The screen components mounted for a screen selection: each of the two is
    rendered under its own condition on the selection, and exactly one holds.
   */
  function MountedViews(current: Screen): (r: set<View>)
    ensures |r| == 1
    ensures GameView in r <==> current == Game
    ensures WithdrawalView in r <==> current == Withdrawal
  {
    (if current == Game then {GameView} else {}) +
    (if current == Withdrawal then {WithdrawalView} else {})
  }

  /**
    The state updater that `addBalance` hands to the framework: a copy of the
    previous data with `amount` added to the balance.
   */
  function Added(p: PlayerData, amount: int): (r: PlayerData)
    ensures r.level == p.level
    ensures r.balance - p.balance == amount
  {
    p.(balance := p.balance + amount)
  }

  /** The sum of a sequence of amounts. */
  function Sum(amounts: seq<int>): int
  {
    if amounts == [] then 0 else amounts[0] + Sum(amounts[1..])
  }

  /** The player data after `addBalance` was called with each amount in turn. */
  function AddedAll(p: PlayerData, amounts: seq<int>): (r: PlayerData)
    ensures r.level == p.level
    decreases amounts
  {
    if amounts == [] then p else AddedAll(Added(p, amounts[0]), amounts[1..])
  }

  /** A run of `addBalance` calls adds the sum of the amounts and keeps the level. */
  lemma {:induction false} AddedAllSum(p: PlayerData, amounts: seq<int>)
    ensures AddedAll(p, amounts).balance == p.balance + Sum(amounts)
    ensures AddedAll(p, amounts).level == p.level
    decreases amounts
  {
    if amounts != [] {
      AddedAllSum(Added(p, amounts[0]), amounts[1..]);
    }
  }

  /** Splitting a run of calls: the later calls start from the earlier calls' result. */
  lemma {:induction false} AddedAllAppend(p: PlayerData, xs: seq<int>, ys: seq<int>)
    ensures AddedAll(p, xs + ys) == AddedAll(AddedAll(p, xs), ys)
    decreases xs
  {
    if xs == [] {
      assert xs + ys == ys;
    } else {
      assert (xs + ys)[1..] == xs[1..] + ys;
      AddedAllAppend(Added(p, xs[0]), xs[1..], ys);
    }
  }

  /** The sum of amounts none of which is negative is not negative. */
  lemma {:induction false} SumNonNegative(amounts: seq<int>)
    requires forall i :: 0 <= i < |amounts| ==> amounts[i] >= 0
    ensures Sum(amounts) >= 0
  {
    if amounts != [] {
      SumNonNegative(amounts[1..]);
    }
  }

  /**
    With no negative amount, the balance never decreases along a run of
    `addBalance` calls, and from a non-negative start it stays non-negative.
   */
  lemma BalanceMonotone(p: PlayerData, amounts: seq<int>, k: nat, j: nat)
    requires forall i :: 0 <= i < |amounts| ==> amounts[i] >= 0
    requires k <= j <= |amounts|
    ensures AddedAll(p, amounts[..k]).balance <= AddedAll(p, amounts[..j]).balance
    ensures p.balance >= 0 ==> AddedAll(p, amounts[..j]).balance >= 0
  {
    assert amounts[..j] == amounts[..k] + amounts[k..j];
    AddedAllAppend(p, amounts[..k], amounts[k..j]);
    AddedAllSum(AddedAll(p, amounts[..k]), amounts[k..j]);
    SumNonNegative(amounts[k..j]);
    AddedAllSum(p, amounts[..j]);
    SumNonNegative(amounts[..j]);
  }

  /** Starting from the initial data, the balance is 135700 plus what was added. */
  lemma InitialRun(amounts: seq<int>)
    ensures AddedAll(PlayerData(INITIAL_LEVEL, INITIAL_BALANCE), amounts)
         == PlayerData(15, 135700 + Sum(amounts))
  {
    AddedAllSum(PlayerData(INITIAL_LEVEL, INITIAL_BALANCE), amounts);
  }

  /** The root container: its two pieces of state are replaced by its two operations. */
  class App {
    var currentScreen: Screen
    var playerData: PlayerData

    /** A new session shows the game at level 15 with a balance of 135700. */
    constructor ()
      ensures currentScreen == Game
      ensures playerData == PlayerData(15, 135700)
    {
      currentScreen := Game;
      playerData := PlayerData(INITIAL_LEVEL, INITIAL_BALANCE);
    }

    /** Replaces the screen selection; nothing else changes. */
    method NavigateTo(screen: Screen)
      modifies this
      ensures currentScreen == screen
      ensures playerData == old(playerData)
    {
      currentScreen := screen;
    }

    /** Adds `amount` to the balance; the level and the screen are kept. */
    method AddBalance(amount: int)
      modifies this
      ensures playerData == Added(old(playerData), amount)
      ensures playerData.balance == old(playerData.balance) + amount
      ensures playerData.level == old(playerData.level)
      ensures currentScreen == old(currentScreen)
    {
      playerData := Added(playerData, amount);
    }

    /** The game screen's withdraw intent: go to the withdrawal screen. */
    method OnWithdrawClick()
      modifies this
      ensures currentScreen == Withdrawal
      ensures MountedViews(currentScreen) == {WithdrawalView}
      ensures playerData == old(playerData)
    {
      NavigateTo(Withdrawal);
    }

    /** The withdrawal screen's back intent: go back to the game screen. */
    method OnBackClick()
      modifies this
      ensures currentScreen == Game
      ensures MountedViews(currentScreen) == {GameView}
      ensures playerData == old(playerData)
    {
      NavigateTo(Game);
    }
  }
}
