/**
  The board and reward screen (components/GameScreen.tsx): a decorative grid
  of fruit symbols and the rewarded-ad flow that adds to the player's balance.

  The ad call and the reward banner's timer are asynchronous; here each of
  their completions is an event delivered to the screen. The ad provider's
  answer (resolved true, resolved false, or rejected) is an input.
 */
module Game {
  import opened Types
  import Session

  const FRUITS: seq<string> := ["🍎", "🍊", "🍋", "🍉", "🍇", "🍓", "🍒", "🍍"]
  const GRID_SIZE: nat := 8
  const AD_REWARD: int := 5000

  // ---------------------------------------------------------------------------
  // The decorative grid

  /** Symbol indices for every cell: `GRID_SIZE` rows of `GRID_SIZE` indices into `FRUITS`. */
  predicate ValidPicks(picks: seq<seq<nat>>)
  {
    |picks| == GRID_SIZE &&
    forall r :: 0 <= r < GRID_SIZE ==>
      |picks[r]| == GRID_SIZE && forall c :: 0 <= c < GRID_SIZE ==> picks[r][c] < |FRUITS|
  }

  /**
    The grid built on mount: row by row, cell by cell, the fruit at the index
    drawn for that cell.
   */
  function NewGrid(picks: seq<seq<nat>>): (g: seq<seq<string>>)
    requires ValidPicks(picks)
    ensures |g| == GRID_SIZE
    ensures forall r :: 0 <= r < |g| ==> |g[r]| == GRID_SIZE
    ensures forall r, c :: 0 <= r < |g| && 0 <= c < |g[r]| ==> g[r][c] in FRUITS && g[r][c] != ""
  {
    seq(GRID_SIZE, r requires 0 <= r < GRID_SIZE =>
      seq(GRID_SIZE, c requires 0 <= c < GRID_SIZE => FRUITS[picks[r][c]]))
  }

  /** The rows of a grid laid end to end, as the board renders them. */
  function Flat<T>(g: seq<seq<T>>): seq<T>
  {
    if g == [] then [] else g[0] + Flat(g[1..])
  }

  /** A grid whose rows all have `n` cells flattens to `|g| * n` cells, each from some row. */
  lemma {:induction false} FlatShape<T>(g: seq<seq<T>>, n: nat)
    requires forall r :: 0 <= r < |g| ==> |g[r]| == n
    ensures |Flat(g)| == |g| * n
    ensures forall x :: x in Flat(g) ==> exists r :: 0 <= r < |g| && x in g[r]
  {
    if g != [] {
      FlatShape(g[1..], n);
      forall x | x in Flat(g)
        ensures exists r :: 0 <= r < |g| && x in g[r]
      {
        if x !in g[0] {
          var r :| 0 <= r < |g[1..]| && x in g[1..][r];
          assert x in g[r + 1];
        }
      }
    }
  }

  /** The board shows 64 cells, every one of them a fruit from `FRUITS`. */
  lemma BoardCells(picks: seq<seq<nat>>)
    requires ValidPicks(picks)
    ensures |Flat(NewGrid(picks))| == GRID_SIZE * GRID_SIZE == 64
    ensures forall x :: x in Flat(NewGrid(picks)) ==> x in FRUITS
  {
    var g := NewGrid(picks);
    FlatShape(g, GRID_SIZE);
    forall x | x in Flat(g)
      ensures x in FRUITS
    {
      var r :| 0 <= r < |g| && x in g[r];
      var c :| 0 <= c < |g[r]| && g[r][c] == x;
    }
  }

  // ---------------------------------------------------------------------------
  // The rewarded-ad flow as a transition system

  datatype AdState = Idle | Loading | Rewarded

  /** How the ad provider's promise settles: resolved with a flag, or rejected. */
  datatype AdOutcome = Resolved(wasRewarded: bool) | Rejected

  /** What can happen to the screen: a tap, the ad settling, the banner timer firing. */
  datatype AdEvent = WatchAd | AdSettled(outcome: AdOutcome) | DwellElapsed

  /**
    Whether the event loop can deliver `e` in state `s`: a tap always; the ad's
    settlement only while its attempt is outstanding, which is exactly while
    `Loading`; the banner timer only while it is pending, exactly while `Rewarded`.
   */
  predicate CanOccur(s: AdState, e: AdEvent): (r: bool)
    ensures s == Idle ==> (r <==> e == WatchAd)
    ensures r && e != WatchAd ==> s != Idle
  {
    match e
    case WatchAd => true
    case AdSettled(_) => s == Loading
    case DwellElapsed => s == Rewarded
  }

  /** A settlement that grants the reward. */
  predicate Grants(e: AdEvent)
  {
    e == AdSettled(Resolved(true))
  }

  /** The ad state after handling `e` in state `s`. */
  function Next(s: AdState, e: AdEvent): (r: AdState)
    requires CanOccur(s, e)
    ensures LegalEdge(s, r)
    ensures r == s ==> e == WatchAd && s != Idle
    ensures r == Rewarded && s != Rewarded ==> s == Loading && Grants(e)
  {
    match e
    case WatchAd => if s == Idle then Loading else s
    case AdSettled(o) => if o == Resolved(true) then Rewarded else Idle
    case DwellElapsed => Idle
  }

  /** The amount handling `e` in state `s` adds to the balance. */
  function Reward(s: AdState, e: AdEvent): (r: int)
    requires CanOccur(s, e)
    ensures r == 0 || r == AD_REWARD
    ensures r != 0 <==> s == Loading && Next(s, e) == Rewarded
  {
    if Grants(e) then AD_REWARD else 0
  }

  /**
    The watch-ad button is disabled in every state but `Idle`: exactly the
    states in which the handler's guard would ignore the tap.
   */
  predicate WatchAdDisabled(s: AdState): (r: bool)
    ensures r <==> Next(s, WatchAd) == s
  {
    s != Idle
  }

  /** The overlay covering the board while an ad plays or its reward is announced. */
  predicate OverlayShown(s: AdState): (r: bool)
    ensures r <==> WatchAdDisabled(s)
    ensures r <==> s == Loading || s == Rewarded
  {
    s != Idle
  }

  /**
    A tap outside `Idle` is ignored: no state change and no reward. The taps
    the guard ignores are exactly those the disabled button would swallow.
   */
  lemma WatchAdGuard(s: AdState)
    ensures Next(s, WatchAd) == s <==> WatchAdDisabled(s)
    ensures WatchAdDisabled(s) <==> OverlayShown(s)
    ensures Reward(s, WatchAd) == 0
    ensures s == Idle ==> Next(s, WatchAd) == Loading
  {
  }

  /** The three outcomes: only a `true` resolution pays, and it pays exactly `AD_REWARD`. */
  lemma Settlement(o: AdOutcome)
    ensures Next(Loading, AdSettled(o)) == (if o == Resolved(true) then Rewarded else Idle)
    ensures Reward(Loading, AdSettled(o)) == (if o == Resolved(true) then 5000 else 0)
  {
  }

  /**
    The transitions of the flow: Idle to Loading, Loading to Rewarded or Idle,
    Rewarded to Idle, or an ignored tap outside `Idle`.
   */
  predicate LegalEdge(a: AdState, b: AdState)
  {
    (a == b && a != Idle) ||
    (a == Idle && b == Loading) ||
    (a == Loading && (b == Rewarded || b == Idle)) ||
    (a == Rewarded && b == Idle)
  }

  /**
    Every step follows a legal edge; the balance moves on the step into
    `Rewarded` and on no other step.
   */
  lemma StepShape(s: AdState, e: AdEvent)
    requires CanOccur(s, e)
    ensures LegalEdge(s, Next(s, e))
    ensures Reward(s, e) != 0 <==> s == Loading && Next(s, e) == Rewarded
    ensures Next(s, e) == s ==> e == WatchAd && s != Idle
  {
  }

  /** An event sequence the event loop can deliver from state `s`. */
  predicate Feasible(s: AdState, events: seq<AdEvent>)
    decreases events
  {
    events == [] ||
    (CanOccur(s, events[0]) && Feasible(Next(s, events[0]), events[1..]))
  }

  /** The state after handling every event in turn. */
  function Final(s: AdState, events: seq<AdEvent>): AdState
    requires Feasible(s, events)
    decreases events
  {
    if events == [] then s else Final(Next(s, events[0]), events[1..])
  }

  /** The total added to the balance while handling the events. */
  function Earned(s: AdState, events: seq<AdEvent>): int
    requires Feasible(s, events)
    decreases events
  {
    if events == [] then 0 else Reward(s, events[0]) + Earned(Next(s, events[0]), events[1..])
  }

  /** The states passed through, the starting state first. */
  function Visited(s: AdState, events: seq<AdEvent>): seq<AdState>
    requires Feasible(s, events)
    decreases events
  {
    if events == [] then [s] else [s] + Visited(Next(s, events[0]), events[1..])
  }

  /** How many taps started an ad attempt (a tap in `Idle`). */
  function Starts(s: AdState, events: seq<AdEvent>): nat
    requires Feasible(s, events)
    decreases events
  {
    if events == [] then 0
    else (if s == Idle && events[0] == WatchAd then 1 else 0) + Starts(Next(s, events[0]), events[1..])
  }

  /** How many settlements granted the reward. */
  function GrantCount(s: AdState, events: seq<AdEvent>): nat
    requires Feasible(s, events)
    decreases events
  {
    if events == [] then 0
    else (if Grants(events[0]) then 1 else 0) + GrantCount(Next(s, events[0]), events[1..])
  }

  /** The balance grows by `AD_REWARD` per granting settlement, and by nothing else. */
  lemma {:induction false} EarnedPerGrant(s: AdState, events: seq<AdEvent>)
    requires Feasible(s, events)
    ensures Earned(s, events) == AD_REWARD * GrantCount(s, events)
    decreases events
  {
    if events != [] {
      EarnedPerGrant(Next(s, events[0]), events[1..]);
    }
  }

  /**
    No double reward: every granted reward belongs to its own started attempt
    (counting one already outstanding when the run begins in `Loading`).
   */
  lemma {:induction false} NoDoubleReward(s: AdState, events: seq<AdEvent>)
    requires Feasible(s, events)
    ensures GrantCount(s, events) <= Starts(s, events) + (if s == Loading then 1 else 0)
    decreases events
  {
    if events != [] {
      NoDoubleReward(Next(s, events[0]), events[1..]);
    }
  }

  /** Every run passes only along legal edges. */
  lemma {:induction false} VisitedLegal(s: AdState, events: seq<AdEvent>)
    requires Feasible(s, events)
    ensures |Visited(s, events)| == |events| + 1
    ensures Visited(s, events)[|events|] == Final(s, events)
    ensures forall i :: 0 <= i < |events| ==> LegalEdge(Visited(s, events)[i], Visited(s, events)[i + 1])
    decreases events
  {
    if events != [] {
      var t := Next(s, events[0]);
      VisitedLegal(t, events[1..]);
      StepShape(s, events[0]);
      var v := Visited(s, events);
      assert v == [s] + Visited(t, events[1..]);
      forall i | 0 <= i < |events|
        ensures LegalEdge(v[i], v[i + 1])
      {
        if i > 0 {
          assert v[i] == Visited(t, events[1..])[i - 1];
          assert v[i + 1] == Visited(t, events[1..])[i];
        }
      }
    }
  }

  /** `k` taps in a row. */
  function Taps(k: nat): (r: seq<AdEvent>)
    ensures |r| == k
    ensures forall i :: 0 <= i < k ==> r[i] == WatchAd
  {
    if k == 0 then [] else [WatchAd] + Taps(k - 1)
  }

  /**
    However many taps arrive while an ad is loading, the settlement pays
    `AD_REWARD` once on `true` and nothing otherwise.
   */
  lemma {:induction false} TapsWhileLoading(k: nat, o: AdOutcome)
    ensures Feasible(Loading, Taps(k) + [AdSettled(o)])
    ensures Earned(Loading, Taps(k) + [AdSettled(o)]) == (if o == Resolved(true) then AD_REWARD else 0)
    ensures Final(Loading, Taps(k) + [AdSettled(o)]) == (if o == Resolved(true) then Rewarded else Idle)
  {
    var ev := Taps(k) + [AdSettled(o)];
    if k == 0 {
      assert ev == [AdSettled(o)];
    } else {
      TapsWhileLoading(k - 1, o);
      assert ev[0] == WatchAd;
      assert ev[1..] == Taps(k - 1) + [AdSettled(o)];
    }
  }

  /**
    The events that bring a state back to `Idle`, given the outcome of an ad
    still outstanding: its settlement, then the banner timer if it paid.
   */
  function Drain(s: AdState, o: AdOutcome): seq<AdEvent>
  {
    match s
    case Idle => []
    case Loading => [AdSettled(o)] + (if o == Resolved(true) then [DwellElapsed] else [])
    case Rewarded => [DwellElapsed]
  }

  /** Handling `e` then `rest` is handling `e`, then handling `rest` from where `e` left off. */
  lemma Unfold(s: AdState, e: AdEvent, rest: seq<AdEvent>)
    requires CanOccur(s, e) && Feasible(Next(s, e), rest)
    ensures Feasible(s, [e] + rest)
    ensures Final(s, [e] + rest) == Final(Next(s, e), rest)
    ensures Earned(s, [e] + rest) == Reward(s, e) + Earned(Next(s, e), rest)
    ensures Visited(s, [e] + rest) == [s] + Visited(Next(s, e), rest)
  {
    assert ([e] + rest)[0] == e;
    assert ([e] + rest)[1..] == rest;
  }

  /** There is no terminal state: whatever the ad's outcome, the flow returns to `Idle`. */
  lemma AlwaysBackToIdle(s: AdState, o: AdOutcome)
    ensures Feasible(s, Drain(s, o))
    ensures Final(s, Drain(s, o)) == Idle
    ensures |Drain(s, o)| <= 2
  {
    match s
    case Idle =>
    case Rewarded =>
      Unfold(Rewarded, DwellElapsed, []);
    case Loading =>
      if o == Resolved(true) {
        Unfold(Rewarded, DwellElapsed, []);
        Unfold(Loading, AdSettled(o), [DwellElapsed]);
      } else {
        Unfold(Loading, AdSettled(o), []);
      }
  }

  /**
    The two complete attempts: a paying one goes Idle, Loading, Rewarded, Idle
    and adds 5000; a declined or failed one goes Idle, Loading, Idle and adds nothing.
   */
  lemma Attempts(o: AdOutcome)
    ensures Feasible(Idle, [WatchAd] + Drain(Loading, o))
    ensures o == Resolved(true) ==>
      Visited(Idle, [WatchAd] + Drain(Loading, o)) == [Idle, Loading, Rewarded, Idle] &&
      Earned(Idle, [WatchAd] + Drain(Loading, o)) == 5000
    ensures o != Resolved(true) ==>
      Visited(Idle, [WatchAd] + Drain(Loading, o)) == [Idle, Loading, Idle] &&
      Earned(Idle, [WatchAd] + Drain(Loading, o)) == 0
  {
    if o == Resolved(true) {
      Unfold(Rewarded, DwellElapsed, []);
      Unfold(Loading, AdSettled(o), [DwellElapsed]);
    } else {
      Unfold(Loading, AdSettled(o), []);
    }
    Unfold(Idle, WatchAd, Drain(Loading, o));
  }

  // ---------------------------------------------------------------------------
  // The mounted screen

  /**
    A mounted game screen. `app` is the root container whose `AddBalance`
    the screen is given as its add-balance callback.
   */
  class GameScreen {
    const app: Session.App
    var grid: seq<seq<string>>
    var adState: AdState
    var balanceKey: int

    /**
      Mounting: the grid is drawn, the ad flow is idle, and the balance
      effect bumps the animation key once if the balance is positive.
     */
    constructor (app: Session.App, picks: seq<seq<nat>>)
      requires ValidPicks(picks)
      ensures this.app == app
      ensures grid == NewGrid(picks)
      ensures adState == Idle
      ensures balanceKey == if app.playerData.balance > 0 then 1 else 0
    {
      this.app := app;
      grid := NewGrid(picks);
      adState := Idle;
      balanceKey := if app.playerData.balance > 0 then 1 else 0;
    }

    /**
      The tap handler up to the ad call: ignored unless idle, otherwise the
      state becomes `Loading` and an ad attempt starts (`started`).
     */
    method HandleWatchAd() returns (started: bool)
      modifies this`adState
      ensures started <==> old(adState) == Idle
      ensures adState == Next(old(adState), WatchAd)
    {
      if adState != Idle {
        return false;
      }
      adState := Loading;
      started := true;
    }

    /**
      The rest of the tap handler, once the ad settles: on `true` the reward
      is added through the callback and the banner shows; on `false` or a
      rejection the flow is idle again and the balance is untouched.
     */
    method OnAdSettled(outcome: AdOutcome)
      requires adState == Loading
      modifies this`adState, this`balanceKey, app
      ensures adState == Next(Loading, AdSettled(outcome))
      ensures app.playerData == Session.Added(old(app.playerData), Reward(Loading, AdSettled(outcome)))
      ensures app.currentScreen == old(app.currentScreen)
      ensures balanceKey == old(balanceKey) +
        (if outcome == Resolved(true) && app.playerData.balance > 0 then 1 else 0)
    {
      match outcome
      case Resolved(wasRewarded) =>
        if wasRewarded {
          app.AddBalance(AD_REWARD);
          if app.playerData.balance > 0 {
            balanceKey := balanceKey + 1;
          }
          adState := Rewarded;
        } else {
          adState := Idle;
        }
      case Rejected =>
        adState := Idle;
    }

    /** The banner timer: the reward announcement ends and the flow is idle. */
    method OnDwellElapsed()
      requires adState == Rewarded
      modifies this`adState
      ensures adState == Next(Rewarded, DwellElapsed)
    {
      adState := Idle;
    }
  }

  /**
    A fresh session, a tap and a paying ad: the balance goes from 135700 to
    140700 and the states run Idle, Loading, Rewarded, Idle.
   */
  method RewardedScenario(picks: seq<seq<nat>>) returns (balance: int, states: seq<AdState>)
    requires ValidPicks(picks)
    ensures balance == 140700
    ensures states == [Idle, Loading, Rewarded, Idle]
  {
    var app := new Session.App();
    var screen := new GameScreen(app, picks);
    states := [screen.adState];
    var started := screen.HandleWatchAd();
    states := states + [screen.adState];
    var ignored := screen.HandleWatchAd();
    assert !ignored;
    screen.OnAdSettled(Resolved(true));
    states := states + [screen.adState];
    screen.OnDwellElapsed();
    states := states + [screen.adState];
    balance := app.playerData.balance;
  }

  /**
    A fresh session, a tap and a declined or failed ad: the balance stays
    135700 and the states run Idle, Loading, Idle.
   */
  method UnpaidScenario(picks: seq<seq<nat>>, outcome: AdOutcome) returns (balance: int, states: seq<AdState>)
    requires ValidPicks(picks)
    requires outcome != Resolved(true)
    ensures balance == 135700
    ensures states == [Idle, Loading, Idle]
  {
    var app := new Session.App();
    var screen := new GameScreen(app, picks);
    states := [screen.adState];
    var started := screen.HandleWatchAd();
    states := states + [screen.adState];
    screen.OnAdSettled(outcome);
    states := states + [screen.adState];
    balance := app.playerData.balance;
  }
}
