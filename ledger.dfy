/** The settlement ledger: each member's balance, the append-only table of game results,
    the balance rule applied when a result is recorded, and the windowed history query.
    The database, its transactions and row locks are replaced by the fields of one object;
    a transaction that rolls back simply leaves those fields as they were. */
module Ledger {

  import opened Wrappers
  import opened Keno

  /** One row of the game_results table. */
  datatype GameResult = GameResult(
    gameId: nat,
    payout: Hundredths,
    winFields: seq<int>,
    profit: real,
    coin: string,
    name: string)

  /** Why a balance update is refused: the member row is missing (the lookup fails and
      the update panics) or the balance does not cover the stake. */
  datatype LedgerError = RecordNotFound | InsufficientBalance

  /** Width of the id window of a history query. */
  const WindowSpan: nat := 20
  /** Number of rows of the fallback history page. */
  const PageLimit: nat := 20
  /** Game ids are unsigned 64-bit integers. */
  const Uint64Modulus: nat := 0x1_0000_0000_0000_0000

  /** Balance arithmetic, exact here (the Go server rounds the sum to 8 fractional digits). */
  function BigFloatAdd(a: real, b: real): (sum: real)
    ensures sum - a == b && sum - b == a
  {
    a + b
  }

  /** The rule of a balance update: refuse an unknown member or a balance below the stake;
      otherwise add the profit to that member's balance and to no other. */
  function ApplySettlement(balances: map<string, real>, name: string, betAmount: real, profit: real)
    : (r: Result<map<string, real>, LedgerError>)
    ensures name !in balances ==> r == Failure(RecordNotFound)
    ensures name in balances && balances[name] < betAmount ==> r == Failure(InsufficientBalance)
    ensures name in balances && balances[name] >= betAmount ==>
      && r.Success?
      && r.value.Keys == balances.Keys
      && r.value[name] - balances[name] == profit
      && forall other :: other in balances && other != name ==> r.value[other] == balances[other]
  {
    if name !in balances then Failure(RecordNotFound)
    else if balances[name] < betAmount then Failure(InsufficientBalance)
    else Success(balances[name := BigFloatAdd(balances[name], profit)])
  }

  /** Whenever the update succeeds, the profit the engine computes for that stake leaves the
      member's balance at or above zero. */
  lemma SettledBalanceNonNegative(balances: map<string, real>, name: string, betAmount: real, pay: Hundredths)
    requires betAmount >= 0.0
    ensures var r := ApplySettlement(balances, name, betAmount, CalProfit(betAmount, pay));
      r.Success? ==> r.value[name] >= 0.0
  {
  }

  /** One wager as the ledger sees it: whose balance, the stake and the computed profit. */
  datatype Wager = Wager(name: string, betAmount: real, profit: real)

  /** Balances after applying each wager in turn; a refused wager changes nothing. */
  function Replay(balances: map<string, real>, wagers: seq<Wager>): map<string, real>
    decreases |wagers|
  {
    if wagers == [] then balances
    else
      var w := wagers[0];
      match ApplySettlement(balances, w.name, w.betAmount, w.profit)
      case Success(b) => Replay(b, wagers[1..])
      case Failure(_) => Replay(balances, wagers[1..])
  }

  /** Sum of the profits of the wagers of `name` that the ledger accepts, replaying from `balances`. */
  function CommittedProfit(balances: map<string, real>, wagers: seq<Wager>, name: string): real
    decreases |wagers|
  {
    if wagers == [] then 0.0
    else
      var w := wagers[0];
      match ApplySettlement(balances, w.name, w.betAmount, w.profit)
      case Success(b) => (if w.name == name then w.profit else 0.0) + CommittedProfit(b, wagers[1..], name)
      case Failure(_) => CommittedProfit(balances, wagers[1..], name)
  }

  /** No update is lost or applied twice: a member's final balance is the initial one plus the
      profits of exactly the wagers that were accepted. */
  lemma {:induction false} ReplayAddsCommittedProfits(balances: map<string, real>, wagers: seq<Wager>, name: string)
    requires name in balances
    ensures name in Replay(balances, wagers)
    ensures Replay(balances, wagers)[name] == balances[name] + CommittedProfit(balances, wagers, name)
    decreases |wagers|
  {
    if wagers != [] {
      var w := wagers[0];
      match ApplySettlement(balances, w.name, w.betAmount, w.profit)
      case Success(b) => ReplayAddsCommittedProfits(b, wagers[1..], name);
      case Failure(_) => ReplayAddsCommittedProfits(balances, wagers[1..], name);
    }
  }

  /** Every wager's profit is what the engine computes for a non-negative stake. */
  ghost predicate EngineProfits(wagers: seq<Wager>) {
    forall i :: 0 <= i < |wagers| ==>
      wagers[i].betAmount >= 0.0 && exists pay: Hundredths :: wagers[i].profit == CalProfit(wagers[i].betAmount, pay)
  }

  predicate NonNegative(balances: map<string, real>) {
    forall name :: name in balances ==> balances[name] >= 0.0
  }

  /** Settling engine-computed wagers in any order never drives any balance below zero. */
  lemma {:induction false} ReplayKeepsBalancesNonNegative(balances: map<string, real>, wagers: seq<Wager>)
    requires NonNegative(balances)
    requires EngineProfits(wagers)
    ensures NonNegative(Replay(balances, wagers))
    decreases |wagers|
  {
    if wagers != [] {
      var w := wagers[0];
      assert EngineProfits(wagers[1..]) by {
        forall i | 0 <= i < |wagers[1..]|
          ensures wagers[1..][i].betAmount >= 0.0
          ensures exists pay: Hundredths :: wagers[1..][i].profit == CalProfit(wagers[1..][i].betAmount, pay)
        {
          assert wagers[1..][i] == wagers[i + 1];
        }
      }
      match ApplySettlement(balances, w.name, w.betAmount, w.profit)
      case Success(b) =>
        assert wagers[0] == w;
        var pay: Hundredths :| w.profit == CalProfit(w.betAmount, pay);
        SettledBalanceNonNegative(balances, w.name, w.betAmount, pay);
        ReplayKeepsBalancesNonNegative(b, wagers[1..]);
      case Failure(_) =>
        ReplayKeepsBalancesNonNegative(balances, wagers[1..]);
    }
  }

  predicate IdsIncreasing(h: seq<GameResult>) {
    forall i, j :: 0 <= i < j < |h| ==> h[i].gameId < h[j].gameId
  }

  predicate IdsDecreasing(h: seq<GameResult>) {
    forall i, j :: 0 <= i < j < |h| ==> h[i].gameId > h[j].gameId
  }

  /** The game_results table and the members' balances. */
  class Ledger {
    /** Balance of each member, keyed by member name. */
    var balances: map<string, real>
    /** The rows of game_results in insertion order. */
    var history: seq<GameResult>
    /** Next value of the table's auto-increment counter. */
    var nextId: nat

    /** Rows carry strictly increasing ids, all below the counter. */
    ghost predicate Valid()
      reads this
    {
      && IdsIncreasing(history)
      && forall k :: 0 <= k < |history| ==> history[k].gameId < nextId
    }

    constructor (initial: map<string, real>)
      ensures Valid()
      ensures balances == initial && history == [] && nextId == 1
    {
      balances := initial;
      history := [];
      nextId := 1;
    }

    /** Looks the member up by the result's name, refuses a balance below the stake, and
        otherwise adds the result's profit to that balance. */
    method UpdatePlayerBalance(grs: GameResult, betAmount: real) returns (err: Option<LedgerError>)
      modifies this`balances
      ensures match ApplySettlement(old(balances), grs.name, betAmount, grs.profit)
        case Success(b) => err == None && balances == b
        case Failure(e) => err == Some(e) && balances == old(balances)
    {
      if grs.name !in balances {
        return Some(RecordNotFound);
      }
      var balance := balances[grs.name];
      if balance < betAmount {
        return Some(InsufficientBalance);
      }
      balances := balances[grs.name := BigFloatAdd(balance, grs.profit)];
      return None;
    }

    /** Inserts the result in a transaction, then updates the balance; a refused update rolls
        the insert back. The auto-increment counter is not rolled back, so a refused wager
        leaves a gap in the ids. */
    method AppendBetHistory(gameResult: GameResult, betAmount: real) returns (err: Option<LedgerError>)
      requires Valid()
      modifies this
      ensures Valid()
      ensures nextId == old(nextId) + 1
      ensures match ApplySettlement(old(balances), gameResult.name, betAmount, gameResult.profit)
        case Success(b) =>
          && err == None
          && balances == b
          && history == old(history) + [gameResult.(gameId := old(nextId))]
        case Failure(e) =>
          && err == Some(e)
          && balances == old(balances)
          && history == old(history)
    {
      var row := gameResult.(gameId := nextId);
      nextId := nextId + 1;
      var staged := history + [row];
      err := UpdatePlayerBalance(gameResult, betAmount);
      if err == None {
        history := staged;
      }
    }
  }

  /** The sequence read backwards. */
  function Reverse(s: seq<GameResult>): (r: seq<GameResult>)
    ensures |r| == |s|
    ensures forall i :: 0 <= i < |s| ==> r[i] == s[|s| - 1 - i]
    ensures forall x :: x in r <==> x in s
  {
    if s == [] then [] else Reverse(s[1..]) + [s[0]]
  }

  /** Read backwards, increasing ids become decreasing ones. */
  lemma ReverseDecreasing(s: seq<GameResult>)
    requires IdsIncreasing(s)
    ensures IdsDecreasing(Reverse(s))
  {
  }

  /** The rows whose id lies in (lo, hi], in table order. */
  function Between(h: seq<GameResult>, lo: int, hi: int): (w: seq<GameResult>)
    ensures forall r :: r in w <==> r in h && lo < r.gameId <= hi
    ensures IdsIncreasing(h) ==> IdsIncreasing(w)
  {
    if h == [] then []
    else
      var rest := Between(h[1..], lo, hi);
      assert forall r :: r in h[1..] ==> r in h;
      if lo < h[0].gameId <= hi then [h[0]] + rest else rest
  }

  /** Rows with strictly increasing ids inside (lo, hi] number at most hi - lo. */
  lemma {:induction false} RangeHoldsFewRows(s: seq<GameResult>, lo: int, hi: int)
    requires IdsIncreasing(s)
    requires forall r :: r in s ==> lo < r.gameId <= hi
    ensures |s| <= if hi >= lo then hi - lo else 0
  {
    if s != [] {
      assert s[0] in s;
      assert forall r :: r in s[1..] ==> r in s;
      forall r | r in s[1..] ensures s[0].gameId < r.gameId <= hi {
        var k :| 0 <= k < |s[1..]| && s[1..][k] == r;
        assert s[k + 1] == r;
      }
      RangeHoldsFewRows(s[1..], s[0].gameId, hi);
    }
  }

  /** In a table with increasing ids, a row outside a suffix has a lower id than every row of it. */
  lemma SuffixHoldsHighestIds(h: seq<GameResult>, from: nat, r: GameResult, q: GameResult)
    requires IdsIncreasing(h)
    requires from <= |h|
    requires r in h && r !in h[from..] && q in h[from..]
    ensures r.gameId < q.gameId
  {
    var i :| 0 <= i < |h| && h[i] == r;
    var j :| 0 <= j < |h[from..]| && h[from..][j] == q;
    assert h[from + j] == q;
  }

  /** The PageLimit rows with the highest ids, highest first. */
  function LatestPage(h: seq<GameResult>): (page: seq<GameResult>)
    requires IdsIncreasing(h)
    ensures |page| == if |h| < PageLimit then |h| else PageLimit
    ensures IdsDecreasing(page)
    ensures forall r :: r in page ==> r in h
    ensures forall r, q :: r in h && r !in page && q in page ==> r.gameId < q.gameId
  {
    var from := if |h| < PageLimit then 0 else |h| - PageLimit;
    var tail := h[from..];
    assert IdsIncreasing(tail);
    ReverseDecreasing(tail);
    forall r, q | r in h && r !in tail && q in tail ensures r.gameId < q.gameId {
      SuffixHoldsHighestIds(h, from, r, q);
    }
    Reverse(tail)
  }

  /** The history query: with a positive game id, the rows whose id lies in
      (gameId, gameId + 20], highest first, falling back to the latest page when there are
      none; with game id 0, the latest page. The upper bound is computed in unsigned
      64-bit arithmetic. */
  function GetAllBetHistoryFromDB(history: seq<GameResult>, gameId: nat): (page: seq<GameResult>)
    requires IdsIncreasing(history)
    requires gameId < Uint64Modulus
    ensures |page| <= PageLimit
    ensures IdsDecreasing(page)
    ensures forall r :: r in page ==> r in history
    ensures gameId == 0 ==> page == LatestPage(history)
  {
    if gameId > 0 then
      var hi := (gameId + WindowSpan) % Uint64Modulus;
      var inWindow := Between(history, gameId, hi);
      RangeHoldsFewRows(inWindow, gameId, hi);
      ReverseDecreasing(inWindow);
      var window := Reverse(inWindow);
      if |window| == 0 then LatestPage(history) else window
    else
      LatestPage(history)
  }

  /** A positive id whose window holds rows yields exactly those rows. */
  lemma WindowQuery(history: seq<GameResult>, gameId: nat)
    requires IdsIncreasing(history)
    requires 0 < gameId && gameId + WindowSpan < Uint64Modulus
    requires exists r :: r in history && gameId < r.gameId <= gameId + WindowSpan
    ensures forall r ::
      (r in GetAllBetHistoryFromDB(history, gameId) <==> r in history && gameId < r.gameId <= gameId + WindowSpan)
  {
    var hi := (gameId + WindowSpan) % Uint64Modulus;
    assert hi == gameId + WindowSpan;
    var window := Reverse(Between(history, gameId, hi));
    var r0 :| r0 in history && gameId < r0.gameId <= hi;
    assert r0 in window;
    assert GetAllBetHistoryFromDB(history, gameId) == window;
  }

  /** A positive id whose window is empty yields the latest page instead. */
  lemma EmptyWindowFallsBack(history: seq<GameResult>, gameId: nat)
    requires IdsIncreasing(history)
    requires 0 < gameId < Uint64Modulus
    requires forall r :: r in history ==> !(gameId < r.gameId <= (gameId + WindowSpan) % Uint64Modulus)
    ensures GetAllBetHistoryFromDB(history, gameId) == LatestPage(history)
  {
  }

  /** Near the top of the id range the upper bound wraps below the id itself, so the window
      is always empty and such a query always returns the latest page. */
  lemma WrappedBoundFallsBack(history: seq<GameResult>, gameId: nat)
    requires IdsIncreasing(history)
    requires Uint64Modulus - WindowSpan <= gameId < Uint64Modulus
    ensures GetAllBetHistoryFromDB(history, gameId) == LatestPage(history)
  {
    assert (gameId + WindowSpan) % Uint64Modulus == gameId + WindowSpan - Uint64Modulus;
    EmptyWindowFallsBack(history, gameId);
  }
}
