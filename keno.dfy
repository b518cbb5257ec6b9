/** The keno draw and payout engine: a ten-number draw taken from a permutation of the
    pool, match counting between the player's selection and the draw, the fixed payout
    table and the profit rule. Money is exact (`real`); payout multipliers are kept in
    hundredths, so the Go server's rounding to 8 fractional digits is not part of this model. */
module Keno {

  import opened Wrappers

  /** Numbers of the pool run from 1 to PoolSize. */
  const PoolSize: nat := 40
  /** Numbers per draw. */
  const DrawSize: nat := 10

  /** A payout multiplier in hundredths: 396 stands for 3.96. */
  type Hundredths = nat

  /** Settlement panics when the payout row has no entry for the match count. */
  datatype SettleError = PayoutIndexOutOfRange

  /** What a settlement hands back: the multiplier, the draw (the "win fields") and the profit. */
  datatype Settlement = Settlement(payout: Hundredths, winFields: seq<int>, profit: real)

  predicate Distinct(s: seq<int>) {
    forall i, j :: 0 <= i < j < |s| ==> s[i] != s[j]
  }

  /** `perm` holds each of 0..n-1 exactly once, as a random permutation of the pool does. */
  predicate IsPermutation(perm: seq<int>, n: nat) {
    && |perm| == n
    && (forall i :: 0 <= i < n ==> 0 <= perm[i] < n)
    && Distinct(perm)
  }

  /** A draw: DrawSize distinct numbers of the pool. */
  predicate IsDraw(d: seq<int>) {
    && |d| == DrawSize
    && Distinct(d)
    && (forall i :: 0 <= i < |d| ==> 1 <= d[i] <= PoolSize)
  }

  /** The draw a permutation of 0..39 determines: its first ten entries, shifted into 1..40. */
  function DrawOf(perm: seq<int>): (d: seq<int>)
    requires IsPermutation(perm, PoolSize)
    ensures IsDraw(d)
  {
    seq(DrawSize, i requires 0 <= i < DrawSize => perm[i] + 1)
  }

  /** Builds the draw from an injected permutation by filling a preallocated list of ten. */
  method RandomList(perm: seq<int>) returns (draw: seq<int>)
    requires IsPermutation(perm, PoolSize)
    ensures draw == DrawOf(perm)
    ensures IsDraw(draw)
  {
    var list := new int[DrawSize];
    var i := 0;
    while i < |perm|
      invariant 0 <= i <= DrawSize
      invariant forall k :: 0 <= k < i ==> list[k] == perm[k] + 1
    {
      if i > 9 {
        break;
      }
      list[i] := perm[i] + 1;
      i := i + 1;
    }
    draw := list[..];
  }

  /** Number of occurrences of `n` recorded in a count map; an absent key counts as zero. */
  function Count(counts: map<int, int>, n: int): int {
    if n in counts then counts[n] else 0
  }

  /** `counts` records, key by key, how often each number occurs in `pool`. */
  ghost predicate CountsOf(counts: map<int, int>, pool: multiset<int>) {
    forall n :: Count(counts, n) == pool[n]
  }

  /** Recording one more occurrence of `n` keeps the count map in step with the draw. */
  lemma CountUp(counts: map<int, int>, pool: multiset<int>, n: int)
    requires CountsOf(counts, pool)
    ensures CountsOf(counts[n := Count(counts, n) + 1], pool + multiset{n})
  {
    var counts' := counts[n := Count(counts, n) + 1];
    forall k ensures Count(counts', k) == (pool + multiset{n})[k] {
      assert Count(counts, k) == pool[k];
    }
  }

  /** A positive count means the number is still in the pool; consuming it keeps the two in step. */
  lemma CountDown(counts: map<int, int>, pool: multiset<int>, n: int)
    requires CountsOf(counts, pool)
    ensures (n in counts && counts[n] > 0) <==> n in pool
    ensures n in counts && counts[n] > 0 ==> CountsOf(counts[n := counts[n] - 1], pool - multiset{n})
  {
    assert Count(counts, n) == pool[n];
    if n in counts && counts[n] > 0 {
      var counts' := counts[n := counts[n] - 1];
      forall k ensures Count(counts', k) == (pool - multiset{n})[k] {
        assert Count(counts, k) == pool[k];
      }
    }
  }

  /** Matching as settlement performs it: each selected number, in order, consumes one
      occurrence of itself from what is left of the draw. */
  function Matches(sel: seq<int>, pool: multiset<int>): (n: nat)
    ensures n <= |sel| && n <= |pool|
  {
    if sel == [] then 0
    else if sel[0] in pool then
      assert pool == (pool - multiset{sel[0]}) + multiset{sel[0]};
      1 + Matches(sel[1..], pool - multiset{sel[0]})
    else Matches(sel[1..], pool)
  }

  /** The payout row for a selection of `len` numbers, indexed by match count. */
  function PayoutMap(len: int): (row: seq<Hundredths>)
    ensures 1 <= len <= 10 ==> |row| == len + 1 && row[0] == 0
    ensures 1 <= len <= 10 ==> forall m, m' :: 0 <= m <= m' < |row| ==> row[m] <= row[m']
    ensures !(1 <= len <= 10) ==> row == [0]
  {
    if len == 1 then [0, 396]
    else if len == 2 then [0, 190, 450]
    else if len == 3 then [0, 100, 310, 1040]
    else if len == 4 then [0, 80, 180, 500, 2250]
    else if len == 5 then [0, 25, 140, 410, 1650, 3600]
    else if len == 6 then [0, 0, 100, 368, 700, 1650, 4000]
    else if len == 7 then [0, 0, 47, 300, 450, 1400, 3100, 6000]
    else if len == 8 then [0, 0, 0, 220, 400, 1300, 2200, 5500, 7000]
    else if len == 9 then [0, 0, 0, 155, 300, 800, 1500, 4400, 6000, 7000]
    else if len == 10 then [0, 0, 0, 140, 225, 450, 800, 1700, 5000, 8000, 10000]
    else [0]
  }

  /** Profit of a wager: stake times multiplier, less the stake (before rounding). */
  function CalProfit(amount: real, pay: Hundredths): (profit: real)
    ensures pay == 0 ==> profit == -amount
    ensures pay == 100 ==> profit == 0.0
    ensures amount >= 0.0 ==> profit >= -amount
    ensures amount > 0.0 ==> (profit > 0.0 <==> pay > 100)
  {
    var p := pay as real;
    ProfitSign(amount, p);
    amount * p / 100.0 - amount
  }

  lemma ProfitSign(amount: real, p: real)
    requires p >= 0.0
    ensures amount > 0.0 ==> (amount * p / 100.0 - amount > 0.0 <==> p > 100.0)
    ensures amount >= 0.0 ==> amount * p / 100.0 - amount >= -amount
  {
    assert amount * p / 100.0 - amount == amount * (p - 100.0) / 100.0;
    if amount > 0.0 {
      if p > 100.0 {
        assert amount * (p - 100.0) > 0.0;
      } else {
        assert amount * (100.0 - p) >= 0.0;
      }
    }
    if amount >= 0.0 {
      assert amount * p >= 0.0;
    }
  }

  /** The settlement the engine computes for a selection, a stake and an injected permutation. */
  function Settle(sel: seq<int>, betAmount: real, perm: seq<int>): (r: Result<Settlement, SettleError>)
    requires IsPermutation(perm, PoolSize)
    ensures var m := Matches(sel, multiset(DrawOf(perm)));
      && (r.Failure? <==> |sel| > DrawSize && m > 0)
      && (r.Success? ==>
            && r.value.payout == PayoutMap(|sel|)[m]
            && r.value.winFields == DrawOf(perm)
            && r.value.profit == CalProfit(betAmount, r.value.payout))
  {
    var draw := DrawOf(perm);
    var m := Matches(sel, multiset(draw));
    var row := PayoutMap(|sel|);
    if m < |row| then Success(Settlement(row[m], draw, CalProfit(betAmount, row[m])))
    else Failure(PayoutIndexOutOfRange)
  }

  /** Draws, counts the matches with a count map it decrements, and looks up the multiplier. */
  method SettleKeno(selectedFields: seq<int>, betAmount: real, perm: seq<int>)
    returns (r: Result<Settlement, SettleError>)
    requires IsPermutation(perm, PoolSize)
    ensures r == Settle(selectedFields, betAmount, perm)
  {
    var randNums := RandomList(perm);

    var randNumsCount: map<int, int> := map[];
    var i := 0;
    while i < |randNums|
      invariant 0 <= i <= |randNums|
      invariant CountsOf(randNumsCount, multiset(randNums[..i]))
    {
      var n := randNums[i];
      assert randNums[..i + 1] == randNums[..i] + [n];
      CountUp(randNumsCount, multiset(randNums[..i]), n);
      randNumsCount := randNumsCount[n := Count(randNumsCount, n) + 1];
      i := i + 1;
    }
    assert randNums[..i] == randNums;

    ghost var pool := multiset(randNums);
    var sameCount := 0;
    var j := 0;
    while j < |selectedFields|
      invariant 0 <= j <= |selectedFields|
      invariant CountsOf(randNumsCount, pool)
      invariant sameCount + Matches(selectedFields[j..], pool) == Matches(selectedFields, multiset(randNums))
    {
      var n := selectedFields[j];
      assert selectedFields[j..][1..] == selectedFields[j + 1..];
      CountDown(randNumsCount, pool, n);
      if n in randNumsCount && randNumsCount[n] > 0 {
        sameCount := sameCount + 1;
        randNumsCount := randNumsCount[n := randNumsCount[n] - 1];
        pool := pool - multiset{n};
      }
      j := j + 1;
    }
    assert selectedFields[j..] == [];
    assert sameCount == Matches(selectedFields, multiset(DrawOf(perm)));

    var row := PayoutMap(|selectedFields|);
    if sameCount < |row| {
      r := Success(Settlement(row[sameCount], randNums, CalProfit(betAmount, row[sameCount])));
    } else {
      r := Failure(PayoutIndexOutOfRange);
    }
  }

  /** The match count is the size of the multiset intersection of selection and draw. */
  lemma {:induction false} MatchesIsIntersection(sel: seq<int>, pool: multiset<int>)
    ensures Matches(sel, pool) == |multiset(sel) * pool|
  {
    if sel == [] {
      assert multiset(sel) * pool == multiset{};
    } else {
      var x, rest := sel[0], sel[1..];
      assert sel == [x] + rest;
      assert multiset(sel) == multiset{x} + multiset(rest);
      if x in pool {
        MatchesIsIntersection(rest, pool - multiset{x});
        IntersectionTakesOne(x, multiset(rest), pool);
      } else {
        MatchesIsIntersection(rest, pool);
        IntersectionSkips(x, multiset(rest), pool);
      }
    }
  }

  lemma IntersectionTakesOne(x: int, m: multiset<int>, pool: multiset<int>)
    requires x in pool
    ensures (multiset{x} + m) * pool == multiset{x} + m * (pool - multiset{x})
  {
    forall y ensures ((multiset{x} + m) * pool)[y] == (multiset{x} + m * (pool - multiset{x}))[y] {
    }
  }

  lemma IntersectionSkips(x: int, m: multiset<int>, pool: multiset<int>)
    requires x !in pool
    ensures (multiset{x} + m) * pool == m * pool
  {
    forall y ensures ((multiset{x} + m) * pool)[y] == (m * pool)[y] {
    }
  }

  /** A number picked `k` times counts as often as it is picked, but no more often than it
      occurs in the draw. */
  lemma {:induction false} RepeatedPick(x: int, k: nat, pool: multiset<int>)
    ensures Matches(seq(k, _ => x), pool) == if k <= pool[x] then k else pool[x]
  {
    var s := seq(k, _ => x);
    if k > 0 {
      var s' := seq(k - 1, _ => x);
      assert s[0] == x && s[1..] == s';
      if x in pool {
        var left := pool - multiset{x};
        assert left[x] == pool[x] - 1;
        RepeatedPick(x, k - 1, left);
        assert Matches(s, pool) == 1 + Matches(s', left);
      } else {
        RepeatedPick(x, k - 1, pool);
        assert Matches(s, pool) == Matches(s', pool);
      }
    }
  }

  /** A number occurs at most once in a draw. */
  lemma {:induction false} DrawHoldsEachNumberOnce(d: seq<int>, x: int)
    requires Distinct(d)
    ensures multiset(d)[x] <= 1
  {
    if d != [] {
      assert d == [d[0]] + d[1..];
      DrawHoldsEachNumberOnce(d[1..], x);
      if d[0] == x {
        assert x !in d[1..];
      }
    }
  }

  /** So repeating a number in the selection never scores it twice. */
  lemma RepeatedPickScoresAtMostOnce(x: int, k: nat, perm: seq<int>)
    requires IsPermutation(perm, PoolSize)
    ensures Matches(seq(k, _ => x), multiset(DrawOf(perm))) <= 1
  {
    RepeatedPick(x, k, multiset(DrawOf(perm)));
    DrawHoldsEachNumberOnce(DrawOf(perm), x);
  }

  /** Worked example: five numbers of which two are drawn pay 1.40, so a stake of 10 nets 4. */
  lemma FiveNumberExample()
    ensures Matches([1, 7, 13, 22, 31], multiset{1, 2, 3, 4, 5, 6, 7, 8, 9, 10}) == 2
    ensures PayoutMap(5)[2] == 140
    ensures CalProfit(10.0, 140) == 4.0
  {
    FiveNumberMatches();
  }

  lemma FiveNumberMatches()
    ensures Matches([1, 7, 13, 22, 31], multiset{1, 2, 3, 4, 5, 6, 7, 8, 9, 10}) == 2
  {
    var sel := [1, 7, 13, 22, 31];
    var draw := multiset{1, 2, 3, 4, 5, 6, 7, 8, 9, 10};
    assert draw[1] == 1 && draw[7] == 1;
    assert draw[13] == 0 && draw[22] == 0 && draw[31] == 0;
    var left := draw - multiset{1};
    var left' := left - multiset{7};
    assert left'[13] == 0 && left'[22] == 0 && left'[31] == 0;
    assert sel[1..] == [7, 13, 22, 31] && sel[1..][1..] == [13, 22, 31];
    NoneDrawn([13, 22, 31], left');
    assert Matches(sel[1..], left) == 1 + Matches([13, 22, 31], left');
  }

  lemma NoneDrawn(sel: seq<int>, pool: multiset<int>)
    requires forall i :: 0 <= i < |sel| ==> sel[i] !in pool
    ensures Matches(sel, pool) == 0
  {
    if sel != [] {
      NoneDrawn(sel[1..], pool);
    }
  }
}
