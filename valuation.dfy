/** The player's value function, its TD(0) update and its move choice, as
    functions of the four addressed weight tables and of the working pattern
    set the computation starts from. */
module Valuation {
  import opened Symmetry
  import opened Features

  /** The four tables `net[0..3]` that the lookups address, each large enough
      for every feature code. */
  predicate Sized(W: seq<seq<real>>)
  {
    |W| == TUPLE_NUM && forall t :: 0 <= t < TUPLE_NUM ==> |W[t]| >= TUPLE_SPACE
  }

  /** The four lookups of one view: `net[t][caculate_tuple_value(b, t)]`
      for t = 0..3, added in that order. */
  function TupleSum(W: seq<seq<real>>, F: seq<Pos>, b: Board): real
    requires Sized(W) && |F| == PATTERN_CELLS
  {
    Lookups(W, F, b, TUPLE_NUM)
  }

  /** The first n lookups of one view. */
  function Lookups(W: seq<seq<real>>, F: seq<Pos>, b: Board, n: nat): real
    requires Sized(W) && |F| == PATTERN_CELLS && n <= TUPLE_NUM
  {
    if n == 0 then 0.0 else Lookups(W, F, b, n - 1) + W[n - 1][Code(F, n - 1, b)]
  }

  /** The four lookups of a view, written out. */
  lemma TupleSumExpanded(W: seq<seq<real>>, F: seq<Pos>, b: Board)
    requires Sized(W) && |F| == PATTERN_CELLS
    ensures TupleSum(W, F, b) == W[0][Code(F, 0, b)] + W[1][Code(F, 1, b)] + W[2][Code(F, 2, b)] + W[3][Code(F, 3, b)]
  {
    assert Lookups(W, F, b, 1) == W[0][Code(F, 0, b)];
    assert Lookups(W, F, b, 2) == Lookups(W, F, b, 1) + W[1][Code(F, 1, b)];
    assert Lookups(W, F, b, 3) == Lookups(W, F, b, 2) + W[2][Code(F, 2, b)];
    assert Lookups(W, F, b, 4) == Lookups(W, F, b, 3) + W[3][Code(F, 3, b)];
  }

  /** The two lookups sums of outer iteration k of `board_value` (turned k
      times, then mirrored or not). */
  function TurnSum(W: seq<seq<real>>, F: seq<Pos>, b: Board, k: nat): real
    requires Sized(W) && |F| == PATTERN_CELLS
  {
    TupleSum(W, Oriented(F, View(k, false)), b) + TupleSum(W, Oriented(F, View(k, true)), b)
  }

  /** The total after the first l outer iterations of `board_value`. */
  function Partial(W: seq<seq<real>>, F: seq<Pos>, b: Board, l: nat): real
    requires Sized(W) && |F| == PATTERN_CELLS
  {
    if l == 0 then 0.0 else Partial(W, F, b, l - 1) + TurnSum(W, F, b, l)
  }

  /** `board_value(b)`: four turns, two mirror states each, four lookups each. */
  function BoardValue(W: seq<seq<real>>, F: seq<Pos>, b: Board): real
    requires Sized(W) && |F| == PATTERN_CELLS
  {
    Partial(W, F, b, 4)
  }

  /** The 32 lookups of board_value, written out view by view: each of the
      eight orientations rf^m . rt^k (k = 1..4, m = 0..1) exactly once. */
  lemma BoardValueExpanded(W: seq<seq<real>>, F: seq<Pos>, b: Board)
    requires Sized(W) && |F| == PATTERN_CELLS
    ensures BoardValue(W, F, b)
         == TupleSum(W, Oriented(F, View(1, false)), b) + TupleSum(W, Oriented(F, View(1, true)), b)
          + TupleSum(W, Oriented(F, View(2, false)), b) + TupleSum(W, Oriented(F, View(2, true)), b)
          + TupleSum(W, Oriented(F, View(3, false)), b) + TupleSum(W, Oriented(F, View(3, true)), b)
          + TupleSum(W, Oriented(F, View(4, false)), b) + TupleSum(W, Oriented(F, View(4, true)), b)
  {
    BoardValueByTurns(W, F, b);
  }

  /** board_value is the sum of its four outer iterations. */
  lemma BoardValueByTurns(W: seq<seq<real>>, F: seq<Pos>, b: Board)
    requires Sized(W) && |F| == PATTERN_CELLS
    ensures BoardValue(W, F, b)
         == TurnSum(W, F, b, 1) + TurnSum(W, F, b, 2) + TurnSum(W, F, b, 3) + TurnSum(W, F, b, 4)
  {
    assert Partial(W, F, b, 1) == TurnSum(W, F, b, 1);
    assert Partial(W, F, b, 2) == Partial(W, F, b, 1) + TurnSum(W, F, b, 2);
    assert Partial(W, F, b, 3) == Partial(W, F, b, 2) + TurnSum(W, F, b, 3);
  }

  /** The board seen through `rt`: cell p of the result is cell rt[p] of b. */
  function Turn(b: Board): Board
  {
    seq(16, p requires 0 <= p < 16 => b[Rot(p)])
  }

  /** The board seen through `rf`. */
  function Mirror(b: Board): Board
  {
    seq(16, p requires 0 <= p < 16 => b[Refl(p)])
  }

  /** Looking at b1 through view v is looking at b2 through view v2. */
  lemma TupleSumTransfer(W: seq<seq<real>>, F: seq<Pos>, v: View, b1: Board, v2: View, b2: Board)
    requires Sized(W) && |F| == PATTERN_CELLS
    requires forall p: Pos :: b1[ViewPos(v, p)] == b2[ViewPos(v2, p)]
    ensures TupleSum(W, Oriented(F, v), b1) == TupleSum(W, Oriented(F, v2), b2)
  {
    forall t | 0 <= t < TUPLE_NUM
      ensures Code(Oriented(F, v), t, b1) == Code(Oriented(F, v2), t, b2)
    {
      forall j | 0 <= j < TUPLE_LEN
        ensures Cells(Oriented(F, v), t, b1)[j] == Cells(Oriented(F, v2), t, b2)[j]
      {
        var p := F[6 * t + j];
        assert b1[ViewPos(v, p)] == b2[ViewPos(v2, p)];
      }
      assert Cells(Oriented(F, v), t, b1) == Cells(Oriented(F, v2), t, b2);
      CodeIsPack(Oriented(F, v), t, b1);
      CodeIsPack(Oriented(F, v2), t, b2);
    }
    TupleSumExpanded(W, Oriented(F, v), b1);
    TupleSumExpanded(W, Oriented(F, v2), b2);
  }

  /** One view of the turned board is the next view of the board. */
  lemma TupleSumTurn(W: seq<seq<real>>, F: seq<Pos>, b: Board, k: nat, m: bool)
    requires Sized(W) && |F| == PATTERN_CELLS && 1 <= k <= 4
    ensures TupleSum(W, Oriented(F, View(k, m)), Turn(b))
         == TupleSum(W, Oriented(F, View(TurnsAfterRot(k, m), m)), b)
  {
    var k' := TurnsAfterRot(k, m);
    forall p: Pos
      ensures Turn(b)[ViewPos(View(k, m), p)] == b[ViewPos(View(k', m), p)]
    {
      RotOfView(k, m, p);
    }
    TupleSumTransfer(W, F, View(k, m), Turn(b), View(k', m), b);
  }

  /** One view of the mirrored board is the oppositely mirrored view of the board. */
  lemma TupleSumMirror(W: seq<seq<real>>, F: seq<Pos>, b: Board, k: nat, m: bool)
    requires Sized(W) && |F| == PATTERN_CELLS
    ensures TupleSum(W, Oriented(F, View(k, m)), Mirror(b)) == TupleSum(W, Oriented(F, View(k, !m)), b)
  {
    forall p: Pos
      ensures Mirror(b)[ViewPos(View(k, m), p)] == b[ViewPos(View(k, !m), p)]
    {
      ReflOfView(k, m, p);
    }
    TupleSumTransfer(W, F, View(k, m), Mirror(b), View(k, !m), b);
  }

  /** The value of a board equals the value of the board turned by a quarter:
      the eight views form the dihedral group of the grid. */
  lemma {:induction false} ValueTurnInvariant(W: seq<seq<real>>, F: seq<Pos>, b: Board)
    requires Sized(W) && |F| == PATTERN_CELLS
    ensures BoardValue(W, F, Turn(b)) == BoardValue(W, F, b)
  {
    BoardValueExpanded(W, F, b);
    BoardValueExpanded(W, F, Turn(b));
    TupleSumTurn(W, F, b, 1, false);
    TupleSumTurn(W, F, b, 2, false);
    TupleSumTurn(W, F, b, 3, false);
    TupleSumTurn(W, F, b, 4, false);
    TupleSumTurn(W, F, b, 1, true);
    TupleSumTurn(W, F, b, 2, true);
    TupleSumTurn(W, F, b, 3, true);
    TupleSumTurn(W, F, b, 4, true);
  }

  /** The value of a board equals the value of its mirror image. */
  lemma {:induction false} ValueMirrorInvariant(W: seq<seq<real>>, F: seq<Pos>, b: Board)
    requires Sized(W) && |F| == PATTERN_CELLS
    ensures BoardValue(W, F, Mirror(b)) == BoardValue(W, F, b)
  {
    BoardValueExpanded(W, F, b);
    BoardValueExpanded(W, F, Mirror(b));
    TupleSumMirror(W, F, b, 1, false);
    TupleSumMirror(W, F, b, 2, false);
    TupleSumMirror(W, F, b, 3, false);
    TupleSumMirror(W, F, b, 4, false);
    TupleSumMirror(W, F, b, 1, true);
    TupleSumMirror(W, F, b, 2, true);
    TupleSumMirror(W, F, b, 3, true);
    TupleSumMirror(W, F, b, 4, true);
  }

  // ---------------------------------------------------------------------------
  // train_weight

  /** `0.1 / (tuple_num * 8)` */
  const RATE: real := 0.1 / 32.0

  /** `v_s`: the increment, computed from the weights before any write. */
  function TdStep(W: seq<seq<real>>, F: seq<Pos>, previous: Board, next: Board, reward: int, last: int): real
    requires Sized(W) && |F| == PATTERN_CELLS
  {
    if last != 0 then 0.0
    else RATE * (BoardValue(W, F, next) - BoardValue(W, F, previous) + reward as real)
  }

  /** The code of table t that view rf^m . rt^k addresses on board b. */
  function ViewCode(F: seq<Pos>, t: nat, b: Board, k: nat, m: bool): nat
    requires |F| == PATTERN_CELLS && t < TUPLE_NUM
  {
    Code(Oriented(F, View(k, m)), t, b)
  }

  /** How many of the first n views of turn k (the unmirrored one, then the
      mirrored one) read entry i of table t. */
  function Hits(F: seq<Pos>, t: nat, b: Board, k: nat, i: nat, n: nat): nat
    requires |F| == PATTERN_CELLS && t < TUPLE_NUM && n <= 2
  {
    if n == 0 then 0
    else Hits(F, t, b, k, i, n - 1) + (if ViewCode(F, t, b, k, n == 2) == i then 1 else 0)
  }

  /** Both views of turn k, counted. */
  lemma BothHits(F: seq<Pos>, t: nat, b: Board, k: nat, i: nat)
    requires |F| == PATTERN_CELLS && t < TUPLE_NUM
    ensures Hits(F, t, b, k, i, 2)
         == (if ViewCode(F, t, b, k, false) == i then 1 else 0) + (if ViewCode(F, t, b, k, true) == i then 1 else 0)
  {
    assert Hits(F, t, b, k, i, 1) == if ViewCode(F, t, b, k, false) == i then 1 else 0;
  }

  /** How many of the views of the first l outer iterations of board_value
      read entry i of table t. */
  function ViewCount(F: seq<Pos>, t: nat, b: Board, l: nat, i: nat): nat
    requires |F| == PATTERN_CELLS && t < TUPLE_NUM
  {
    if l == 0 then 0
    else ViewCount(F, t, b, l - 1, i) + Hits(F, t, b, l, i, 2)
  }

  /** `w[c] += d` */
  function AddAt(w: seq<real>, c: nat, d: real): (r: seq<real>)
    requires c < |w|
    ensures |r| == |w|
  {
    w[c := w[c] + d]
  }

  /** W' has four tables, as W has, each of the same length as before. */
  predicate SameShape(W: seq<seq<real>>, W': seq<seq<real>>)
  {
    |W| == |W'| == TUPLE_NUM
    && |W'[0]| == |W[0]| && |W'[1]| == |W[1]| && |W'[2]| == |W[2]| && |W'[3]| == |W[3]|
  }

  /** One pass of train_weight's inner loop with working patterns G:
      `net[t][caculate_tuple_value(b, t)] += d` for t = 0..3. */
  function AddToView(W: seq<seq<real>>, G: seq<Pos>, b: Board, d: real): (W': seq<seq<real>>)
    requires Sized(W) && |G| == PATTERN_CELLS
    ensures Sized(W') && SameShape(W, W')
  {
    Writes(W, G, b, d, TUPLE_NUM)
  }

  /** The writes to the first n tables of one pass. */
  function Writes(W: seq<seq<real>>, G: seq<Pos>, b: Board, d: real, n: nat): (W': seq<seq<real>>)
    requires Sized(W) && |G| == PATTERN_CELLS && n <= TUPLE_NUM
    ensures Sized(W') && SameShape(W, W')
  {
    if n == 0 then W else Writes(W, G, b, d, n - 1)[n - 1 := AddAt(W[n - 1], Code(G, n - 1, b), d)]
  }

  /** One pass writes `d` once into each of the four tables. */
  lemma AddToViewExpanded(W: seq<seq<real>>, G: seq<Pos>, b: Board, d: real)
    requires Sized(W) && |G| == PATTERN_CELLS
    ensures AddToView(W, G, b, d)
         == [AddAt(W[0], Code(G, 0, b), d), AddAt(W[1], Code(G, 1, b), d),
             AddAt(W[2], Code(G, 2, b), d), AddAt(W[3], Code(G, 3, b), d)]
  {
    assert Writes(W, G, b, d, 1) == [AddAt(W[0], Code(G, 0, b), d), W[1], W[2], W[3]];
    assert Writes(W, G, b, d, 2) == [AddAt(W[0], Code(G, 0, b), d), AddAt(W[1], Code(G, 1, b), d), W[2], W[3]];
    assert Writes(W, G, b, d, 3)
        == [AddAt(W[0], Code(G, 0, b), d), AddAt(W[1], Code(G, 1, b), d), AddAt(W[2], Code(G, 2, b), d), W[3]];
  }

  /** Whether m is odd: after an odd number of reflections the working
      patterns are mirrored. */
  function Odd(m: nat): bool
  {
    if m == 0 then false else !Odd(m - 1)
  }

  /** The weights after the first m inner iterations of outer iteration k of
      train_weight, the working patterns alternating between the unmirrored
      and the mirrored view of turn k. */
  function Inner(W: seq<seq<real>>, F: seq<Pos>, b: Board, k: nat, m: nat, d: real): (W': seq<seq<real>>)
    requires Sized(W) && |F| == PATTERN_CELLS
    ensures Sized(W') && SameShape(W, W')
  {
    if m == 0 then W
    else AddToView(Inner(W, F, b, k, m - 1, d), Oriented(F, View(k, Odd(m - 1))), b, d)
  }

  /** The weights after the first l outer iterations of train_weight. */
  function Bumped(W: seq<seq<real>>, F: seq<Pos>, b: Board, l: nat, d: real): (W': seq<seq<real>>)
    requires Sized(W) && |F| == PATTERN_CELLS
    ensures Sized(W') && SameShape(W, W')
  {
    if l == 0 then W else Inner(Bumped(W, F, b, l - 1, d), F, b, l, 4, d)
  }

  /** The four tables after `train_weight(previous, next, reward, last)`. */
  function Trained(W: seq<seq<real>>, F: seq<Pos>, previous: Board, next: Board, reward: int, last: int)
    : (W': seq<seq<real>>)
    requires Sized(W) && |F| == PATTERN_CELLS
    ensures Sized(W') && SameShape(W, W')
  {
    Bumped(W, F, previous, 4, TdStep(W, F, previous, next, reward, last))
  }

  /** d added k times, the effect of k writes `+= d` on one entry. */
  function AddedTimes(d: real, k: nat): real
  {
    if k == 0 then 0.0 else AddedTimes(d, k - 1) + d
  }

  /** k additions of d amount to k * d. */
  lemma {:induction false} AddedTimesIsProduct(d: real, k: nat)
    ensures AddedTimes(d, k) == (k as real) * d
  {
    if k > 0 {
      AddedTimesIsProduct(d, k - 1);
    }
  }

  /** Additions of d can be counted in two batches. */
  lemma {:induction false} AddedTimesSplit(d: real, j: nat, k: nat)
    ensures AddedTimes(d, j + k) == AddedTimes(d, j) + AddedTimes(d, k)
  {
    if k > 0 {
      AddedTimesSplit(d, j, k - 1);
      assert AddedTimes(d, j + k) == AddedTimes(d, j + k - 1) + d;
    }
  }

  /** At least two additions of a non-negative d give at least 2d, and of a
      non-positive d at most 2d. */
  lemma {:induction false} AddedTimesAtLeastTwice(d: real, k: nat)
    requires k >= 2
    ensures d >= 0.0 ==> AddedTimes(d, k) >= 2.0 * d
    ensures d <= 0.0 ==> AddedTimes(d, k) <= 2.0 * d
  {
    if k > 2 {
      AddedTimesAtLeastTwice(d, k - 1);
    } else {
      assert AddedTimes(d, 1) == d;
      assert AddedTimes(d, 2) == d + d;
    }
  }

  /** One outer iteration of train_weight adds d twice at the entry of the
      unmirrored view and twice at the entry of the mirrored one. */
  lemma InnerAt(U: seq<seq<real>>, F: seq<Pos>, b: Board, k: nat, d: real, t: nat, i: nat)
    requires Sized(U) && |F| == PATTERN_CELLS && t < TUPLE_NUM && i < |U[t]|
    ensures Inner(U, F, b, k, 4, d)[t][i]
         == U[t][i] + AddedTimes(d, 2 * ((if ViewCode(F, t, b, k, false) == i then 1 else 0)
                                       + (if ViewCode(F, t, b, k, true) == i then 1 else 0)))
  {
    var c0, c1 := ViewCode(F, t, b, k, false), ViewCode(F, t, b, k, true);
    assert Inner(U, F, b, k, 0, d) == U;
    assert !Odd(0) && Odd(1) && !Odd(2) && Odd(3);
    var u1 := Inner(U, F, b, k, 1, d);
    var u2 := Inner(U, F, b, k, 2, d);
    var u3 := Inner(U, F, b, k, 3, d);
    AddToViewExpanded(U, Oriented(F, View(k, false)), b, d);
    AddToViewExpanded(u1, Oriented(F, View(k, true)), b, d);
    AddToViewExpanded(u2, Oriented(F, View(k, false)), b, d);
    AddToViewExpanded(u3, Oriented(F, View(k, true)), b, d);
    assert u1[t] == AddAt(U[t], c0, d);
    assert u2[t] == AddAt(u1[t], c1, d);
    assert u3[t] == AddAt(u2[t], c0, d);
    assert Inner(U, F, b, k, 4, d)[t] == AddAt(u3[t], c1, d);
    assert AddedTimes(d, 1) == d;
    assert AddedTimes(d, 2) == d + d;
    assert AddedTimes(d, 3) == AddedTimes(d, 2) + d;
    assert AddedTimes(d, 4) == AddedTimes(d, 3) + d;
  }

  /** Outer iteration l adds d twice for each view of turn l that reads the entry. */
  lemma BumpedStep(W: seq<seq<real>>, F: seq<Pos>, b: Board, l: nat, d: real, t: nat, i: nat)
    requires Sized(W) && |F| == PATTERN_CELLS && t < TUPLE_NUM && i < |W[t]| && l >= 1
    ensures Bumped(W, F, b, l, d)[t][i] == Bumped(W, F, b, l - 1, d)[t][i] + AddedTimes(d, 2 * Hits(F, t, b, l, i, 2))
  {
    InnerAt(Bumped(W, F, b, l - 1, d), F, b, l, d, t, i);
    BothHits(F, t, b, l, i);
  }

  /** After l outer iterations, each entry has grown by d twice for every
      view of `b` that addressed it. */
  lemma {:induction false} BumpedAt(W: seq<seq<real>>, F: seq<Pos>, b: Board, l: nat, d: real, t: nat, i: nat)
    requires Sized(W) && |F| == PATTERN_CELLS && t < TUPLE_NUM && i < |W[t]|
    ensures Bumped(W, F, b, l, d)[t][i] == W[t][i] + AddedTimes(d, 2 * ViewCount(F, t, b, l, i))
  {
    if l > 0 {
      var n, h := ViewCount(F, t, b, l - 1, i), Hits(F, t, b, l, i, 2);
      BumpedAt(W, F, b, l - 1, d, t, i);
      BumpedStep(W, F, b, l, d, t, i);
      AddedTimesSplit(d, 2 * n, 2 * h);
      assert 2 * ViewCount(F, t, b, l, i) == 2 * n + 2 * h;
    }
  }

  /** The entries train_weight changes and by how much: entry i of table t
      grows by v_s twice for every view of `previous` whose code for pattern
      t is i. */
  lemma TrainedAt(W: seq<seq<real>>, F: seq<Pos>, previous: Board, next: Board, reward: int, last: int,
                  t: nat, i: nat)
    requires Sized(W) && |F| == PATTERN_CELLS && t < TUPLE_NUM && i < |W[t]|
    ensures Trained(W, F, previous, next, reward, last)[t][i]
         == W[t][i] + AddedTimes(TdStep(W, F, previous, next, reward, last), 2 * ViewCount(F, t, previous, 4, i))
  {
    BumpedAt(W, F, previous, 4, TdStep(W, F, previous, next, reward, last), t, i);
  }

  /** An entry that no view of `previous` addresses keeps its weight. */
  lemma TrainedLeavesOthers(W: seq<seq<real>>, F: seq<Pos>, previous: Board, next: Board, reward: int,
                            last: int, t: nat, i: nat)
    requires Sized(W) && |F| == PATTERN_CELLS && t < TUPLE_NUM && i < |W[t]|
    requires forall k, m :: 1 <= k <= 4 ==> ViewCode(F, t, previous, k, m) != i
    ensures Trained(W, F, previous, next, reward, last)[t][i] == W[t][i]
  {
    TrainedAt(W, F, previous, next, reward, last, t, i);
    NoViewNoCount(F, t, previous, 4, i);
  }

  lemma {:induction false} NoViewNoCount(F: seq<Pos>, t: nat, b: Board, l: nat, i: nat)
    requires |F| == PATTERN_CELLS && t < TUPLE_NUM
    requires forall k, m :: 1 <= k <= l ==> ViewCode(F, t, b, k, m) != i
    ensures ViewCount(F, t, b, l, i) == 0
  {
    if l > 0 {
      NoViewNoCount(F, t, b, l - 1, i);
      assert ViewCode(F, t, b, l, false) != i && ViewCode(F, t, b, l, true) != i;
      BothHits(F, t, b, l, i);
    }
  }

  /** With `last` non-zero the update adds zero everywhere. */
  lemma TerminalUpdateKeepsWeights(W: seq<seq<real>>, F: seq<Pos>, previous: Board, next: Board,
                                   reward: int, last: int)
    requires Sized(W) && |F| == PATTERN_CELLS && last != 0
    ensures Trained(W, F, previous, next, reward, last) == W
  {
    var W' := Trained(W, F, previous, next, reward, last);
    forall t | 0 <= t < TUPLE_NUM
      ensures W'[t] == W[t]
    {
      forall i | 0 <= i < |W[t]|
        ensures W'[t][i] == W[t][i]
      {
        TerminalEntryKept(W, F, previous, next, reward, last, t, i);
      }
    }
  }

  lemma TerminalEntryKept(W: seq<seq<real>>, F: seq<Pos>, previous: Board, next: Board,
                          reward: int, last: int, t: nat, i: nat)
    requires Sized(W) && |F| == PATTERN_CELLS && last != 0 && t < TUPLE_NUM && i < |W[t]|
    ensures Trained(W, F, previous, next, reward, last)[t][i] == W[t][i]
  {
    TrainedAt(W, F, previous, next, reward, last, t, i);
    AddedTimesIsProduct(0.0, 2 * ViewCount(F, t, previous, 4, i));
  }

  /** A view that board_value reads is counted at least once. */
  lemma {:induction false} ViewCounted(F: seq<Pos>, t: nat, b: Board, l: nat, k: nat, m: bool)
    requires |F| == PATTERN_CELLS && t < TUPLE_NUM && 1 <= k <= l
    ensures ViewCount(F, t, b, l, ViewCode(F, t, b, k, m)) >= 1
  {
    if k < l {
      ViewCounted(F, t, b, l - 1, k, m);
    } else {
      BothHits(F, t, b, k, ViewCode(F, t, b, k, m));
    }
  }

  /** If each of the four lookups of a view grew by at least e, their sum
      grew by at least 4e. */
  lemma TupleSumAbove(W: seq<seq<real>>, W': seq<seq<real>>, G: seq<Pos>, b: Board, e: real)
    requires Sized(W) && Sized(W') && |G| == PATTERN_CELLS
    requires forall t :: 0 <= t < TUPLE_NUM ==> W'[t][Code(G, t, b)] >= W[t][Code(G, t, b)] + e
    ensures TupleSum(W', G, b) >= TupleSum(W, G, b) + 4.0 * e
  {
    assert W'[0][Code(G, 0, b)] >= W[0][Code(G, 0, b)] + e;
    assert W'[1][Code(G, 1, b)] >= W[1][Code(G, 1, b)] + e;
    assert W'[2][Code(G, 2, b)] >= W[2][Code(G, 2, b)] + e;
    assert W'[3][Code(G, 3, b)] >= W[3][Code(G, 3, b)] + e;
    TupleSumExpanded(W, G, b);
    TupleSumExpanded(W', G, b);
  }

  /** If each of the four lookups of a view shrank by at least e, their sum
      shrank by at least 4e. */
  lemma TupleSumBelow(W: seq<seq<real>>, W': seq<seq<real>>, G: seq<Pos>, b: Board, e: real)
    requires Sized(W) && Sized(W') && |G| == PATTERN_CELLS
    requires forall t :: 0 <= t < TUPLE_NUM ==> W'[t][Code(G, t, b)] <= W[t][Code(G, t, b)] - e
    ensures TupleSum(W', G, b) <= TupleSum(W, G, b) - 4.0 * e
  {
    assert W'[0][Code(G, 0, b)] <= W[0][Code(G, 0, b)] - e;
    assert W'[1][Code(G, 1, b)] <= W[1][Code(G, 1, b)] - e;
    assert W'[2][Code(G, 2, b)] <= W[2][Code(G, 2, b)] - e;
    assert W'[3][Code(G, 3, b)] <= W[3][Code(G, 3, b)] - e;
    TupleSumExpanded(W, G, b);
    TupleSumExpanded(W', G, b);
  }

  /** A non-terminal update moves the value of `previous` towards the TD target
      V(next) + reward: up when the target is above, down when it is below,
      not at all when they agree. */
  lemma TrainingMovesTowardsTarget(W: seq<seq<real>>, F: seq<Pos>, previous: Board, next: Board, reward: int)
    requires Sized(W) && |F| == PATTERN_CELLS
    ensures var before := BoardValue(W, F, previous);
            var after := BoardValue(Trained(W, F, previous, next, reward, 0), F, previous);
            var target := BoardValue(W, F, next) + reward as real;
            (target > before ==> after > before)
            && (target < before ==> after < before)
            && (target == before ==> after == before)
  {
    var W' := Trained(W, F, previous, next, reward, 0);
    var d := TdStep(W, F, previous, next, reward, 0);
    forall k: nat | 1 <= k <= 4
      ensures d >= 0.0 ==> TurnSum(W', F, previous, k) >= TurnSum(W, F, previous, k) + 8.0 * (2.0 * d)
      ensures d <= 0.0 ==> TurnSum(W', F, previous, k) <= TurnSum(W, F, previous, k) - 8.0 * (-2.0 * d)
    {
      ViewMovesTowardsTarget(W, F, previous, next, reward, k, false);
      ViewMovesTowardsTarget(W, F, previous, next, reward, k, true);
    }
    BoardValueByTurns(W, F, previous);
    BoardValueByTurns(W', F, previous);
  }

  /** Each view sum of `previous` moves by at least 4 * 2 v_s in the
      direction of v_s. */
  lemma ViewMovesTowardsTarget(W: seq<seq<real>>, F: seq<Pos>, previous: Board, next: Board, reward: int,
                               k: nat, m: bool)
    requires Sized(W) && |F| == PATTERN_CELLS && 1 <= k <= 4
    ensures var W' := Trained(W, F, previous, next, reward, 0);
            var d := TdStep(W, F, previous, next, reward, 0);
            var G := Oriented(F, View(k, m));
            (d >= 0.0 ==> TupleSum(W', G, previous) >= TupleSum(W, G, previous) + 4.0 * (2.0 * d))
            && (d <= 0.0 ==> TupleSum(W', G, previous) <= TupleSum(W, G, previous) - 4.0 * (-2.0 * d))
  {
    var W' := Trained(W, F, previous, next, reward, 0);
    var d := TdStep(W, F, previous, next, reward, 0);
    var G := Oriented(F, View(k, m));
    forall t | 0 <= t < TUPLE_NUM
      ensures d >= 0.0 ==> W'[t][Code(G, t, previous)] >= W[t][Code(G, t, previous)] + 2.0 * d
      ensures d <= 0.0 ==> W'[t][Code(G, t, previous)] <= W[t][Code(G, t, previous)] - (-2.0 * d)
    {
      var i := ViewCode(F, t, previous, k, m);
      TrainedAt(W, F, previous, next, reward, 0, t, i);
      ViewCounted(F, t, previous, 4, k, m);
      AddedTimesAtLeastTwice(d, 2 * ViewCount(F, t, previous, 4, i));
    }
    if d >= 0.0 {
      TupleSumAbove(W, W', G, previous, 2.0 * d);
    }
    if d <= 0.0 {
      TupleSumBelow(W, W', G, previous, -2.0 * d);
    }
  }

  // ---------------------------------------------------------------------------
  // select_op

  /** The initial `max_value` of select_op. */
  const MIN_SCORE: real := -2147483648.0

  /** `slide(op)` does not report -1. */
  predicate Legal(slide: Slide, b: Board, op: int)
  {
    slide(b, op).reward != -1
  }

  /** `reward + board_value(temp)` for move op. */
  function Score(W: seq<seq<real>>, F: seq<Pos>, slide: Slide, b: Board, op: int): real
    requires Sized(W) && |F| == PATTERN_CELLS
  {
    slide(b, op).reward as real + BoardValue(W, F, slide(b, op).after)
  }

  /** The choice select_op makes: -1 when no legal move scores above the initial
      maximum; otherwise a legal move with the largest score, and the smallest
      such move, because a later equal score does not replace it. */
  predicate IsSelection(W: seq<seq<real>>, F: seq<Pos>, slide: Slide, b: Board, best: int)
    requires Sized(W) && |F| == PATTERN_CELLS
  {
    && -1 <= best < 4
    && (best == -1 ==> forall op :: 0 <= op < 4 && Legal(slide, b, op) ==> Score(W, F, slide, b, op) <= MIN_SCORE)
    && (best != -1 ==>
          && Legal(slide, b, best)
          && Score(W, F, slide, b, best) > MIN_SCORE
          && (forall op :: 0 <= op < 4 && Legal(slide, b, op) ==> Score(W, F, slide, b, op) <= Score(W, F, slide, b, best))
          && (forall op :: 0 <= op < best && Legal(slide, b, op) ==> Score(W, F, slide, b, op) < Score(W, F, slide, b, best)))
  }

  /** The state of select_op's loop after the moves before n: best is -1
      and the maximum the initial one, or best is a legal move whose score is
      the maximum; no legal move so far scores above the maximum, and none
      before best reaches it. */
  predicate Scanned(L: seq<bool>, S: seq<real>, n: nat, best: int, maxValue: real)
    requires |L| == 4 && |S| == 4 && n <= 4
  {
    && -1 <= best < n
    && (best == -1 ==> maxValue == MIN_SCORE)
    && (best != -1 ==> L[best] && maxValue == S[best] && maxValue > MIN_SCORE)
    && (forall o :: 0 <= o < n && L[o] ==> S[o] <= maxValue)
    && (forall o :: 0 <= o < best && L[o] ==> S[o] < maxValue)
  }

  /** The choice is determined: ties go to the move tried first. */
  lemma SelectionIsUnique(W: seq<seq<real>>, F: seq<Pos>, slide: Slide, b: Board, x: int, y: int)
    requires Sized(W) && |F| == PATTERN_CELLS
    requires IsSelection(W, F, slide, b, x) && IsSelection(W, F, slide, b, y)
    ensures x == y
  {
  }
}
