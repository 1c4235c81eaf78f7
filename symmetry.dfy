/** The fixed data of the n-tuple network: the two position permutations of the
    4x4 grid and the four 6-cell patterns, together with the eight orientations
    (views) that the player obtains by composing them.

    Positions are row-major:
       0  1  2  3
       4  5  6  7
       8  9 10 11
      12 13 14 15
 */
module Symmetry {

  /** A position of the grid. */
  type Pos = p: int | 0 <= p < 16

  /** Number of tuple patterns and number of cells in each. */
  const TUPLE_NUM: nat := 4
  const TUPLE_LEN: nat := 6
  /** Length of the flattened pattern set: pattern t, cell j is entry 6 * t + j. */
  const PATTERN_CELLS: nat := 24

  /** `rt`: the quarter turn, rt[4r+c] == 4c+3-r. */
  const RT: seq<int> := [3, 7, 11, 15, 2, 6, 10, 14, 1, 5, 9, 13, 0, 4, 8, 12]
  /** `rf`: the left-right mirror, rf[4r+c] == 4r+3-c. */
  const RF: seq<int> := [3, 2, 1, 0, 7, 6, 5, 4, 11, 10, 9, 8, 15, 14, 13, 12]

  /** `tuple_feature`, flattened pattern by pattern. */
  const TUPLE_FEATURE: seq<Pos> :=
    [ 0, 4, 8, 12, 13, 9,
      1, 5, 9, 13, 14, 10,
      1, 2, 5, 6, 9, 10,
      2, 3, 6, 7, 10, 11 ]

  /** Splits a position into its sixteen possible values. */
  lemma PosCases(p: Pos)
    ensures p == 0 || p == 1 || p == 2 || p == 3 || p == 4 || p == 5 || p == 6 || p == 7
         || p == 8 || p == 9 || p == 10 || p == 11 || p == 12 || p == 13 || p == 14 || p == 15
  {
  }

  /** The two tables are the turn and the mirror of the row-major grid. */
  lemma {:induction false} TablesMatchGrid(p: Pos)
    ensures RT[p] == 4 * (p % 4) + 3 - p / 4
    ensures RF[p] == 4 * (p / 4) + 3 - p % 4
  {
    PosCases(p);
  }

  /** `rt[p]` */
  function Rot(p: Pos): Pos
  {
    TablesMatchGrid(p);
    RT[p]
  }

  /** `rf[p]` */
  function Refl(p: Pos): Pos
  {
    TablesMatchGrid(p);
    RF[p]
  }

  /** Four quarter turns are the identity. */
  lemma {:induction false} RotOrderFour(p: Pos)
    ensures Rot(Rot(Rot(Rot(p)))) == p
  {
    PosCases(p);
  }

  /** The mirror is an involution. */
  lemma {:induction false} ReflInvolution(p: Pos)
    ensures Refl(Refl(p)) == p
  {
    PosCases(p);
  }

  /** Turning a mirrored grid equals mirroring a grid turned three times:
      rt . rf == rf . rt^3, the defining relation of the dihedral group. */
  lemma {:induction false} RotReflCommute(p: Pos)
    ensures Rot(Refl(p)) == Refl(Rot(Rot(Rot(p))))
  {
    PosCases(p);
  }

  /** Both tables are permutations of 0..15: in range (by the type of Rot and
      Refl), injective and onto. */
  lemma TablesArePermutations(p: Pos, q: Pos)
    ensures Rot(p) == Rot(q) <==> p == q
    ensures Refl(p) == Refl(q) <==> p == q
    ensures exists r: Pos :: Rot(r) == q
    ensures exists r: Pos :: Refl(r) == q
  {
    RotOrderFour(p);
    RotOrderFour(q);
    ReflInvolution(p);
    ReflInvolution(q);
    var r := Rot(Rot(Rot(q)));
    assert Rot(r) == q;
    assert Refl(Refl(q)) == q;
  }

  /** rt^k */
  function RotN(k: nat, p: Pos): Pos
  {
    if k == 0 then p else Rot(RotN(k - 1, p))
  }

  /** An orientation of the grid: `turns` quarter turns, then a mirror if
      `mirrored`, i.e. the position map rf^m . rt^k. */
  datatype View = View(turns: nat, mirrored: bool)

  function ViewPos(v: View, p: Pos): Pos
  {
    if v.mirrored then Refl(RotN(v.turns, p)) else RotN(v.turns, p)
  }

  /** The view of the pattern set that the working copy holds after the
      transforms of `v` have been applied to every entry of `F`. */
  function Oriented(F: seq<Pos>, v: View): (r: seq<Pos>)
    ensures |r| == |F|
  {
    seq(|F|, i requires 0 <= i < |F| => ViewPos(v, F[i]))
  }

  /** Effect of `rotate_right` on the working pattern set. */
  function Turned(F: seq<Pos>): (r: seq<Pos>)
    ensures |r| == |F|
  {
    seq(|F|, i requires 0 <= i < |F| => Rot(F[i]))
  }

  /** Effect of `reflection` on the working pattern set. */
  function Mirrored(F: seq<Pos>): (r: seq<Pos>)
    ensures |r| == |F|
  {
    seq(|F|, i requires 0 <= i < |F| => Refl(F[i]))
  }

  /** Calling rotate_right four times leaves the working patterns unchanged. */
  lemma {:induction false} TurnFourTimes(F: seq<Pos>)
    ensures Turned(Turned(Turned(Turned(F)))) == F
  {
    forall i | 0 <= i < |F|
      ensures Turned(Turned(Turned(Turned(F))))[i] == F[i]
    {
      RotOrderFour(F[i]);
    }
  }

  /** Calling reflection twice leaves the working patterns unchanged. */
  lemma {:induction false} MirrorTwice(F: seq<Pos>)
    ensures Mirrored(Mirrored(F)) == F
  {
    forall i | 0 <= i < |F|
      ensures Mirrored(Mirrored(F))[i] == F[i]
    {
      ReflInvolution(F[i]);
    }
  }

  /** The unturned, unmirrored view is the pattern set itself. */
  lemma OrientedIdentity(F: seq<Pos>)
    ensures Oriented(F, View(0, false)) == F
  {
  }

  /** Four turns bring every pattern back. */
  lemma {:induction false} OrientedFullTurn(F: seq<Pos>)
    ensures Oriented(F, View(4, false)) == F
  {
    forall i | 0 <= i < |F|
      ensures Oriented(F, View(4, false))[i] == F[i]
    {
      RotOrderFour(F[i]);
    }
  }

  /** A turn of an unmirrored view adds one quarter turn. */
  lemma OrientedTurn(F: seq<Pos>, k: nat)
    ensures Turned(Oriented(F, View(k, false))) == Oriented(F, View(k + 1, false))
  {
  }

  /** Mirroring an unmirrored view gives the mirrored view, and back again. */
  lemma {:induction false} OrientedMirror(F: seq<Pos>, k: nat)
    ensures Mirrored(Oriented(F, View(k, false))) == Oriented(F, View(k, true))
    ensures Mirrored(Oriented(F, View(k, true))) == Oriented(F, View(k, false))
  {
    forall i | 0 <= i < |F|
      ensures Mirrored(Oriented(F, View(k, true)))[i] == Oriented(F, View(k, false))[i]
    {
      ReflInvolution(RotN(k, F[i]));
    }
  }

  /** Where a view sends positions 0 and 1, as one number. */
  function Signature(v: View): int
  {
    16 * ViewPos(v, 0) + ViewPos(v, 1)
  }

  /** The eight views that board_value and train_weight visit, rf^m . rt^k
      for k = 1..4, are eight different orientations: where positions 0 and 1
      land tells any two of them apart. */
  lemma {:induction false} ViewsDistinct(k1: nat, m1: bool, k2: nat, m2: bool)
    requires 1 <= k1 <= 4 && 1 <= k2 <= 4 && (k1 != k2 || m1 != m2)
    ensures Signature(View(k1, m1)) != Signature(View(k2, m2))
  {
    assert RotN(1, 0) == 3 && RotN(2, 0) == 15 && RotN(3, 0) == 12 && RotN(4, 0) == 0;
    assert RotN(1, 1) == 7 && RotN(2, 1) == 14 && RotN(3, 1) == 8 && RotN(4, 1) == 1;
    assert Signature(View(1, false)) == 3 * 16 + 7 && Signature(View(1, true)) == 0 * 16 + 4;
    assert Signature(View(2, false)) == 15 * 16 + 14 && Signature(View(2, true)) == 12 * 16 + 13;
    assert Signature(View(3, false)) == 12 * 16 + 8 && Signature(View(3, true)) == 15 * 16 + 11;
    assert Signature(View(4, false)) == 0 * 16 + 1 && Signature(View(4, true)) == 3 * 16 + 2;
    assert k1 == 1 || k1 == 2 || k1 == 3 || k1 == 4;
    assert k2 == 1 || k2 == 2 || k2 == 3 || k2 == 4;
  }

  /** The number of turns of the view a quarter turn leads to: one more for
      an unmirrored view, one fewer for a mirrored one (counted 1..4). */
  function TurnsAfterRot(k: nat, m: bool): nat
  {
    if m then (if k <= 1 then 4 else k - 1) else (if k == 4 then 1 else k + 1)
  }

  /** Three more quarter turns undo the last one of rt^k. */
  lemma {:induction false} RotNBack(k: nat, p: Pos)
    requires 1 <= k <= 4
    ensures Rot(Rot(Rot(RotN(k, p)))) == RotN(if k == 1 then 4 else k - 1, p)
  {
    if k == 1 {
      assert RotN(4, p) == Rot(RotN(3, p));
      assert RotN(3, p) == Rot(RotN(2, p));
      assert RotN(2, p) == Rot(RotN(1, p));
    } else {
      var y := RotN(k - 1, p);
      assert RotN(k, p) == Rot(y);
      RotOrderFour(y);
    }
  }

  /** Composing a quarter turn with a visited view gives another visited view:
      the eight views are closed under rt. */
  lemma {:induction false} RotOfView(k: nat, m: bool, p: Pos)
    requires 1 <= k <= 4
    ensures Rot(ViewPos(View(k, m), p)) == ViewPos(View(TurnsAfterRot(k, m), m), p)
  {
    if m {
      RotReflCommute(RotN(k, p));
      RotNBack(k, p);
    } else if k == 4 {
      assert RotN(4, p) == Rot(Rot(Rot(Rot(p))));
      RotOrderFour(p);
    }
  }

  /** The eight views are closed under rf. */
  lemma {:induction false} ReflOfView(k: nat, m: bool, p: Pos)
    ensures Refl(ViewPos(View(k, m), p)) == ViewPos(View(k, !m), p)
  {
    if m {
      ReflInvolution(RotN(k, p));
    }
  }
}
