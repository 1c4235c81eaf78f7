/** Boards and the feature codes that address the weight tables: the six cells a
    pattern names, packed as base-16 digits with the first cell lowest. */
module Features {
  import opened Symmetry

  /** A cell's exponent code; the model keeps every cell within one nibble. */
  type Cell = c: int | 0 <= c < 16

  /** A board: its sixteen cells in row-major order, so that `b[r][c]` is `b[4r+c]`. */
  type Board = b: seq<Cell> | |b| == 16 witness [0, 0, 0, 0, 0, 0, 0, 0, 0, 0, 0, 0, 0, 0, 0, 0]

  /** The board with every cell empty. */
  const EMPTY_BOARD: Board := [0, 0, 0, 0, 0, 0, 0, 0, 0, 0, 0, 0, 0, 0, 0, 0]

  /** Number of distinct codes of a 6-cell pattern: 16^6. */
  const TUPLE_SPACE: nat := 16777216
  /** `tile_per_tuple` = 16^7, the size of each table the player appends. */
  const TILE_PER_TUPLE: nat := 268435456
  /** Range of `unsigned int`. */
  const U32: nat := 0x1_0000_0000

  /** An `unsigned int` result: x reduced modulo 2^32. */
  function Wrap32(x: int): (r: nat)
    ensures r < U32
    ensures 0 <= x < U32 ==> r == x
  {
    if 0 <= x < U32 then x else x % U32
  }

  /** `b[p / 4][p % 4]` is cell p of the row-major board. */
  lemma AtPos(b: Board, p: Pos)
    ensures At(b, p / 4, p % 4) == b[p]
  {
  }

  /** `b[r][c]` */
  function At(b: Board, r: int, c: int): Cell
    requires 0 <= r < 4 && 0 <= c < 4
  {
    b[4 * r + c]
  }

  function Pow16(n: nat): (r: nat)
    ensures r >= 1
  {
    if n == 0 then 1 else 16 * Pow16(n - 1)
  }

  lemma Pow16Values()
    ensures Pow16(6) == TUPLE_SPACE && Pow16(7) == TILE_PER_TUPLE
  {
    assert Pow16(1) == 16;
    assert Pow16(2) == 256;
    assert Pow16(3) == 4096;
    assert Pow16(4) == 65536;
    assert Pow16(5) == 1048576;
  }

  /** 16^n stays within the code space for n <= 6. */
  lemma {:induction false} Pow16Bound(n: nat)
    requires n <= 6
    ensures Pow16(n) <= TUPLE_SPACE
  {
    Pow16Values();
    if n < 6 {
      Pow16Grows(n, 6);
    }
  }

  lemma {:induction false} Pow16Grows(m: nat, n: nat)
    requires m <= n
    ensures Pow16(m) <= Pow16(n)
    decreases n - m
  {
    if m < n {
      Pow16Grows(m + 1, n);
    }
  }

  /** Cells as base-16 digits, the first one least significant. */
  function Pack(s: seq<Cell>): nat
  {
    if |s| == 0 then 0 else s[0] + 16 * Pack(s[1..])
  }

  /** The first n base-16 digits of a code, least significant first. */
  function Unpack(code: nat, n: nat): (s: seq<Cell>)
    ensures |s| == n
  {
    if n == 0 then [] else [code % 16] + Unpack(code / 16, n - 1)
  }

  lemma {:induction false} PackBound(s: seq<Cell>)
    ensures Pack(s) < Pow16(|s|)
  {
    if |s| > 0 {
      PackBound(s[1..]);
    }
  }

  /** Appending a cell adds it at the next digit: the step of the loop in
      `caculate_tuple_value`. */
  lemma {:induction false} PackSnoc(s: seq<Cell>, c: Cell)
    ensures Pack(s + [c]) == Pack(s) + c * Pow16(|s|)
  {
    if |s| > 0 {
      assert (s + [c])[1..] == s[1..] + [c];
      PackSnoc(s[1..], c);
    }
  }

  /** Reading the digits back gives the cells: Pack is injective. */
  lemma {:induction false} UnpackPack(s: seq<Cell>)
    ensures Unpack(Pack(s), |s|) == s
  {
    if |s| > 0 {
      UnpackPack(s[1..]);
      assert Pack(s) % 16 == s[0];
      assert Pack(s) / 16 == Pack(s[1..]);
    }
  }

  /** Every code below 16^n is the packing of exactly its n digits. */
  lemma {:induction false} PackUnpack(code: nat, n: nat)
    requires code < Pow16(n)
    ensures Pack(Unpack(code, n)) == code
  {
    if n > 0 {
      PackUnpack(code / 16, n - 1);
      assert Unpack(code, n)[1..] == Unpack(code / 16, n - 1);
    }
  }

  /** The six cells pattern `t` of the flattened pattern set `F` names. */
  function Cells(F: seq<Pos>, t: nat, b: Board): seq<Cell>
    requires |F| == PATTERN_CELLS && t < TUPLE_NUM
  {
    seq(TUPLE_LEN, j requires 0 <= j < TUPLE_LEN => b[F[6 * t + j]])
  }

  /** The feature code of pattern `t` on board `b`: always a valid index of a
      table of 16^6 entries. */
  function Code(F: seq<Pos>, t: nat, b: Board): (r: nat)
    requires |F| == PATTERN_CELLS && t < TUPLE_NUM
    ensures r < TUPLE_SPACE
  {
    CodeIsPack(F, t, b);
    PackBound(Cells(F, t, b));
    Pow16Values();
    PackAt(b, F[6 * t .. 6 * t + TUPLE_LEN])
  }

  /** The cells b names at positions ps, packed as base-16 digits, the first
      one least significant. */
  function PackAt(b: Board, ps: seq<Pos>): nat
  {
    if |ps| == 0 then 0 else b[ps[0]] + 16 * PackAt(b, ps[1..])
  }

  /** Packing the cells at ps is packing the cells the pattern names. */
  lemma {:induction false} PackAtSuffix(F: seq<Pos>, t: nat, b: Board, j: nat)
    requires |F| == PATTERN_CELLS && t < TUPLE_NUM && j <= TUPLE_LEN
    ensures PackAt(b, F[6 * t .. 6 * t + TUPLE_LEN][j..]) == Pack(Cells(F, t, b)[j..])
    decreases TUPLE_LEN - j
  {
    var ps := F[6 * t .. 6 * t + TUPLE_LEN];
    var s := Cells(F, t, b);
    if j < TUPLE_LEN {
      PackAtSuffix(F, t, b, j + 1);
      PackStep(s, j);
      assert ps[j..][1..] == ps[j + 1..];
    } else {
      assert s[j..] == [];
    }
  }

  /** The code packs the six cells the pattern names. */
  lemma CodeIsPack(F: seq<Pos>, t: nat, b: Board)
    requires |F| == PATTERN_CELLS && t < TUPLE_NUM
    ensures PackAt(b, F[6 * t .. 6 * t + TUPLE_LEN]) == Pack(Cells(F, t, b))
  {
    PackAtSuffix(F, t, b, 0);
    assert F[6 * t .. 6 * t + TUPLE_LEN][0..] == F[6 * t .. 6 * t + TUPLE_LEN];
    assert Cells(F, t, b)[0..] == Cells(F, t, b);
  }

  /** One digit of Pack, read off a suffix. */
  lemma PackStep(s: seq<Cell>, k: nat)
    requires k < |s|
    ensures Pack(s[k..]) == s[k] + 16 * Pack(s[k + 1..])
  {
    assert s[k..][1..] == s[k + 1..];
  }

  /** The code is the sum of cell(pattern[j]) * 16^j. */
  lemma CodeAsSum(F: seq<Pos>, t: nat, b: Board)
    requires |F| == PATTERN_CELLS && t < TUPLE_NUM
    ensures Code(F, t, b)
         == (b[F[6 * t]] as int) + 16 * (b[F[6 * t + 1]] as int) + 256 * (b[F[6 * t + 2]] as int)
          + 4096 * (b[F[6 * t + 3]] as int) + 65536 * (b[F[6 * t + 4]] as int)
          + 1048576 * (b[F[6 * t + 5]] as int)
  {
    var s := Cells(F, t, b);
    assert s == s[0..];
    CodeIsPack(F, t, b);
    PackStep(s, 0);
    PackStep(s, 1);
    PackStep(s, 2);
    PackStep(s, 3);
    PackStep(s, 4);
    PackStep(s, 5);
    assert s[6..] == [];
  }

  /** Two boards give the same code for a pattern exactly when they agree on
      the six positions it names. */
  lemma CodeInjective(F: seq<Pos>, t: nat, b1: Board, b2: Board)
    requires |F| == PATTERN_CELLS && t < TUPLE_NUM
    ensures Code(F, t, b1) == Code(F, t, b2)
        <==> forall p :: p in F[6 * t .. 6 * t + 6] ==> b1[p] == b2[p]
  {
    var s1, s2 := Cells(F, t, b1), Cells(F, t, b2);
    CodeIsPack(F, t, b1);
    CodeIsPack(F, t, b2);
    if Code(F, t, b1) == Code(F, t, b2) {
      UnpackPack(s1);
      UnpackPack(s2);
      forall p | p in F[6 * t .. 6 * t + 6]
        ensures b1[p] == b2[p]
      {
        var j :| 0 <= j < 6 && F[6 * t .. 6 * t + 6][j] == p;
        assert s1[j] == s2[j];
      }
    }
    if forall p :: p in F[6 * t .. 6 * t + 6] ==> b1[p] == b2[p] {
      forall j | 0 <= j < TUPLE_LEN
        ensures s1[j] == s2[j]
      {
        assert F[6 * t + j] == F[6 * t .. 6 * t + 6][j];
      }
      assert s1 == s2;
    }
  }

  /** The result of an attempted move: `reward` is the merge score, or -1
      when the move is illegal, and `after` is the board it leaves. */
  datatype Moved = Moved(reward: int, after: Board)

  /** `board::slide`, which the model does not define: every operation that
      moves takes it as a parameter. */
  type Slide = (Board, int) -> Moved
}
