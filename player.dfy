/** The TD player: a working copy of the four patterns that is turned and
    mirrored in place, the weight tables it reads and writes, and the two
    boards an episode keeps for training. */
module TdPlayer {
  import opened Symmetry
  import opened Features
  import opened Valuation
  import opened Meta

  /** What take_action returns: a move, or nothing. */
  datatype Action = NoAction | SlideAction(op: int)

  /** A table of n zero weights. */
  function ZeroTable(n: nat): (r: seq<real>)
    ensures |r| == n
  {
    seq(n, _ => 0.0)
  }

  /** The tables a `weight_agent` builds before the player appends its own:
      the tables of the weight file for load= (they replace any created by
      init=), four empty tables of 65536 entries for init=, or none. */
  function BaseTables(meta: map<string, string>, file: seq<seq<real>>): seq<seq<real>>
  {
    if "load" in meta then file
    else if "init" in meta then [ZeroTable(65536), ZeroTable(65536), ZeroTable(65536), ZeroTable(65536)]
    else []
  }

  /** A fresh table of n zero weights: `weight(n)`. */
  method Zeros(n: nat) returns (a: array<real>)
    ensures fresh(a) && a[..] == ZeroTable(n)
  {
    a := new real[n](_ => 0.0);
  }

  /** A fresh table holding the weights w. */
  method TableOf(w: seq<real>) returns (a: array<real>)
    ensures fresh(a) && a[..] == w
  {
    a := new real[|w|](i requires 0 <= i < |w| => w[i]);
  }

  /** The tables the weight_agent constructor creates from its properties. */
  method BaseArrays(meta: map<string, string>, file: seq<seq<real>>) returns (tables: seq<array<real>>)
    ensures |tables| == |BaseTables(meta, file)|
    ensures forall k :: 0 <= k < |tables| ==> fresh(tables[k]) && tables[k][..] == BaseTables(meta, file)[k]
    ensures forall k, l :: 0 <= k < l < |tables| ==> tables[k] != tables[l]
  {
    ghost var B := BaseTables(meta, file);
    tables := [];
    if "load" in meta {
      for i := 0 to |file|
        invariant |tables| == i
        invariant forall k :: 0 <= k < i ==> fresh(tables[k]) && tables[k][..] == B[k]
        invariant forall k, l :: 0 <= k < l < i ==> tables[k] != tables[l]
      {
        var a := TableOf(file[i]);
        tables := tables + [a];
      }
    } else if "init" in meta {
      for i := 0 to 4
        invariant |tables| == i
        invariant forall k :: 0 <= k < i ==> fresh(tables[k]) && tables[k][..] == B[k]
        invariant forall k, l :: 0 <= k < l < i ==> tables[k] != tables[l]
      {
        var a := Zeros(65536);
        tables := tables + [a];
      }
    }
  }

  /** The player constructor's loop: four tables of 16^7 zero weights
      appended after the given ones. */
  method AppendPlayerTables(tables: seq<array<real>>) returns (r: seq<array<real>>)
    requires forall k, l :: 0 <= k < l < |tables| ==> tables[k] != tables[l]
    ensures |r| == |tables| + TUPLE_NUM && r[..|tables|] == tables
    ensures forall k :: |tables| <= k < |r| ==> fresh(r[k]) && r[k][..] == ZeroTable(TILE_PER_TUPLE)
    ensures forall k, l :: 0 <= k < l < |r| ==> r[k] != r[l]
    ensures forall k :: 0 <= k < |tables| ==> r[k][..] == old(tables[k][..])
  {
    r := tables;
    for t := 0 to TUPLE_NUM
      invariant |r| == |tables| + t && r[..|tables|] == tables
      invariant forall k :: |tables| <= k < |r| ==> fresh(r[k]) && r[k][..] == ZeroTable(TILE_PER_TUPLE)
      invariant forall k, l :: 0 <= k < l < |r| ==> r[k] != r[l]
    {
      var a := Zeros(TILE_PER_TUPLE);
      r := r + [a];
    }
  }

  /** The argument prefix of a player. */
  const PLAYER_NAME: string := "name=dummy"
  const PLAYER_ROLE: string := "role=player"
  const PLAYER_DEFAULTS: string := PLAYER_NAME + " " + PLAYER_ROLE + " "

  lemma PlayerTokens()
    ensures IsToken(PLAYER_NAME) && IsToken(PLAYER_ROLE)
  {
  }

  lemma PlayerLayout(args: string)
    ensures PLAYER_DEFAULTS + args == PLAYER_NAME + " " + (PLAYER_ROLE + " " + args)
  {
  }

  /** The player's own pairs are read before those of args. */
  lemma PlayerWordsFirst(args: string)
    ensures Words(PLAYER_DEFAULTS + args) == [PLAYER_NAME, PLAYER_ROLE] + Words(args)
  {
    PlayerTokens();
    PlayerLayout(args);
    WordsAfterToken(PLAYER_ROLE, args);
    WordsAfterToken(PLAYER_NAME, PLAYER_ROLE + " " + args);
  }

  /** The default name pair of a player splits into its key and value. */
  lemma PlayerNamePair()
    ensures Key(PLAYER_NAME) == "name" && Val(PLAYER_NAME) == "dummy"
  {
    assert PLAYER_NAME == "name" + "=" + "dummy";
    PairRoundTrip("name", "dummy");
  }

  /** The default role pair of a player splits into its key and value. */
  lemma PlayerRolePair()
    ensures Key(PLAYER_ROLE) == "role" && Val(PLAYER_ROLE) == "player"
  {
    assert PLAYER_ROLE == "role" + "=" + "player";
    PairRoundTrip("role", "player");
  }

  /** A player is named "dummy" unless a pair of args sets the name. */
  lemma PlayerNameDefault(args: string)
    requires forall i :: 0 <= i < |Words(args)| ==> Key(Words(args)[i]) != "name"
    ensures "name" in MetaOf(PLAYER_DEFAULTS + args) && MetaOf(PLAYER_DEFAULTS + args)["name"] == "dummy"
  {
    var ws := Words(PLAYER_DEFAULTS + args);
    FirstPlayerPair(args);
    SecondPlayerPair(args);
    PlayerArgsAfter(args, "name");
    forall i | 0 < i < |ws|
      ensures Key(ws[i]) != "name"
    {
      if i == 1 {
        assert "role"[0] != "name"[0];
      }
    }
    MetaOverride(PLAYER_DEFAULTS + args, "name", 0);
  }

  /** The first pair a player reads sets the name to "dummy". */
  lemma FirstPlayerPair(args: string)
    ensures var ws := Words(PLAYER_DEFAULTS + args);
            |ws| >= 2 && Key(ws[0]) == "name" && Val(ws[0]) == "dummy"
  {
    PlayerWordsFirst(args);
    PlayerNamePair();
  }

  /** The second pair a player reads sets the role to "player". */
  lemma SecondPlayerPair(args: string)
    ensures var ws := Words(PLAYER_DEFAULTS + args);
            |ws| >= 2 && Key(ws[1]) == "role" && Val(ws[1]) == "player"
  {
    PlayerWordsFirst(args);
    PlayerRolePair();
  }

  /** A player has role "player" unless a pair of args sets the role. */
  lemma PlayerRoleDefault(args: string)
    requires forall i :: 0 <= i < |Words(args)| ==> Key(Words(args)[i]) != "role"
    ensures "role" in MetaOf(PLAYER_DEFAULTS + args) && MetaOf(PLAYER_DEFAULTS + args)["role"] == "player"
  {
    SecondPlayerPair(args);
    PlayerArgsAfter(args, "role");
    MetaOverride(PLAYER_DEFAULTS + args, "role", 1);
  }

  /** The pairs after the player's prefix are those of args. */
  lemma PlayerArgsAfter(args: string, k: string)
    requires forall i :: 0 <= i < |Words(args)| ==> Key(Words(args)[i]) != k
    ensures var ws := Words(PLAYER_DEFAULTS + args);
            forall i :: 2 <= i < |ws| ==> Key(ws[i]) != k
  {
    var ws := Words(PLAYER_DEFAULTS + args);
    var rest := Words(args);
    PlayerWordsFirst(args);
    forall i | 2 <= i < |ws|
      ensures Key(ws[i]) != k
    {
      assert ws[i] == rest[i - 2];
    }
  }

  class Player {
    /** The agent part: the property map. */
    const base: Agent
    /** `net`: the weight tables; they are created once, so the sequence is fixed. */
    const net: seq<array<real>>
    /** `t_tuple_feature`, flattened: pattern t, cell j is entry 6 * t + j. */
    const feat: array<int>
    var count: int
    var previous: Board
    var next: Board

    /** The shape every member keeps: 24 pattern entries, at least four
        tables, no two of them the same array, and the counter within the
        three states of an episode. */
    ghost predicate Valid()
      reads this
    {
      && feat.Length == PATTERN_CELLS
      && |net| >= TUPLE_NUM
      && (forall i, j :: 0 <= i < j < |net| ==> net[i] != net[j])
      && 0 <= count <= 2
    }

    /** The tables the lookups address can take every feature code. */
    predicate Ready()
    {
      |net| >= TUPLE_NUM && forall t :: 0 <= t < TUPLE_NUM ==> net[t].Length >= TUPLE_SPACE
    }

    /** Every working pattern entry is a position of the grid. */
    ghost predicate InRange()
      reads this, feat
    {
      forall k :: 0 <= k < feat.Length ==> 0 <= feat[k] < 16
    }

    /** The working pattern set. */
    ghost function Work(): seq<Pos>
      reads this, feat
      requires InRange()
    {
      feat[..]
    }

    /** The contents of `net[0..3]`. */
    ghost function Weights(): (W: seq<seq<real>>)
      reads this, net[0], net[1], net[2], net[3]
      requires Ready()
      ensures Sized(W)
    {
      [net[0][..], net[1][..], net[2][..], net[3][..]]
    }

    /** `player(args)`: the agent is built from "name=dummy role=player " +
        args; the weight_agent part creates its tables (`file` stands for
        the contents of the weight file that load= names); then four tables
        of 16^7 zero weights are appended; the counter starts at 0. */
    constructor(args: string, file: seq<seq<real>>)
      ensures Valid() && fresh(base) && fresh(feat)
      ensures base.meta == MetaOf(PLAYER_DEFAULTS + args)
      ensures var B := BaseTables(base.meta, file);
              && |net| == |B| + TUPLE_NUM
              && (forall i :: 0 <= i < |B| ==> net[i][..] == B[i])
              && (forall i :: |B| <= i < |net| ==> net[i][..] == ZeroTable(TILE_PER_TUPLE))
      ensures forall i :: 0 <= i < |net| ==> fresh(net[i])
      ensures count == 0
      ensures "init" !in base.meta && "load" !in base.meta ==> Ready()
      ensures "init" in base.meta && "load" !in base.meta ==> !Ready()
    {
      var agent := new Agent(PLAYER_DEFAULTS + args);
      var tables := BaseArrays(agent.meta, file);
      tables := AppendPlayerTables(tables);
      if "init" in agent.meta && "load" !in agent.meta {
        assert |tables[0][..]| == |ZeroTable(65536)|;
      }
      base := agent;
      net := tables;
      feat := new int[PATTERN_CELLS];
      count := 0;
      previous := EMPTY_BOARD;
      next := EMPTY_BOARD;
    }

    /** `rotate_right()`: every working entry p becomes rt[p]. */
    method RotateRight()
      requires Valid() && InRange()
      modifies feat
      ensures InRange() && Work() == Turned(old(Work()))
    {
      for i := 0 to TUPLE_NUM
        invariant InRange()
        invariant forall k :: 0 <= k < TUPLE_LEN * i ==> feat[k] == Rot(old(feat[k]))
        invariant forall k :: TUPLE_LEN * i <= k < PATTERN_CELLS ==> feat[k] == old(feat[k])
      {
        for j := 0 to TUPLE_LEN
          invariant InRange()
          invariant forall k :: 0 <= k < TUPLE_LEN * i + j ==> feat[k] == Rot(old(feat[k]))
          invariant forall k :: TUPLE_LEN * i + j <= k < PATTERN_CELLS ==> feat[k] == old(feat[k])
        {
          feat[TUPLE_LEN * i + j] := Rot(feat[TUPLE_LEN * i + j]);
        }
      }
    }

    /** `reflection()`: every working entry p becomes rf[p]. */
    method Reflection()
      requires Valid() && InRange()
      modifies feat
      ensures InRange() && Work() == Mirrored(old(Work()))
    {
      for i := 0 to TUPLE_NUM
        invariant InRange()
        invariant forall k :: 0 <= k < TUPLE_LEN * i ==> feat[k] == Refl(old(feat[k]))
        invariant forall k :: TUPLE_LEN * i <= k < PATTERN_CELLS ==> feat[k] == old(feat[k])
      {
        for j := 0 to TUPLE_LEN
          invariant InRange()
          invariant forall k :: 0 <= k < TUPLE_LEN * i + j ==> feat[k] == Refl(old(feat[k]))
          invariant forall k :: TUPLE_LEN * i + j <= k < PATTERN_CELLS ==> feat[k] == old(feat[k])
        {
          feat[TUPLE_LEN * i + j] := Refl(feat[TUPLE_LEN * i + j]);
        }
      }
    }

    /** `caculate_tuple_value(b, index)`: the feature code of working pattern
        `index`, accumulated in an unsigned 32-bit value that never wraps. */
    method CalculateTupleValue(b: Board, index: int) returns (r: nat)
      requires Valid() && InRange() && 0 <= index < TUPLE_NUM
      ensures r == Code(Work(), index, b) && r < TUPLE_SPACE
    {
      ghost var s := Cells(Work(), index, b);
      var value: nat := 0;
      var order: int := 1;
      for j := 0 to TUPLE_LEN
        invariant order == Pow16(j)
        invariant value == Pack(s[..j])
      {
        var p := feat[TUPLE_LEN * index + j];
        AtPos(b, p);
        var cell: int := At(b, p / 4, p % 4);
        assert cell == s[j];
        assert s[..j + 1] == s[..j] + [s[j]];
        PackSnoc(s[..j], s[j]);
        assert order * cell == s[j] * Pow16(j);
        PackBound(s[..j + 1]);
        Pow16Bound(j + 1);
        value := Wrap32(value + order * cell);
        order := order * 16;
      }
      assert s[..TUPLE_LEN] == s;
      CodeIsPack(Work(), index, b);
      r := value;
    }

    /** The four lookups of one pass of board_value, added in order:
        `net[t][caculate_tuple_value(b, t)]` for t = 0..3. */
    method LookupView(b: Board) returns (sum: real)
      requires Valid() && InRange() && Ready()
      ensures sum == TupleSum(Weights(), Work(), b)
    {
      var c0 := CalculateTupleValue(b, 0);
      sum := net[0][c0];
      var c1 := CalculateTupleValue(b, 1);
      sum := sum + net[1][c1];
      var c2 := CalculateTupleValue(b, 2);
      sum := sum + net[2][c2];
      var c3 := CalculateTupleValue(b, 3);
      sum := sum + net[3][c3];
      TupleSumExpanded(Weights(), Work(), b);
    }

    /** The inner loop of outer iteration k of board_value: the lookups of
        the unmirrored and then the mirrored view of turn k are added to the
        value of the first k - 1 turns, after which the working patterns are
        back at the unmirrored view. */
    method ValueTurn(b: Board, value: real, ghost W: seq<seq<real>>, ghost F: seq<Pos>, ghost k: nat)
      returns (value': real)
      requires Valid() && InRange() && Ready() && |F| == PATTERN_CELLS && k >= 1
      requires Weights() == W && Work() == Oriented(F, View(k, false))
      requires value == Partial(W, F, b, k - 1)
      modifies feat
      ensures InRange() && Work() == Oriented(F, View(k, false))
      ensures value' == Partial(W, F, b, k)
    {
      value' := value;
      for m := 0 to 2
        invariant InRange() && Work() == Oriented(F, View(k, m == 1))
        invariant m == 0 ==> value' == value
        invariant m == 1 ==> value' == value + TupleSum(W, Oriented(F, View(k, false)), b)
        invariant m == 2 ==> value' == value + TurnSum(W, F, b, k)
      {
        var sum := LookupView(b);
        value' := value' + sum;
        Reflection();
        OrientedMirror(F, k);
      }
    }

    /** `board_value(b)`: the value of b under the weights, read through the
        eight orientations of the working patterns, which end as they
        started. */
    method BoardValue(b: Board) returns (value: real)
      requires Valid() && InRange() && Ready()
      modifies feat
      ensures InRange() && Work() == old(Work())
      ensures value == Valuation.BoardValue(Weights(), old(Work()), b)
    {
      ghost var F := Work();
      ghost var W := Weights();
      OrientedIdentity(F);
      value := 0.0;
      for l := 0 to 4
        invariant InRange() && Work() == Oriented(F, View(l, false))
        invariant Weights() == W
        invariant value == Partial(W, F, b, l)
      {
        RotateRight();
        OrientedTurn(F, l);
        value := ValueTurn(b, value, W, F, l + 1);
      }
      OrientedFullTurn(F);
    }

    /** `select_op(b)`: the first legal move with the largest
        reward + board_value of its result, if that exceeds the initial
        maximum; -1 otherwise. */
    method SelectOp(b: Board, slide: Slide) returns (best: int)
      requires Valid() && InRange() && Ready()
      modifies feat
      ensures InRange() && Work() == old(Work())
      ensures IsSelection(Weights(), old(Work()), slide, b, best)
    {
      ghost var F := Work();
      ghost var W := Weights();
      // the legality and the score of each move, fixed for the whole loop
      ghost var L := seq(4, o => Legal(slide, b, o));
      ghost var S := seq(4, o => Score(W, F, slide, b, o));
      var maxValue := MIN_SCORE;
      best := -1;
      for op := 0 to 4
        invariant InRange() && Work() == F && Weights() == W
        invariant Scanned(L, S, op, best, maxValue)
      {
        best, maxValue := TryMove(b, slide, op, best, maxValue, W, F, L, S);
      }
      assert forall o :: 0 <= o < 4 ==> L[o] == Legal(slide, b, o) && S[o] == Score(W, F, slide, b, o);
    }

    /** One iteration of the loop of select_op: move op replaces the best
        one so far when it is legal and scores above the maximum so far. */
    method TryMove(b: Board, slide: Slide, op: int, best: int, maxValue: real, ghost W: seq<seq<real>>,
                   ghost F: seq<Pos>, ghost L: seq<bool>, ghost S: seq<real>)
      returns (best': int, maxValue': real)
      requires Valid() && InRange() && Ready() && Work() == F && Weights() == W && 0 <= op < 4
      requires |L| == 4 && |S| == 4 && L[op] == Legal(slide, b, op) && S[op] == Score(W, F, slide, b, op)
      requires Scanned(L, S, op, best, maxValue)
      modifies feat
      ensures InRange() && Work() == F
      ensures Scanned(L, S, op + 1, best', maxValue')
    {
      best', maxValue' := best, maxValue;
      var temp := b;
      var moved := slide(temp, op);
      var reward := moved.reward;
      temp := moved.after;
      if reward != -1 {
        var v := BoardValue(temp);
        if reward as real + v > maxValue {
          best' := op;
          var v' := BoardValue(temp);
          maxValue' := reward as real + v';
        }
      }
      forall o | 0 <= o <= op && L[o]
        ensures S[o] <= maxValue'
      {
        if o < op {
          assert S[o] <= maxValue <= maxValue';
        }
      }
    }

    /** The four writes of one pass of train_weight:
        `net[t][caculate_tuple_value(prev, t)] += vs` for t = 0..3. */
    method AddView(prev: Board, vs: real)
      requires Valid() && InRange() && Ready()
      modifies net[0], net[1], net[2], net[3]
      ensures Weights() == AddToView(old(Weights()), Work(), prev, vs)
    {
      ghost var W := Weights();
      AddEntry(prev, 0, vs);
      AddEntry(prev, 1, vs);
      AddEntry(prev, 2, vs);
      AddEntry(prev, 3, vs);
      AddToViewExpanded(W, Work(), prev, vs);
    }

    /** `net[t][caculate_tuple_value(prev, t)] += vs` */
    method AddEntry(prev: Board, t: nat, vs: real)
      requires Valid() && InRange() && Ready() && t < TUPLE_NUM
      modifies net[t]
      ensures net[t][..] == AddAt(old(net[t][..]), Code(Work(), t, prev), vs)
    {
      var c := CalculateTupleValue(prev, t);
      net[t][c] := net[t][c] + vs;
    }

    /** The inner loop of outer iteration k of train_weight: four writes
        alternating between the unmirrored and the mirrored view of turn k,
        after which the working patterns are back at the unmirrored view and
        the tables hold the first k outer iterations of the update. */
    method TrainTurn(prev: Board, vs: real, ghost W: seq<seq<real>>, ghost F: seq<Pos>, ghost k: nat)
      requires Valid() && InRange() && Ready() && Sized(W) && |F| == PATTERN_CELLS && k >= 1
      requires Work() == Oriented(F, View(k, false))
      requires Weights() == Bumped(W, F, prev, k - 1, vs)
      modifies feat, net[0], net[1], net[2], net[3]
      ensures InRange() && Work() == Oriented(F, View(k, false))
      ensures Weights() == Bumped(W, F, prev, k, vs)
    {
      ghost var U := Weights();
      ghost var mirrored := false;
      for m := 0 to 4
        invariant mirrored == Odd(m)
        invariant InRange() && Work() == Oriented(F, View(k, mirrored))
        invariant Weights() == Inner(U, F, prev, k, m, vs)
      {
        TrainPass(prev, vs, U, F, k, m, mirrored);
        mirrored := !mirrored;
      }
    }

    /** Pass m of the inner loop of outer iteration k of train_weight: the four
        writes through the current view, then `reflection()`. */
    method TrainPass(prev: Board, vs: real, ghost U: seq<seq<real>>, ghost F: seq<Pos>, ghost k: nat,
                     ghost m: nat, ghost mirrored: bool)
      requires Valid() && InRange() && Ready() && Sized(U) && |F| == PATTERN_CELLS
      requires mirrored == Odd(m) && Work() == Oriented(F, View(k, mirrored))
      requires Weights() == Inner(U, F, prev, k, m, vs)
      modifies feat, net[0], net[1], net[2], net[3]
      ensures InRange() && Work() == Oriented(F, View(k, !mirrored))
      ensures Weights() == Inner(U, F, prev, k, m + 1, vs)
    {
      AddView(prev, vs);
      Reflection();
      OrientedMirror(F, k);
    }

    /** `v_s = last ? 0 : rate * (board_value(next) - board_value(previous) + reward)`,
        computed from the weights before any write. */
    method StepSize(prev: Board, nxt: Board, reward: int, last: int) returns (vs: real)
      requires Valid() && InRange() && Ready()
      modifies feat
      ensures InRange() && Work() == old(Work())
      ensures vs == TdStep(Weights(), Work(), prev, nxt, reward, last)
    {
      if last != 0 {
        vs := 0.0;
      } else {
        var vn := BoardValue(nxt);
        var vp := BoardValue(prev);
        vs := RATE * (vn - vp + reward as real);
      }
    }

    /** `train_weight(prev, nxt, reward, last)`: v_s is computed first, from
        the weights before any write; then each of the 16 passes adds v_s
        at the four entries the working patterns address on `prev`. */
    method TrainWeight(prev: Board, nxt: Board, reward: int, last: int)
      requires Valid() && InRange() && Ready()
      modifies feat, net[0], net[1], net[2], net[3]
      ensures InRange() && Work() == old(Work())
      ensures Weights() == Trained(old(Weights()), old(Work()), prev, nxt, reward, last)
    {
      ghost var F := Work();
      ghost var W := Weights();
      var vs := StepSize(prev, nxt, reward, last);
      assert vs == TdStep(W, F, prev, nxt, reward, last);
      OrientedIdentity(F);
      for l := 0 to 4
        invariant InRange() && Work() == Oriented(F, View(l, false))
        invariant Weights() == Bumped(W, F, prev, l, vs)
      {
        RotateRight();
        OrientedTurn(F, l);
        TrainTurn(prev, vs, W, F, l + 1);
      }
      OrientedFullTurn(F);
    }

    /** `open_episode()`: a new episode starts with no stored board. */
    method OpenEpisode()
      requires Valid()
      modifies this
      ensures Valid() && count == 0 && previous == old(previous) && next == old(next)
    {
      count := 0;
    }

    /** `t_tuple_feature = tuple_feature`: the working patterns are reset to
        the fixed ones. */
    method ResetFeatures()
      requires Valid()
      modifies feat
      ensures InRange() && Work() == TUPLE_FEATURE
    {
      for k := 0 to PATTERN_CELLS
        invariant forall i :: 0 <= i < k ==> feat[i] == TUPLE_FEATURE[i]
      {
        feat[k] := TUPLE_FEATURE[k];
      }
      assert feat[..] == TUPLE_FEATURE;
    }

    /** The episode bookkeeping of take_action once a move has been chosen:
        `after` is the board it leads to and `reward` what its slide reported.
        The first board is stored; the second is stored and trained on; from
        then on the pair shifts and is trained on, and a reported -1 makes
        that a terminal update on the new board. */
    method Advance(after: Board, reward: int)
      requires Valid() && InRange() && Ready()
      modifies this, feat, net[0], net[1], net[2], net[3]
      ensures Valid() && InRange() && Work() == old(Work())
      ensures old(count) == 0 ==>
                count == 1 && previous == after && next == old(next) && Weights() == old(Weights())
      ensures old(count) == 1 ==>
                count == 2 && previous == old(previous) && next == after
                && Weights() == Trained(old(Weights()), old(Work()), old(previous), after, reward, 0)
      ensures old(count) == 2 ==>
                count == 2 && previous == old(next) && next == after
                && Weights() == if reward == -1 then Trained(old(Weights()), old(Work()), after, after, 0, 1)
                                else Trained(old(Weights()), old(Work()), old(next), after, reward, 0)
    {
      if count == 0 {
        previous := after;
        count := count + 1;
      } else if count == 1 {
        next := after;
        TrainWeight(previous, next, reward, 0);
        count := count + 1;
      } else {
        previous := next;
        next := after;
        if reward == -1 {
          TrainWeight(next, next, 0, 1);
        } else {
          TrainWeight(previous, next, reward, 0);
        }
      }
    }

    /** `take_action(before)`: resets the working patterns, chooses a move
        with select_op and, when there is one, advances the episode. A chosen
        move is legal, so the terminal update never happens here. */
    method TakeAction(before: Board, slide: Slide) returns (a: Action)
      requires Valid() && Ready()
      modifies this, feat, net[0], net[1], net[2], net[3]
      ensures Valid() && InRange() && Work() == TUPLE_FEATURE
      ensures a.SlideAction? ==> 0 <= a.op < 4
      ensures IsSelection(old(Weights()), TUPLE_FEATURE, slide, before, if a.SlideAction? then a.op else -1)
      ensures a == NoAction ==>
                count == old(count) && previous == old(previous) && next == old(next)
                && Weights() == old(Weights())
      ensures a.SlideAction? ==>
                var moved := slide(before, a.op);
                && (old(count) == 0 ==>
                      count == 1 && previous == moved.after && next == old(next)
                      && Weights() == old(Weights()))
                && (old(count) == 1 ==>
                      count == 2 && previous == old(previous) && next == moved.after
                      && Weights() == Trained(old(Weights()), TUPLE_FEATURE, old(previous), moved.after, moved.reward, 0))
                && (old(count) == 2 ==>
                      count == 2 && previous == old(next) && next == moved.after
                      && Weights() == Trained(old(Weights()), TUPLE_FEATURE, old(next), moved.after, moved.reward, 0))
    {
      ResetFeatures();
      var t := before;
      var nextOp := SelectOp(t, slide);
      var moved := slide(t, nextOp);
      var reward := moved.reward;
      t := moved.after;
      if nextOp != -1 {
        Advance(t, reward);
        a := SlideAction(nextOp);
        return;
      }
      a := NoAction;
    }
  }
}
