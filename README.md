# TD 2048 player: a Dafny model

This project models the learning core of a temporal-difference (TD) player for
the sliding-tile game 2048. The source is the C++ header `agent.h`. The player
values a board with an n-tuple network: four patterns of six cells, each cell
a 4-bit exponent code. Pattern t's six cells, packed as base-16 digits, give the
index into weight table t. `board_value` adds the 32 lookups that the
four patterns make through the eight symmetric views of the board (four quarter
turns `rt`, each unmirrored and mirrored by `rf`). To get these views, the player
turns and mirrors a working copy of its patterns in place.

`select_op` picks the legal move with the largest reward plus value of the board it
leads to. `train_weight` makes the TD(0) update
`v_s = 0.1/32 * (V(next) - V(previous) + reward)` and adds it 16 times, once per
inner pass, at the four entries each view addresses on `previous`. Each of the
eight views therefore gets the increment twice. `take_action` ties the two together
with a three-state episode counter. The agent base class keeps a map of
`key=value` properties. It reads them from its argument string, after the
defaults `name=unknown role=unknown`. The player prepends
`name=dummy role=player`.

Files:
- `symmetry.dfy` (module `Symmetry`): the `rt`/`rf` tables, the patterns, and
  the eight views as compositions of the two tables.
- `features.dfy` (module `Features`): boards, the feature code and its base-16
  packing.
- `valuation.dfy` (module `Valuation`): the specification functions.
  - The value of a board and its symmetry invariance.
  - The state of the tables after `train_weight`, what it changes, and that
    it moves the estimate toward the TD target.
  - What `select_op` chooses.
- `meta.dfy` (module `Meta`): the property map, its whitespace tokenizer and
  the `key=value` split, and the class `Agent`.
- `player.dfy` (module `TdPlayer`): the class `Player`.
  - `t_tuple_feature` is an `array<int>` that `RotateRight` and `Reflection`
    rewrite in place.
  - The weight tables are `array<real>` that `TrainWeight` updates in place.
  - `count`, `previous` and `next` are fields.
  - Every method is proved against the specification functions of `Valuation`.

## Model

| member | source | states |
|---|---|---|
| Symmetry.TablesMatchGrid | agent.h:15-16 | rt sends cell (r, c) to (c, 3 - r), a quarter turn; rf sends (r, c) to (r, 3 - c), a left-right mirror |
| Symmetry.Rot | agent.h:15 | the position `rt[p]`, always a position of the grid |
| Symmetry.Refl | agent.h:16 | the position `rf[p]`, always a position of the grid |
| Symmetry.Turned | agent.h:280-286 | the pattern set after rotate_right: every entry p replaced by rt[p], lengths kept |
| Symmetry.Mirrored | agent.h:273-279 | the pattern set after reflection: every entry p replaced by rf[p], lengths kept |
| Symmetry.RotOrderFour | agent.h:15 | applying rt four times gives back every position |
| Symmetry.ReflInvolution | agent.h:16 | applying rf twice gives back every position |
| Symmetry.RotReflCommute | agent.h:15-16 | rt after rf equals rf after three rt: the tables generate the dihedral group of the square |
| Symmetry.TablesArePermutations | agent.h:15-16 | both tables are one-to-one and onto the 16 positions |
| Symmetry.TurnFourTimes | agent.h:280-286 | four rotate_right passes leave the working patterns as they were |
| Symmetry.MirrorTwice | agent.h:273-279 | two reflection passes leave the working patterns as they were |
| Symmetry.OrientedFullTurn | agent.h:220-229 | after board_value's four turns the working patterns are back where they started |
| Symmetry.OrientedMirror | agent.h:222-228 | a reflection switches the working patterns between the unmirrored and mirrored view of the same turn |
| Symmetry.ViewsDistinct | agent.h:218-231 | the eight views board_value reads are pairwise different maps of the grid |
| Symmetry.RotOfView | agent.h:218-231 | a view composed with one more quarter turn is again one of the eight views, with the number of turns shifted |
| Symmetry.ReflOfView | agent.h:218-231 | a view composed with rf is the view of the same turn with the opposite mirror state |
| Features.Wrap32 | agent.h:233-236 | the unsigned 32-bit result is below 2^32 and equals the exact sum whenever that sum is in range |
| Features.AtPos | agent.h:236 | `b[p/4][p%4]` is cell p of the row-major board |
| Features.Code | agent.h:232-240 | every feature code is below 16^6, a valid index of a table of that size |
| Features.PackBound | agent.h:232-240 | n packed cells give a code below 16^n |
| Features.PackSnoc | agent.h:235-237 | the loop step: the j-th cell enters at weight 16^j, as `order` is shifted left by 4 bits |
| Features.UnpackPack | agent.h:232-240 | the cells can be read back from their code, so the packing loses nothing |
| Features.PackUnpack | agent.h:232-240 | every code below 16^n is the packing of some n cells: the packing is onto |
| Features.CodeAsSum | agent.h:232-240 | the code is the sum over j of cell(pattern[j]) * 16^j |
| Features.CodeInjective | agent.h:232-240 | two boards have the same code for a pattern if and only if they agree on its six cells |
| Valuation.TupleSumExpanded | agent.h:223-226 | one view's value is the sum of the four tables' entries at that view's codes |
| Valuation.BoardValue | agent.h:218-231 | `board_value(b)`: the sum, over the four outer iterations, of the lookups of the unmirrored and the mirrored view of that turn |
| Valuation.BoardValueByTurns | agent.h:220-229 | the value is the sum of the four outer iterations |
| Valuation.BoardValueExpanded | agent.h:218-231 | the value reads each of the eight views rf^m . rt^k (k = 1..4, m = 0, 1) exactly once |
| Valuation.TupleSumTransfer | agent.h:222-226 | two view/board pairs that see the same cells at every position give the same lookup sum |
| Valuation.TupleSumTurn | agent.h:218-231 | a view of the turned board is the next view of the board |
| Valuation.TupleSumMirror | agent.h:218-231 | a view of the mirrored board is the oppositely mirrored view of the board |
| Valuation.ValueTurnInvariant | agent.h:218-231 | for all weights and patterns, a board and its quarter turn have the same value |
| Valuation.ValueMirrorInvariant | agent.h:218-231 | for all weights and patterns, a board and its mirror image have the same value |
| Valuation.AddToViewExpanded | agent.h:265-268 | one inner pass writes the increment once into each of the four tables, at that view's code |
| Valuation.InnerAt | agent.h:264-270 | one outer iteration adds v_s twice at the code of the unmirrored view and twice at that of the mirrored view |
| Valuation.BumpedStep | agent.h:262-271 | outer iteration l adds v_s twice for each view of turn l that reads the entry |
| Valuation.BumpedAt | agent.h:262-271 | after l outer iterations each entry has grown by v_s twice for every view that addresses it |
| Valuation.TrainedAt | agent.h:258-272 | after train_weight, each entry equals its old value plus v_s added 2 * (number of views of previous addressing it) times |
| Valuation.TrainedLeavesOthers | agent.h:258-272 | an entry that no view of previous addresses keeps its weight |
| Valuation.NoViewNoCount | agent.h:262-271 | an entry no view reads is counted zero times |
| Valuation.ViewCounted | agent.h:262-271 | every view's entry is counted at least once |
| Valuation.TerminalUpdateKeepsWeights | agent.h:261 | with `last` non-zero, v_s is 0 and all four tables are unchanged |
| Valuation.TerminalEntryKept | agent.h:261 | with `last` non-zero, every single entry is unchanged |
| Valuation.TdStep | agent.h:259-261 | `v_s`: 0 when `last` is non-zero, otherwise 0.1/32 times V(next) - V(previous) + reward, from the weights before any write |
| Valuation.Trained | agent.h:258-272 | the four tables after train_weight: the sixteen passes of four writes of v_s. Each table keeps its length |
| Valuation.TupleSumAbove | agent.h:223-226 | if each of a view's four looked-up entries grew by at least e, the view's sum grew by at least 4e |
| Valuation.TupleSumBelow | agent.h:223-226 | if each of a view's four looked-up entries shrank by at least e, the view's sum shrank by at least 4e |
| Valuation.ViewMovesTowardsTarget | agent.h:258-272 | each view sum of previous moves by at least 8 v_s in the direction of v_s |
| Valuation.TrainingMovesTowardsTarget | agent.h:258-272 | a non-terminal update raises V(previous) when V(next) + reward is above it, lowers it when below, and leaves it unchanged when equal |
| Valuation.AddedTimesIsProduct | agent.h:265-268 | k writes `+= d` to one entry add k * d |
| Valuation.AddedTimesSplit | agent.h:262-271 | writes to one entry can be counted in two batches |
| Valuation.AddedTimesAtLeastTwice | agent.h:262-271 | at least two writes of v_s move an entry at least 2 v_s in the direction of v_s |
| Valuation.SelectionIsUnique | agent.h:242-257 | at most one move meets select_op's specification, so ties go to the first move tried |
| Valuation.IsSelection | agent.h:242-257 | the result of select_op. It is -1 when no legal move scores above the initial maximum. Otherwise it is a legal move whose score exceeds that maximum, is at least every legal move's score, and is above the score of every legal move before it |
| Meta.WordLen | agent.h:37 | the length of the leading run of non-space characters, ending at a space or the end |
| Meta.Words | agent.h:37 | the tokens successive `ss >> pair` read: maximal runs of non-space characters, in order |
| Meta.WordsAreTokens | agent.h:37 | every word `>>` reads is non-empty and contains no space |
| Meta.WordLenIs | agent.h:37 | a maximal non-space run found by any means has the length WordLen gives |
| Meta.WordsAfterToken | agent.h:36-37 | a token followed by a space is read first, then the words of the rest |
| Meta.SkipSpaces | agent.h:37 | skipping leading spaces stops at a non-space or the end, and changes no word read |
| Meta.ScanWord | agent.h:37 | the scan stops at the first space or the end, and passes only non-space characters |
| Meta.WordAt | agent.h:37 | a maximal non-space run at a non-space position is the next word read |
| Meta.ReadWord | agent.h:37 | one `ss >> pair`: returns the next word and where reading resumes; it returns the empty string only when no word is left |
| Meta.Find | agent.h:38 | `find('=')` returns the first index of '=' (no earlier '=') or npos when there is none |
| Meta.Substr | agent.h:38-39 | `substr(pos, len)` returns the characters from pos, at most len of them, and all the rest when len runs past the end |
| Meta.ValueStart | agent.h:39 | the value starts inside the pair, at 0 when there is no '=', because npos + 1 wraps to 0 |
| Meta.PairSplit | agent.h:38-39 | the key is the text before the first '=', and the value the text after it; with no '=', both are the whole pair |
| Meta.Key | agent.h:38 | the key of a pair, `pair.substr(0, pair.find('='))`; PairSplit states what it yields |
| Meta.Val | agent.h:39 | the value of a pair, `pair.substr(pair.find('=') + 1)` with the npos wrap; PairSplit states what it yields |
| Meta.PairRoundTrip | agent.h:38-39 | every key without '=' and every value split back out of `key=value` |
| Meta.FindAfterPrefix | agent.h:38 | in `key=value` with no '=' in key, the first '=' sits right after the key |
| Meta.StoreUntouched | agent.h:40 | a key no pair names is present after storing if and only if it was before, with the same value |
| Meta.Store | agent.h:40 | `meta[key] = { value }` for each pair in order, each overwriting the entry of its key |
| Meta.StoreLastWins | agent.h:40 | the last pair naming a key decides its value |
| Meta.StoreConcat | agent.h:37-41 | storing pairs in two parts is storing them all |
| Meta.StoreKeepsKeys | agent.h:40 | storing never removes a key |
| Meta.DefaultsFirst | agent.h:36 | the two default pairs are read before the words of args |
| Meta.NameDefaultPair | agent.h:36 | `name=unknown` stores "unknown" under "name" |
| Meta.RoleDefaultPair | agent.h:36 | `role=unknown` stores "unknown" under "role" |
| Meta.DefaultsStored | agent.h:35-42 | an agent's map is the two defaults with the pairs of args stored over them |
| Meta.MetaOf | agent.h:35-42 | the map an agent's constructor builds: the pairs of `name=unknown role=unknown ` + args stored in order into an empty map |
| Meta.MetaHasNameAndRole | agent.h:35-42 | every agent has a "name" and a "role" property |
| Meta.MetaDefaultValue | agent.h:35-42 | name and role are "unknown" unless a pair of args sets them |
| Meta.MetaOverride | agent.h:35-42 | a key that args set has the value of the last pair of args that sets it |
| Meta.Agent.constructor | agent.h:35-42 | the loop over `ss >> pair` builds exactly the map of the defaults followed by args |
| Meta.Agent.Notify | agent.h:52 | notify stores the message's key and value and changes nothing else |
| Meta.NotifyStoresLikeParsing | agent.h:52 | a notified message is stored as the constructor would store the same pair |
| TdPlayer.ZeroTable | agent.h:97-100 | a table of n entries |
| TdPlayer.Zeros | agent.h:97-100 | `weight(n)`: a fresh array of n zero weights |
| TdPlayer.TableOf | agent.h:108-109 | a fresh array holding the weights of one table read from the weight file |
| TdPlayer.BaseArrays | agent.h:84-88 | the weight_agent constructor creates pairwise distinct fresh tables: the file's tables for load= (these replace those of init=), four zero tables of 65536 entries for init=, and none otherwise |
| TdPlayer.BaseTables | agent.h:84-111 | the contents of the weight_agent tables: the weight file's tables for load=, else four zero tables of 65536 entries for init=, else none |
| TdPlayer.AppendPlayerTables | agent.h:175-176 | four distinct fresh tables of 16^7 zero weights are appended, and the tables before them keep their contents |
| TdPlayer.PlayerWordsFirst | agent.h:173 | a player reads `name=dummy` and `role=player` before the words of args |
| TdPlayer.PlayerNamePair | agent.h:173 | `name=dummy` stores "dummy" under "name" |
| TdPlayer.PlayerRolePair | agent.h:173 | `role=player` stores "player" under "role" |
| TdPlayer.FirstPlayerPair | agent.h:173 | the first pair a player reads sets the name to "dummy" |
| TdPlayer.SecondPlayerPair | agent.h:173 | the second pair a player reads sets the role to "player" |
| TdPlayer.PlayerArgsAfter | agent.h:173 | after the two prefix pairs, a player reads exactly the pairs of args |
| TdPlayer.PlayerNameDefault | agent.h:173 | a player is named "dummy" unless args set the name |
| TdPlayer.PlayerRoleDefault | agent.h:173 | a player's role is "player" unless args set the role |
| TdPlayer.Player.constructor | agent.h:173-177 | the property map comes from the player prefix plus args. The tables are the weight_agent ones followed by four zero tables of 16^7 entries. Every table is a fresh array. The counter starts at 0. The tables are large enough for every code when neither init= nor load= is given, and too small when init= is given without load= |
| TdPlayer.Player.RotateRight | agent.h:280-286 | every working pattern entry p becomes rt[p] |
| TdPlayer.Player.Reflection | agent.h:273-279 | every working pattern entry p becomes rf[p] |
| TdPlayer.Player.CalculateTupleValue | agent.h:232-240 | the loop returns the feature code of the working pattern, and the 32-bit accumulator never wraps |
| TdPlayer.Player.LookupView | agent.h:223-226 | the four lookups add up to the specified view sum |
| TdPlayer.Player.ValueTurn | agent.h:222-228 | the inner loop adds both views of turn k and leaves the patterns at the unmirrored view |
| TdPlayer.Player.BoardValue | agent.h:218-231 | returns the specified value of the board and leaves the working patterns as they were |
| TdPlayer.Player.TryMove | agent.h:247-254 | one loop iteration keeps select_op's invariant: the best move so far, its score as the maximum, and ties to the earlier move |
| TdPlayer.Player.SelectOp | agent.h:242-257 | returns -1 when no legal move scores above the initial maximum, else the first legal move of the largest score; the patterns and weights are unchanged |
| TdPlayer.Player.AddEntry | agent.h:265 | one `+=` changes exactly the addressed entry of one table |
| TdPlayer.Player.AddView | agent.h:265-268 | the four writes of one pass give the specified tables |
| TdPlayer.Player.TrainPass | agent.h:264-270 | one inner pass writes through the current view and switches its mirror state |
| TdPlayer.Player.TrainTurn | agent.h:262-271 | one outer iteration of the update, leaving the patterns at the unmirrored view |
| TdPlayer.Player.StepSize | agent.h:259-261 | v_s is computed from the weights before any write, and is 0 for a terminal update |
| TdPlayer.Player.TrainWeight | agent.h:258-272 | the tables end as the specified update of their old contents, and the working patterns as they were |
| TdPlayer.Player.OpenEpisode | agent.h:178-180 | the counter is reset to 0 and the stored boards are kept |
| TdPlayer.Player.ResetFeatures | agent.h:188 | the working patterns are the fixed ones again |
| TdPlayer.Player.Advance | agent.h:193-212 | the first board is stored; the second is stored and trained on; later boards shift the pair and train on it; a reported -1 makes a terminal update |
| TdPlayer.Player.TakeAction | agent.h:181-216 | chooses the move select_op specifies from the fixed patterns: an action holds a move 0..3, and NoAction stands for select_op's -1. With no move, state and tables are unchanged. Otherwise the episode advances, with a non-terminal update from the second move on |

## Left out

- `board.h`, `action.h` and `weight.h` are not part of this model.
  - A board is sixteen cells in row-major order, each an exponent code 0..15.
  - `board::slide` is a parameter of every operation that moves. It returns the
    reward (-1 for an illegal move) and the resulting board.
  - Cells above 15 are not modelled. In the source they would carry into the
    next digit of the code.
- Weight persistence is not modelled as I/O. The contents of the weight file
  that load= names are the constructor parameter `file`. The binary format,
  reading errors and `std::exit` on a missing file are left out, and so is
  `save_weights` in the destructor.
- Floating point is modelled as exact reals: the weights, the `double` sums
  `value` and `v_s`, and the `float`
  `max_value` of select_op. Rounding, and the float rounding of scores before
  comparison, are not modelled.
- The boards `previous` and `next` before an episode stores them: `board`'s
  default constructor is not part of this model. The constructor's contract says
  nothing about them, and the source writes each before reading it.
- Initialising `t_tuple_feature` does not matter before the first
  take_action: every operation that reads it requires its entries in range,
  and take_action resets it first.
- With init= and without load=, the first four tables have 65536 entries, and
  the source indexes them with codes up to 16^6. The constructor's contract
  states that this case leaves the tables too small. Lookups and writes require
  large enough tables, so the overrun itself is not modelled.
- TdPlayer.Player.TakeAction: its contract does not mention the terminal update of the
  third state. Its slide is the one select_op already found legal, so that branch
  cannot be taken there. Advance models the branch.
- The `opcode` member and the commented-out random move of take_action are
  left out. Neither affects behaviour.
- The other agents (`random_agent`, the random environment, `learning_agent`,
  and `alpha` parsed with `stod`) are outside the core. So are `property`,
  `name`, `role`, `close_episode` and `check_for_win`.
- Meta.PairSplit: strings of npos or more characters and `substr` throwing past
  the end are not modelled. No key or value the tokenizer produces reaches
  either.
