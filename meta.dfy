/** The agent's `key=value` properties: the whitespace tokenizer that the
    constructor reads its argument string with, the split of one pair at its
    first '=', and the map the pairs are stored in. */
module Meta {

  /** The characters a `>>` into a string skips and stops at. */
  predicate IsSpace(c: char)
  {
    c == ' ' || c == '\t' || c == '\n' || c == '\U{B}' || c == '\U{C}' || c == '\r'
  }

  /** The length of the run of non-space characters that s starts with. */
  function WordLen(s: string): (n: nat)
    ensures n <= |s|
    ensures forall k :: 0 <= k < n ==> !IsSpace(s[k])
    ensures n == |s| || IsSpace(s[n])
  {
    if |s| == 0 || IsSpace(s[0]) then 0 else 1 + WordLen(s[1..])
  }

  /** The tokens that successive `ss >> pair` read from s. */
  function Words(s: string): seq<string>
    decreases |s|
  {
    if |s| == 0 then []
    else if IsSpace(s[0]) then Words(s[1..])
    else
      var n := WordLen(s);
      [s[..n]] + Words(s[n..])
  }

  /** A token: non-empty and free of spaces. */
  predicate IsToken(w: string)
  {
    |w| > 0 && forall k :: 0 <= k < |w| ==> !IsSpace(w[k])
  }

  /** Every word the tokenizer produces is a token. */
  lemma {:induction false} WordsAreTokens(s: string)
    ensures forall i :: 0 <= i < |Words(s)| ==> IsToken(Words(s)[i])
    decreases |s|
  {
    if |s| > 0 {
      if IsSpace(s[0]) {
        WordsAreTokens(s[1..]);
      } else {
        var n := WordLen(s);
        WordsAreTokens(s[n..]);
        assert Words(s) == [s[..n]] + Words(s[n..]);
      }
    }
  }

  /** The run of non-space characters is exactly as long as the run found. */
  lemma {:induction false} WordLenIs(s: string, n: nat)
    requires n <= |s|
    requires forall k :: 0 <= k < n ==> !IsSpace(s[k])
    requires n == |s| || IsSpace(s[n])
    ensures WordLen(s) == n
  {
    if n > 0 {
      WordLenIs(s[1..], n - 1);
    }
  }

  /** A token followed by a space is read first, and the rest after it. */
  lemma WordsAfterToken(w: string, rest: string)
    requires IsToken(w)
    ensures Words(w + " " + rest) == [w] + Words(rest)
  {
    var s := w + " " + rest;
    WordLenIs(s, |w|);
    assert s[..|w|] == w;
    assert s[|w|..] == " " + rest;
    assert (" " + rest)[1..] == rest;
  }

  /** `std::string::npos` */
  const NPOS: nat := 0xFFFF_FFFF_FFFF_FFFF

  /** `s.find(c)`: the first index of c, or npos. */
  function Find(s: string, c: char): (r: nat)
    ensures c !in s ==> r == NPOS
    ensures c in s ==> r < |s| && s[r] == c && c !in s[..r]
    decreases |s|
  {
    if |s| == 0 then NPOS
    else if s[0] == c then 0
    else
      var r := Find(s[1..], c);
      assert s == [s[0]] + s[1..];
      if c in s[1..] then
        assert s[..1 + r] == [s[0]] + s[1..][..r];
        1 + r
      else
        NPOS
  }

  /** `s.substr(pos, len)`: at most len characters from pos on; the source
      throws when pos exceeds the length, so callers must not. */
  function Substr(s: string, pos: nat, len: nat): (r: string)
    requires pos <= |s|
    ensures |r| <= len && pos + |r| <= |s|
    ensures r == s[pos..pos + |r|]
    ensures pos + len <= |s| ==> |r| == len
    ensures pos + len > |s| ==> r == s[pos..]
  {
    if pos + len <= |s| then s[pos..pos + len] else s[pos..]
  }

  /** Where the value of a pair starts: `pair.find('=') + 1` in size_t
      arithmetic, where npos + 1 wraps around to 0. */
  function ValueStart(pair: string): (r: nat)
    ensures r <= |pair|
  {
    var f := Find(pair, '=');
    if f == NPOS then 0 else f + 1
  }

  /** `pair.substr(0, pair.find('='))` */
  function Key(pair: string): string
  {
    Substr(pair, 0, Find(pair, '='))
  }

  /** `pair.substr(pair.find('=') + 1)` */
  function Val(pair: string): string
  {
    Substr(pair, ValueStart(pair), NPOS)
  }

  /** A pair splits at its first '=': the text before it is the key, the
      text after it the value; without a '=', the whole pair is both. */
  lemma PairSplit(pair: string)
    requires |pair| < NPOS
    ensures '=' in pair ==>
              var i := Find(pair, '=');
              Key(pair) == pair[..i] && Val(pair) == pair[i + 1..] && '=' !in Key(pair)
    ensures '=' !in pair ==> Key(pair) == pair && Val(pair) == pair
  {
    var i := Find(pair, '=');
    if '=' !in pair {
      assert pair[0..] == pair;
    }
  }

  /** Any key without '=' and any value round-trip through `key=value`. */
  lemma {:induction false} PairRoundTrip(k: string, v: string)
    requires '=' !in k && |k| + |v| + 1 < NPOS
    ensures Key(k + "=" + v) == k && Val(k + "=" + v) == v
  {
    var p := k + "=" + v;
    FindAfterPrefix(k, v);
    PairSplit(p);
    assert p[..|k|] == k;
    assert p[|k| + 1..] == v;
  }

  lemma {:induction false} FindAfterPrefix(k: string, v: string)
    requires '=' !in k
    ensures '=' in k + "=" + v && Find(k + "=" + v, '=') == |k|
    decreases |k|
  {
    var p := k + "=" + v;
    assert p[|k|] == '=';
    if |k| > 0 {
      assert p[1..] == k[1..] + "=" + v;
      FindAfterPrefix(k[1..], v);
    }
  }

  /** Storing pairs in order, each overwriting the entry of its key:
      `meta[key] = { value }` for every pair read. */
  function Store(m: map<string, string>, pairs: seq<string>): map<string, string>
    decreases |pairs|
  {
    if |pairs| == 0 then m else Store(m[Key(pairs[0]) := Val(pairs[0])], pairs[1..])
  }

  /** Keys no pair names keep what the map had. */
  lemma {:induction false} StoreUntouched(m: map<string, string>, pairs: seq<string>, k: string)
    requires forall i :: 0 <= i < |pairs| ==> Key(pairs[i]) != k
    ensures k in Store(m, pairs) <==> k in m
    ensures k in m ==> Store(m, pairs)[k] == m[k]
    decreases |pairs|
  {
    if |pairs| > 0 {
      assert Key(pairs[0]) != k;
      forall i | 0 <= i < |pairs| - 1
        ensures Key(pairs[1..][i]) != k
      {
        assert pairs[1..][i] == pairs[i + 1];
      }
      StoreUntouched(m[Key(pairs[0]) := Val(pairs[0])], pairs[1..], k);
    }
  }

  /** The pair stored last for a key decides its value. */
  lemma {:induction false} StoreLastWins(m: map<string, string>, pairs: seq<string>, k: string, j: nat)
    requires j < |pairs| && Key(pairs[j]) == k
    requires forall i :: j < i < |pairs| ==> Key(pairs[i]) != k
    ensures k in Store(m, pairs) && Store(m, pairs)[k] == Val(pairs[j])
    decreases |pairs|
  {
    var m' := m[Key(pairs[0]) := Val(pairs[0])];
    forall i | j - 1 < i < |pairs| - 1
      ensures Key(pairs[1..][i]) != k
    {
      assert pairs[1..][i] == pairs[i + 1];
    }
    if j == 0 {
      StoreUntouched(m', pairs[1..], k);
    } else {
      assert pairs[1..][j - 1] == pairs[j];
      StoreLastWins(m', pairs[1..], k, j - 1);
    }
  }

  /** Storing a sequence of pairs in two parts. */
  lemma {:induction false} StoreConcat(m: map<string, string>, p: seq<string>, q: seq<string>)
    ensures Store(m, p + q) == Store(Store(m, p), q)
    decreases |p|
  {
    if |p| > 0 {
      assert (p + q)[0] == p[0];
      assert (p + q)[1..] == p[1..] + q;
      StoreConcat(m[Key(p[0]) := Val(p[0])], p[1..], q);
    } else {
      assert p + q == q;
    }
  }

  /** The defaults every agent starts from. */
  const NAME_DEFAULT: string := "name=unknown"
  const ROLE_DEFAULT: string := "role=unknown"
  const DEFAULTS: string := NAME_DEFAULT + " " + ROLE_DEFAULT + " "

  /** The properties of an agent built from argument string `args`. */
  function MetaOf(args: string): map<string, string>
  {
    Store(map[], Words(DEFAULTS + args))
  }

  lemma DefaultTokens()
    ensures IsToken(NAME_DEFAULT) && IsToken(ROLE_DEFAULT)
  {
  }

  /** The defaults followed by args, as the tokenizer meets them. */
  lemma DefaultsLayout(args: string)
    ensures DEFAULTS + args == NAME_DEFAULT + " " + (ROLE_DEFAULT + " " + args)
  {
  }

  /** The tokenizer reads the two default pairs first. */
  lemma DefaultsFirst(args: string)
    ensures Words(DEFAULTS + args) == [NAME_DEFAULT, ROLE_DEFAULT] + Words(args)
  {
    DefaultTokens();
    DefaultsLayout(args);
    WordsAfterToken(ROLE_DEFAULT, args);
    WordsAfterToken(NAME_DEFAULT, ROLE_DEFAULT + " " + args);
  }

  /** Keys are never removed by storing pairs. */
  lemma {:induction false} StoreKeepsKeys(m: map<string, string>, pairs: seq<string>, k: string)
    requires k in m
    ensures k in Store(m, pairs)
    decreases |pairs|
  {
    if |pairs| > 0 {
      StoreKeepsKeys(m[Key(pairs[0]) := Val(pairs[0])], pairs[1..], k);
    }
  }

  /** The map an agent starts from before the pairs of args are stored. */
  const DEFAULT_META: map<string, string> := map["name" := "unknown", "role" := "unknown"]

  /** The default name pair splits into its key and value. */
  lemma NameDefaultPair()
    ensures Key(NAME_DEFAULT) == "name" && Val(NAME_DEFAULT) == "unknown"
  {
    assert NAME_DEFAULT == "name" + "=" + "unknown";
    PairRoundTrip("name", "unknown");
  }

  /** The default role pair splits into its key and value. */
  lemma RoleDefaultPair()
    ensures Key(ROLE_DEFAULT) == "role" && Val(ROLE_DEFAULT) == "unknown"
  {
    assert ROLE_DEFAULT == "role" + "=" + "unknown";
    PairRoundTrip("role", "unknown");
  }

  lemma DefaultsStored(args: string)
    ensures MetaOf(args) == Store(DEFAULT_META, Words(args))
  {
    var a, b := NAME_DEFAULT, ROLE_DEFAULT;
    DefaultsFirst(args);
    StoreConcat(map[], [a, b], Words(args));
    NameDefaultPair();
    RoleDefaultPair();
    var m1 := map[][Key(a) := Val(a)];
    assert Store(map[], [a, b]) == Store(m1, [b]) by {
      assert [a, b][1..] == [b];
    }
    assert Store(m1, [b]) == Store(m1[Key(b) := Val(b)], []);
    assert m1[Key(b) := Val(b)] == DEFAULT_META;
  }

  /** Every agent has a name and a role. */
  lemma MetaHasNameAndRole(args: string)
    ensures "name" in MetaOf(args) && "role" in MetaOf(args)
  {
    DefaultsStored(args);
    StoreKeepsKeys(DEFAULT_META, Words(args), "name");
    StoreKeepsKeys(DEFAULT_META, Words(args), "role");
  }

  /** Name and role are "unknown" unless a pair of args sets them. */
  lemma MetaDefaultValue(args: string, k: string)
    requires k == "name" || k == "role"
    requires forall i :: 0 <= i < |Words(args)| ==> Key(Words(args)[i]) != k
    ensures k in MetaOf(args) && MetaOf(args)[k] == "unknown"
  {
    DefaultsStored(args);
    StoreUntouched(DEFAULT_META, Words(args), k);
  }

  /** A key that a pair of args sets has the value of the last such pair:
      arguments override the defaults and earlier arguments. */
  lemma MetaOverride(args: string, k: string, j: nat)
    requires j < |Words(args)| && Key(Words(args)[j]) == k
    requires forall i :: j < i < |Words(args)| ==> Key(Words(args)[i]) != k
    ensures k in MetaOf(args) && MetaOf(args)[k] == Val(Words(args)[j])
  {
    DefaultsStored(args);
    StoreLastWins(DEFAULT_META, Words(args), k, j);
  }

  /** `ss >> pair` from position pos: skips spaces, then reads the longest
      run of non-space characters; an empty result means the stream is
      exhausted. */
  method ReadWord(s: string, pos: nat) returns (w: string, next: nat)
    requires pos <= |s|
    ensures pos <= next <= |s|
    ensures w == [] ==> next == |s| && Words(s[pos..]) == []
    ensures w != [] ==> pos < next && Words(s[pos..]) == [w] + Words(s[next..])
  {
    var i := SkipSpaces(s, pos);
    var j := ScanWord(s, i);
    w := s[i..j];
    next := j;
    if i < |s| {
      WordAt(s, i, j);
    } else {
      assert s[i..] == [];
    }
  }

  /** A maximal run of non-space characters at a non-space position is the
      next word, and the words after it start where the run ends. */
  lemma WordAt(s: string, i: nat, j: nat)
    requires i < j <= |s| && (j == |s| || IsSpace(s[j]))
    requires forall k :: i <= k < j ==> !IsSpace(s[k])
    ensures Words(s[i..]) == [s[i..j]] + Words(s[j..])
  {
    WordLenIs(s[i..], j - i);
    assert s[i..][..j - i] == s[i..j];
    assert s[i..][j - i..] == s[j..];
  }

  /** The spaces `>>` skips before a token: they produce no word. */
  method SkipSpaces(s: string, pos: nat) returns (i: nat)
    requires pos <= |s|
    ensures pos <= i <= |s| && (i == |s| || !IsSpace(s[i]))
    ensures Words(s[pos..]) == Words(s[i..])
  {
    i := pos;
    while i < |s| && IsSpace(s[i])
      invariant pos <= i <= |s|
      invariant Words(s[pos..]) == Words(s[i..])
    {
      assert s[i..][1..] == s[i + 1..];
      i := i + 1;
    }
  }

  /** The end of the run of non-space characters that starts at i. */
  method ScanWord(s: string, i: nat) returns (j: nat)
    requires i <= |s|
    ensures i <= j <= |s| && (j == |s| || IsSpace(s[j]))
    ensures forall k :: i <= k < j ==> !IsSpace(s[k])
  {
    j := i;
    while j < |s| && !IsSpace(s[j])
      invariant i <= j <= |s|
      invariant forall k :: i <= k < j ==> !IsSpace(s[k])
    {
      j := j + 1;
    }
  }

  /** The property map of an agent. */
  class Agent {
    var meta: map<string, string>

    /** `agent(args)`: stores every pair of the defaults followed by args. */
    constructor(args: string)
      ensures meta == MetaOf(args)
    {
      var s := DEFAULTS + args;
      var m: map<string, string> := map[];
      var pos := 0;
      var done := false;
      assert s[0..] == s;
      while !done
        invariant pos <= |s|
        invariant Store(m, Words(s[pos..])) == MetaOf(args)
        invariant done ==> Words(s[pos..]) == []
        decreases |s| - pos, if done then 0 else 1
      {
        var w, next := ReadWord(s, pos);
        if w == [] {
          done := true;
        } else {
          assert ([w] + Words(s[next..]))[1..] == Words(s[next..]);
          m := m[Key(w) := Val(w)];
          pos := next;
        }
      }
      meta := m;
    }

    /** `notify(msg)`: stores one pair, read without tokenizing. */
    method Notify(msg: string)
      modifies this
      ensures meta == old(meta)[Key(msg) := Val(msg)]
    {
      meta := meta[Key(msg) := Val(msg)];
    }
  }

  /** A notified pair is stored exactly as the constructor would store it. */
  lemma NotifyStoresLikeParsing(m: map<string, string>, msg: string)
    ensures Store(m, [msg]) == m[Key(msg) := Val(msg)]
  {
  }
}
