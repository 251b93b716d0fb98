/**
 * The tokenizer of Apache Commons Lang, `StringUtils.split(String, char)`:
 * the string is cut at every occurrence of the separator, adjacent
 * separators count as one, and empty tokens are never produced.
 */
module StringUtils {

  /** The longest prefix of `s` that contains no `sep`. */
  function Token(s: string, sep: char): (t: string)
    ensures |t| <= |s| && t == s[..|t|]
    ensures sep !in t
    ensures |t| < |s| ==> s[|t|] == sep
  {
    if s == [] || s[0] == sep then [] else [s[0]] + Token(s[1..], sep)
  }

  /** `StringUtils.split(s, sep)`: the maximal separator-free runs of `s`, in order. */
  function Split(s: string, sep: char): (r: seq<string>)
    ensures forall i :: 0 <= i < |r| ==> r[i] != [] && sep !in r[i]
    ensures |r| <= |s|
    decreases |s|
  {
    if s == [] then []
    else if s[0] == sep then Split(s[1..], sep)
    else
      var t := Token(s, sep);
      [t] + Split(s[|t|..], sep)
  }

  /** The tokens written back with one separator between neighbours. */
  function Join(ts: seq<string>, sep: char): string
  {
    if |ts| == 0 then []
    else if |ts| == 1 then ts[0]
    else ts[0] + [sep] + Join(ts[1..], sep)
  }

  /** `count` copies of the separator. */
  function Repeat(c: char, count: nat): (s: string)
    ensures |s| == count && forall i :: 0 <= i < count ==> s[i] == c
  {
    if count == 0 then [] else [c] + Repeat(c, count - 1)
  }

  /** Tokens a split can produce: non-empty and free of the separator. */
  ghost predicate WellFormedTokens(ts: seq<string>, sep: char)
  {
    forall i :: 0 <= i < |ts| ==> ts[i] != [] && sep !in ts[i]
  }

  /** The token of `x + z` is the token of `x` when `x` holds a separator, and reaches into `z` otherwise. */
  lemma {:induction false} TokenAppend(x: string, z: string, sep: char)
    ensures Token(x + z, sep) == if sep in x then Token(x, sep) else x + Token(z, sep)
    decreases |x|
  {
    if x == [] {
      assert x + z == z;
    } else {
      assert (x + z)[0] == x[0];
      assert (x + z)[1..] == x[1..] + z;
      if x[0] != sep {
        TokenAppend(x[1..], z, sep);
        assert x == [x[0]] + x[1..];
        assert sep in x <==> sep in x[1..];
      }
    }
  }

  /** A string without separators splits into itself alone. */
  lemma SplitSingleToken(t: string, sep: char)
    requires t != [] && sep !in t
    ensures Split(t, sep) == [t]
  {
    TokenAppend(t, [], sep);
    assert t + [] == t;
    assert t[|t|..] == [];
  }

  /** Cutting at one separator splits the two sides independently: `split(x + sep + y) == split(x) ++ split(y)`. */
  lemma {:induction false} SplitAtSeparator(x: string, y: string, sep: char)
    ensures Split(x + [sep] + y, sep) == Split(x, sep) + Split(y, sep)
    decreases |x|
  {
    var s := x + [sep] + y;
    if x == [] {
      assert s == [sep] + y;
      assert s[1..] == y;
    } else if x[0] == sep {
      assert s[0] == sep;
      assert s[1..] == x[1..] + [sep] + y;
      SplitAtSeparator(x[1..], y, sep);
    } else if sep in x {
      var tx := Token(x, sep);
      SplitPastToken(x, y, sep);
      SplitAtSeparator(x[|tx|..], y, sep);
    } else {
      SplitLastToken(x, y, sep);
    }
  }

  /** When `x` starts a token and holds a separator, the split of `x + sep + y` emits the first token of `x` and moves on. */
  lemma SplitPastToken(x: string, y: string, sep: char)
    requires x != [] && x[0] != sep && sep in x
    ensures var tx := Token(x, sep);
      && 0 < |tx| < |x|
      && Split(x + [sep] + y, sep) == [tx] + Split(x[|tx|..] + [sep] + y, sep)
      && Split(x, sep) == [tx] + Split(x[|tx|..], sep)
  {
    var s := x + [sep] + y;
    var tx := Token(x, sep);
    TokenAppend(x, [sep] + y, sep);
    assert s == x + ([sep] + y);
    assert s[0] == x[0];
    assert Token(s, sep) == tx;
    assert s[|tx|..] == x[|tx|..] + [sep] + y;
  }

  /** When `x` is a single token, the split of `x + sep + y` is `x` followed by the split of `y`. */
  lemma SplitLastToken(x: string, y: string, sep: char)
    requires x != [] && sep !in x
    ensures Split(x + [sep] + y, sep) == [x] + Split(y, sep)
    ensures Split(x, sep) == [x]
  {
    var s := x + [sep] + y;
    TokenAppend(x, [sep] + y, sep);
    assert s == x + ([sep] + y);
    assert s[0] == x[0];
    assert Token([sep] + y, sep) == [];
    assert Token(s, sep) == x;
    assert s[|x|..] == [sep] + y;
    assert ([sep] + y)[1..] == y;
    SplitSingleToken(x, sep);
  }

  /** Well-formed tokens survive a join followed by a split: the tokenizer inverts `Join`. */
  lemma {:induction false} SplitJoin(ts: seq<string>, sep: char)
    requires WellFormedTokens(ts, sep)
    ensures Split(Join(ts, sep), sep) == ts
    decreases |ts|
  {
    if |ts| == 1 {
      SplitSingleToken(ts[0], sep);
    } else if |ts| > 1 {
      SplitJoin(ts[1..], sep);
      SplitSingleToken(ts[0], sep);
      SplitAtSeparator(ts[0], Join(ts[1..], sep), sep);
      assert [ts[0]] + ts[1..] == ts;
    }
  }

  /** A run of separators of any length adds no token. */
  lemma {:induction false} SplitSeparatorRun(count: nat, sep: char)
    ensures Split(Repeat(sep, count), sep) == []
    decreases count
  {
    if count > 0 {
      assert Repeat(sep, count)[1..] == Repeat(sep, count - 1);
      SplitSeparatorRun(count - 1, sep);
    }
  }

  /** Adjacent separators collapse: `x`, a run of one or more separators, then `y`, splits as `x` and `y`. */
  lemma {:induction false} SplitCollapsesRun(x: string, count: nat, y: string, sep: char)
    requires count >= 1
    ensures Split(x + Repeat(sep, count) + y, sep) == Split(x, sep) + Split(y, sep)
    decreases count
  {
    assert Repeat(sep, count) == [sep] + Repeat(sep, count - 1);
    assert x + Repeat(sep, count) + y == x + [sep] + (Repeat(sep, count - 1) + y);
    SplitAtSeparator(x, Repeat(sep, count - 1) + y, sep);
    if count == 1 {
      assert Repeat(sep, 0) + y == y;
    } else {
      SplitCollapsesRun([], count - 1, y, sep);
      assert [] + Repeat(sep, count - 1) + y == Repeat(sep, count - 1) + y;
      assert Split([], sep) == [];
    }
  }
}
