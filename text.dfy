/**
 * Words and whitespace, for any notion of whitespace.
 *
 * Both halves of the summariser split text at whitespace: the browser with
 * `trim()` and `split(/\s+/)`, the server with Python's `strip()`, `split()`
 * and `" ".join(...)`. The two runtimes disagree on which characters are
 * whitespace, so every definition here takes the classifier `ws` as a
 * parameter; Frontend and Backend supply their own.
 */
module Text {

  /** Every character of `s` is whitespace (vacuously so for ""). */
  predicate AllSpace(ws: char -> bool, s: string) {
    forall i :: 0 <= i < |s| ==> ws(s[i])
  }

  /** No character of `s` is whitespace. */
  predicate NoSpace(ws: char -> bool, s: string) {
    forall i :: 0 <= i < |s| ==> !ws(s[i])
  }

  /** A word: a non-empty run of non-whitespace characters. */
  predicate IsWord(ws: char -> bool, w: string) {
    w != "" && NoSpace(ws, w)
  }

  /** Number of whitespace characters at the start of `s`. */
  function SpacePrefix(ws: char -> bool, s: string): (n: nat)
    ensures n <= |s|
    ensures AllSpace(ws, s[..n])
    ensures n < |s| ==> !ws(s[n])
  {
    if s == "" || !ws(s[0]) then 0
    else
      var n := 1 + SpacePrefix(ws, s[1..]);
      assert s[..n] == [s[0]] + s[1..][..n - 1];
      n
  }

  /** Number of whitespace characters at the end of `s`. */
  function SpaceSuffix(ws: char -> bool, s: string): (n: nat)
    ensures n <= |s|
    ensures AllSpace(ws, s[|s| - n..])
    ensures n < |s| ==> !ws(s[|s| - n - 1])
  {
    if s == "" || !ws(s[|s| - 1]) then 0
    else
      var n := 1 + SpaceSuffix(ws, s[..|s| - 1]);
      var tail := s[|s| - n..];
      forall j | 0 <= j < n ensures ws(tail[j]) {
        if j < n - 1 {
          assert tail[j] == s[..|s| - 1][|s| - n..][j];
        }
      }
      n
  }

  /** `s` with its leading whitespace removed. */
  function TrimStart(ws: char -> bool, s: string): (r: string)
    ensures |r| <= |s|
    ensures r != "" ==> !ws(r[0])
    ensures r == "" <==> AllSpace(ws, s)
  {
    var n := SpacePrefix(ws, s);
    assert n == |s| ==> s[..n] == s;
    s[n..]
  }

  /** `s` with its trailing whitespace removed. */
  function TrimEnd(ws: char -> bool, s: string): (r: string)
    ensures |r| <= |s|
    ensures r != "" ==> !ws(r[|r| - 1])
    ensures r == "" <==> AllSpace(ws, s)
  {
    var n := SpaceSuffix(ws, s);
    assert n == |s| ==> s[|s| - n..] == s;
    s[..|s| - n]
  }

  /** `s` with whitespace removed from both ends (`trim()` / `strip()`). */
  function Trim(ws: char -> bool, s: string): (r: string)
    ensures |r| <= |s|
    ensures r == "" <==> AllSpace(ws, s)
    ensures Trimmed(ws, r)
  {
    var front := TrimStart(ws, s);
    var r := TrimEnd(ws, front);
    assert r != "" ==> r[0] == front[0];
    r
  }

  /**
   * Trimming keeps the middle of `s` as it is: the result is the slice of `s`
   * that starts after its whitespace prefix.
   */
  lemma TrimIsMiddle(ws: char -> bool, s: string)
    ensures SpacePrefix(ws, s) + |Trim(ws, s)| <= |s|
    ensures Trim(ws, s) == s[SpacePrefix(ws, s)..SpacePrefix(ws, s) + |Trim(ws, s)|]
  {
    var p := SpacePrefix(ws, s);
    var front := TrimStart(ws, s);
    assert front == s[p..];
    var n := SpaceSuffix(ws, front);
    assert Trim(ws, s) == front[..|front| - n];
  }

  /**
   * Trimming removes only whitespace: what precedes and what follows the
   * kept slice is all whitespace.
   */
  lemma TrimDropsOnlySpace(ws: char -> bool, s: string)
    ensures SpacePrefix(ws, s) + |Trim(ws, s)| <= |s|
    ensures AllSpace(ws, s[..SpacePrefix(ws, s)])
    ensures AllSpace(ws, s[SpacePrefix(ws, s) + |Trim(ws, s)|..])
  {
    var p := SpacePrefix(ws, s);
    var front := TrimStart(ws, s);
    assert front == s[p..];
    var n := SpaceSuffix(ws, front);
    var r := Trim(ws, s);
    assert r == front[..|front| - n];
    assert front[|front| - n..] == s[p + |r|..];
  }

  /** Length of the longest whitespace-free prefix of `s`. */
  function RunLength(ws: char -> bool, s: string): (k: nat)
    ensures k <= |s|
    ensures NoSpace(ws, s[..k])
    ensures k < |s| ==> ws(s[k])
  {
    if s == "" || ws(s[0]) then 0
    else
      var k := 1 + RunLength(ws, s[1..]);
      assert s[..k] == [s[0]] + s[1..][..k - 1];
      k
  }

  /** The three properties of RunLength determine it. */
  lemma RunLengthUnique(ws: char -> bool, s: string, k: nat)
    requires k <= |s|
    requires NoSpace(ws, s[..k])
    requires k < |s| ==> ws(s[k])
    ensures RunLength(ws, s) == k
  {
    var j := RunLength(ws, s);
    forall i | 0 <= i < k ensures !ws(s[i]) { assert s[..k][i] == s[i]; }
    forall i | 0 <= i < j ensures !ws(s[i]) { assert s[..j][i] == s[i]; }
  }

  /**
   * The words of `s`: its maximal runs of non-whitespace characters, in order
   * (Python's `str.split()` with no separator).
   */
  function Words(ws: char -> bool, s: string): (r: seq<string>)
    ensures forall i :: 0 <= i < |r| ==> IsWord(ws, r[i])
    ensures r == [] <==> AllSpace(ws, s)
    decreases |s|
  {
    if s == "" then []
    else if ws(s[0]) then
      var r := Words(ws, s[1..]);
      assert AllSpace(ws, s[1..]) ==> AllSpace(ws, s) by {
        if AllSpace(ws, s[1..]) {
          forall i | 1 <= i < |s| ensures ws(s[i]) { assert s[i] == s[1..][i - 1]; }
        }
      }
      r
    else
      var k := RunLength(ws, s);
      [s[..k]] + Words(ws, s[k..])
  }

  /**
   * JavaScript's `s.split(/\s+/)`: the pieces between maximal whitespace runs.
   * Unlike Words it keeps an empty first piece when `s` starts with whitespace
   * and an empty last piece when `s` ends with whitespace; "" gives [""].
   */
  function SplitOnRuns(ws: char -> bool, s: string): (r: seq<string>)
    ensures |r| >= 1
    ensures forall i :: 0 <= i < |r| ==> NoSpace(ws, r[i])
    decreases |s|
  {
    var k := RunLength(ws, s);
    if k == |s| then [s]
    else [s[..k]] + SplitOnRuns(ws, TrimStart(ws, s[k..]))
  }

  /** `" ".join(words)`. */
  function JoinWords(words: seq<string>): (r: string)
    ensures words == [] ==> r == ""
    ensures |words| == 1 ==> r == words[0]
  {
    if words == [] then ""
    else if |words| == 1 then words[0]
    else words[0] + " " + JoinWords(words[1..])
  }

  /** Dropping leading whitespace keeps the words. */
  lemma {:induction false} WordsOfTrimStart(ws: char -> bool, s: string)
    ensures Words(ws, TrimStart(ws, s)) == Words(ws, s)
    decreases |s|
  {
    if s != "" && ws(s[0]) {
      var n := SpacePrefix(ws, s);
      assert s[n..] == s[1..][n - 1..];
      WordsOfTrimStart(ws, s[1..]);
    } else {
      assert s[0..] == s;
    }
  }

  /** A word-boundary character (or the end) after `a` does not lengthen a's first run. */
  lemma RunLengthAppend(ws: char -> bool, a: string, b: string)
    requires b == "" || ws(b[0])
    ensures RunLength(ws, a + b) == RunLength(ws, a)
  {
    var k := RunLength(ws, a);
    assert (a + b)[..k] == a[..k];
    if k < |a| {
      assert (a + b)[k] == a[k];
    } else if b != "" {
      assert (a + b)[k] == b[0];
    }
    RunLengthUnique(ws, a + b, k);
  }

  /** Appending whitespace keeps the words. */
  lemma {:induction false} WordsAppendSpace(ws: char -> bool, a: string, b: string)
    requires AllSpace(ws, b)
    ensures Words(ws, a + b) == Words(ws, a)
    decreases |a|
  {
    if a == "" {
      assert a + b == b;
    } else if ws(a[0]) {
      assert (a + b)[1..] == a[1..] + b;
      WordsAppendSpace(ws, a[1..], b);
    } else {
      var k := RunLength(ws, a);
      RunLengthAppend(ws, a, b);
      assert (a + b)[..k] == a[..k];
      assert (a + b)[k..] == a[k..] + b;
      WordsAppendSpace(ws, a[k..], b);
    }
  }

  /** Trimming keeps the words. */
  lemma WordsOfTrim(ws: char -> bool, s: string)
    ensures Words(ws, Trim(ws, s)) == Words(ws, s)
  {
    var front := TrimStart(ws, s);
    var n := SpaceSuffix(ws, front);
    var r := front[..|front| - n];
    var tail := front[|front| - n..];
    assert front == r + tail;
    WordsAppendSpace(ws, r, tail);
    WordsOfTrimStart(ws, s);
    assert Words(ws, s) == Words(ws, r);
    assert Trim(ws, s) == r;
  }

  /** No whitespace at either end. */
  predicate Trimmed(ws: char -> bool, s: string) {
    s == "" || (!ws(s[0]) && !ws(s[|s| - 1]))
  }

  /** Trimming leaves text without surrounding whitespace as it is. */
  lemma TrimOfTrimmed(ws: char -> bool, s: string)
    requires Trimmed(ws, s)
    ensures Trim(ws, s) == s
  {
    if s != "" {
      assert s[0..] == s;
      assert s[..|s|] == s;
    }
  }

  /**
   * On text with no whitespace at either end, splitting at whitespace runs
   * yields exactly the words.
   */
  lemma {:induction false} SplitOnRunsIsWords(ws: char -> bool, s: string)
    requires s != "" && !ws(s[0]) && !ws(s[|s| - 1])
    ensures SplitOnRuns(ws, s) == Words(ws, s)
    decreases |s|
  {
    var k := RunLength(ws, s);
    if k == |s| {
      assert s[..k] == s;
      assert s[k..] == "";
    } else {
      var rest := s[k..];
      var t := TrimStart(ws, rest);
      WordsOfTrimStart(ws, rest);
      assert rest[|rest| - 1] == s[|s| - 1];
      assert t != "";
      assert t == rest[SpacePrefix(ws, rest)..];
      assert t[|t| - 1] == s[|s| - 1];
      SplitOnRunsIsWords(ws, t);
    }
  }

  /** Joining words with single spaces and splitting again gives the words back. */
  lemma {:induction false} WordsOfJoin(ws: char -> bool, words: seq<string>)
    requires ws(' ')
    requires forall i :: 0 <= i < |words| ==> IsWord(ws, words[i])
    ensures Words(ws, JoinWords(words)) == words
    decreases |words|
  {
    if words == [] {
    } else if |words| == 1 {
      var w := words[0];
      assert w[..|w|] == w;
      RunLengthUnique(ws, w, |w|);
      assert w[|w|..] == "";
    } else {
      var w := words[0];
      var tail := JoinWords(words[1..]);
      var s := w + " " + tail;
      assert s[..|w|] == w;
      assert s[|w|] == ' ';
      RunLengthUnique(ws, s, |w|);
      assert s[|w|..] == " " + tail;
      assert (" " + tail)[1..] == tail;
      WordsOfJoin(ws, words[1..]);
    }
  }

  /** Text made of whitespace-only words joined by a whitespace separator is whitespace-only. */
  lemma {:induction false} JoinOfSpaces(ws: char -> bool, words: seq<string>)
    requires ws(' ')
    requires forall i :: 0 <= i < |words| ==> AllSpace(ws, words[i])
    ensures AllSpace(ws, JoinWords(words))
    decreases |words|
  {
    if |words| > 1 {
      JoinOfSpaces(ws, words[1..]);
      var s := words[0] + " " + JoinWords(words[1..]);
      forall i | 0 <= i < |s| ensures ws(s[i]) {
        if i < |words[0]| {
          assert s[i] == words[0][i];
        } else if i > |words[0]| {
          assert s[i] == JoinWords(words[1..])[i - |words[0]| - 1];
        }
      }
    }
  }
}
