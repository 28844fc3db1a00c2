/**
 * The Python `str` operations the benchmark code relies on, on `seq<char>`:
 * `strip()`, `lower()`, `startswith`, `endswith`, `split(sep)`,
 * `split(sep, 1)` and `split(sep)[-1]`.
 */
module Text {

  /** The characters Python's `str.isspace()` accepts, which `str.strip()` removes. */
  predicate IsSpace(c: char)
  {
    || c == ' ' || c == '\t' || c == '\n' || c == '\U{0B}' || c == '\U{0C}' || c == '\r'
    || ('\U{1C}' <= c <= '\U{1F}')
    || c == '\U{85}' || c == '\U{A0}' || c == '\U{1680}'
    || ('\U{2000}' <= c <= '\U{200A}')
    || c == '\U{2028}' || c == '\U{2029}' || c == '\U{202F}' || c == '\U{205F}' || c == '\U{3000}'
  }

  /** Drops leading whitespace: what `lstrip()` returns. */
  function TrimLeft(s: string): string
  {
    if s != [] && IsSpace(s[0]) then TrimLeft(s[1..]) else s
  }

  /** `lstrip()` removes exactly the leading run of whitespace. */
  lemma {:induction false} TrimLeftSpec(s: string)
    ensures |TrimLeft(s)| <= |s| && TrimLeft(s) == s[|s| - |TrimLeft(s)|..]
    ensures TrimLeft(s) == [] || !IsSpace(TrimLeft(s)[0])
    ensures forall k :: 0 <= k < |s| - |TrimLeft(s)| ==> IsSpace(s[k])
  {
    if s != [] && IsSpace(s[0]) {
      var t := s[1..];
      TrimLeftSpec(t);
      var r := TrimLeft(t);
      assert TrimLeft(s) == r;
      assert s[|s| - |r|..] == t[|t| - |r|..];
      forall k | 0 <= k < |s| - |r|
        ensures IsSpace(s[k])
      {
        if k > 0 {
          assert s[k] == t[k - 1];
        }
      }
    }
  }

  /** Drops trailing whitespace: what `rstrip()` returns. */
  function TrimRight(s: string): string
  {
    if s != [] && IsSpace(s[|s| - 1]) then TrimRight(s[..|s| - 1]) else s
  }

  /** `rstrip()` removes exactly the trailing run of whitespace. */
  lemma {:induction false} TrimRightSpec(s: string)
    ensures |TrimRight(s)| <= |s| && TrimRight(s) == s[..|TrimRight(s)|]
    ensures TrimRight(s) == [] || !IsSpace(TrimRight(s)[|TrimRight(s)| - 1])
    ensures forall k :: |TrimRight(s)| <= k < |s| ==> IsSpace(s[k])
  {
    if s != [] && IsSpace(s[|s| - 1]) {
      var t := s[..|s| - 1];
      TrimRightSpec(t);
      var r := TrimRight(t);
      assert TrimRight(s) == r;
      assert s[..|r|] == t[..|r|];
      forall k | |r| <= k < |s|
        ensures IsSpace(s[k])
      {
        if k < |s| - 1 {
          assert s[k] == t[k];
        }
      }
    }
  }

  /** Python's `s.strip()`: `s` without its leading and trailing whitespace. */
  function Strip(s: string): string
  {
    TrimRight(TrimLeft(s))
  }

  /**
   * `strip()` gives the text between the leading and the trailing run of
   * whitespace: a string that neither starts nor ends with whitespace, and
   * nothing exactly when the whole string is whitespace.
   */
  lemma StripSpec(s: string)
    ensures exists a, b ::
      (&& 0 <= a <= b <= |s| && Strip(s) == s[a..b]
       && (forall k :: 0 <= k < a ==> IsSpace(s[k]))
       && (forall k :: b <= k < |s| ==> IsSpace(s[k])))
    ensures Strip(s) == [] || (!IsSpace(Strip(s)[0]) && !IsSpace(Strip(s)[|Strip(s)| - 1]))
    ensures Strip(s) == [] <==> forall k :: 0 <= k < |s| ==> IsSpace(s[k])
  {
    var l := TrimLeft(s);
    TrimLeftSpec(s);
    TrimRightSpec(l);
    var r := TrimRight(l);
    var a := |s| - |l|;
    var b := a + |r|;
    forall k | b <= k < |s|
      ensures IsSpace(s[k])
    {
      assert s[k] == l[k - a];
    }
    assert Strip(s) == s[a..b];
    if r != [] {
      assert s[a] == r[0];
    }
  }

  /** Python's `c.lower()` restricted to ASCII letters. */
  function LowerChar(c: char): char
  {
    if 'A' <= c <= 'Z' then (c as int + 32) as char else c
  }

  /** Python's `s.lower()`, character by character. */
  function Lower(s: string): (r: string)
    ensures |r| == |s|
    ensures forall i :: 0 <= i < |s| ==> r[i] == LowerChar(s[i])
  {
    seq(|s|, i requires 0 <= i < |s| => LowerChar(s[i]))
  }

  /** Python's `s.startswith(p)`. */
  predicate StartsWith(s: string, p: string)
  {
    |p| <= |s| && s[..|p|] == p
  }

  /** Python's `s.endswith(p)`. */
  predicate EndsWith(s: string, p: string)
  {
    |p| <= |s| && s[|s| - |p|..] == p
  }

  /** Python's slice `s[n:]`, which is empty when `s` is shorter than `n`. */
  function DropPrefix(s: string, n: nat): (r: string)
    ensures |s| <= n ==> r == []
    ensures n <= |s| ==> s == s[..n] + r
  {
    if n <= |s| then s[n..] else []
  }

  /** The position of the first `c` in `s`, or `|s|` when there is none. */
  function IndexOf(s: string, c: char): (k: nat)
    ensures k <= |s|
    ensures k < |s| ==> s[k] == c
    ensures forall j :: 0 <= j < k ==> s[j] != c
  {
    if s == [] || s[0] == c then 0 else 1 + IndexOf(s[1..], c)
  }

  /**
   * Python's `s.split(c, 1)`: `[s]` when `c` does not occur, otherwise the part
   * before the first `c` and the part after it.
   */
  function SplitOnce(s: string, c: char): (r: seq<string>)
    ensures |r| == 1 || |r| == 2
    ensures |r| == 1 <==> c !in s
    ensures |r| == 1 ==> r[0] == s
    ensures |r| == 2 ==> s == r[0] + [c] + r[1] && c !in r[0]
  {
    var k := IndexOf(s, c);
    if k == |s| then [s] else [s[..k], s[k + 1..]]
  }

  /** Splitting at `c` a string whose first `c` comes right after `a` gives `a` and the rest back. */
  lemma SplitOnceOfJoin(a: string, c: char, b: string)
    requires c !in a
    ensures SplitOnce(a + [c] + b, c) == [a, b]
  {
    var s := a + [c] + b;
    assert s[|a|] == c;
    var k := IndexOf(s, c);
    assert k == |a|;
    assert s[..k] == a;
    assert s[k + 1..] == b;
  }

  /** Python's `s.split(c)`: the pieces of `s` between the occurrences of `c`. */
  function Split(s: string, c: char): (r: seq<string>)
    ensures |r| >= 1
    decreases |s|
  {
    var k := IndexOf(s, c);
    if k == |s| then [s] else [s[..k]] + Split(s[k + 1..], c)
  }

  /** No piece of a split holds the separator. */
  lemma {:induction false} SplitPiecesFreeOfSeparator(s: string, c: char)
    ensures forall i :: 0 <= i < |Split(s, c)| ==> c !in Split(s, c)[i]
    decreases |s|
  {
    var k := IndexOf(s, c);
    if k < |s| {
      SplitPiecesFreeOfSeparator(s[k + 1..], c);
      assert Split(s, c) == [s[..k]] + Split(s[k + 1..], c);
    }
  }

  /** Glues the pieces together with `c` between them (`c.join(parts)`), the inverse of `Split`. */
  function Join(parts: seq<string>, c: char): string
    requires |parts| >= 1
  {
    if |parts| == 1 then parts[0] else parts[0] + [c] + Join(parts[1..], c)
  }

  /** Joining the pieces of a split with the separator gives the original string back. */
  lemma {:induction false} JoinSplit(s: string, c: char)
    ensures Join(Split(s, c), c) == s
    decreases |s|
  {
    var k := IndexOf(s, c);
    if k < |s| {
      JoinSplit(s[k + 1..], c);
      assert s == s[..k] + [c] + s[k + 1..];
    }
  }

  /** The text after the last `c` in `s`, or all of `s` when it holds no `c`. */
  function LastSegment(s: string, c: char): string
    decreases |s|
  {
    var k := IndexOf(s, c);
    if k == |s| then s else LastSegment(s[k + 1..], c)
  }

  /** The last segment is Python's `s.split(c)[-1]`, the last piece of the split. */
  lemma {:induction false} LastSegmentIsLastPiece(s: string, c: char)
    ensures LastSegment(s, c) == Split(s, c)[|Split(s, c)| - 1]
    decreases |s|
  {
    var k := IndexOf(s, c);
    if k < |s| {
      var tail := Split(s[k + 1..], c);
      LastSegmentIsLastPiece(s[k + 1..], c);
      LastOfAppend([s[..k]], tail);
    }
  }

  /** The last element of `x + t` is that of `t` when `t` is not empty. */
  lemma LastOfAppend<T>(x: seq<T>, t: seq<T>)
    requires |t| >= 1
    ensures (x + t)[|x + t| - 1] == t[|t| - 1]
  {
  }

  /**
   * The last segment is the longest suffix of `s` free of `c`: it holds no `c`,
   * ends `s`, and is either all of `s` or preceded by a `c`.
   */
  lemma {:induction false} LastSegmentIsMaximalSuffix(s: string, c: char)
    ensures c !in LastSegment(s, c)
    ensures |LastSegment(s, c)| <= |s| && s[|s| - |LastSegment(s, c)|..] == LastSegment(s, c)
    ensures |LastSegment(s, c)| == |s| || s[|s| - |LastSegment(s, c)| - 1] == c
    decreases |s|
  {
    var k := IndexOf(s, c);
    if k < |s| {
      var rest := s[k + 1..];
      LastSegmentIsMaximalSuffix(rest, c);
      var r := LastSegment(rest, c);
      assert LastSegment(s, c) == r;
      var at := |s| - |r| - 1;
      assert at == k + |rest| - |r|;
      assert s[at + 1..] == rest[|rest| - |r|..];
      if |r| < |rest| {
        assert s[at] == rest[|rest| - |r| - 1];
      }
    }
  }

  /** The last segment of `dir + [c] + file` is `file` whenever `file` holds no `c`. */
  lemma LastSegmentOfJoin(dir: string, c: char, file: string)
    requires c !in file
    ensures LastSegment(dir + [c] + file, c) == file
  {
    var s := dir + [c] + file;
    var r := LastSegment(s, c);
    LastSegmentIsMaximalSuffix(s, c);
    assert forall k :: |dir| < k < |s| ==> s[k] == file[k - |dir| - 1];
    assert forall k :: |s| - |r| <= k < |s| ==> s[k] == r[k - (|s| - |r|)];
    assert s[|dir|] == c;
    if |r| > |file| {
      // the separator after `dir` would lie inside the segment
      assert false;
    } else if |r| < |file| {
      // the separator before the segment would lie inside `file`
      assert false;
    }
    assert s[|dir| + 1..] == file;
  }

  /** A string joined at its last separator determines both of its parts. */
  lemma JoinAtLastInjective(a1: string, b1: string, a2: string, b2: string, c: char)
    requires c !in b1 && c !in b2
    requires a1 + [c] + b1 == a2 + [c] + b2
    ensures a1 == a2 && b1 == b2
  {
    var s := a1 + [c] + b1;
    LastSegmentOfJoin(a1, c, b1);
    LastSegmentOfJoin(a2, c, b2);
    assert a1 == s[..|a1|];
    assert a2 == s[..|a2|];
  }
}
