/**
 * The two JavaScript string builtins the client relies on, written out:
 * `s.split(' ')` with its inverse `a.join(' ')`, and `s.indexOf(sub)`.
 */
module Tokens {

  /** True when `w` contains no space, so that it survives a split intact. */
  predicate IsWord(w: string) {
    ' ' !in w
  }

  predicate AllWords(ts: seq<string>) {
    forall i :: 0 <= i < |ts| ==> IsWord(ts[i])
  }

  /**
   * `s.split(' ')`: every single space separates two tokens, so adjacent
   * spaces give an empty token and the empty string gives `[""]`.
   */
  function Split(s: string): (r: seq<string>)
    ensures |r| >= 1
    ensures AllWords(r)
    decreases |s|
  {
    if s == [] then [""]
    else if s[0] == ' ' then [""] + Split(s[1..])
    else
      var rest := Split(s[1..]);
      [[s[0]] + rest[0]] + rest[1..]
  }

  /** `ts.join(' ')`. */
  function Join(ts: seq<string>): string
  {
    if |ts| == 0 then ""
    else if |ts| == 1 then ts[0]
    else ts[0] + " " + Join(ts[1..])
  }

  /** The number of spaces in `s`. */
  function Spaces(s: string): nat
  {
    if s == [] then 0 else (if s[0] == ' ' then 1 else 0) + Spaces(s[1..])
  }

  /** Splitting yields one token more than there are spaces. */
  lemma {:induction false} SplitLength(s: string)
    ensures |Split(s)| == Spaces(s) + 1
    decreases |s|
  {
    if s != [] {
      SplitLength(s[1..]);
    }
  }

  /** Joining the tokens back with single spaces restores the payload. */
  lemma {:induction false} JoinSplit(s: string)
    ensures Join(Split(s)) == s
    decreases |s|
  {
    if s == [] {
    } else if s[0] == ' ' {
      JoinSplit(s[1..]);
      assert Split(s)[1..] == Split(s[1..]);
    } else {
      var rest := Split(s[1..]);
      JoinSplit(s[1..]);
      var r := Split(s);
      assert r[1..] == rest[1..];
      if |rest| == 1 {
        assert Join(r) == [s[0]] + rest[0];
      } else {
        assert Join(rest) == rest[0] + " " + Join(rest[1..]);
        assert Join(r) == [s[0]] + rest[0] + " " + Join(rest[1..]);
      }
      assert [s[0]] + s[1..] == s;
    }
  }

  /** A word with no space splits to itself. */
  lemma {:induction false} SplitWord(w: string)
    requires IsWord(w)
    ensures Split(w) == [w]
    decreases |w|
  {
    if w != [] {
      assert IsWord(w[1..]) by { assert forall k :: 0 <= k < |w[1..]| ==> w[1..][k] == w[k + 1]; }
      SplitWord(w[1..]);
      assert [w[0]] + w[1..] == w;
    }
  }

  /** A leading word followed by a space comes off as the first token. */
  lemma {:induction false} SplitCons(w: string, t: string)
    requires IsWord(w)
    ensures Split(w + " " + t) == [w] + Split(t)
    decreases |w|
  {
    var s := w + " " + t;
    if w == [] {
      assert s[0] == ' ' && s[1..] == t;
    } else {
      assert IsWord(w[1..]) by { assert forall k :: 0 <= k < |w[1..]| ==> w[1..][k] == w[k + 1]; }
      assert s[0] == w[0] && s[0] != ' ';
      assert s[1..] == w[1..] + " " + t;
      SplitCons(w[1..], t);
      assert [w[0]] + w[1..] == w;
    }
  }

  /** Splitting a join of space-free tokens gives the tokens back. */
  lemma {:induction false} SplitJoin(ts: seq<string>)
    requires |ts| >= 1 && AllWords(ts)
    ensures Split(Join(ts)) == ts
    decreases |ts|
  {
    if |ts| == 1 {
      SplitWord(ts[0]);
    } else {
      assert IsWord(ts[0]);
      SplitCons(ts[0], Join(ts[1..]));
      assert AllWords(ts[1..]) by { assert forall k :: 0 <= k < |ts[1..]| ==> ts[1..][k] == ts[k + 1]; }
      SplitJoin(ts[1..]);
      assert [ts[0]] + ts[1..] == ts;
    }
  }

  /** True when `sub` occurs in `s` starting at position `j`. */
  predicate OccursAt(s: string, sub: string, j: nat) {
    j + |sub| <= |s| && s[j..j + |sub|] == sub
  }

  /** Dropping the first character moves every later occurrence one place left. */
  lemma OccursShift(s: string, sub: string)
    requires s != []
    ensures forall j :: 0 < j <= |s| ==> (OccursAt(s, sub, j) <==> OccursAt(s[1..], sub, j - 1))
  {
    forall j | 0 < j <= |s|
      ensures OccursAt(s, sub, j) <==> OccursAt(s[1..], sub, j - 1)
    {
      if j + |sub| <= |s| {
        var here, there := s[j..j + |sub|], s[1..][j - 1..j - 1 + |sub|];
        assert forall k :: 0 <= k < |sub| ==> here[k] == there[k];
        assert here == there;
      }
    }
  }

  /** `s.indexOf(sub)`: the first position where `sub` occurs, or -1. */
  function IndexOf(s: string, sub: string): (r: int)
    ensures -1 <= r <= |s|
    ensures r >= 0 ==> OccursAt(s, sub, r)
    ensures r >= 0 ==> forall j :: 0 <= j < r ==> !OccursAt(s, sub, j)
    ensures r == -1 ==> forall j :: 0 <= j <= |s| ==> !OccursAt(s, sub, j)
    decreases |s|
  {
    if sub <= s then 0
    else if s == [] then -1
    else
      var k := IndexOf(s[1..], sub);
      OccursShift(s, sub);
      if k == -1 then -1 else k + 1
  }

  /** `s.indexOf(sub) !== -1` holds exactly when `sub` occurs somewhere in `s`. */
  lemma Contains(s: string, sub: string)
    ensures IndexOf(s, sub) != -1 <==> exists j :: 0 <= j <= |s| && OccursAt(s, sub, j)
  {
    var r := IndexOf(s, sub);
    if r != -1 {
      assert OccursAt(s, sub, r);
    }
  }
}
