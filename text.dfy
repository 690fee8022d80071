/**
  The string operations of Rust's `str` that the build-file parser and the
  patch engine rely on (`trim`, `lines`, `split_whitespace`, `contains`,
  `replace`, `trim_start_matches`, `join`), written over `seq<char>` with the
  facts about them that the rest of the model uses.

  Whitespace is the ASCII part of Unicode's White_Space set, and a line
  break is `\n` only.
 */
module Text {

  /** ASCII whitespace as recognised by `char::is_whitespace` and regex `\s`. */
  predicate IsSpace(c: char)
  {
    c == ' ' || c == '\t' || c == '\n' || c == '\r' || c == '\U{000B}' || c == '\U{000C}'
  }

  predicate NoSpace(s: string)
  {
    forall i :: 0 <= i < |s| ==> !IsSpace(s[i])
  }

  predicate NoNewline(s: string)
  {
    forall i :: 0 <= i < |s| ==> s[i] != '\n'
  }

  predicate IsPrefix(p: string, s: string)
  {
    |p| <= |s| && s[..|p|] == p
  }

  predicate IsSuffix(p: string, s: string)
  {
    |p| <= |s| && s[|s| - |p|..] == p
  }

  // ---------------------------------------------------------------------
  // Trimming
  // ---------------------------------------------------------------------

  /** `str::trim_end`: drops trailing whitespace. */
  function TrimEnd(s: string): (r: string)
    ensures IsPrefix(r, s)
    ensures r == [] || !IsSpace(r[|r| - 1])
    ensures forall i :: |r| <= i < |s| ==> IsSpace(s[i])
    decreases |s|
  {
    if s != [] && IsSpace(s[|s| - 1]) then TrimEnd(s[..|s| - 1]) else s
  }

  /** `str::trim_start`: drops leading whitespace. */
  function TrimStart(s: string): (r: string)
    ensures IsSuffix(r, s)
    ensures r == [] || !IsSpace(r[0])
    ensures forall i :: 0 <= i < |s| - |r| ==> IsSpace(s[i])
    decreases |s|
  {
    if s != [] && IsSpace(s[0]) then TrimStart(s[1..]) else s
  }

  /** `str::trim`: drops whitespace at both ends. */
  function Trim(s: string): (r: string)
    ensures r == [] || (!IsSpace(r[0]) && !IsSpace(r[|r| - 1]))
    ensures |r| <= |s|
  {
    TrimStart(TrimEnd(s))
  }

  /** Index of the first non-whitespace character (the length of a greedy `\s*`). */
  function SpaceRun(s: string): (n: nat)
    ensures n <= |s|
    ensures forall i :: 0 <= i < n ==> IsSpace(s[i])
    ensures n == |s| || !IsSpace(s[n])
    decreases |s|
  {
    if s != [] && IsSpace(s[0]) then 1 + SpaceRun(s[1..]) else 0
  }

  /** `str::trim_start_matches` for a literal pattern: strips every leading repetition of `p`. */
  function TrimStartMatches(s: string, p: string): (r: string)
    ensures IsSuffix(r, s)
    ensures p != [] ==> !IsPrefix(p, r)
    decreases |s|
  {
    if p != [] && IsPrefix(p, s) then TrimStartMatches(s[|p|..], p) else s
  }

  // ---------------------------------------------------------------------
  // Substrings
  // ---------------------------------------------------------------------

  predicate OccursAt(s: string, t: string, i: int)
  {
    0 <= i && i + |t| <= |s| && s[i..i + |t|] == t
  }

  /** `str::contains` for a literal needle; the empty needle occurs everywhere. */
  predicate Contains(s: string, t: string)
  {
    exists i | 0 <= i <= |s| - |t| :: OccursAt(s, t, i)
  }

  lemma {:induction false} ContainsPrefix(s: string, t: string)
    requires IsPrefix(t, s)
    ensures Contains(s, t)
  {
    assert OccursAt(s, t, 0);
  }

  /** A needle found inside `b` is found inside `a + b + c`. */
  lemma {:induction false} ContainsWithin(a: string, b: string, c: string, t: string)
    requires Contains(b, t)
    ensures Contains(a + b + c, t)
  {
    var i :| 0 <= i <= |b| - |t| && OccursAt(b, t, i);
    var s := a + b + c;
    assert s[|a| + i..|a| + i + |t|] == b[i..i + |t|];
    assert OccursAt(s, t, |a| + i);
  }

  /** A needle longer than the text is not in it. */
  lemma {:induction false} NotContainsLonger(s: string, t: string)
    requires |s| < |t|
    ensures !Contains(s, t)
  {
  }

  /** A one-character needle is in the text only if that character is. */
  lemma {:induction false} NotContainsChar(s: string, c: char)
    requires forall i :: 0 <= i < |s| ==> s[i] != c
    ensures !Contains(s, [c])
  {
    forall i | 0 <= i <= |s| - 1
      ensures !OccursAt(s, [c], i)
    {
      assert s[i..i + 1][0] == s[i];
    }
  }

  lemma {:induction false} ContainsSelf(s: string)
    ensures Contains(s, s)
  {
    assert OccursAt(s, s, 0);
  }

  /** Containment is transitive. */
  lemma {:induction false} ContainsTrans(s: string, t: string, u: string)
    requires Contains(s, t) && Contains(t, u)
    ensures Contains(s, u)
  {
    var i :| 0 <= i <= |s| - |t| && OccursAt(s, t, i);
    var j :| 0 <= j <= |t| - |u| && OccursAt(t, u, j);
    assert t == s[i..i + |t|];
    forall k | 0 <= k < |u|
      ensures s[i + j + k] == u[k]
    {
      assert u[k] == t[j + k];
    }
    assert s[i + j..i + j + |u|] == u;
    assert OccursAt(s, u, i + j);
  }

  /** A needle absent from `s` is absent from every suffix of `s`. */
  lemma {:induction false} NotContainsTail(s: string, t: string)
    requires s != [] && !Contains(s, t)
    ensures !Contains(s[1..], t)
  {
    if Contains(s[1..], t) {
      var i :| 0 <= i <= |s[1..]| - |t| && OccursAt(s[1..], t, i);
      assert s[i + 1..i + 1 + |t|] == s[1..][i..i + |t|];
      assert OccursAt(s, t, i + 1);
    }
  }

  /** A needle found in a suffix of `s` is found in `s`. */
  lemma {:induction false} ContainsCons(c: string, s: string, t: string)
    requires Contains(s, t)
    ensures Contains(c + s, t)
  {
    ContainsWithin(c, s, [], t);
    assert c + s + [] == c + s;
  }

  // ---------------------------------------------------------------------
  // Replacement
  // ---------------------------------------------------------------------

  /** `str::replace` with the empty pattern: `to` goes at every character boundary. */
  function ReplaceEmpty(s: string, to: string): (r: string)
    ensures IsPrefix(to, r)
    decreases |s|
  {
    if s == [] then to else to + [s[0]] + ReplaceEmpty(s[1..], to)
  }

  /**
    `str::replace`: every non-overlapping occurrence of `from`, scanned left to
    right, becomes `to`.
   */
  function ReplaceAll(s: string, from: string, to: string): string
    decreases |s|
  {
    if from == [] then ReplaceEmpty(s, to)
    else if IsPrefix(from, s) then to + ReplaceAll(s[|from|..], from, to)
    else if s == [] then []
    else [s[0]] + ReplaceAll(s[1..], from, to)
  }

  /** Replacing a pattern that does not occur changes nothing. */
  lemma {:induction false} ReplaceAbsent(s: string, from: string, to: string)
    requires from != [] && !Contains(s, from)
    ensures ReplaceAll(s, from, to) == s
    decreases |s|
  {
    if IsPrefix(from, s) {
      ContainsPrefix(s, from);
    } else if s != [] {
      NotContainsTail(s, from);
      ReplaceAbsent(s[1..], from, to);
      assert [s[0]] + s[1..] == s;
    }
  }

  /** Once a pattern occurs, the replacement text occurs in the result. */
  lemma {:induction false} ReplacePresent(s: string, from: string, to: string)
    requires Contains(s, from)
    ensures Contains(ReplaceAll(s, from, to), to)
    decreases |s|
  {
    if from == [] || IsPrefix(from, s) {
      ContainsPrefix(ReplaceAll(s, from, to), to);
    } else {
      var i :| 0 <= i <= |s| - |from| && OccursAt(s, from, i);
      assert i != 0;
      assert s[1..][i - 1..i - 1 + |from|] == s[i..i + |from|];
      assert OccursAt(s[1..], from, i - 1);
      ReplacePresent(s[1..], from, to);
      ContainsCons([s[0]], ReplaceAll(s[1..], from, to), to);
    }
  }

  // ---------------------------------------------------------------------
  // Lines
  // ---------------------------------------------------------------------

  /** `str::split('\n')`: always at least one piece; a final `\n` gives a final empty piece. */
  function SplitLines(s: string): (r: seq<string>)
    ensures |r| >= 1
    ensures forall k :: 0 <= k < |r| ==> NoNewline(r[k])
    decreases |s|
  {
    if s == [] then [[]]
    else if s[0] == '\n' then [[]] + SplitLines(s[1..])
    else
      var rest := SplitLines(s[1..]);
      [[s[0]] + rest[0]] + rest[1..]
  }

  /** `str::lines`: like `split('\n')` but without the empty piece after a final `\n`. */
  function Lines(s: string): (r: seq<string>)
    ensures forall k :: 0 <= k < |r| ==> NoNewline(r[k])
    ensures r == [] <==> s == []
  {
    if s == [] then []
    else
      var pieces := SplitLines(s);
      if pieces[|pieces| - 1] == [] && |pieces| > 1 then pieces[..|pieces| - 1] else pieces
  }

  /** `join("\n")`. */
  function JoinLines(ls: seq<string>): string
    decreases |ls|
  {
    if ls == [] then []
    else if |ls| == 1 then ls[0]
    else ls[0] + "\n" + JoinLines(ls[1..])
  }

  lemma {:induction false} SplitSingle(a: string)
    requires NoNewline(a)
    ensures SplitLines(a) == [a]
    decreases |a|
  {
    if a != [] {
      SplitSingle(a[1..]);
      assert [a[0]] + a[1..] == a;
    }
  }

  /** A newline-free piece followed by `\n` is split off as one line. */
  lemma {:induction false} SplitAfterLine(a: string, b: string)
    requires NoNewline(a)
    ensures SplitLines(a + "\n" + b) == [a] + SplitLines(b)
    decreases |a|
  {
    if a == [] {
      assert (a + "\n" + b)[1..] == b;
    } else {
      assert (a + "\n" + b)[1..] == a[1..] + "\n" + b;
      SplitAfterLine(a[1..], b);
      assert [a[0]] + a[1..] == a;
    }
  }

  /** Splitting undoes joining when no piece holds a line break. */
  lemma {:induction false} SplitJoin(ls: seq<string>)
    requires ls != []
    requires forall k :: 0 <= k < |ls| ==> NoNewline(ls[k])
    ensures SplitLines(JoinLines(ls)) == ls
    decreases |ls|
  {
    if |ls| == 1 {
      SplitSingle(ls[0]);
    } else {
      SplitJoin(ls[1..]);
      SplitAfterLine(ls[0], JoinLines(ls[1..]));
      assert [ls[0]] + ls[1..] == ls;
    }
  }

  lemma {:induction false} Assoc(a: string, b: string, c: string)
    ensures a + b + c == a + (b + c)
  {
  }

  lemma {:induction false} ConcatEmpty(a: string)
    ensures a + [] == a && [] + a == a
  {
  }

  /** Joining a list of at least two lines puts the first in front of the rest. */
  lemma {:induction false} JoinCons(l: string, ls: seq<string>)
    requires ls != []
    ensures JoinLines([l] + ls) == l + "\n" + JoinLines(ls)
  {
    assert ([l] + ls)[1..] == ls;
  }

  lemma {:induction false} JoinSnocEmpty(ls: seq<string>)
    requires ls != []
    ensures JoinLines(ls + [[]]) == JoinLines(ls) + "\n"
    decreases |ls|
  {
    if |ls| == 1 {
      assert ls + [[]] == [ls[0], []];
    } else {
      assert (ls + [[]])[1..] == ls[1..] + [[]];
      JoinSnocEmpty(ls[1..]);
    }
  }

  /**
    `lines()` undoes `join("\n") + "\n"`: a non-empty list of newline-free lines
    comes back unchanged.
   */
  lemma {:induction false} LinesOfJoined(ls: seq<string>)
    requires ls != []
    requires forall k :: 0 <= k < |ls| ==> NoNewline(ls[k])
    ensures Lines(JoinLines(ls) + "\n") == ls
  {
    JoinSnocEmpty(ls);
    var ext := ls + [[]];
    assert forall k :: 0 <= k < |ext| ==> NoNewline(ext[k]);
    SplitJoin(ext);
    assert ext[..|ext| - 1] == ls;
  }

  /** Every element of a joined list occurs in the joined text. */
  lemma {:induction false} JoinContains(ls: seq<string>, k: nat)
    requires k < |ls|
    ensures Contains(JoinLines(ls), ls[k])
    decreases |ls|
  {
    if |ls| == 1 {
      ContainsSelf(ls[0]);
    } else if k == 0 {
      ContainsPrefix(JoinLines(ls), ls[0]);
    } else {
      JoinContains(ls[1..], k - 1);
      ContainsCons(ls[0] + "\n", JoinLines(ls[1..]), ls[k]);
    }
  }

  // ---------------------------------------------------------------------
  // Whitespace splitting
  // ---------------------------------------------------------------------

  function Flush(cur: string): seq<string>
  {
    if cur == [] then [] else [cur]
  }

  /** `split_whitespace` with the word `cur` already under construction. */
  function WordsFrom(s: string, cur: string): seq<string>
    decreases |s|
  {
    if s == [] then Flush(cur)
    else if IsSpace(s[0]) then Flush(cur) + WordsFrom(s[1..], [])
    else WordsFrom(s[1..], cur + [s[0]])
  }

  /** `str::split_whitespace`. */
  function Words(s: string): seq<string>
  {
    WordsFrom(s, [])
  }

  /** A token: non-empty and free of whitespace. */
  predicate IsToken(w: string)
  {
    w != [] && NoSpace(w)
  }

  predicate AllTokens(ws: seq<string>)
  {
    forall k :: 0 <= k < |ws| ==> IsToken(ws[k])
  }

  /** Every word of `split_whitespace` is a non-empty, whitespace-free token. */
  lemma {:induction false} WordsAreTokens(s: string, cur: string)
    requires NoSpace(cur)
    ensures AllTokens(WordsFrom(s, cur))
    decreases |s|
  {
    if s != [] {
      if IsSpace(s[0]) {
        WordsAreTokens(s[1..], []);
      } else {
        WordsAreTokens(s[1..], cur + [s[0]]);
      }
    }
  }

  /** Splitting at a whitespace boundary splits the words. */
  lemma {:induction false} WordsConcat(a: string, b: string, cur: string)
    requires a != [] && IsSpace(a[|a| - 1])
    ensures WordsFrom(a + b, cur) == WordsFrom(a, cur) + WordsFrom(b, [])
    decreases |a|
  {
    assert (a + b)[0] == a[0];
    assert (a + b)[1..] == a[1..] + b;
    if |a| == 1 {
      assert a[1..] == [];
      assert WordsFrom(a[1..], []) == [];
    } else if IsSpace(a[0]) {
      WordsConcat(a[1..], b, []);
    } else {
      WordsConcat(a[1..], b, cur + [a[0]]);
    }
  }
}
