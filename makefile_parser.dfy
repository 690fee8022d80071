/**
  The Makefile configuration extractor: continuation-line unfolding and the
  statement loop of `parse_makefile`.

  `UnfoldMultiline` and `ParseMakefile` are the loops of the source, proved
  against the functions `Unfold` and `Parse`; the lemmas below relate `Parse`
  to independent descriptions of each field (the last assignment, the
  concatenated tokens, the first occurrences).
 */
module MakefileParser {
  import opened Options
  import opened Text
  import opened MakefileModel

  // =====================================================================
  // Line unfolding
  // =====================================================================

  /** A physical line whose trailing-whitespace-trimmed form ends in a backslash. */
  predicate IsContinuation(line: string)
  {
    var t := TrimEnd(line);
    t != [] && t[|t| - 1] == '\\'
  }

  /** The trimmed line without its backslash: what a continuation line contributes before the space. */
  function Body(line: string): string
    requires IsContinuation(line)
  {
    var t := TrimEnd(line);
    t[..|t| - 1]
  }

  /** Unfolding with the partial logical line `cur` already accumulated. */
  function UnfoldFrom(lines: seq<string>, cur: string): seq<string>
    decreases |lines|
  {
    if lines == [] then (if cur == [] then [] else [cur])
    else if IsContinuation(lines[0]) then UnfoldFrom(lines[1..], cur + Body(lines[0]) + " ")
    else [cur + TrimEnd(lines[0])] + UnfoldFrom(lines[1..], [])
  }

  /** The logical lines of a sequence of physical lines. */
  function Unfold(lines: seq<string>): seq<string>
  {
    UnfoldFrom(lines, [])
  }

  /** Unfolding from line `i` on: what line `i` does to the pending fragment. */
  lemma {:induction false} UnfoldFromStep(lines: seq<string>, i: nat, cur: string)
    requires i < |lines|
    ensures UnfoldFrom(lines[i..], cur) ==
      if IsContinuation(lines[i]) then UnfoldFrom(lines[i + 1..], cur + Body(lines[i]) + " ")
      else [cur + TrimEnd(lines[i])] + UnfoldFrom(lines[i + 1..], [])
  {
    assert lines[i..][0] == lines[i];
    assert lines[i..][1..] == lines[i + 1..];
  }

  /** `unfold_multiline`: the for-loop over physical lines with its `current` buffer. */
  method UnfoldMultiline(lines: seq<string>) returns (result: seq<string>)
    ensures result == Unfold(lines)
  {
    result := [];
    var current := "";
    for i := 0 to |lines|
      invariant result + UnfoldFrom(lines[i..], current) == Unfold(lines)
    {
      UnfoldFromStep(lines, i, current);
      var trimmed := TrimEnd(lines[i]);
      if |trimmed| > 0 && trimmed[|trimmed| - 1] == '\\' {
        current := current + trimmed[..|trimmed| - 1];
        current := current + " ";
      } else {
        current := current + trimmed;
        ghost var rest := UnfoldFrom(lines[i + 1..], []);
        assert result + ([current] + rest) == (result + [current]) + rest;
        result := result + [current];
        current := "";
      }
    }
    assert lines[|lines|..] == [];
    if current != "" {
      result := result + [current];
    }
  }

  /** Number of physical lines that do not end in a continuation. */
  function Terminators(lines: seq<string>): nat
    decreases |lines|
  {
    if lines == [] then 0
    else (if IsContinuation(lines[0]) then 0 else 1) + Terminators(lines[1..])
  }

  predicate EndsMidContinuation(lines: seq<string>)
  {
    lines != [] && IsContinuation(lines[|lines| - 1])
  }

  lemma {:induction false} UnfoldFromCount(lines: seq<string>, cur: string)
    ensures |UnfoldFrom(lines, cur)| ==
            Terminators(lines) + (if (lines == [] && cur != []) || EndsMidContinuation(lines) then 1 else 0)
    decreases |lines|
  {
    if lines != [] {
      if IsContinuation(lines[0]) {
        UnfoldFromCount(lines[1..], cur + Body(lines[0]) + " ");
      } else {
        UnfoldFromCount(lines[1..], []);
      }
    }
  }

  /**
    One logical line per physical line that does not end in a backslash
    (empty lines included), plus one when the input stops in the middle of a
    continuation: a dangling continuation is never lost.
   */
  lemma {:induction false} UnfoldCount(lines: seq<string>)
    ensures |Unfold(lines)| == Terminators(lines) + (if EndsMidContinuation(lines) then 1 else 0)
  {
    UnfoldFromCount(lines, []);
  }

  /** The continuation fragments of a group, each followed by its space. */
  function Joined(conts: seq<string>): string
    requires forall k :: 0 <= k < |conts| ==> IsContinuation(conts[k])
    decreases |conts|
  {
    if conts == [] then [] else Body(conts[0]) + " " + Joined(conts[1..])
  }

  /** The whitespace tokens of each continuation fragment, in order. */
  function FragmentWords(conts: seq<string>): seq<string>
    requires forall k :: 0 <= k < |conts| ==> IsContinuation(conts[k])
    decreases |conts|
  {
    if conts == [] then [] else Words(Body(conts[0])) + FragmentWords(conts[1..])
  }

  lemma {:induction false} UnfoldFromGroup(conts: seq<string>, last: string, cur: string)
    requires forall k :: 0 <= k < |conts| ==> IsContinuation(conts[k])
    requires !IsContinuation(last)
    ensures UnfoldFrom(conts + [last], cur) == [cur + Joined(conts) + TrimEnd(last)]
    decreases |conts|
  {
    if conts == [] {
      assert [last][1..] == [];
      assert cur + Joined(conts) == cur;
    } else {
      var next := cur + Body(conts[0]) + " ";
      assert (conts + [last])[0] == conts[0];
      assert (conts + [last])[1..] == conts[1..] + [last];
      assert UnfoldFrom(conts + [last], cur) == UnfoldFrom(conts[1..] + [last], next);
      UnfoldFromGroup(conts[1..], last, next);
      assert next + Joined(conts[1..]) == cur + Joined(conts);
    }
  }

  lemma {:induction false} WordsTrailingSpace(a: string, cur: string)
    ensures WordsFrom(a + " ", cur) == WordsFrom(a, cur)
    decreases |a|
  {
    if a == [] {
      assert a + " " == " ";
      assert " "[1..] == [];
      assert WordsFrom(" ", cur) == Flush(cur) + WordsFrom([], []);
    } else {
      assert (a + " ")[1..] == a[1..] + " ";
      if IsSpace(a[0]) {
        WordsTrailingSpace(a[1..], []);
      } else {
        WordsTrailingSpace(a[1..], cur + [a[0]]);
      }
    }
  }

  lemma {:induction false} JoinedWords(conts: seq<string>, rest: string)
    requires forall k :: 0 <= k < |conts| ==> IsContinuation(conts[k])
    ensures Words(Joined(conts) + rest) == FragmentWords(conts) + Words(rest)
    decreases |conts|
  {
    if conts == [] {
      assert Joined(conts) + rest == rest;
    } else {
      var f := Body(conts[0]) + " ";
      assert Joined(conts) + rest == f + (Joined(conts[1..]) + rest);
      WordsConcat(f, Joined(conts[1..]) + rest, []);
      WordsTrailingSpace(Body(conts[0]), []);
      JoinedWords(conts[1..], rest);
      assert FragmentWords(conts) == Words(Body(conts[0])) + FragmentWords(conts[1..]);
    }
  }

  /**
    A group of continuation lines closed by an ordinary line unfolds to one
    logical line whose tokens are those of the fragments in order, as if the
    whole group had been written on one physical line.
   */
  lemma {:induction false} UnfoldGroup(conts: seq<string>, last: string)
    requires forall k :: 0 <= k < |conts| ==> IsContinuation(conts[k])
    requires !IsContinuation(last)
    ensures |Unfold(conts + [last])| == 1
    ensures Words(Unfold(conts + [last])[0]) == FragmentWords(conts) + Words(TrimEnd(last))
  {
    UnfoldFromGroup(conts, last, []);
    assert [] + Joined(conts) + TrimEnd(last) == Joined(conts) + TrimEnd(last);
    JoinedWords(conts, TrimEnd(last));
  }

  /** The documented three-line example: `A \`, `B \`, `C` become the one logical line `A  B  C`. */
  lemma {:induction false} UnfoldExample()
    ensures Unfold(["A \\", "B \\", "C"]) == ["A  B  C"]
  {
    assert TrimEnd("A \\") == "A \\";
    assert TrimEnd("B \\") == "B \\";
    assert TrimEnd("C") == "C";
    assert Body("A \\") == "A " by { assert "A \\"[..2] == "A "; }
    assert Body("B \\") == "B " by { assert "B \\"[..2] == "B "; }
    UnfoldFromGroup(["A \\", "B \\"], "C", []);
    assert ["A \\", "B \\"][1..] == ["B \\"];
    assert Joined(["B \\"]) == "B " + " " + Joined([]);
    assert Joined(["A \\", "B \\"]) == "A  B  ";
    assert ["A \\", "B \\"] + ["C"] == ["A \\", "B \\", "C"];
    assert [] + "A  B  " + "C" == "A  B  C";
  }

  /** The tokens of that logical line are A, B and C. */
  lemma {:induction false} UnfoldExampleWords()
    ensures Words("A  B  C") == ["A", "B", "C"]
  {
    assert "A  B  C"[1..] == "  B  C";
    assert "  B  C"[1..] == " B  C";
    assert " B  C"[1..] == "B  C";
    assert "B  C"[1..] == "  C";
    assert "  C"[1..] == " C";
    assert " C"[1..] == "C";
    assert "C"[1..] == "";
    assert [] + ['C'] == "C";
    assert WordsFrom("C", []) == WordsFrom("", "C") == ["C"];
    assert WordsFrom(" C", []) == [] + WordsFrom("C", []) == ["C"];
    assert WordsFrom("  C", "B") == ["B"] + WordsFrom(" C", []) == ["B", "C"];
    assert [] + ['B'] == "B";
    assert WordsFrom("B  C", []) == WordsFrom("  C", "B");
    assert WordsFrom(" B  C", []) == [] + WordsFrom("B  C", []);
    assert WordsFrom("  B  C", "A") == ["A"] + WordsFrom(" B  C", []) == ["A", "B", "C"];
    assert WordsFrom("A  B  C", []) == WordsFrom("  B  C", [] + ['A']);
    assert [] + ['A'] == "A";
  }

  // =====================================================================
  // The assignment matcher  ^([A-Z0-9_-]+)\s*[:+]?=\s*(.*)$
  // =====================================================================

  predicate IsKeyChar(c: char)
  {
    ('A' <= c <= 'Z') || ('0' <= c <= '9') || c == '_' || c == '-'
  }

  predicate IsKey(k: string)
  {
    k != [] && forall i :: 0 <= i < |k| ==> IsKeyChar(k[i])
  }

  predicate AllSpace(s: string)
  {
    forall i :: 0 <= i < |s| ==> IsSpace(s[i])
  }

  /** Length of the longest prefix made of key characters. */
  function KeyRun(s: string): (n: nat)
    ensures n <= |s|
    ensures forall i :: 0 <= i < n ==> IsKeyChar(s[i])
    ensures n == |s| || !IsKeyChar(s[n])
    decreases |s|
  {
    if s != [] && IsKeyChar(s[0]) then 1 + KeyRun(s[1..]) else 0
  }

  /** Where `\s*[:+]?=` ends when `s` starts with it. */
  function OperatorEnd(s: string): (r: Option<nat>)
    ensures r.Some? ==> 0 < r.value <= |s| && s[r.value - 1] == '='
  {
    var i := SpaceRun(s);
    var j := if i < |s| && (s[i] == ':' || s[i] == '+') then i + 1 else i;
    if j < |s| && s[j] == '=' then Some(j + 1) else None
  }

  /** What may stand between key and value: whitespace, at most one `:` or `+`, `=`, whitespace. */
  predicate IsSeparator(m: string)
  {
    OperatorEnd(m).Some? && AllSpace(m[OperatorEnd(m).value..])
  }

  datatype Assignment = Assignment(key: string, value: string)

  /**
    The anchored assignment regex of `parse_makefile`, applied to a trimmed
    line. Both `\s*` are greedy; `.` does not match a line break, so a value
    holding one does not match.
   */
  function MatchAssignment(line: string): Option<Assignment>
  {
    var k := KeyRun(line);
    if k == 0 then None
    else
      match OperatorEnd(line[k..])
      case None => None
      case Some(e) =>
        var rest := line[k + e..];
        var value := rest[SpaceRun(rest)..];
        if NoNewline(value) then Some(Assignment(line[..k], value)) else None
  }

  /** A recognised key is a non-empty run of key characters; the value has no leading blank and no line break. */
  lemma {:induction false} MatchAssignmentShape(line: string)
    requires MatchAssignment(line).Some?
    ensures IsKey(MatchAssignment(line).value.key)
    ensures NoNewline(MatchAssignment(line).value.value)
    ensures MatchAssignment(line).value.value == [] || !IsSpace(MatchAssignment(line).value.value[0])
  {
  }

  lemma {:induction false} SpaceRunPrefix(s: string, n: nat)
    requires n <= |s| && SpaceRun(s) < n
    ensures SpaceRun(s[..n]) == SpaceRun(s)
    decreases |s|
  {
    if s != [] && IsSpace(s[0]) {
      assert s[..n][1..] == s[1..][..n - 1];
      SpaceRunPrefix(s[1..], n - 1);
    }
  }

  lemma {:induction false} OperatorEndPrefix(s: string, n: nat)
    requires OperatorEnd(s).Some? && OperatorEnd(s).value <= n <= |s|
    ensures OperatorEnd(s[..n]) == OperatorEnd(s)
  {
    SpaceRunPrefix(s, n);
  }

  /** The slices of a line cut at `k`, `k + e` and `k + e + w`. */
  lemma {:induction false} SliceThree(line: string, k: nat, e: nat, w: nat)
    requires k + e + w <= |line|
    ensures line == line[..k] + line[k..k + e + w] + line[k + e + w..]
    ensures line[k..k + e + w] == line[k..][..e + w]
    ensures line[k + e..] == line[k..][e..]
  {
  }

  lemma {:induction false} SpaceRunAllSpace(s: string)
    ensures AllSpace(s[..SpaceRun(s)])
  {
  }

  /** An operator followed by whitespace is a separator. */
  lemma {:induction false} SeparatorPrefix(s: string, e: nat, w: nat)
    requires OperatorEnd(s) == Some(e) && e + w <= |s|
    requires AllSpace(s[e..][..w])
    ensures IsSeparator(s[..e + w])
  {
    OperatorEndPrefix(s, e + w);
    assert s[..e + w][e..] == s[e..][..w];
  }

  /**
    A recognised line is the key, then a separator, then the value: the
    matcher invents nothing and drops nothing but the separator.
   */
  lemma {:induction false} MatchAssignmentSound(line: string, a: Assignment)
    requires MatchAssignment(line) == Some(a)
    ensures |a.key| + |a.value| <= |line|
    ensures line == a.key + line[|a.key|..|line| - |a.value|] + a.value
    ensures IsSeparator(line[|a.key|..|line| - |a.value|])
  {
    var k := KeyRun(line);
    var s := line[k..];
    var e := OperatorEnd(s).value;
    var rest := line[k + e..];
    var w := SpaceRun(rest);
    var b := k + e + w;
    assert a.key == line[..k] && a.value == rest[w..] == line[b..];
    assert |a.key| == k && |line| - |a.value| == b;
    SliceThree(line, k, e, w);
    SpaceRunAllSpace(rest);
    SeparatorPrefix(s, e, w);
  }

  lemma {:induction false} KeyRunConcat(key: string, rest: string)
    requires forall i :: 0 <= i < |key| ==> IsKeyChar(key[i])
    requires rest == [] || !IsKeyChar(rest[0])
    ensures KeyRun(key + rest) == |key|
    decreases |key|
  {
    if key == [] {
      assert key + rest == rest;
    } else {
      assert (key + rest)[1..] == key[1..] + rest;
      KeyRunConcat(key[1..], rest);
    }
  }

  lemma {:induction false} SpaceRunConcat(ws: string, rest: string)
    requires AllSpace(ws)
    requires rest == [] || !IsSpace(rest[0])
    ensures SpaceRun(ws + rest) == |ws|
    decreases |ws|
  {
    if ws == [] {
      assert ws + rest == rest;
    } else {
      assert (ws + rest)[1..] == ws[1..] + rest;
      SpaceRunConcat(ws[1..], rest);
    }
  }

  lemma {:induction false} OperatorEndOf(ws1: string, op: string, rest: string)
    requires AllSpace(ws1)
    requires op == "" || op == ":" || op == "+"
    ensures OperatorEnd(ws1 + op + "=" + rest) == Some(|ws1| + |op| + 1)
  {
    var t := ws1 + op + "=" + rest;
    var opEq := op + "=" + rest;
    assert t == ws1 + opEq;
    assert opEq[0] == (if op == "" then '=' else op[0]);
    SpaceRunConcat(ws1, opEq);
    assert t[|ws1| + |op|] == '=';
    if op != "" {
      assert t[|ws1|] == op[0];
    }
  }

  /** The matcher at work: the key run, the operator, the blanks, then the value. */
  lemma {:induction false} MatchAssignmentAt(line: string, k: nat, e: nat, w: nat, value: string)
    requires 0 < k == KeyRun(line)
    requires OperatorEnd(line[k..]) == Some(e)
    requires k + e + w <= |line| && SpaceRun(line[k + e..]) == w
    requires value == line[k + e..][w..] && NoNewline(value)
    ensures MatchAssignment(line) == Some(Assignment(line[..k], value))
  {
    var rest := line[k + e..];
    assert rest[SpaceRun(rest)..] == value;
  }

  lemma {:induction false} SlicesAfterKey(key: string, tail: string, e: nat, w: nat)
    requires e + w <= |tail|
    ensures (key + tail)[..|key|] == key && (key + tail)[|key|..] == tail
    ensures (key + tail)[|key| + e..] == tail[e..] && tail[e..][w..] == tail[e + w..]
  {
  }

  lemma {:induction false} MatchKeyThen(key: string, tail: string, e: nat, w: nat, value: string)
    requires IsKey(key) && (tail == [] || !IsKeyChar(tail[0]))
    requires OperatorEnd(tail) == Some(e)
    requires e + w <= |tail| && SpaceRun(tail[e..]) == w
    requires tail[e + w..] == value && NoNewline(value)
    ensures MatchAssignment(key + tail) == Some(Assignment(key, value))
  {
    KeyRunConcat(key, tail);
    SlicesAfterKey(key, tail, e, w);
    MatchAssignmentAt(key + tail, |key|, e, w, value);
  }

  /** What the matcher needs to know about a separator followed by a value. */
  lemma {:induction false} SeparatorThenValue(ws1: string, op: string, ws2: string, value: string)
    requires AllSpace(ws1) && AllSpace(ws2)
    requires op == "" || op == ":" || op == "+"
    requires value == [] || !IsSpace(value[0])
    ensures var tail := ws1 + op + "=" + (ws2 + value);
            var e := |ws1| + |op| + 1;
            && !IsKeyChar(tail[0])
            && OperatorEnd(tail) == Some(e)
            && e + |ws2| <= |tail|
            && SpaceRun(tail[e..]) == |ws2|
            && tail[e + |ws2|..] == value
  {
    var rest := ws2 + value;
    var tail := ws1 + op + "=" + rest;
    var e := |ws1| + |op| + 1;
    if ws1 != [] {
      assert tail[0] == ws1[0];
    } else if op != "" {
      assert tail[0] == op[0];
    } else {
      assert tail[0] == '=';
    }
    OperatorEndOf(ws1, op, rest);
    assert tail[e..] == rest;
    SpaceRunConcat(ws2, value);
    assert tail[e..][|ws2|..] == tail[e + |ws2|..];
    assert rest[|ws2|..] == value;
  }

  /**
    Every line of the shape KEY, whitespace, optional `:` or `+`, `=`,
    whitespace, VALUE is recognised, with exactly that key and value.
   */
  lemma {:induction false} MatchAssignmentComplete(key: string, ws1: string, op: string, ws2: string, value: string)
    requires IsKey(key) && AllSpace(ws1) && AllSpace(ws2)
    requires op == "" || op == ":" || op == "+"
    requires NoNewline(value) && (value == [] || !IsSpace(value[0]))
    ensures MatchAssignment(key + (ws1 + op + "=" + (ws2 + value))) == Some(Assignment(key, value))
  {
    SeparatorThenValue(ws1, op, ws2, value);
    MatchKeyThen(key, ws1 + op + "=" + (ws2 + value), |ws1| + |op| + 1, |ws2|, value);
  }

  // =====================================================================
  // Statements and key dispatch
  // =====================================================================

  /** The record field a key fills; `Other` for every key the parser ignores. */
  datatype Field =
    | Target | BuildDir | CSources | AsmSources | Includes | Defines
    | CFlags | AsFlags | LdFlags | Libs | LdScript | Other

  const KnownKeys: set<string> := {"TARGET", "BUILD_DIR", "C_SOURCES", "ASM_SOURCES",
                                    "C_INCLUDES", "AS_INCLUDES", "C_DEFS", "AS_DEFS",
                                    "CFLAGS", "ASFLAGS", "LDFLAGS", "LIBS", "LDSCRIPT"}

  /** The key table of `parse_makefile`. */
  function FieldOf(key: string): Field
  {
    if key == "TARGET" then Target
    else if key == "BUILD_DIR" then BuildDir
    else if key == "C_SOURCES" then CSources
    else if key == "ASM_SOURCES" then AsmSources
    else if key == "C_INCLUDES" || key == "AS_INCLUDES" then Includes
    else if key == "C_DEFS" || key == "AS_DEFS" then Defines
    else if key == "CFLAGS" then CFlags
    else if key == "ASFLAGS" then AsFlags
    else if key == "LDFLAGS" then LdFlags
    else if key == "LIBS" then Libs
    else if key == "LDSCRIPT" then LdScript
    else Other
  }

  /** Exactly the thirteen known keys are acted on; any other key is ignored. */
  lemma {:induction false} FieldOfKnown(key: string)
    ensures FieldOf(key) != Other <==> key in KnownKeys
  {
  }

  /** Appends the elements of `xs` not yet present, first occurrence first (the "seen" set). */
  function AddAll(acc: seq<string>, xs: seq<string>): (r: seq<string>)
    ensures NoDup(acc) ==> NoDup(r)
    ensures forall x :: x in r <==> x in acc || x in xs
    ensures |acc| <= |r| && r[..|acc|] == acc
    decreases |xs|
  {
    if xs == [] then acc
    else if xs[0] in acc then AddAll(acc, xs[1..])
    else AddAll(acc + [xs[0]], xs[1..])
  }

  /** The position of the first occurrence of `x` in `xs`. */
  function FirstIndex(xs: seq<string>, x: string): (k: nat)
    requires x in xs
    ensures k < |xs| && xs[k] == x
    ensures forall q :: 0 <= q < k ==> xs[q] != x
    decreases |xs|
  {
    if xs[0] == x then 0 else 1 + FirstIndex(xs[1..], x)
  }

  /** Past a head that differs, the first occurrence moves one place. */
  lemma {:induction false} FirstIndexTail(xs: seq<string>, x: string)
    requires x in xs && x != xs[0]
    ensures x in xs[1..] && FirstIndex(xs, x) == 1 + FirstIndex(xs[1..], x)
  {
  }

  /** Every entry `AddAll` adds comes from `xs` and was not in the accumulator. */
  lemma {:induction false} AddAllNew(acc: seq<string>, xs: seq<string>)
    ensures var r := AddAll(acc, xs);
            forall j :: |acc| <= j < |r| ==> r[j] !in acc && r[j] in xs
    decreases |xs|
  {
    if xs != [] {
      var acc' := if xs[0] in acc then acc else acc + [xs[0]];
      var r := AddAll(acc', xs[1..]);
      assert [xs[0]] + xs[1..] == xs;
      AddAllCons(acc, xs[0], xs[1..]);
      AddAllNew(acc', xs[1..]);
      assert r[..|acc'|] == acc';
      forall j | |acc| <= j < |r|
        ensures r[j] !in acc && r[j] in xs
      {
        if j < |acc'| {
          assert r[j] == acc'[j] == xs[0];
        } else {
          assert r[j] !in acc' && r[j] in xs[1..];
        }
      }
    }
  }

  /**
    First occurrence wins: the entries `AddAll` adds appear in the order of
    their first occurrence in `xs`.
   */
  lemma {:induction false} AddAllFirstOrder(acc: seq<string>, xs: seq<string>)
    ensures var r := AddAll(acc, xs);
            forall i, j :: |acc| <= i < j < |r| ==>
              r[i] in xs && r[j] in xs && FirstIndex(xs, r[i]) < FirstIndex(xs, r[j])
    decreases |xs|
  {
    if xs != [] {
      var acc' := if xs[0] in acc then acc else acc + [xs[0]];
      var r := AddAll(acc', xs[1..]);
      assert [xs[0]] + xs[1..] == xs;
      AddAllCons(acc, xs[0], xs[1..]);
      AddAllNew(acc, xs);
      AddAllNew(acc', xs[1..]);
      AddAllFirstOrder(acc', xs[1..]);
      assert r[..|acc'|] == acc';
      forall i, j | |acc| <= i < j < |r|
        ensures r[i] in xs && r[j] in xs && FirstIndex(xs, r[i]) < FirstIndex(xs, r[j])
      {
        assert r[j] !in acc' && r[j] in xs[1..];
        assert r[j] != xs[0];
        FirstIndexTail(xs, r[j]);
        if i < |acc'| {
          assert r[i] == acc'[i] == xs[0];
        } else {
          assert r[i] !in acc' && r[i] in xs[1..];
          FirstIndexTail(xs, r[i]);
        }
      }
    }
  }

  lemma {:induction false} AddAllConcat(acc: seq<string>, xs: seq<string>, ys: seq<string>)
    ensures AddAll(AddAll(acc, xs), ys) == AddAll(acc, xs + ys)
    decreases |xs|
  {
    if xs == [] {
      assert xs + ys == ys;
    } else {
      assert (xs + ys)[0] == xs[0];
      assert (xs + ys)[1..] == xs[1..] + ys;
      if xs[0] in acc {
        AddAllConcat(acc, xs[1..], ys);
      } else {
        AddAllConcat(acc + [xs[0]], xs[1..], ys);
      }
    }
  }

  /** The path an include token names: every leading `-I` stripped (a bare `-I` names ""). */
  function IncludePath(tok: string): string
  {
    TrimStartMatches(tok, "-I")
  }

  /** The paths of the `-I` tokens, in order, repeats kept. */
  function IncludePaths(toks: seq<string>): seq<string>
    decreases |toks|
  {
    if toks == [] then []
    else (if IsPrefix("-I", toks[0]) then [IncludePath(toks[0])] else []) + IncludePaths(toks[1..])
  }

  /** The symbol a define token names: `-D` stripped, or `-include` stripped and trimmed, or the token. */
  function DefineName(tok: string): string
  {
    if IsPrefix("-D", tok) then TrimStartMatches(tok, "-D")
    else if IsPrefix("-include", tok) then Trim(TrimStartMatches(tok, "-include"))
    else tok
  }

  /** The non-empty define names of the tokens, in order, repeats kept. */
  function DefineNames(toks: seq<string>): (r: seq<string>)
    ensures [] !in r
    decreases |toks|
  {
    if toks == [] then []
    else (if DefineName(toks[0]) != [] then [DefineName(toks[0])] else []) + DefineNames(toks[1..])
  }

  /** Prepending the same head to both sides of a concatenation. */
  lemma {:induction false} PrependChain<T>(whole: seq<T>, head: seq<T>, tail: seq<T>, a: seq<T>, b: seq<T>, front: seq<T>)
    requires whole == head + tail && tail == a + b && front == head + a
    ensures whole == front + b
  {
  }

  lemma {:induction false} IncludePathsConcat(xs: seq<string>, ys: seq<string>)
    ensures IncludePaths(xs + ys) == IncludePaths(xs) + IncludePaths(ys)
    decreases |xs|
  {
    if xs == [] {
      assert xs + ys == ys;
    } else {
      var x, rest := xs[0], xs[1..];
      assert xs == [x] + rest;
      assert xs + ys == [x] + (rest + ys);
      IncludePathsCons(x, rest + ys);
      IncludePathsCons(x, rest);
      IncludePathsConcat(rest, ys);
      var head := if IsPrefix("-I", x) then [IncludePath(x)] else [];
      PrependChain(IncludePaths(xs + ys), head, IncludePaths(rest + ys), IncludePaths(rest), IncludePaths(ys), IncludePaths(xs));
    }
  }

  lemma {:induction false} DefineNamesCons(x: string, xs: seq<string>)
    ensures DefineNames([x] + xs) == DefineNames([x]) + DefineNames(xs)
  {
    var h := if DefineName(x) != [] then [DefineName(x)] else [];
    assert ([x] + xs)[1..] == xs;
    assert DefineNames([x]) == h + [] == h;
  }

  lemma {:induction false} DefineNamesConcat(xs: seq<string>, ys: seq<string>)
    ensures DefineNames(xs + ys) == DefineNames(xs) + DefineNames(ys)
    decreases |xs|
  {
    if xs == [] {
      assert xs + ys == ys;
    } else {
      var x, rest := xs[0], xs[1..];
      assert xs == [x] + rest;
      assert xs + ys == [x] + (rest + ys);
      DefineNamesCons(x, rest + ys);
      DefineNamesCons(x, rest);
      DefineNamesConcat(rest, ys);
      PrependChain(DefineNames(xs + ys), DefineNames([x]), DefineNames(rest + ys), DefineNames(rest), DefineNames(ys), DefineNames(xs));
    }
  }

  /** `-I` followed by a path not itself starting with `-I` names that path. */
  lemma {:induction false} IncludePathOf(path: string)
    requires !IsPrefix("-I", path)
    ensures IsPrefix("-I", "-I" + path) && IncludePath("-I" + path) == path
  {
    assert ("-I" + path)[..2] == "-I";
    assert ("-I" + path)[2..] == path;
    assert TrimStartMatches(path, "-I") == path;
  }

  lemma {:induction false} IncludePathsCons(tok: string, toks: seq<string>)
    ensures IncludePaths([tok] + toks) ==
            (if IsPrefix("-I", tok) then [IncludePath(tok)] else []) + IncludePaths(toks)
  {
    assert ([tok] + toks)[1..] == toks;
  }

  /** The set-guarded push keeps a repeated entry once, where it was first seen. */
  lemma {:induction false} AddAllRepeat(a: string, b: string)
    requires a != b
    ensures AddAll([], [a, b, a]) == [a, b]
  {
    var none: seq<string> := [];
    assert [a, b, a][1..] == [b, a] && [b, a][1..] == [a];
    assert none + [a] == [a] && [a] + [b] == [a, b];
    assert AddAll(none, [a, b, a]) == AddAll([a], [b, a]);
    assert AddAll([a], [b, a]) == AddAll([a, b], [a]);
  }

  /**
    `-Ia -Ib -Ia` gives the includes `a`, `b`: the repeated path is kept once,
    in the place where it was first seen.
   */
  lemma {:induction false} IncludesExample(a: string, b: string)
    requires !IsPrefix("-I", a) && !IsPrefix("-I", b) && a != b
    ensures AddAll([], IncludePaths(["-I" + a, "-I" + b, "-I" + a])) == [a, b]
  {
    IncludePathOf(a);
    IncludePathOf(b);
    var ta, tb := "-I" + a, "-I" + b;
    var none: seq<string> := [];
    IncludePathsCons(ta, none);
    IncludePathsCons(tb, [ta]);
    IncludePathsCons(ta, [tb, ta]);
    assert [ta] + none == [ta] && [tb] + [ta] == [tb, ta] && [ta] + [tb, ta] == [ta, tb, ta];
    assert IncludePaths([ta, tb, ta]) == [a, b, a];
    AddAllRepeat(a, b);
  }

  /** The assignment a logical line holds: none for blank lines, `#` comments and non-matching text. */
  function Recognised(line: string): Option<Assignment>
  {
    var t := Trim(line);
    if t == [] || t[0] == '#' then None else MatchAssignment(t)
  }

  /** The assignments of a list of logical lines, in file order. */
  function Assignments(lines: seq<string>): seq<Assignment>
    decreases |lines|
  {
    if lines == [] then []
    else
      (match Recognised(lines[0]) case None => [] case Some(a) => [a]) + Assignments(lines[1..])
  }

  /** The logical lines of a file's text: `lines()` then unfolding. */
  function LogicalLines(content: string): seq<string>
  {
    Unfold(Lines(content))
  }

  /** The assignments of a file's text, in order. */
  function Statements(content: string): seq<Assignment>
  {
    Assignments(LogicalLines(content))
  }

  /** The effect of one assignment on the record, by key. */
  function ApplyAssignment(cfg: MakefileConfig, a: Assignment): MakefileConfig
  {
    var val := a.value;
    match FieldOf(a.key)
    case Target => cfg.(target := Some(val))
    case BuildDir => cfg.(buildDir := Some(val))
    case CSources => cfg.(cSources := cfg.cSources + Words(val))
    case AsmSources => cfg.(asmSources := cfg.asmSources + Words(val))
    case Includes => cfg.(includes := AddAll(cfg.includes, IncludePaths(Words(val))))
    case Defines => cfg.(defines := AddAll(cfg.defines, DefineNames(Words(val))))
    case CFlags => cfg.(cflags := cfg.cflags + Words(val))
    case AsFlags => cfg.(asflags := cfg.asflags + Words(val))
    case LdFlags => cfg.(ldflags := cfg.ldflags + Words(val))
    case Libs => cfg.(libs := cfg.libs + Words(val))
    case LdScript => cfg.(ldscript := Some(val))
    case Other => cfg
  }

  /** The assignments applied one after another, from the record `cfg`. */
  function ApplyAll(cfg: MakefileConfig, asg: seq<Assignment>): MakefileConfig
    decreases |asg|
  {
    if asg == [] then cfg else ApplyAll(ApplyAssignment(cfg, asg[0]), asg[1..])
  }

  /** `parse_makefile` as a function of the text. */
  function Parse(content: string): MakefileConfig
  {
    ApplyAll(Empty(), Statements(content))
  }

  /** Splits the head line off the statement list. */
  lemma {:induction false} AssignmentsCons(lines: seq<string>)
    requires lines != []
    ensures Recognised(lines[0]).None? ==> Assignments(lines) == Assignments(lines[1..])
    ensures Recognised(lines[0]).Some? ==>
      Assignments(lines) == [Recognised(lines[0]).value] + Assignments(lines[1..])
  {
  }

  /** Applying one assignment, then the rest. */
  lemma {:induction false} ApplyAllCons(cfg: MakefileConfig, a: Assignment, asg: seq<Assignment>)
    ensures ApplyAll(cfg, [a] + asg) == ApplyAll(ApplyAssignment(cfg, a), asg)
  {
    assert ([a] + asg)[1..] == asg;
  }

  /** Adding one more candidate in front of the rest. */
  lemma {:induction false} AddAllCons(acc: seq<string>, x: string, xs: seq<string>)
    ensures AddAll(acc, [x] + xs) == AddAll(if x in acc then acc else acc + [x], xs)
  {
    assert ([x] + xs)[1..] == xs;
  }

  /** One token of an include value: its path, if any, is offered to the accumulator. */
  lemma {:induction false} IncludePathsStep(acc: seq<string>, toks: seq<string>, j: nat)
    requires j < |toks|
    ensures var tok := toks[j];
            var acc' := if IsPrefix("-I", tok) && IncludePath(tok) !in acc then acc + [IncludePath(tok)] else acc;
            AddAll(acc, IncludePaths(toks[j..])) == AddAll(acc', IncludePaths(toks[j + 1..]))
  {
    assert toks[j..][1..] == toks[j + 1..];
    var rest := IncludePaths(toks[j + 1..]);
    if IsPrefix("-I", toks[j]) {
      AddAllCons(acc, IncludePath(toks[j]), rest);
    } else {
      assert IncludePaths(toks[j..]) == [] + rest;
      assert [] + rest == rest;
    }
  }

  /** One token of a define value: its name, if non-empty, is offered to the accumulator. */
  lemma {:induction false} DefineNamesStep(acc: seq<string>, toks: seq<string>, j: nat)
    requires j < |toks|
    ensures var name := DefineName(toks[j]);
            var acc' := if name != [] && name !in acc then acc + [name] else acc;
            AddAll(acc, DefineNames(toks[j..])) == AddAll(acc', DefineNames(toks[j + 1..]))
  {
    assert toks[j..][1..] == toks[j + 1..];
    var rest := DefineNames(toks[j + 1..]);
    if DefineName(toks[j]) != [] {
      AddAllCons(acc, DefineName(toks[j]), rest);
    } else {
      assert DefineNames(toks[j..]) == [] + rest;
      assert [] + rest == rest;
    }
  }

  /** The inner loop over the tokens of an include value, with the "seen" set beside the list. */
  method CollectIncludes(includes: seq<string>, seen: set<string>, tokens: seq<string>)
    returns (result: seq<string>, seenAfter: set<string>)
    requires forall x :: x in seen <==> x in includes
    ensures result == AddAll(includes, IncludePaths(tokens))
    ensures forall x :: x in seenAfter <==> x in result
  {
    result, seenAfter := includes, seen;
    for j := 0 to |tokens|
      invariant AddAll(result, IncludePaths(tokens[j..])) == AddAll(includes, IncludePaths(tokens))
      invariant forall x :: x in seenAfter <==> x in result
    {
      IncludePathsStep(result, tokens, j);
      var token := tokens[j];
      if IsPrefix("-I", token) {
        var path := IncludePath(token);
        if path !in seenAfter {
          seenAfter := seenAfter + {path};
          result := result + [path];
        }
      }
    }
    assert tokens[|tokens|..] == [];
  }

  /** The inner loop over the tokens of a define value, with the "seen" set beside the list. */
  method CollectDefines(defines: seq<string>, seen: set<string>, tokens: seq<string>)
    returns (result: seq<string>, seenAfter: set<string>)
    requires forall x :: x in seen <==> x in defines
    ensures result == AddAll(defines, DefineNames(tokens))
    ensures forall x :: x in seenAfter <==> x in result
  {
    result, seenAfter := defines, seen;
    for j := 0 to |tokens|
      invariant AddAll(result, DefineNames(tokens[j..])) == AddAll(defines, DefineNames(tokens))
      invariant forall x :: x in seenAfter <==> x in result
    {
      DefineNamesStep(result, tokens, j);
      var name := DefineName(tokens[j]);
      if name != [] && name !in seenAfter {
        seenAfter := seenAfter + {name};
        result := result + [name];
      }
    }
    assert tokens[|tokens|..] == [];
  }

  /** `parse_makefile`: the loop that updates `cfg` in place and keeps the two "seen" sets. */
  method ParseMakefile(content: string) returns (cfg: MakefileConfig)
    ensures cfg == Parse(content)
    ensures WellFormed(cfg)
  {
    var physical := Lines(content);
    var lines := UnfoldMultiline(physical);
    cfg := Empty();
    var includeSet: set<string> := {};
    var defineSet: set<string> := {};
    for i := 0 to |lines|
      invariant ApplyAll(cfg, Assignments(lines[i..])) == Parse(content)
      invariant forall x :: x in includeSet <==> x in cfg.includes
      invariant forall x :: x in defineSet <==> x in cfg.defines
    {
      assert lines[i..][1..] == lines[i + 1..];
      AssignmentsCons(lines[i..]);
      var line := Trim(lines[i]);
      if line == [] || line[0] == '#' {
        continue;
      }
      var cap := MatchAssignment(line);
      if cap.Some? {
        var key, val := cap.value.key, cap.value.value;
        ghost var before := cfg;
        ApplyAllCons(cfg, cap.value, Assignments(lines[i + 1..]));
        match FieldOf(key)
        case Target =>
          cfg := cfg.(target := Some(val));
        case BuildDir =>
          cfg := cfg.(buildDir := Some(val));
        case CSources =>
          cfg := cfg.(cSources := cfg.cSources + Words(val));
        case AsmSources =>
          cfg := cfg.(asmSources := cfg.asmSources + Words(val));
        case Includes =>
          var includes;
          includes, includeSet := CollectIncludes(cfg.includes, includeSet, Words(val));
          cfg := cfg.(includes := includes);
        case Defines =>
          var defines;
          defines, defineSet := CollectDefines(cfg.defines, defineSet, Words(val));
          cfg := cfg.(defines := defines);
        case CFlags =>
          cfg := cfg.(cflags := cfg.cflags + Words(val));
        case AsFlags =>
          cfg := cfg.(asflags := cfg.asflags + Words(val));
        case LdFlags =>
          cfg := cfg.(ldflags := cfg.ldflags + Words(val));
        case Libs =>
          cfg := cfg.(libs := cfg.libs + Words(val));
        case LdScript =>
          cfg := cfg.(ldscript := Some(val));
        case Other =>
        assert cfg == ApplyAssignment(before, cap.value);
      }
    }
    assert lines[|lines|..] == [];
    ParseWellFormed(content);
  }

  // =====================================================================
  // Reference descriptions of the parsed record
  // =====================================================================

  /** The values assigned to keys of field `f`, in order. */
  function ValuesOf(asg: seq<Assignment>, f: Field): seq<string>
    decreases |asg|
  {
    if asg == [] then []
    else (if FieldOf(asg[0].key) == f then [asg[0].value] else []) + ValuesOf(asg[1..], f)
  }

  /** The whitespace tokens of several values, concatenated in order. */
  function FlatWords(vals: seq<string>): seq<string>
    decreases |vals|
  {
    if vals == [] then [] else Words(vals[0]) + FlatWords(vals[1..])
  }

  /** `new_` if it is set, `old_` otherwise. */
  function Override(old_: Option<string>, new_: Option<string>): Option<string>
  {
    if new_.Some? then new_ else old_
  }

  /** The value of the last assignment to field `f`, if there is one. */
  function LastValue(asg: seq<Assignment>, f: Field): Option<string>
    decreases |asg|
  {
    if asg == [] then None
    else Override(if FieldOf(asg[0].key) == f then Some(asg[0].value) else None, LastValue(asg[1..], f))
  }

  /**
    `LastValue` is unset exactly when no assignment names the field, and
    otherwise holds the value of an assignment that no later one overrides.
   */
  lemma {:induction false} LastValueIsLast(asg: seq<Assignment>, f: Field)
    ensures LastValue(asg, f).None? <==> forall k :: 0 <= k < |asg| ==> FieldOf(asg[k].key) != f
    ensures LastValue(asg, f).Some? ==>
      exists k :: 0 <= k < |asg| && FieldOf(asg[k].key) == f && asg[k].value == LastValue(asg, f).value &&
                  forall j :: k < j < |asg| ==> FieldOf(asg[j].key) != f
    decreases |asg|
  {
    if asg != [] {
      LastValueIsLast(asg[1..], f);
      var later := LastValue(asg[1..], f);
      if later.Some? {
        var k :| 0 <= k < |asg[1..]| && FieldOf(asg[1..][k].key) == f && asg[1..][k].value == later.value &&
                 forall j :: k < j < |asg[1..]| ==> FieldOf(asg[1..][j].key) != f;
        assert FieldOf(asg[k + 1].key) == f && asg[k + 1].value == later.value;
        forall j | k + 1 < j < |asg|
          ensures FieldOf(asg[j].key) != f
        {
          assert asg[j] == asg[1..][j - 1];
        }
      } else {
        forall j | 0 < j < |asg|
          ensures FieldOf(asg[j].key) != f
        {
          assert asg[j] == asg[1..][j - 1];
        }
      }
    }
  }

  predicate IsScalar(f: Field)
  {
    f == Target || f == BuildDir || f == LdScript
  }

  function Scalar(cfg: MakefileConfig, f: Field): Option<string>
    requires IsScalar(f)
  {
    match f
    case Target => cfg.target
    case BuildDir => cfg.buildDir
    case LdScript => cfg.ldscript
  }

  predicate IsTokenList(f: Field)
  {
    f == CSources || f == AsmSources || f == CFlags || f == AsFlags || f == LdFlags || f == Libs
  }

  function TokenList(cfg: MakefileConfig, f: Field): seq<string>
    requires IsTokenList(f)
  {
    match f
    case CSources => cfg.cSources
    case AsmSources => cfg.asmSources
    case CFlags => cfg.cflags
    case AsFlags => cfg.asflags
    case LdFlags => cfg.ldflags
    case Libs => cfg.libs
  }

  /** One assignment sets the scalar it names and leaves every other scalar alone. */
  lemma {:induction false} ScalarStep(cfg: MakefileConfig, a: Assignment, f: Field)
    requires IsScalar(f)
    ensures Scalar(ApplyAssignment(cfg, a), f) ==
            Override(Scalar(cfg, f), if FieldOf(a.key) == f then Some(a.value) else None)
  {
  }

  /** One assignment extends the token list it names and leaves every other list alone. */
  lemma {:induction false} TokenListStep(cfg: MakefileConfig, a: Assignment, f: Field)
    requires IsTokenList(f)
    ensures TokenList(ApplyAssignment(cfg, a), f) ==
            TokenList(cfg, f) + (if FieldOf(a.key) == f then Words(a.value) else [])
  {
  }

  lemma {:induction false} ApplyAllScalar(cfg: MakefileConfig, asg: seq<Assignment>, f: Field)
    requires IsScalar(f)
    ensures Scalar(ApplyAll(cfg, asg), f) == Override(Scalar(cfg, f), LastValue(asg, f))
    decreases |asg|
  {
    if asg != [] {
      ScalarStep(cfg, asg[0], f);
      ApplyAllScalar(ApplyAssignment(cfg, asg[0]), asg[1..], f);
    }
  }

  /**
    TARGET, BUILD_DIR and LDSCRIPT hold the value of the last assignment to
    them, verbatim, and stay unset when the key never appears.
   */
  lemma {:induction false} ParseScalars(content: string, f: Field)
    requires IsScalar(f)
    ensures Scalar(Parse(content), f) == LastValue(Statements(content), f)
  {
    ApplyAllScalar(Empty(), Statements(content), f);
  }

  /** The words of the values of a non-empty list: those of its head, if it names `f`, then the rest. */
  lemma {:induction false} FlatValuesCons(asg: seq<Assignment>, f: Field)
    requires asg != []
    ensures FlatWords(ValuesOf(asg, f)) ==
            (if FieldOf(asg[0].key) == f then Words(asg[0].value) else []) + FlatWords(ValuesOf(asg[1..], f))
  {
    var rest := ValuesOf(asg[1..], f);
    if FieldOf(asg[0].key) == f {
      assert ([asg[0].value] + rest)[1..] == rest;
    } else {
      assert ValuesOf(asg, f) == [] + rest;
      assert [] + rest == rest;
      assert [] + FlatWords(rest) == FlatWords(rest);
    }
  }

  lemma {:induction false} AppendChain(x: seq<string>, y: seq<string>, t: seq<string>, w: seq<string>, more: seq<string>)
    requires x == y + more && y == t + w
    ensures x == t + (w + more)
  {
  }

  lemma {:induction false} ApplyAllTokenList(cfg: MakefileConfig, asg: seq<Assignment>, f: Field)
    requires IsTokenList(f)
    ensures TokenList(ApplyAll(cfg, asg), f) == TokenList(cfg, f) + FlatWords(ValuesOf(asg, f))
    decreases |asg|
  {
    if asg == [] {
      assert TokenList(cfg, f) + [] == TokenList(cfg, f);
    } else {
      var a := asg[0];
      var t := TokenList(cfg, f);
      var w := if FieldOf(a.key) == f then Words(a.value) else [];
      var more := FlatWords(ValuesOf(asg[1..], f));
      var next := ApplyAssignment(cfg, a);
      assert ApplyAll(cfg, asg) == ApplyAll(next, asg[1..]);
      TokenListStep(cfg, a, f);
      ApplyAllTokenList(next, asg[1..], f);
      FlatValuesCons(asg, f);
      AppendChain(TokenList(ApplyAll(next, asg[1..]), f), TokenList(next, f), t, w, more);
    }
  }

  /**
    C_SOURCES, ASM_SOURCES, CFLAGS, ASFLAGS, LDFLAGS and LIBS are the
    whitespace tokens of every assignment to that key, concatenated in file
    order, duplicates kept.
   */
  lemma {:induction false} ParseTokenLists(content: string, f: Field)
    requires IsTokenList(f)
    ensures TokenList(Parse(content), f) == FlatWords(ValuesOf(Statements(content), f))
  {
    ApplyAllTokenList(Empty(), Statements(content), f);
  }

  lemma {:induction false} ApplyAllIncludes(cfg: MakefileConfig, asg: seq<Assignment>)
    ensures ApplyAll(cfg, asg).includes == AddAll(cfg.includes, IncludePaths(FlatWords(ValuesOf(asg, Includes))))
    decreases |asg|
  {
    if asg != [] {
      var a := asg[0];
      var rest := ValuesOf(asg[1..], Includes);
      var next := ApplyAssignment(cfg, a);
      ApplyAllIncludes(next, asg[1..]);
      if FieldOf(a.key) == Includes {
        assert ([a.value] + rest)[1..] == rest;
        assert FlatWords(ValuesOf(asg, Includes)) == Words(a.value) + FlatWords(rest);
        IncludePathsConcat(Words(a.value), FlatWords(rest));
        AddAllConcat(cfg.includes, IncludePaths(Words(a.value)), IncludePaths(FlatWords(rest)));
      } else {
        assert ValuesOf(asg, Includes) == [] + rest;
        assert [] + rest == rest;
        assert next.includes == cfg.includes;
      }
    }
  }

  lemma {:induction false} ApplyAllDefines(cfg: MakefileConfig, asg: seq<Assignment>)
    ensures ApplyAll(cfg, asg).defines == AddAll(cfg.defines, DefineNames(FlatWords(ValuesOf(asg, Defines))))
    decreases |asg|
  {
    if asg != [] {
      var a := asg[0];
      var rest := ValuesOf(asg[1..], Defines);
      var next := ApplyAssignment(cfg, a);
      ApplyAllDefines(next, asg[1..]);
      if FieldOf(a.key) == Defines {
        assert ([a.value] + rest)[1..] == rest;
        assert FlatWords(ValuesOf(asg, Defines)) == Words(a.value) + FlatWords(rest);
        DefineNamesConcat(Words(a.value), FlatWords(rest));
        AddAllConcat(cfg.defines, DefineNames(Words(a.value)), DefineNames(FlatWords(rest)));
      } else {
        assert ValuesOf(asg, Defines) == [] + rest;
        assert [] + rest == rest;
        assert next.defines == cfg.defines;
      }
    }
  }

  /**
    `includes` is the first occurrence of each `-I` path of C_INCLUDES and
    AS_INCLUDES (one shared list), and `defines` the first occurrence of each
    non-empty name of C_DEFS and AS_DEFS, both in file order.
   */
  lemma {:induction false} ParseIncludesDefines(content: string)
    ensures Parse(content).includes == AddAll([], IncludePaths(FlatWords(ValuesOf(Statements(content), Includes))))
    ensures Parse(content).defines == AddAll([], DefineNames(FlatWords(ValuesOf(Statements(content), Defines))))
  {
    ApplyAllIncludes(Empty(), Statements(content));
    ApplyAllDefines(Empty(), Statements(content));
  }

  lemma {:induction false} AssignmentsHead(x: string, xs: seq<string>)
    ensures Assignments([x] + xs) == Assignments([x]) + Assignments(xs)
  {
    var h: seq<Assignment> := match Recognised(x) case None => [] case Some(a) => [a];
    assert ([x] + xs)[1..] == xs;
    assert Assignments([x]) == h + [] == h;
  }

  lemma {:induction false} AssignmentsConcat(xs: seq<string>, ys: seq<string>)
    ensures Assignments(xs + ys) == Assignments(xs) + Assignments(ys)
    decreases |xs|
  {
    if xs == [] {
      assert xs + ys == ys;
    } else {
      var x, rest := xs[0], xs[1..];
      assert xs == [x] + rest;
      assert xs + ys == [x] + (rest + ys);
      AssignmentsHead(x, rest + ys);
      AssignmentsHead(x, rest);
      AssignmentsConcat(rest, ys);
      PrependChain(Assignments(xs + ys), Assignments([x]), Assignments(rest + ys), Assignments(rest), Assignments(ys), Assignments(xs));
    }
  }

  lemma {:induction false} ApplyAllConcat(cfg: MakefileConfig, xs: seq<Assignment>, ys: seq<Assignment>)
    ensures ApplyAll(cfg, xs + ys) == ApplyAll(ApplyAll(cfg, xs), ys)
    decreases |xs|
  {
    if xs == [] {
      assert xs + ys == ys;
    } else {
      assert (xs + ys)[0] == xs[0];
      assert (xs + ys)[1..] == xs[1..] + ys;
      ApplyAllConcat(ApplyAssignment(cfg, xs[0]), xs[1..], ys);
    }
  }

  /** A line that is blank, a comment, not an assignment, or an assignment to an unknown key. */
  predicate Ignored(line: string)
  {
    Recognised(line).None? || FieldOf(Recognised(line).value.key) == Other
  }

  /** Ignored lines can be removed from anywhere without changing the record. */
  lemma {:induction false} IgnoredLineInvisible(cfg: MakefileConfig, before: seq<string>, line: string, after: seq<string>)
    requires Ignored(line)
    ensures ApplyAll(cfg, Assignments(before + [line] + after)) == ApplyAll(cfg, Assignments(before + after))
  {
    AssignmentsConcat(before + [line], after);
    AssignmentsConcat(before, [line]);
    AssignmentsConcat(before, after);
    var mid := ApplyAll(cfg, Assignments(before));
    ApplyAllConcat(cfg, Assignments(before) + Assignments([line]), Assignments(after));
    ApplyAllConcat(cfg, Assignments(before), Assignments([line]));
    ApplyAllConcat(cfg, Assignments(before), Assignments(after));
    assert [line][1..] == [];
    assert ApplyAll(mid, Assignments([line])) == mid;
  }

  lemma {:induction false} AllTokensConcat(a: seq<string>, b: seq<string>)
    requires AllTokens(a) && AllTokens(b)
    ensures AllTokens(a + b)
  {
    forall k | 0 <= k < |a + b|
      ensures IsToken((a + b)[k])
    {
      if k >= |a| {
        assert (a + b)[k] == b[k - |a|];
      }
    }
  }

  lemma {:induction false} ApplyAssignmentWellFormed(cfg: MakefileConfig, a: Assignment)
    requires WellFormed(cfg)
    ensures WellFormed(ApplyAssignment(cfg, a))
  {
    var w := Words(a.value);
    WordsAreTokens(a.value, []);
    match FieldOf(a.key)
    case CSources => AllTokensConcat(cfg.cSources, w);
    case AsmSources => AllTokensConcat(cfg.asmSources, w);
    case CFlags => AllTokensConcat(cfg.cflags, w);
    case AsFlags => AllTokensConcat(cfg.asflags, w);
    case LdFlags => AllTokensConcat(cfg.ldflags, w);
    case Libs => AllTokensConcat(cfg.libs, w);
    case _ =>
  }

  lemma {:induction false} ApplyAllWellFormed(cfg: MakefileConfig, asg: seq<Assignment>)
    requires WellFormed(cfg)
    ensures WellFormed(ApplyAll(cfg, asg))
    decreases |asg|
  {
    if asg != [] {
      ApplyAssignmentWellFormed(cfg, asg[0]);
      ApplyAllWellFormed(ApplyAssignment(cfg, asg[0]), asg[1..]);
    }
  }

  /**
    Every parsed record is well formed: no repeated include or define, no
    empty define, and only non-empty whitespace-free tokens in the six lists.
   */
  lemma {:induction false} ParseWellFormed(content: string)
    ensures WellFormed(Parse(content))
  {
    ApplyAllWellFormed(Empty(), Statements(content));
  }
}
