/**
  Applying a patch to the file it names. Each mode is a pure edit of the
  file's text (skip, rewrite, or abort on an invalid pattern); `FileSystem`
  is the file store the edits are read from and written back to.
 */
module Patches {
  import opened Options
  import opened Text
  import opened PatchConfig

  /** What a patch does to the text it reads. */
  datatype Edit =
    | Skip                     // returns early, writes nothing
    | Rewrite(content: string) // writes `content`, even when it equals the old text
    | Abort                    // `Regex::new(..).unwrap()` panics

  /**
    The regex library, which is not part of this model: whether a pattern
    compiles, whether it matches somewhere in a text, and the text with every
    match replaced by the replacement string.
   */
  datatype RegexEngine = RegexEngine(
    compiles: string -> bool,
    isMatch: (string, string) -> bool,
    replaceAll: (string, string, string) -> string)

  /** The text after an edit: unchanged on a skip or an abort. */
  function EditedText(content: string, e: Edit): string
  {
    if e.Rewrite? then e.content else content
  }

  /** The file every variant names. */
  function GetFile(p: Patch): (path: string)
    ensures path == p.file
  {
    match p
    case Append(file, _, _, _) => file
    case Replace(file, _, _) => file
    case RegexReplace(file, _, _) => file
  }

  // ---------------------------------------------------------------------
  // Append
  // ---------------------------------------------------------------------

  /** The `map` step: a line holding `after` gets `insert` on the line below it. */
  function ExpandLine(line: string, after: string, insert: string): string
  {
    if Contains(line, after) then line + "\n" + insert else line
  }

  function ExpandLines(ls: seq<string>, after: string, insert: string): (r: seq<string>)
    ensures |r| == |ls|
    ensures forall k :: 0 <= k < |ls| ==> r[k] == ExpandLine(ls[k], after, insert)
    decreases |ls|
  {
    if ls == [] then [] else [ExpandLine(ls[0], after, insert)] + ExpandLines(ls[1..], after, insert)
  }

  /** Append: skip when `marker` is already there, otherwise insert and end with one newline. */
  function AppendEdit(content: string, after: string, insert: string, marker: string): (e: Edit)
    ensures e.Skip? <==> Contains(content, marker)
    ensures e != Abort
  {
    if Contains(content, marker) then Skip
    else Rewrite(JoinLines(ExpandLines(Lines(content), after, insert)) + "\n")
  }

  /** The intended line list after Append: `insert` right below each line holding `after`. */
  function Inserted(ls: seq<string>, after: string, insert: string): seq<string>
    decreases |ls|
  {
    if ls == [] then []
    else [ls[0]] + (if Contains(ls[0], after) then [insert] else []) + Inserted(ls[1..], after, insert)
  }

  lemma {:induction false} InsertedNonEmpty(ls: seq<string>, after: string, insert: string)
    ensures Inserted(ls, after, insert) == [] <==> ls == []
  {
  }

  lemma {:induction false} InsertedNoNewline(ls: seq<string>, after: string, insert: string)
    requires forall k :: 0 <= k < |ls| ==> NoNewline(ls[k])
    requires NoNewline(insert)
    ensures forall k :: 0 <= k < |Inserted(ls, after, insert)| ==> NoNewline(Inserted(ls, after, insert)[k])
    decreases |ls|
  {
    if ls != [] {
      InsertedNoNewline(ls[1..], after, insert);
    }
  }

  /** Joining the expanded lines is joining the intended line list. */
  lemma {:induction false} JoinExpanded(ls: seq<string>, after: string, insert: string)
    ensures JoinLines(ExpandLines(ls, after, insert)) == JoinLines(Inserted(ls, after, insert))
    decreases |ls|
  {
    if ls != [] {
      var l := ls[0];
      var ex := ExpandLines(ls[1..], after, insert);
      var tail := Inserted(ls[1..], after, insert);
      assert ExpandLines(ls, after, insert) == [ExpandLine(l, after, insert)] + ex;
      JoinExpanded(ls[1..], after, insert);
      InsertedNonEmpty(ls[1..], after, insert);
      if Contains(l, after) {
        assert Inserted(ls, after, insert) == [l] + ([insert] + tail);
        if tail == [] {
          assert ex == [];
          assert JoinLines([insert]) == insert;
          JoinCons(l, [insert]);
        } else {
          JoinCons(insert, tail);
          JoinCons(l, [insert] + tail);
          JoinCons(ExpandLine(l, after, insert), ex);
        }
      } else {
        assert Inserted(ls, after, insert) == [l] + tail;
        if tail != [] {
          JoinCons(l, tail);
          JoinCons(l, ex);
        }
      }
    }
  }

  /**
    Append's output is the intended line list joined with `\n` and ending in
    exactly one `\n`: reading its lines back gives every original line in
    order, each line holding `after` followed directly by `insert`.
   */
  lemma {:induction false} AppendLines(content: string, after: string, insert: string, marker: string)
    requires !Contains(content, marker)
    requires content != [] && NoNewline(insert)
    ensures var out := AppendEdit(content, after, insert, marker).content;
            Lines(out) == Inserted(Lines(content), after, insert) &&
            out[|out| - 1] == '\n'
  {
    var ls := Lines(content);
    JoinExpanded(ls, after, insert);
    InsertedNonEmpty(ls, after, insert);
    InsertedNoNewline(ls, after, insert);
    LinesOfJoined(Inserted(ls, after, insert));
  }

  /**
    Append on any text, the empty file included: it skips when `marker`
    occurs, and otherwise writes the intended line list joined with `\n`,
    followed by one `\n`. An empty file has no line, so it becomes "\n".
   */
  lemma {:induction false} AppendInserted(content: string, after: string, insert: string, marker: string)
    ensures AppendEdit(content, after, insert, marker) ==
      if Contains(content, marker) then Skip
      else Rewrite(JoinLines(Inserted(Lines(content), after, insert)) + "\n")
    ensures content == [] && !Contains(content, marker) ==> AppendEdit(content, after, insert, marker) == Rewrite("\n")
  {
    JoinExpanded(Lines(content), after, insert);
  }

  /** With no line holding `after`, Append only normalises the text to end in one newline. */
  lemma {:induction false} InsertedNone(ls: seq<string>, after: string, insert: string)
    requires forall k :: 0 <= k < |ls| ==> !Contains(ls[k], after)
    ensures Inserted(ls, after, insert) == ls
    decreases |ls|
  {
    if ls != [] {
      InsertedNone(ls[1..], after, insert);
      assert [ls[0]] + [] == [ls[0]];
    }
  }

  /** A line that received the insertion puts `insert` into the output. */
  lemma {:induction false} ExpandedContainsInsert(ls: seq<string>, after: string, insert: string, k: nat)
    requires k < |ls| && Contains(ls[k], after)
    ensures Contains(JoinLines(ExpandLines(ls, after, insert)) + "\n", insert)
  {
    var ex := ExpandLines(ls, after, insert);
    JoinContains(ex, k);
    ContainsSelf(insert);
    ContainsWithin(ls[k] + "\n", insert, [], insert);
    assert ls[k] + "\n" + insert + [] == ex[k];
    ContainsTrans(JoinLines(ex), ex[k], insert);
    ContainsWithin([], JoinLines(ex), "\n", insert);
    assert [] + JoinLines(ex) + "\n" == JoinLines(ex) + "\n";
  }

  /**
    When `marker` occurs inside `insert`, a second Append skips or writes the
    same text again, so applying it twice leaves what applying it once left.
    The one exception, an empty file with an empty `after`, is excluded here
    and shown by `AppendEmptyFileGrows`.
   */
  lemma {:induction false} AppendIdempotent(content: string, after: string, insert: string, marker: string)
    requires Contains(insert, marker)
    requires content != [] || after != []
    ensures var once := EditedText(content, AppendEdit(content, after, insert, marker));
            EditedText(once, AppendEdit(once, after, insert, marker)) == once
  {
    if !Contains(content, marker) {
      var ls := Lines(content);
      var once := JoinLines(ExpandLines(ls, after, insert)) + "\n";
      if exists k :: 0 <= k < |ls| && Contains(ls[k], after) {
        var k :| 0 <= k < |ls| && Contains(ls[k], after);
        ExpandedContainsInsert(ls, after, insert, k);
        ContainsTrans(once, insert, marker);
      } else if content != [] {
        JoinExpanded(ls, after, insert);
        InsertedNone(ls, after, insert);
        LinesOfJoined(ls);
        assert Lines(once) == ls;
        JoinExpanded(ls, after, insert);
      } else {
        assert once == "\n";
        assert Lines("\n") == [[]] by {
          assert SplitLines("\n") == [[], []] by {
            assert "\n"[1..] == [];
          }
        }
        NotContainsLonger("", after);
        assert ExpandLines([[]], after, insert) == [[]];
      }
    }
  }

  /**
    On an empty file with an empty `after` the second run inserts again: the
    first run writes "\n" (no line to match), and that single empty line
    matches `after` on the second run. Once `insert` is in the file, a later
    run skips when `marker` is part of `insert`.
   */
  lemma {:induction false} AppendEmptyFileGrows()
    ensures AppendEdit("", "", "X", "X") == Rewrite("\n")
    ensures AppendEdit("\n", "", "X", "X") == Rewrite("\nX\n")
    ensures AppendEdit("\nX\n", "", "X", "X") == Skip
  {
    assert OccursAt("\nX\n", "X", 1);
    assert !Contains("", "X");
    NotContainsChar("\n", 'X');
    assert Lines("\n") == [[]] by {
      assert SplitLines("\n") == [[], []] by {
        assert "\n"[1..] == [];
      }
    }
    ContainsSelf([]);
    assert ExpandLine([], "", "X") == "\nX";
    assert ExpandLines([[]], "", "X") == ["\nX"];
  }

  // ---------------------------------------------------------------------
  // Replace
  // ---------------------------------------------------------------------

  /** Replace: skip when `insert` is already there, otherwise replace every occurrence of `find`. */
  function ReplaceEdit(content: string, find: string, insert: string): (e: Edit)
    ensures e.Skip? <==> Contains(content, insert)
    ensures e != Abort
  {
    if Contains(content, insert) then Skip else Rewrite(ReplaceAll(content, find, insert))
  }

  /** Replace is idempotent: a second run skips or writes the same text again. */
  lemma {:induction false} ReplaceIdempotent(content: string, find: string, insert: string)
    ensures var once := EditedText(content, ReplaceEdit(content, find, insert));
            EditedText(once, ReplaceEdit(once, find, insert)) == once
  {
    if !Contains(content, insert) {
      var once := ReplaceAll(content, find, insert);
      if !Contains(once, insert) {
        if find == [] {
          ContainsPrefix(once, insert);
        } else {
          if Contains(content, find) {
            ReplacePresent(content, find, insert);
          }
          ReplaceAbsent(content, find, insert);
        }
      }
    }
  }

  /** When `find` is absent, a Replace that does not skip still rewrites the same text. */
  lemma {:induction false} ReplaceNothingFound(content: string, find: string, insert: string)
    requires find != [] && !Contains(content, find) && !Contains(content, insert)
    ensures ReplaceEdit(content, find, insert) == Rewrite(content)
  {
    ReplaceAbsent(content, find, insert);
  }

  // ---------------------------------------------------------------------
  // RegexReplace
  // ---------------------------------------------------------------------

  /**
    RegexReplace: an invalid pattern aborts; skip exactly when the pattern
    matches and `insert` is already there; otherwise replace every match.
   */
  function RegexReplaceEdit(content: string, pattern: string, insert: string, re: RegexEngine): (e: Edit)
    ensures e.Abort? <==> !re.compiles(pattern)
    ensures e.Skip? <==> re.compiles(pattern) && re.isMatch(pattern, content) && Contains(content, insert)
    ensures e.Rewrite? ==> e.content == re.replaceAll(pattern, content, insert)
  {
    if !re.compiles(pattern) then Abort
    else if re.isMatch(pattern, content) && Contains(content, insert) then Skip
    else Rewrite(re.replaceAll(pattern, content, insert))
  }

  /**
    A regex engine that behaves like the real one on a pattern free of
    metacharacters: a match is an occurrence, and `$0` in the replacement
    stands for the matched text.
   */
  function LiteralEngine(): RegexEngine
  {
    RegexEngine(
      (pattern: string) => true,
      (pattern: string, text: string) => Contains(text, pattern),
      (pattern: string, text: string, rep: string) => ReplaceAll(text, pattern, ReplaceAll(rep, "$0", pattern)))
  }

  /**
    RegexReplace is not idempotent: with replacement `$0$0` the literal
    `insert` never appears in the output, so every run doubles the match.
   */
  lemma {:induction false} RegexReplaceRepeats()
    ensures RegexReplaceEdit("a", "a", "$0$0", LiteralEngine()) == Rewrite("aa")
    ensures RegexReplaceEdit("aa", "a", "$0$0", LiteralEngine()) == Rewrite("aaaa")
  {
    assert ReplaceAll("$0$0", "$0", "a") == "aa" by {
      assert IsPrefix("$0", "$0$0");
      assert "$0$0"[2..] == "$0";
      assert IsPrefix("$0", "$0");
      assert "$0"[2..] == [];
    }
    assert ReplaceAll("a", "a", "aa") == "aa" by {
      assert IsPrefix("a", "a");
      assert "a"[1..] == [];
    }
    assert ReplaceAll("aa", "a", "aa") == "aaaa" by {
      assert IsPrefix("a", "aa");
      assert "aa"[1..] == "a";
      assert ReplaceAll("a", "a", "aa") == "aa" by {
        assert IsPrefix("a", "a");
        assert "a"[1..] == [];
      }
    }
    assert !Contains("a", "$0$0");
    NotContainsLonger("aa", "$0$0");
  }

  // ---------------------------------------------------------------------
  // One patch, a list of patches
  // ---------------------------------------------------------------------

  /** The edit a patch makes to the text of its file. */
  function EditFor(p: Patch, content: string, re: RegexEngine): Edit
  {
    match p
    case Append(_, after, insert, marker) => AppendEdit(content, after, insert, marker)
    case Replace(_, find, insert) => ReplaceEdit(content, find, insert)
    case RegexReplace(_, pattern, insert) => RegexReplaceEdit(content, pattern, insert, re)
  }

  /** The files, the paths written so far in order, and whether a panic stopped the run. */
  datatype RunState = RunState(files: map<string, string>, written: seq<string>, panicked: bool)

  /**
    `apply_patch` on a state: an unreadable file is skipped silently; a
    rewrite replaces the file and is logged as a write; an abort stops the run.
   */
  function Step(s: RunState, p: Patch, re: RegexEngine): (t: RunState)
    ensures !s.panicked && GetFile(p) !in s.files ==> t == s
    ensures t.files.Keys == s.files.Keys
    ensures forall path :: path in s.files && path != GetFile(p) ==> t.files[path] == s.files[path]
  {
    var path := GetFile(p);
    if s.panicked || path !in s.files then s
    else
      match EditFor(p, s.files[path], re)
      case Skip => s
      case Abort => s.(panicked := true)
      case Rewrite(c) => RunState(s.files[path := c], s.written + [path], false)
  }

  /** The patches in list order, stopping at the first panic. */
  function Run(s: RunState, ps: seq<Patch>, re: RegexEngine): RunState
    decreases |ps|
  {
    if ps == [] || s.panicked then s else Run(Step(s, ps[0], re), ps[1..], re)
  }

  /** Running two lists is running one, then the other from where it left off. */
  lemma {:induction false} RunConcat(s: RunState, ps: seq<Patch>, qs: seq<Patch>, re: RegexEngine)
    ensures Run(s, ps + qs, re) == Run(Run(s, ps, re), qs, re)
    decreases |ps|
  {
    if ps == [] {
      assert ps + qs == qs;
    } else if s.panicked {
      assert Run(s, qs, re) == s;
    } else {
      assert (ps + qs)[0] == ps[0];
      assert (ps + qs)[1..] == ps[1..] + qs;
      RunConcat(Step(s, ps[0], re), ps[1..], qs, re);
    }
  }

  /** After a panic nothing more happens. */
  lemma {:induction false} RunAfterPanic(s: RunState, ps: seq<Patch>, re: RegexEngine)
    requires s.panicked
    ensures Run(s, ps, re) == s
  {
  }

  /** Writes are only ever appended to the log, and the set of files never changes. */
  lemma {:induction false} RunKeepsHistory(s: RunState, ps: seq<Patch>, re: RegexEngine)
    ensures var t := Run(s, ps, re);
            |s.written| <= |t.written| && t.written[..|s.written|] == s.written &&
            t.files.Keys == s.files.Keys
    decreases |ps|
  {
    if ps != [] && !s.panicked {
      var next := Step(s, ps[0], re);
      RunKeepsHistory(next, ps[1..], re);
      var t := Run(next, ps[1..], re);
      assert next.written[..|s.written|] == s.written;
      assert t.written[..|next.written|][..|s.written|] == t.written[..|s.written|];
    }
  }

  /** Applying a Replace twice to the same store gives the store applying it once gave. */
  lemma {:induction false} StepReplaceIdempotent(s: RunState, p: Patch, re: RegexEngine)
    requires p.Replace?
    ensures Step(Step(s, p, re), p, re).files == Step(s, p, re).files
  {
    if p.file in s.files {
      ReplaceIdempotent(s.files[p.file], p.find, p.insert);
    }
  }

  /** The same for an Append whose `marker` is part of its `insert`, outside the empty-file case. */
  lemma {:induction false} StepAppendIdempotent(s: RunState, p: Patch, re: RegexEngine)
    requires p.Append?
    requires Contains(p.insert, p.marker)
    requires p.file in s.files ==> s.files[p.file] != [] || p.after != []
    ensures Step(Step(s, p, re), p, re).files == Step(s, p, re).files
  {
    if p.file in s.files {
      AppendIdempotent(s.files[p.file], p.after, p.insert, p.marker);
    }
  }

  /**
    A rewrite writes even when the text is unchanged: a Replace whose `find`
    is absent logs a write of the same content.
   */
  lemma {:induction false} WritesEvenIfUnchanged(s: RunState, p: Patch, re: RegexEngine)
    requires p.Replace? && !s.panicked && p.file in s.files
    requires p.find != [] && !Contains(s.files[p.file], p.find) && !Contains(s.files[p.file], p.insert)
    ensures Step(s, p, re).files == s.files
    ensures Step(s, p, re).written == s.written + [p.file]
  {
    ReplaceNothingFound(s.files[p.file], p.find, p.insert);
  }

  /** The file store the patches are applied to, with a log of every write. */
  class FileSystem {
    var files: map<string, string>
    var written: seq<string>

    constructor(initial: map<string, string>)
      ensures files == initial && written == []
    {
      files := initial;
      written := [];
    }

    /** `apply_patch`; `panicked` is set where the source panics on an invalid pattern. */
    method ApplyPatch(p: Patch, re: RegexEngine) returns (panicked: bool)
      modifies this
      ensures RunState(files, written, panicked) == Step(RunState(old(files), old(written), false), p, re)
    {
      var path := GetFile(p);
      if path !in files {
        return false;
      }
      var content := files[path];
      var edit := EditFor(p, content, re);
      match edit
      case Skip =>
        return false;
      case Abort =>
        return true;
      case Rewrite(newContent) =>
        files := files[path := newContent];
        written := written + [path];
        return false;
    }

    /** The loop over the configured patches, in order, ending at the first panic. */
    method ApplyPatches(ps: seq<Patch>, re: RegexEngine) returns (panicked: bool)
      modifies this
      ensures RunState(files, written, panicked) == Run(RunState(old(files), old(written), false), ps, re)
    {
      panicked := false;
      var i := 0;
      while i < |ps| && !panicked
        invariant 0 <= i <= |ps|
        invariant Run(RunState(files, written, panicked), ps[i..], re) ==
                  Run(RunState(old(files), old(written), false), ps, re)
        decreases |ps| - i
      {
        assert ps[i..][1..] == ps[i + 1..];
        panicked := ApplyPatch(ps[i], re);
        i := i + 1;
      }
    }
  }
}
