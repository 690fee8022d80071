/**
  The patch configuration: the three-way `Patch` sum and the `Config`
  record, and how a patch is read from a mapping whose `mode` entry selects
  the variant (an internally tagged enum, unknown entries ignored).
 */
module PatchConfig {
  import opened Options

  /** One edit to one file; every field is a string. */
  datatype Patch =
    | Append(file: string, after: string, insert: string, marker: string)
    | Replace(file: string, find: string, insert: string)
    | RegexReplace(file: string, pattern: string, insert: string)

  /** The configuration: directories and patches, both in file order. */
  datatype Config = Config(directories: seq<string>, patches: seq<Patch>)

  /** The `mode` value that selects each variant. */
  function ModeTag(p: Patch): string
  {
    match p
    case Append(_, _, _, _) => "append"
    case Replace(_, _, _) => "replace"
    case RegexReplace(_, _, _) => "regex_replace"
  }

  /** A mapping of a configuration document whose entries are all strings. */
  type Mapping = map<string, string>

  /** The mapping a patch is written as: its tag under `mode`, then its fields by name. */
  function Encode(p: Patch): Mapping
  {
    match p
    case Append(file, after, insert, marker) =>
      map["mode" := "append", "file" := file, "after" := after, "insert" := insert, "marker" := marker]
    case Replace(file, find, insert) =>
      map["mode" := "replace", "file" := file, "find" := find, "insert" := insert]
    case RegexReplace(file, pattern, insert) =>
      map["mode" := "regex_replace", "file" := file, "pattern" := pattern, "insert" := insert]
  }

  /**
    Reading a patch: the `mode` entry picks the variant, every field of that
    variant must be present, and any other entry is ignored. A missing or
    unknown `mode`, or a missing field, is an error.
   */
  function Decode(m: Mapping): Option<Patch>
  {
    if "mode" !in m then None
    else if m["mode"] == "append" then
      if "file" in m && "after" in m && "insert" in m && "marker" in m
      then Some(Append(m["file"], m["after"], m["insert"], m["marker"]))
      else None
    else if m["mode"] == "replace" then
      if "file" in m && "find" in m && "insert" in m
      then Some(Replace(m["file"], m["find"], m["insert"]))
      else None
    else if m["mode"] == "regex_replace" then
      if "file" in m && "pattern" in m && "insert" in m
      then Some(RegexReplace(m["file"], m["pattern"], m["insert"]))
      else None
    else None
  }

  /** `m` holds every entry of `sub`, with the same value. */
  predicate SubMapping(sub: Mapping, m: Mapping)
  {
    forall k :: k in sub ==> k in m && m[k] == sub[k]
  }

  /** The three tags are distinct: the tag alone determines the variant. */
  lemma {:induction false} ModeTagDistinct(p: Patch, q: Patch)
    ensures ModeTag(p) == ModeTag(q) <==>
      (p.Append? && q.Append?) || (p.Replace? && q.Replace?) || (p.RegexReplace? && q.RegexReplace?)
  {
    assert "append"[0] == 'a' && "replace"[0] == 'r' && "regex_replace"[2] == 'g' && "replace"[2] == 'p';
  }

  /** Reading back what a patch is written as gives that patch. */
  lemma {:induction false} DecodeEncode(p: Patch)
    ensures Decode(Encode(p)) == Some(p)
  {
    ModeTagDistinct(p, Append("", "", "", ""));
    ModeTagDistinct(p, Replace("", "", ""));
  }

  /**
    A mapping reads as `p` exactly when it holds all of `p`'s entries: the
    tag and every field must match, and extra entries change nothing.
   */
  lemma {:induction false} DecodeExactly(m: Mapping, p: Patch)
    ensures Decode(m) == Some(p) <==> SubMapping(Encode(p), m)
  {
    ModeTagDistinct(p, Append("", "", "", ""));
    ModeTagDistinct(p, Replace("", "", ""));
    if SubMapping(Encode(p), m) {
      assert "mode" in Encode(p);
      assert m["mode"] == ModeTag(p);
    }
  }

  /** Reading a configuration: all patches must read, and their order is kept. */
  function DecodePatches(ms: seq<Mapping>): (r: Option<seq<Patch>>)
    ensures r.Some? ==> |r.value| == |ms| && forall i :: 0 <= i < |ms| ==> Decode(ms[i]) == Some(r.value[i])
    ensures r.None? ==> exists i :: 0 <= i < |ms| && Decode(ms[i]).None?
    decreases |ms|
  {
    if ms == [] then Some([])
    else
      match Decode(ms[0])
      case None => None
      case Some(p) =>
        match DecodePatches(ms[1..])
        case None => None
        case Some(ps) => Some([p] + ps)
  }

  function DecodeConfig(directories: seq<string>, ms: seq<Mapping>): (r: Option<Config>)
    ensures r.Some? <==> forall i :: 0 <= i < |ms| ==> Decode(ms[i]).Some?
    ensures r.Some? ==> r.value.directories == directories && |r.value.patches| == |ms| &&
                        forall i :: 0 <= i < |ms| ==> Decode(ms[i]) == Some(r.value.patches[i])
  {
    match DecodePatches(ms)
    case None => None
    case Some(ps) => Some(Config(directories, ps))
  }
}
