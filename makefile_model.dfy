/**
  The record that the Makefile parser fills in (`MakefileConfig`), and the
  invariant every record it returns satisfies.
 */
module MakefileModel {
  import opened Options
  import opened Text

  /**
    Three optional scalars (last assignment wins) and eight string lists.
    `includes` and `defines` are insertion-ordered sets; the other six keep
    every token, duplicates included, in file order.
   */
  datatype MakefileConfig = MakefileConfig(
    target: Option<string>,
    buildDir: Option<string>,
    cSources: seq<string>,
    asmSources: seq<string>,
    includes: seq<string>,
    defines: seq<string>,
    cflags: seq<string>,
    asflags: seq<string>,
    ldflags: seq<string>,
    libs: seq<string>,
    ldscript: Option<string>)

  /** The record `parse_makefile` starts from: every scalar unset, every list empty. */
  function Empty(): (cfg: MakefileConfig)
    ensures cfg.target.None? && cfg.buildDir.None? && cfg.ldscript.None?
    ensures cfg.cSources == cfg.asmSources == cfg.includes == cfg.defines == []
    ensures cfg.cflags == cfg.asflags == cfg.ldflags == cfg.libs == []
    ensures WellFormed(cfg)
  {
    MakefileConfig(None, None, [], [], [], [], [], [], [], [], None)
  }

  predicate NoDup(xs: seq<string>)
  {
    forall i, j :: 0 <= i < j < |xs| ==> xs[i] != xs[j]
  }

  /**
    What every parsed record satisfies: `includes` and `defines` repeat no
    entry, `defines` holds no empty name, and the six token lists hold only
    non-empty, whitespace-free tokens.
   */
  predicate WellFormed(cfg: MakefileConfig)
  {
    && NoDup(cfg.includes)
    && NoDup(cfg.defines)
    && [] !in cfg.defines
    && AllTokens(cfg.cSources)
    && AllTokens(cfg.asmSources)
    && AllTokens(cfg.cflags)
    && AllTokens(cfg.asflags)
    && AllTokens(cfg.ldflags)
    && AllTokens(cfg.libs)
  }
}
