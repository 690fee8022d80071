# stm32-git-init-tool, modelled in Dafny

This project models the core of `stm32-git-init-tool`. The tool prepares an STM32CubeMX project for version control. It has three parts, and the model covers all three:

- **The Makefile parser.** `parse_makefile` reads the Makefile that STM32CubeMX generates into a `MakefileConfig` record. It unfolds `\` continuations, then skips blank lines and `#` comments. Lines of the form `KEY [:+]= value` are matched. Each known key is then dispatched to its field of the record:
  - `TARGET`, `BUILD_DIR` and `LDSCRIPT` are scalars, and the last assignment wins.
  - The six token lists (`C_SOURCES`, `ASM_SOURCES`, `CFLAGS`, `ASFLAGS`, `LDFLAGS`, `LIBS`) gather every whitespace-separated token.
  - `C_INCLUDES`/`AS_INCLUDES` and `C_DEFS`/`AS_DEFS` become insertion-ordered sets of include paths and macro names.
- **The patch engine.** `Patch` is a tagged union of `append`, `replace` and `regex_replace`, read from a configuration mapping. `apply_patch` edits one file in place. It reads the file (a missing file is skipped), decides whether to skip, computes the new text and writes it. The caller applies the configured patches in order and stops at the first failure.
- **STM32CubeMX code generation.** This covers the toolchain label table and the `.ioc` filter over the working directory's listing. It also covers the command script written to a temporary file, and the decision of `generate_code`.

Modules:

- `Options` holds `Option`.
- `Text` holds the Rust `str` operations the source relies on: `trim`, `lines`, `split_whitespace`, `contains`, `replace`, `join` and `trim_start_matches`.
- `MakefileModel` and `MakefileParser` model `makefile_parser/src/model.rs` and `makefile_parser/src/lib.rs`.
- `PatchConfig` models `src/config.rs`.
- `Patches` models `src/patches.rs`, plus the patch loop of `src/main.rs`.
- `CubeMx` models `src/stm32cubemx.rs`.

Code that updates state step by step is modelled as methods, each proved against a specification function:

- `UnfoldMultiline` is proved against `Unfold`.
- `ParseMakefile`, `CollectIncludes` and `CollectDefines` are proved against `Parse` and `AddAll`.
- `IocFiles` is proved against `FilterIoc`.
- `WriteScript` is proved against `ScriptText`.

The file system is a class, `Patches.FileSystem`. It holds a map of files and a log of the paths written. Its methods `ApplyPatch` and `ApplyPatches` are proved against the functions `Step` and `Run`.

Notes on how the model follows the code:

- **Regex matching.** The regular expression `^([A-Z0-9_-]+)\s*[:+]?=\s*(.*)$` is written out by hand as `MatchAssignment`. It is proved sound (`MatchAssignmentSound`) and complete (`MatchAssignmentComplete`).
- **The `regex` crate for patches.** `regex_replace` patterns use the `regex` crate, which the model does not implement. The model takes it as a parameter (`RegexEngine`): whether a pattern compiles, whether it matches, and what `replace_all` yields. A pattern that does not compile makes the source panic. The model reports this as `Abort`, which stops the run.
- **Writes of unchanged text.** The code writes the file whenever it does not skip, even when the new text equals the old. The model follows the code: `WritesEvenIfUnchanged` shows a write of unchanged text being logged. This matters for the patch loop. Its skip tests look for `marker`, for `insert`, or for a regex match together with `insert`. They do not compare the new text with the old.

## Model

| member | source | states |
|---|---|---|
| MakefileParser.UnfoldMultiline | makefile_parser/src/lib.rs:8-26 | The loop computes `Unfold(lines)`. A trailing-`\` line loses its backslash and gains a space. Any other line is right-trimmed and closes the current logical line. A pending fragment at the end is kept. |
| MakefileParser.UnfoldCount | makefile_parser/src/lib.rs:11-24 | The number of logical lines is the number of non-continuation lines, plus one when the input ends in the middle of a continuation. |
| MakefileParser.UnfoldFromCount | makefile_parser/src/lib.rs:11-24 | The same count, for unfolding that starts with a pending fragment. |
| MakefileParser.UnfoldFromGroup | makefile_parser/src/lib.rs:12-19 | A run of continuation lines closed by a plain line becomes exactly one logical line: the fragments joined, then the right-trimmed last line. |
| MakefileParser.UnfoldGroup | makefile_parser/src/lib.rs:12-19 | Such a group unfolds to one line whose whitespace tokens are the fragments' tokens followed by the last line's tokens, so continuations never glue two tokens together. |
| MakefileParser.JoinedWords | makefile_parser/src/lib.rs:14-15 | The space that replaces each backslash separates the tokens of consecutive fragments. |
| MakefileParser.WordsTrailingSpace | makefile_parser/src/lib.rs:15 | The space appended after a fragment adds no token. |
| MakefileParser.UnfoldExample | makefile_parser/src/lib.rs:8-26 | `A \`, `B \`, `C` unfold to the single line `A  B  C`. |
| MakefileParser.UnfoldExampleWords | makefile_parser/src/lib.rs:67 | `split_whitespace` of `A  B  C` gives `A`, `B`, `C`. |
| MakefileParser.KeyRun | makefile_parser/src/lib.rs:50 | The greedy `[A-Z0-9_-]+` run: every character inside is a key character, and the next one is not. |
| MakefileParser.OperatorEnd | makefile_parser/src/lib.rs:50 | When `\s*[:+]?=` matches at the start, the match ends just after an `=` inside the text. |
| MakefileParser.MatchAssignmentShape | makefile_parser/src/lib.rs:50-60 | A matched key is a non-empty run of `[A-Z0-9_-]`. The value holds no line break and does not start with whitespace, because the `\s*` before it is greedy. |
| MakefileParser.MatchAssignmentSound | makefile_parser/src/lib.rs:50-60 | A matched line is exactly key, then a separator of the form whitespace, optional `:` or `+`, `=` and whitespace, then value. |
| MakefileParser.MatchAssignmentComplete | makefile_parser/src/lib.rs:50-60 | Every line of that form matches, with exactly that key and that value. |
| MakefileParser.FieldOfKnown | makefile_parser/src/lib.rs:62-109 | A key reaches a field of the record if and only if it is one of the thirteen keys the `match` names. Every other key is ignored. |
| MakefileParser.AddAll | makefile_parser/src/lib.rs:75-77 | Set-guarded push: repeats nothing when the accumulator repeats nothing. Holds exactly the old entries and the new ones, and keeps the old entries as a prefix. |
| MakefileParser.AddAllNew | makefile_parser/src/lib.rs:75-77 | Every entry added after the old prefix comes from the offered list and was not already in the accumulator. |
| MakefileParser.AddAllFirstOrder | makefile_parser/src/lib.rs:75-77 | First occurrence wins: for any input, the added entries appear in the order of their first occurrence in the offered list. |
| MakefileParser.AddAllConcat | makefile_parser/src/lib.rs:71-92 | Adding two token lists one after the other is adding their concatenation, so the sets persist across assignments. |
| MakefileParser.DefineNames | makefile_parser/src/lib.rs:81-93 | No macro name that is kept is empty. |
| MakefileParser.IncludePathsConcat | makefile_parser/src/lib.rs:72-79 | Extracting `-I` paths works token by token. |
| MakefileParser.DefineNamesConcat | makefile_parser/src/lib.rs:82-93 | Extracting macro names works token by token. |
| MakefileParser.IncludesExample | makefile_parser/src/lib.rs:71-80 | For any two distinct paths not starting with `-I`, the tokens `-Ia -Ib -Ia` give the includes `a`, `b`: the repeat is dropped and first-seen order is kept. |
| MakefileParser.AddAllRepeat | makefile_parser/src/lib.rs:75-77 | Offering `a`, `b`, `a` to an empty set-guarded list keeps `a`, `b`. |
| MakefileParser.CollectIncludes | makefile_parser/src/lib.rs:71-80 | The token loop appends exactly `AddAll(includes, IncludePaths(tokens))`. Afterwards the hash set holds exactly the listed includes. |
| MakefileParser.CollectDefines | makefile_parser/src/lib.rs:81-94 | The token loop appends exactly `AddAll(defines, DefineNames(tokens))`. Afterwards the hash set holds exactly the listed defines. |
| MakefileParser.ParseMakefile | makefile_parser/src/lib.rs:29-114 | `parse_makefile` returns `Parse(content)`, the fold of every recognised assignment over the empty record, and the result is well formed. |
| MakefileModel.Empty | makefile_parser/src/lib.rs:33-45 | The starting record: every scalar unset, every list empty, and well formed. |
| MakefileParser.LastValueIsLast | makefile_parser/src/lib.rs:63-64 | The reference `LastValue` is unset if and only if no assignment names the field. Otherwise it is the value of an assignment to the field after which no assignment names the field. |
| MakefileParser.ApplyAllScalar | makefile_parser/src/lib.rs:63-107 | Folding assignments sets a scalar to the last assigned value, or leaves it as it was when there is none. |
| MakefileParser.ParseScalars | makefile_parser/src/lib.rs:63-107 | `TARGET`, `BUILD_DIR` and `LDSCRIPT` end up as the last value assigned to them in the file. |
| MakefileParser.ApplyAllTokenList | makefile_parser/src/lib.rs:65-106 | Folding assignments extends a token list by the whitespace tokens of every value assigned to it, in file order. |
| MakefileParser.ParseTokenLists | makefile_parser/src/lib.rs:65-106 | Each of the six token lists is the whitespace tokens of all its assignments, in order and with duplicates. `+=` and `=` both append. |
| MakefileParser.ApplyAllIncludes | makefile_parser/src/lib.rs:71-80 | Folding assignments adds to the includes the `-I` paths of all `C_INCLUDES`/`AS_INCLUDES` values. Each path is added once, in first-seen order. |
| MakefileParser.ApplyAllDefines | makefile_parser/src/lib.rs:81-94 | Folding assignments adds to the defines the non-empty macro names of all `C_DEFS`/`AS_DEFS` values. Each name is added once, in first-seen order. |
| MakefileParser.ParseIncludesDefines | makefile_parser/src/lib.rs:71-94 | The parsed includes and defines are the de-duplicated paths and names of all the assignments that feed them. |
| MakefileParser.AssignmentsConcat | makefile_parser/src/lib.rs:52-58 | Recognising assignments works line by line. |
| MakefileParser.ApplyAllConcat | makefile_parser/src/lib.rs:52-111 | Applying two runs of assignments is applying the first, then the second. |
| MakefileParser.IgnoredLineInvisible | makefile_parser/src/lib.rs:53-58 | Inserting a blank line, a `#` comment or any line the pattern rejects anywhere leaves the parsed record unchanged. |
| MakefileParser.ApplyAllWellFormed | makefile_parser/src/lib.rs:62-109 | Every assignment keeps the record well formed: the includes and defines stay duplicate-free, no define is empty, and every listed token is non-empty and free of whitespace. |
| MakefileParser.ParseWellFormed | makefile_parser/src/lib.rs:29-114 | Every parsed record is well formed. |
| PatchConfig.ModeTagDistinct | src/config.rs:3-12 | The three `mode` tags are distinct, so the tag alone determines the variant. |
| PatchConfig.DecodeEncode | src/config.rs:3-12 | Reading back the mapping that a patch is written as gives that patch. |
| PatchConfig.DecodeExactly | src/config.rs:3-12 | A mapping reads as a patch if and only if it holds that patch's tag and every field of it. Extra entries are ignored. |
| PatchConfig.DecodePatches | src/config.rs:14-17 | A list of mappings reads only when every entry reads, and then gives the patches in order. A failure points at an entry that does not read. |
| PatchConfig.DecodeConfig | src/config.rs:14-17 | A configuration reads if and only if all its patches read, and it keeps the directories and the patch order. |
| Patches.GetFile | src/patches.rs:43-49 | The path a patch edits is the `file` of whichever variant it is. |
| Patches.ExpandLines | src/patches.rs:14-22 | The `map` step acts on each line independently: a line holding `after` gets `insert` on a new line after it. |
| Patches.AppendEdit | src/patches.rs:12-25 | Append skips if and only if `marker` already occurs in the file, and it never fails. |
| Patches.AppendInserted | src/patches.rs:13-24 | For every text, the empty file included, Append skips if and only if `marker` occurs. Otherwise it writes the intended line list, with `insert` right below each line holding `after`, joined by line breaks and ending in one. An empty file becomes a single line break. |
| Patches.AppendLines | src/patches.rs:13-24 | Reading the written lines back gives the original lines in order, each line holding `after` directly followed by `insert`. The text ends in a line break. |
| Patches.InsertedNone | src/patches.rs:17-20 | When no line holds `after`, the line list is unchanged. |
| Patches.AppendIdempotent | src/patches.rs:12-25 | When `insert` contains `marker`, a second Append leaves the text as the first left it. |
| Patches.AppendEmptyFileGrows | src/patches.rs:13-24 | On an empty file with an empty `after`, the first Append writes only a line break and the second then inserts. A third run skips. This is the case `AppendIdempotent` excludes. |
| Patches.ReplaceEdit | src/patches.rs:26-29 | Replace skips if and only if `insert` already occurs, and it never fails. |
| Patches.ReplaceIdempotent | src/patches.rs:26-29 | For every input, a second Replace skips or rewrites the same text, so twice is once. |
| Patches.ReplaceNothingFound | src/patches.rs:26-29 | With a non-empty `find` that is absent and an `insert` that is absent, Replace still rewrites the file, with unchanged text. |
| Patches.RegexReplaceEdit | src/patches.rs:30-36 | The edit fails if and only if the pattern does not compile. It skips if and only if the pattern compiles, matches and `insert` occurs. Otherwise it rewrites with the engine's `replace_all`. |
| Patches.RegexReplaceRepeats | src/patches.rs:30-36 | With a literal engine and insert `$0$0`, repeated runs keep growing the text (`a`, `aa`, `aaaa`), because the skip test looks for the unexpanded template. |
| Patches.Step | src/patches.rs:5-41 | A patch on a missing file changes nothing. No patch creates or deletes a file. Files other than the patched one are unchanged. |
| Patches.StepReplaceIdempotent | src/patches.rs:26-29 | Applying a Replace patch twice to the file store leaves the files that one application left. |
| Patches.StepAppendIdempotent | src/patches.rs:12-25 | The same holds for an Append whose `insert` contains its `marker`, outside the empty-file case. |
| Patches.WritesEvenIfUnchanged | src/patches.rs:39 | A Replace that does not skip writes, and logs the write, even when the text is unchanged. |
| Patches.RunConcat | src/main.rs:57-60 | Running two lists of patches is running the first, then the second from where it stopped. |
| Patches.RunAfterPanic | src/main.rs:57-60 | After a failure no later patch does anything. |
| Patches.RunKeepsHistory | src/main.rs:57-60 | The write log only grows by appending, and the set of files never changes. |
| Patches.FileSystem.constructor | src/patches.rs:5-9 | The store starts with the given files and an empty write log. |
| Patches.FileSystem.ApplyPatch | src/patches.rs:5-41 | `apply_patch` changes the files, the write log and the panic flag exactly as `Step` says. |
| Patches.FileSystem.ApplyPatches | src/main.rs:57-60 | The loop leaves the store exactly as `Run` over the patch list says. |
| CubeMx.LabelRoundTrip | src/stm32cubemx.rs:59-72 | Each toolchain label reads back as its toolchain. |
| CubeMx.LabelsDistinct | src/stm32cubemx.rs:59-72 | Two toolchains have the same label if and only if they are the same toolchain. |
| CubeMx.LabelPlain | src/stm32cubemx.rs:59-72 | No label holds a line break or a double quote, so the quoted toolchain command stays one line. |
| CubeMx.LastIndex | src/stm32cubemx.rs:24 | The last occurrence of a character: a found index holds that character and no later index does. Not found means the character does not occur. |
| CubeMx.IocIff | src/stm32cubemx.rs:24-25 | A path counts as a project file if and only if its file name is at least one character followed by `.ioc`. |
| CubeMx.FilterIoc | src/stm32cubemx.rs:17-33 | The kept entries are exactly the listed `.ioc` files: each `.ioc` entry is kept as often as it is listed, and no other entry is kept. So the count `generate_code` tests is the number of `.ioc` entries. |
| CubeMx.IocFiles | src/stm32cubemx.rs:17-33 | The directory loop returns `FilterIoc` of the listing, in listing order. |
| CubeMx.ScriptShape | src/stm32cubemx.rs:82-108 | The script is the load line, then the toolchain line when a toolchain is given, then the fixed tail. |
| CubeMx.TailLines | src/stm32cubemx.rs:93-107 | The tail splits into the couple-files command (preceded by the root option for STM32CubeIDE), then `project generate` and `exit`. |
| CubeMx.ScriptStart | src/stm32cubemx.rs:84-86 | The script always starts with `config load <ioc>` and a line break. |
| CubeMx.ScriptEnd | src/stm32cubemx.rs:100-107 | The script always ends with the couple-files, generate and exit commands. The last character is the `t` of `exit`, with no line break after it. |
| CubeMx.ScriptLines | src/stm32cubemx.rs:82-108 | The script's lines are the load line, the toolchain line exactly when a toolchain is given, the couple-files command (glued to the root option for STM32CubeIDE), `project generate` and `exit`. |
| CubeMx.RootOptionGlued | src/stm32cubemx.rs:93-103 | With STM32CubeIDE, the script holds the line `project generateunderroot 1project couplefilesbyip 1`, and the root option never stands on a line by itself. |
| CubeMx.IntendedScriptLines | src/stm32cubemx.rs:82-108 | In the corrected script every command is on a line of its own, with the root option on its own line exactly for STM32CubeIDE. |
| CubeMx.ScriptFile.WriteAll | src/stm32cubemx.rs:84-107 | `write_all` appends its text to what the file already holds. |
| CubeMx.WriteScript | src/stm32cubemx.rs:82-108 | The writes, in order, leave the file holding exactly `ScriptText(ioc, toolchain)`. |
| CubeMx.GenerateCode | src/stm32cubemx.rs:74-132 | Fails without writing anything unless exactly one `.ioc` file is listed. Otherwise it writes the script for that file, and removes it if and only if not on Windows. It succeeds if and only if there is exactly one `.ioc` file, it is not on Windows, and the generator exits with status 0. |

## Left out

- Reading and writing real files is not modelled. The model's store is a map from path to text, so I/O errors (`?` on `fs::write`) and permissions are not covered. A file that cannot be read counts as missing, as in the source.
- The random name of the temporary script is left out. The script is modelled by its contents only.
- Listing the current directory is not modelled. `generate_code` takes the listing as a parameter. The entries' own read errors (the skipped `Err` entries) are not modelled.
- Running `stm32cubemx` is not modelled. Its outcome is a parameter (`ExitStatus`), and so is whether the platform is Windows.
- `regex_replace` patterns take the `regex` crate as an engine parameter, which the model does not implement: compiles, matches, `replace_all`. Their own syntax and replacement expansion are not modelled, beyond the literal engine used in `RegexReplaceRepeats`.
- YAML syntax is not modelled. A patch is read from a mapping of strings to strings, so non-string YAML values and nested documents are outside the model.
- Whitespace means the ASCII whitespace characters. Rust's `trim` and `split_whitespace` also treat Unicode whitespace as whitespace, which the model does not. `lines()` splits on `\n` only; stripping `\r` before `\n` is not modelled.
- CubeMx.FileName: assumes listed paths do not end in `/`, which holds for `read_dir` entries. Paths that are not UTF-8, where the source's `to_str().unwrap()` panics, are not modelled.
- Patches.AppendIdempotent: requires the file to be non-empty or `after` to be non-empty. An empty file with an empty `after` is not idempotent; `AppendEmptyFileGrows` shows this.
- Patches.AppendLines: requires `insert` to hold no line break, so that the inserted text reads back as one line. It also requires a non-empty file, because the empty file's output "\n" reads back as one empty line rather than none. `AppendInserted` covers every file, the empty one included.
- `src/render.rs`, `src/contexts.rs`, `src/templates.rs` and the command-line and template steps of `src/main.rs` are not part of this model. Only the patch loop of `main.rs` is modelled.
- CubeMx.ScriptLines, CubeMx.RootOptionGlued and CubeMx.IntendedScriptLines: require the project path to hold no line break. A file name from `read_dir` may hold one on Linux; the script text itself (`ScriptText`, `WriteScript`) is modelled for every path.
- `ParseMakefile` works on a text already read. A Makefile that is not UTF-8 is not modelled.

## Findings

| source | as written | input that shows it | evidently intended | confidence | as-written member | corrected member |
|---|---|---|---|---|---|---|
| src/stm32cubemx.rs:93-98 | The root option `project generateunderroot 1` is written without a line break, so it runs into the next command. | toolchain `STM32CubeIDE`: the script holds the line `project generateunderroot 1project couplefilesbyip 1` | Every command on a line of its own, like every other write in the script. | medium, not executed | CubeMx.RootOptionGlued | CubeMx.IntendedScriptLines |

`WriteScript` and `GenerateCode` model the writes as the code makes them, so they produce the glued line. `IntendedScriptText` is the script with the missing line break added, and `IntendedScriptLines` proves its line structure.
