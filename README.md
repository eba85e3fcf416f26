# autohack-next, modelled in Dafny

autohack-next is a stress-testing harness for competitive programming: it compiles a
candidate solution, a trusted standard solution and a random test generator, then
repeatedly generates an input, produces the expected answer, runs the candidate under
time and memory limits and compares its output with the answer, saving every failing
test case under a numbered path. A backend server drives this loop for each connected
client; configuration files, translation catalogues and a few terminal helpers
surround it.

This project models the deterministic core of that system and proves properties of
the model. One Dafny module corresponds to each source file (or to a pair of files
that share the same code):

| module | models |
|---|---|
| `BasicChecker` (basic_checker.dfy) | `basicChecker` of src/autohack/checker.py: line normalisation and the first differing line and column |
| `CoreChecker` (core_checker.dfy) | src/autohack/core/checker.py: the built-in checkers, the testlib exit-code table, `getChecker` and its validation |
| `Server` (server.dfy) | src/autohack/backend/server.py: sessions, the message handlers and the `run_hack_process` loop |
| `Run` (run.dfy) | src/autohack/core/run.py: the limit monitor of `CodeRunner` and the outcome rules of compiling, generating and running |
| `HackPaths` (hack_paths.dfy) | src/autohack/core/path.py: storage folders and `$(id)` templating |
| `ConfigTree`, `Config`, `LibConfig` | the dotted-key access shared by both configuration classes, src/autohack/config.py and src/autohack/lib/config.py |
| `MoFile` (mo_file.dfy) | `make` of src/autohack/compile_translations.py: the .po line state machine and the GNU MO file layout |
| `I18n`, `LibI18n` | src/autohack/i18n.py and the `I18N` class of src/autohack/lib/i18n.py |
| `Terminal`, `FolderSize` | `write`, `outputEndl`, `clearLine`, `prevLine`, the cursor helpers, `highlightText` and `getFolderSize`, whose code is the same in autohack/core/util.py and src/autohack/core/util.py |
| `SelectionMenu` (selection_menu.dfy) | the cursor of `selectionMenu` in autohack/core/util.py |
| `Version` (version.dfy) | get_executable_version.py |
| `Text`, `Decimal`, `Bytes`, `Wrappers` | the Python built-ins the core relies on: `strip`/`rstrip`/`split`/`splitlines`/`replace`/`format`, `str(int)`, `struct.pack("<L", _)` and UTF-8 encoding, and `Option`/`Result` |

Code that changes state in place is modelled imperatively: the server's sessions are
objects whose fields the handlers assign, the backend keeps the log of sent messages,
saves and checker calls as sequence fields, and loops (the main loop, the comparison
loops of the checkers, the .po loop, the .mo writes, the monitor loop, the menu loop,
the folder scan) are `while`/`for` loops proved against functional specifications.
Where the program talks to the outside world (processes, files, the clock, the
terminal, the network) the model takes what it would have observed as a parameter:
the server loop is driven by a script saying how each compilation, generation, run
and checker call ends and whether a stop request arrived; the monitor sees a sequence
of samples; a folder is a tree of entries; a file is its parsed content.

Text is modelled as already-decoded `seq<char>`, with Python's whitespace and
line-break sets written out; byte strings are `seq<byte>`; Python integers are
unbounded like Dafny's `int`, and `struct.pack("<L", _)` fails outside 0..2^32-1 as
in Python.

## Model

| member | source | states |
|---|---|---|
| BasicChecker.StripLines | src/autohack/checker.py:27 | keeps the number of lines and right-strips each one |
| BasicChecker.DropTrailingEmpty | src/autohack/checker.py:30-31 | the result is a prefix of the lines, does not end in an empty line, and only empty lines were dropped |
| BasicChecker.StrippedNormalised | src/autohack/checker.py:24-33 | stripping and then dropping trailing empty lines leaves lines without trailing whitespace and without a trailing empty line |
| BasicChecker.NormaliseIsNormalised | src/autohack/checker.py:16-33 | `process_content` always returns normalised lines |
| BasicChecker.ProcessContent | src/autohack/checker.py:16-33 | the popping loop returns exactly the normalised lines of the text |
| BasicChecker.CommonPrefix | src/autohack/checker.py:47-50 | the two lines agree before the returned length and differ at it, unless one line ends there |
| BasicChecker.CommonPrefixUnique | src/autohack/checker.py:47-50 | any length with those three properties is the common prefix length |
| BasicChecker.CommonPrefixSymmetric | src/autohack/checker.py:47-50 | the common prefix does not depend on the order of the two lines |
| BasicChecker.FindDifference | src/autohack/checker.py:39-59 | the comparison loop, with its column search, returns the first difference of the two line lists, or none |
| BasicChecker.DiffFromNone | src/autohack/checker.py:41-45 | no difference is found from line `i` on exactly when all remaining lines agree, with "" past either end |
| BasicChecker.DiffFromLine | src/autohack/checker.py:41-45 | a reported line really differs and every earlier line agrees |
| BasicChecker.DiffFromColumn | src/autohack/checker.py:46-55 | the reported column is one past the common prefix of the two differing lines |
| BasicChecker.DiffFromAt | src/autohack/checker.py:41-57 | a reported difference names the first differing line and the first differing 1-based column of it |
| BasicChecker.NormalisedLinesEqual | src/autohack/checker.py:41-45 | normalised line lists that agree line by line are equal |
| BasicChecker.CompareNoneIffEqual | src/autohack/checker.py:39-59 | on normalised lines, no difference is reported exactly when the lists are equal |
| BasicChecker.DiffFromSymmetric | src/autohack/checker.py:41-57 | the difference found from line `i` on does not depend on which side is the output |
| BasicChecker.CompareSymmetric | src/autohack/checker.py:39-59 | swapping output and answer reports the same line and column |
| BasicChecker.ExtraLines | src/autohack/checker.py:42-50 | extra non-empty lines on one side are reported at the first extra line, column 1 |
| BasicChecker.PrefixDiff | src/autohack/checker.py:41-57 | when lines `i` to `k - 1` agree and line `k` differs, the reported difference is at line `k + 1` |
| BasicChecker.Check | src/autohack/checker.py:4-59 | `basicChecker` passes exactly when the normalised output and answer are equal, and its message is the translated "no differences" text or the translated line/column text |
| BasicChecker.VerdictIffEqual | src/autohack/checker.py:4-59 | the verdict is true exactly on equal normalised texts |
| BasicChecker.Reflexive | src/autohack/checker.py:4-59 | every text passes against itself, with the "no differences" message |
| BasicChecker.Symmetric | src/autohack/checker.py:4-59 | swapping output and answer gives the same verdict and message |
| CoreChecker.BuiltinBasicChecker | src/autohack/core/checker.py:16-26 | passes exactly when the line counts agree and every pair of lines agrees after `rstrip`; otherwise the message names the line-count mismatch or the first mismatching line |
| CoreChecker.LineMismatchInjective | src/autohack/core/checker.py:25 | different line numbers give different mismatch messages |
| CoreChecker.AlwaysAccepts | src/autohack/core/checker.py:31-35 | every input, the empty ones included, is accepted with the same message |
| CoreChecker.TestlibVerdict | src/autohack/core/checker.py:73-81 | no result file raises FileNotFoundError; exit code 3 raises a runtime error carrying the stripped checker output; any other code gives a verdict that passes exactly on code 0, with the message "content (Code n)" |
| CoreChecker.TestlibCodeRecoverable | src/autohack/core/checker.py:77-81 | two exit codes other than 3 that give the same verdict are equal |
| CoreChecker.ChooseDeactivate | src/autohack/core/checker.py:140-143 | the module's own `deactivate` is kept exactly when it is callable with signature `([dict], None)`; otherwise the empty one is used |
| CoreChecker.ValidateUser | src/autohack/core/checker.py:113-145 | a user module is accepted exactly when the module file loads, `activate` is callable with `(dict)`, activation returns normally, and it returns a callable with `(bytes, bytes, bytes, dict) -> tuple[bool, str]`; the result is that checker with the chosen deactivate |
| CoreChecker.ActivateNotCalledOnBadSignature | src/autohack/core/checker.py:113-126 | a module rejected before the `activate(args)` call is rejected whatever that call would have done |
| CoreChecker.ActivationErrorWrapped | src/autohack/core/checker.py:125-128 | an exception from `activate` becomes a runtime error naming the checker and carrying the original message |
| CoreChecker.CheckerPath | src/autohack/core/checker.py:105 | `<folder>/<name>.py` for a relative name; an absolute name replaces the folder, as a `pathlib` join does |
| CoreChecker.AbsoluteCheckerExample | src/autohack/core/checker.py:105 | the checker name "/opt/chk" is looked up as "/opt/chk.py" whatever the folder |
| CoreChecker.GetChecker | src/autohack/core/checker.py:104-111 | the file is found by the `pathlib` join of the folder and `<name>.py`; an existing file is validated as a user module; otherwise the built-in entry of that name is activated, and a name in neither place raises FileNotFoundError |
| CoreChecker.BuiltinNamesDistinct | src/autohack/core/checker.py:91-95 | the names in the built-in table are pairwise distinct, so the lookup finds at most one entry |
| Run.CodeRunner.constructor | src/autohack/core/run.py:25-29 | a new runner has no time, no maximum memory and neither flag set |
| Run.CodeRunner.MemoryMonitor | src/autohack/core/run.py:31-49 | the loop leaves the runner's four fields as the monitor function computes them from the samples: time checked before memory, a kill on the first breach, a quiet return when the process has gone |
| Run.AtMostOneFlag | src/autohack/core/run.py:38-47 | starting from no flag, at most one of timeOut and memoryOut ends up set |
| Run.TimeCheckedFirst | src/autohack/core/run.py:37-41 | a sample over the time limit sets timeOut and leaves the memory fields as they were, whatever the memory reading |
| Run.MaxMemoryMonotone | src/autohack/core/run.py:43 | the recorded maximum never decreases and, once set, stays set |
| Run.MaxMemoryIsMaximum | src/autohack/core/run.py:43 | every memory reading the monitor made is at most the recorded maximum |
| Run.StopsAtFirstBreach | src/autohack/core/run.py:38-47 | once the monitor has killed the process, later samples change nothing |
| Run.NoLimitNoFlag | src/autohack/core/run.py:38-49 | with no limits neither flag is ever set |
| Run.MemoryOutMeansOverLimit | src/autohack/core/run.py:44-47 | memoryOut is set only with a memory limit and a recorded maximum above it |
| Run.AsWrittenMissesTimeLimit | src/autohack/core/run.py:43 | as written, the thread dies with a TypeError at its first memory reading, so a run that later exceeds the time limit is never flagged |
| Run.AsWrittenAgreesAfterFirstReading | src/autohack/core/run.py:35-47 | once a maximum exists, the code as written and the corrected monitor behave the same |
| Run.CompileCode | src/autohack/core/run.py:70-77 | the evidently intended behaviour (see Findings): raises exactly when the compiler ran and exited non-zero, carrying its output and exit code; a compiler that cannot be started is ignored |
| Run.GenerateInput | src/autohack/core/run.py:80-88 | the evidently intended behaviour (see Findings): a generator that cannot be started gives empty data; a non-zero exit raises with its output and code; otherwise its output is the data |
| Run.SameOutcomeRules | src/autohack/core/run.py:70-99 | `generateAnswer` follows the same rule as `generateInput`, and both fail exactly when `compileCode` would raise, with the same error |
| Run.CompileCodeAsWritten | src/autohack/core/run.py:70-77 | as written, `compileCode` raises exactly when the intended version would, but what it raises is a NameError |
| Run.GenerateInputAsWritten | src/autohack/core/run.py:80-99 | as written, `generateInput` and `generateAnswer` return the same data as intended and raise a NameError exactly where the intended version raises |
| Run.AsWrittenLosesFailure | src/autohack/core/run.py:76-99 | as written, any two failing runs raise the same NameError; the intended error differs exactly when the output or the exit code differs |
| Run.RunSourceCode | src/autohack/core/run.py:102-115 | a program that cannot be started gives the fixed `Result(None, False, None, False, 0, b"", b"")`; otherwise the result of `CodeRunner.run` carries the monitor's time, memory and flags with the exit code and output, and no error stream, which goes to `DEVNULL`; never both flags |
| Version.ThreeParts | get_executable_version.py:11-15 | always three parts: the given ones padded with "0", or the first three |
| Version.NormaliseParts | get_executable_version.py:11-17 | the printed version splits back on "." into exactly the padded or truncated parts |
| Version.NormaliseHasThreeParts | get_executable_version.py:11-17 | the printed version always has three dot-separated parts |
| Version.ThreePartsUnchanged | get_executable_version.py:11-17 | a version with three parts is printed unchanged |
| Version.PadsWithZero | get_executable_version.py:12-13 | fewer than three parts keep their order and are padded with "0" |
| Version.TruncatesToThree | get_executable_version.py:14-15 | more than three parts keep only the first three |
| Version.PadExample | get_executable_version.py:11-17 | "1" becomes "1.0.0" |
| Version.TruncateExample | get_executable_version.py:11-17 | "1.2.3.4" becomes "1.2.3" |
| Version.NormaliseIdempotent | get_executable_version.py:11-17 | normalising twice gives the same as normalising once |
| Version.MainOutcome | get_executable_version.py:4-17 | the usage message and exit status 1 exactly when the argument count is not one; otherwise status 0 and the normalised form of the argument, a three-part version |
| HackPaths.HackDataStorageFolderPath | src/autohack/core/path.py:20-21 | a relative client id names a folder directly under the storage root, whose last component is the id; an absolute one replaces the root, as `pathlib` does |
| HackPaths.HackDataFilePath | src/autohack/core/path.py:24-25 | a relative template names a file under the storage root, at the substituted template; an absolute template is the path itself once substituted, outside the root |
| HackPaths.SubstituteKeepsAbsolute | src/autohack/core/path.py:25 | replacing "$(id)" never changes whether the template is absolute |
| HackPaths.AbsoluteTemplateExample | src/autohack/core/path.py:24-25 | the template "/$(id)" gives "/1" for data 1 in any working folder |
| HackPaths.StorageFoldersDistinct | src/autohack/core/path.py:20-21 | different clients get different folders, for ids that are both relative (as the websocket route delivers them, src/autohack/backend/server.py:45) or both absolute |
| HackPaths.TemplateWithoutPlaceholder | src/autohack/core/path.py:24-25 | a template without "$(id)" is joined to the storage root as it is |
| HackPaths.DecimalAvoidsPlaceholder | src/autohack/core/path.py:25 | `str(dataID)` shares no character with "$(id)" |
| HackPaths.NoPlaceholderLeft | src/autohack/core/path.py:25 | no "$(id)" is left after the replacement |
| HackPaths.SubstitutedLength | src/autohack/core/path.py:25 | every occurrence is replaced: the length changes by the placeholder count times the length difference |
| HackPaths.DataFilePathInjective | src/autohack/core/path.py:24-25 | for a template containing "$(id)", relative or absolute, different ids give different files |
| ConfigTree.GetConfigEntry | src/autohack/config.py:123-136 | the loop over the dotted key returns the value reached, `None` as soon as a key is missing or null, and the AttributeError of `.get` on a non-dictionary, exactly as the recursive reading `Get` of the path |
| ConfigTree.ModifyConfigEntry | src/autohack/config.py:138-157 | returns True exactly when every key but the last walks through existing dictionaries and the last key exists; then the result is the tree with that leaf replaced, otherwise the configuration is unchanged |
| ConfigTree.WalkAppend | src/autohack/config.py:146-151 | walking one key further reaches that key's value exactly when the walk so far ends in a dictionary holding it; the loop's step |
| ConfigTree.GetAfterSet | src/autohack/config.py:150-153 | after a successful modification, reading the same dotted key returns the new value |
| ConfigTree.SetLeavesOthers | src/autohack/config.py:150-153 | a modification leaves every dotted key that branches off from the modified one reading what it read before |
| ConfigTree.SetKeepsKeys | src/autohack/config.py:150-153 | a modification only replaces an existing leaf: the top-level keys are the same afterwards |
| Config.MergeConfigs | src/autohack/config.py:102-121 | the merged configuration has exactly the keys of the new defaults |
| Config.MergeRules | src/autohack/config.py:105-120 | a key only in the defaults takes the default; a key in both keeps the stored value unless both are dictionaries, which are merged recursively; stored keys the defaults lack are dropped |
| Config.MergeSelf | src/autohack/config.py:102-121 | merging the defaults into themselves gives the defaults |
| Config.MergeIdempotent | src/autohack/config.py:102-121 | merging a merge result into the same defaults again changes nothing |
| Config.LoadConfig | src/autohack/config.py:76-100 | without a file the defaults are written and used; a file whose top level is not an object fails, and so does a version that cannot be compared; a current file is used as it is; an outdated one is merged into the defaults, stamped with the current version, written back and used, with the keys of the defaults |
| Config.UpgradeIsStable | src/autohack/config.py:90-97 | loading the file an upgrade wrote finds it current and keeps it unchanged |
| Config.Config.constructor | src/autohack/config.py:70-74 | the object holds the loaded configuration, and the file holds the same configuration |
| Config.Config.GetConfigEntry | src/autohack/config.py:123-136 | the entry read is the recursive reading `Get` of the dotted key in the current configuration |
| Config.Config.ModifyConfigEntry | src/autohack/config.py:138-157 | the file is rewritten with the modified configuration exactly when the entry exists; otherwise neither the configuration nor the file changes |
| LibConfig.MergeConfigs | src/autohack/lib/config.py:51-66 | the merged configuration has exactly the keys of the defaults |
| LibConfig.MergeConforms | src/autohack/lib/config.py:51-66 | the merge result has the shape of the defaults: the same keys at every level, a dictionary wherever the defaults have one, and elsewhere a value of exactly the default's type |
| LibConfig.ConformsSelf | src/autohack/lib/config.py:51-66 | the defaults have their own shape |
| LibConfig.MergeConformingIsIdentity | src/autohack/lib/config.py:51-66 | a configuration that already has the shape of the defaults comes out of the merge unchanged |
| LibConfig.MergeIdempotent | src/autohack/lib/config.py:51-66 | merging a merge result into the same defaults again changes nothing |
| LibConfig.KeepsMatchingTypes | src/autohack/lib/config.py:58-62 | a stored leaf survives the merge exactly when its type is the default's type (or it equals the default) |
| LibConfig.DefaultExamples | src/autohack/core/constant.py:3-6 | with the real defaults: a boolean time limit is replaced by 1000, a stored integer time limit is kept, and unknown keys are dropped |
| LibConfig.MergeSelfIsDefault | src/autohack/lib/config.py:51-66 | a file sharing no key with the defaults merges to the defaults |
| LibConfig.Open | src/autohack/lib/config.py:7-49 | an opened configuration has the shape of the defaults away from the excluded key paths, and the file holds it; without a file the defaults are written and used, or, with a creation message, the program exits after writing them |
| LibConfig.ConformsResult | src/autohack/lib/config.py:44-46 | whatever a successful load merges has the shape of the defaults away from the excluded paths |
| LibConfig.MergeSelfLemma | src/autohack/lib/config.py:28-30 | the freshly written defaults merge to themselves, whatever is excluded |
| LibConfig.ReopenIsStable | src/autohack/lib/config.py:44-46 | opening the file an earlier open wrote gives the same configuration and file, whatever is excluded |
| LibConfig.CheckerArgsDropped | src/autohack/lib/config.py:51-66 | as written, with the real defaults the merged `checker.args` is `{}` whatever the file stored |
| LibConfig.CheckerArgsExample | src/autohack/core/constant.py:51-54 | a stored `{"compiler": "clang++"}` for the checker does not survive the merge |
| LibConfig.MergeExcluding | src/autohack/core/constant.py:59-61 | the merge with excluded key paths keeps exactly the keys of the defaults |
| LibConfig.ExcludingNothingIsMerge | src/autohack/lib/config.py:51-66 | where no excluded path lies below, the merge with exclusions is `mergeConfigs` as written |
| LibConfig.MergeExcludingConforms | src/autohack/lib/config.py:51-66 | the merge with exclusions has the shape of the defaults everywhere except at the excluded paths |
| LibConfig.ConformsExcludingSelf | src/autohack/lib/config.py:51-66 | the defaults have their own shape, whatever is excluded |
| LibConfig.MergeExcludingConformingIsIdentity | src/autohack/lib/config.py:51-66 | a configuration already of that shape is kept exactly, excluded values included |
| LibConfig.CheckerArgsKept | src/autohack/core/constant.py:59-61 | with `checker.args` excluded, the stored checker arguments survive the merge unchanged, whatever they are |
| LibConfig.OpenAsWritten | src/autohack/lib/config.py:44-49 | with nothing excluded, opening a stored object gives `mergeConfigs(stored, defaults)`, which has the exact shape of the defaults |
| LibConfig.OpenDropsCheckerArgs | src/autohack/lib/config.py:44-49 | as written, opening any stored object with the real defaults leaves `checker.args` empty |
| LibConfig.ArgsSurviveOpen | src/autohack/core/constant.py:59-61 | with `CONFIG_VALIDATION_EXCLUDE`, the stored checker arguments survive opening, and reopening changes nothing |
| LibConfig.RefreshSpeedMissing | src/autohack/backend/server.py:274 | as written, no configuration opened with the real defaults has `refresh_speed`: reading it gives None |
| LibConfig.RefreshSpeedPresent | src/autohack/core/constant.py:63-68 | with `refresh_speed` in the defaults, every opened configuration reads an integer there |
| LibConfig.Config.constructor | src/autohack/lib/config.py:7-22 | the object holds the defaults and the opened configuration, and the file holds the same configuration |
| LibConfig.Config.GetConfigEntry | src/autohack/lib/config.py:68-78 | the entry read is the recursive reading `Get` of the dotted key in the current configuration |
| LibConfig.Config.ModifyConfigEntry | src/autohack/lib/config.py:80-96 | the file is rewritten with the modified configuration exactly when the entry exists; otherwise neither the configuration nor the file changes |
| I18n.DetectLanguage | src/autohack/i18n.py:69-75 | auto-detection always settles on a non-empty language: the locale's own when it reports one, otherwise "en_US" |
| I18n.SetupLanguage | src/autohack/i18n.py:60-77 | a given language is used as it is; without one the detected language is used |
| I18n.UnknownLanguageIsIdentity | src/autohack/i18n.py:93-95 | in a language without a table every message comes back unchanged |
| I18n.EnglishIsIdentity | src/autohack/i18n.py:53 | en_US has an empty table, so `_` returns every message unchanged there |
| I18n.ChineseFallback | src/autohack/i18n.py:94 | a message the zh_CN table lacks comes back unchanged |
| I18n.ChineseLookup | src/autohack/i18n.py:93-94 | every message the zh_CN table has is translated to that table's entry |
| I18n.ChineseExample | src/autohack/i18n.py:20 | "Compile finished." reads "编译完成。" in zh_CN |
| I18n.ChineseIgnoresCount | src/autohack/i18n.py:110-112 | in a language starting with "zh" the count is ignored and the translated singular is returned |
| I18n.OtherPluralRule | src/autohack/i18n.py:114-117 | in every other language the translated singular is returned for n == 1 and the translated plural otherwise |
| I18n.Translator.Import | src/autohack/i18n.py:56-57 | importing the module sets the current language to the detected one |
| I18n.Translator.SetupI18n | src/autohack/i18n.py:60-77 | the current language becomes the given or detected language |
| I18n.Translator.Gettext | src/autohack/i18n.py:80-95 | a language never set up is detected first; the result is the lookup with fallback to the message in the current language |
| I18n.Translator.NGettext | src/autohack/i18n.py:98-117 | with a current language the plural rule of that language applies; with none the "zh" test fails, so the English rule applies in the language detected meanwhile |
| LibI18n.I18N.Empty | src/autohack/lib/i18n.py:11-13 | the object starts with the given directory and an empty cache of tables |
| LibI18n.I18N.LoadTranslation | src/autohack/lib/i18n.py:22-35 | the file path is `<dir>/<language>.json`; an existing file's table is cached under the language, a missing one raises FileNotFoundError and the cache is unchanged; every cached table stays the content of its file |
| LibI18n.I18N.SetDefaultLanguage | src/autohack/lib/i18n.py:16-20 | the default language changes in any case; a table not yet cached is loaded, and the call succeeds exactly when the language's table is cached afterwards |
| LibI18n.I18N.Translate | src/autohack/lib/i18n.py:37-42 | "" means the default language; an uncached language is loaded first and a missing file fails; otherwise the result is the table's translation, or the key itself when the table lacks it |
| LibI18n.Create | src/autohack/lib/i18n.py:6-14 | a new object with the default language LOGGER_LANGUAGE_ID, whose table is cached when its file exists; otherwise the constructor fails with an empty cache |
| MoFile.Find | src/autohack/compile_translations.py:28 | a found position holds the key; no position holds a key that is not found |
| MoFile.Put | src/autohack/compile_translations.py:28 | assigning an existing key replaces its value in place, a new key is appended at the end, and keys stay distinct |
| MoFile.LookupPut | src/autohack/compile_translations.py:28 | after `messages[k] = v` the key reads back as `v` and every other key reads as before |
| MoFile.FindUnique | src/autohack/compile_translations.py:17-28 | with distinct keys the one position holding a key is the one found |
| MoFile.ParsePo | src/autohack/compile_translations.py:17-56 | the loop, each line stripped first, followed by the final flush, produces the table of the line-by-line state machine |
| MoFile.StepUnique | src/autohack/compile_translations.py:26-52 | no line puts a key into the table twice |
| MoFile.RunLinesUnique | src/autohack/compile_translations.py:23-52 | keys stay distinct over any number of lines |
| MoFile.ParseUnique | src/autohack/compile_translations.py:17-56 | every key appears once in the parsed table |
| MoFile.MsgidOpens | src/autohack/compile_translations.py:26-32 | a `msgid "x"` line stores the open entry if both its parts are non-empty, and opens a new entry with msgid `x`, an empty msgstr and the msgid open |
| MoFile.MsgstrSets | src/autohack/compile_translations.py:34-37 | a `msgstr "x"` line sets msgstr to `x`, opens the msgstr, and leaves the msgid and the table alone |
| MoFile.ContinuationAppends | src/autohack/compile_translations.py:39-44 | a quoted line inside an entry appends its content to the open msgid, or else to the open msgstr, and changes nothing else |
| MoFile.StrayQuoteIgnored | src/autohack/compile_translations.py:39 | a quoted line outside an entry changes nothing |
| MoFile.CloseResets | src/autohack/compile_translations.py:46-52 | a blank or comment line stores the open entry if both its parts are non-empty and resets the state |
| MoFile.Filter | src/autohack/compile_translations.py:58-63 | an entry is kept exactly when its key and value are non-empty and the key does not start with "Project-Id-Version" |
| MoFile.FilterUnique | src/autohack/compile_translations.py:58-63 | filtering keeps the keys distinct |
| MoFile.LexTotal | src/autohack/compile_translations.py:85 | Python's string order compares any two strings |
| MoFile.LexTrans | src/autohack/compile_translations.py:85 | Python's string order is transitive |
| MoFile.LexAntisym | src/autohack/compile_translations.py:85 | two strings ordered both ways are equal |
| MoFile.InsertSorted | src/autohack/compile_translations.py:85 | inserting into a sorted list keeps it sorted |
| MoFile.Sort | src/autohack/compile_translations.py:85 | `sorted(keys)` is a sorted permutation of the keys |
| MoFile.SortedDistinct | src/autohack/compile_translations.py:85 | distinct keys sort into a strictly increasing list, so no key is written twice |
| MoFile.KeysOnce | src/autohack/compile_translations.py:85 | each key occurs at most once among the keys of the table |
| MoFile.SortedEntries | src/autohack/compile_translations.py:85-86 | one value per sorted key, and each (key, value) pair is an entry of the table |
| MoFile.BuildPairs | src/autohack/compile_translations.py:85-86 | the keys written are the table's keys in sorted order, and value i is the value stored under key i |
| MoFile.HeaderBytes | src/autohack/compile_translations.py:113-126 | the header is seven packed words, 28 bytes |
| MoFile.EncodeAll | src/autohack/compile_translations.py:89-90 | each string is replaced by its UTF-8 encoding |
| MoFile.WriteWords | src/autohack/compile_translations.py:114-126 | consecutive `struct.pack("<L", w)` writes append exactly the packed words |
| MoFile.Offsets | src/autohack/compile_translations.py:93-109 | each string's offset is where the previous one ended, starting at the given start; the next free offset is the start plus all lengths |
| MoFile.WriteDescriptors | src/autohack/compile_translations.py:128-136 | the descriptor loop appends one packed (length, offset) pair per string, which is the descriptor table |
| MoFile.WriteStrings | src/autohack/compile_translations.py:138-144 | the string loop appends every string's bytes in order, with no terminator |
| MoFile.WriteImage | src/autohack/compile_translations.py:112-144 | the writes produce the header, the key descriptors, the value descriptors, the keys and the values, in that order |
| MoFile.WriteMo | src/autohack/compile_translations.py:65-144 | an empty table writes only the minimal header; otherwise the file of the sorted, encoded table is written, or `struct.error` is raised when a length or an offset does not fit in 32 bits |
| MoFile.Make | src/autohack/compile_translations.py:10-144 | `make` writes the file of the parsed, filtered table |
| MoFile.EmptyFile | src/autohack/compile_translations.py:65-82 | an empty table gives exactly the 28-byte header with N = 0 and every table offset 28 |
| MoFile.ImageLength | src/autohack/compile_translations.py:95-144 | the file's length is the header, 16 bytes per entry, and the bytes of every key and value |
| MoFile.ImageHeader | src/autohack/compile_translations.py:113-126 | header word j is the magic number, revision 0, N, key table offset 28, value table offset 28 + 8N, hash size 0 and hash offset 28 + 16N |
| MoFile.KeyDescriptor | src/autohack/compile_translations.py:128-131 | key i's descriptor, packed at 28 + 8i, is its length and its offset |
| MoFile.ValueDescriptor | src/autohack/compile_translations.py:133-136 | value i's descriptor, packed at 28 + 8N + 8i, is its length and its offset |
| MoFile.KeyBytes | src/autohack/compile_translations.py:95-102 | key i's bytes sit at the offset its descriptor names |
| MoFile.ValueBytes | src/autohack/compile_translations.py:104-109 | value i's bytes sit at the offset its descriptor names |
| MoFile.KeyRoundTrip | src/autohack/compile_translations.py:95-140 | a reader that unpacks key descriptor i gets key i's length and an offset at which key i's bytes are found |
| MoFile.ValueRoundTrip | src/autohack/compile_translations.py:104-144 | a reader that unpacks value descriptor i gets value i's length and an offset at which value i's bytes are found |
| MoFile.Words | src/autohack/compile_translations.py:114-126 | packed words take four bytes each |
| MoFile.WordAt | src/autohack/compile_translations.py:114-126 | word j of consecutive packed words occupies bytes 4j to 4j + 4 |
| MoFile.HeaderWord | src/autohack/compile_translations.py:113-126 | header word j of the packed header is the j-th of magic, revision, N and the four table offsets and sizes |
| MoFile.Concat | src/autohack/compile_translations.py:138-144 | the strings written one after another take the sum of their lengths |
| MoFile.ConcatSlice | src/autohack/compile_translations.py:99-102 | string i sits in the concatenation at the sum of the lengths before it |
| MoFile.Table | src/autohack/compile_translations.py:128-136 | a descriptor table takes eight bytes per string |
| MoFile.TableAt | src/autohack/compile_translations.py:128-136 | descriptor i occupies bytes 8i to 8i + 8 of its table and packs the string's length, then its offset |
| MoFile.UnpackPair | src/autohack/compile_translations.py:130-131 | eight bytes holding two packed words read back as those two words |
| Terminal.HighlightRoundTrip | src/autohack/core/util.py:89-90 | the highlighted text is the message between "\x1b[1;31m" and "\x1b[0m", and the message can be read back from it |
| Terminal.HighlightInjective | autohack/core/util.py:89-90 | different messages are never highlighted to the same text |
| Terminal.Newlines | src/autohack/core/util.py:41-42 | `"\n" * count` is exactly `count` newline characters, none for a count of zero or less |
| Terminal.RenderedParts | src/autohack/core/util.py:54-61 | what `write` emits is the clear prefix "\x1b[2K\r" when asked, then the message, highlighted when asked, then `endl` newlines, in that order |
| Terminal.ClearIsClearLineFirst | autohack/core/util.py:33-34 | `write` with `clear` is `clearLine()` followed by the same `write` without it |
| Terminal.HighlightIsPlainWriteOfHighlighted | autohack/core/util.py:54-61 | `write` with `highlight` writes the highlighted message as plain text |
| Terminal.Stdout.constructor | src/autohack/core/util.py:59 | standard output starts empty |
| Terminal.Stdout.OutputEndl | src/autohack/core/util.py:41-42 | `outputEndl(count)` appends exactly `count` newlines |
| Terminal.Stdout.Write | src/autohack/core/util.py:54-61 | `write` appends the clear prefix, the (highlighted) message and the newlines to what was written before |
| Terminal.Stdout.ClearLine | src/autohack/core/util.py:33-34 | `clearLine()` appends "\x1b[2K\r" |
| Terminal.Stdout.PrevLine | src/autohack/core/util.py:37-38 | `prevLine()` appends "\x1b[1A" |
| Terminal.Stdout.HideCursor | src/autohack/core/util.py:80-82 | `hideCursor()` appends "\x1b[?25l" |
| Terminal.Stdout.ShowCursor | src/autohack/core/util.py:85-86 | `showCursor()` appends "\x1b[?25h" |
| FolderSize.GetFolderSize | src/autohack/core/util.py:106-115 | the loop over the scanned entries, recursing into sub-folders, returns the recursive sum of the file sizes below the folder |
| FolderSize.TotalSizeAppend | autohack/core/util.py:106-115 | the size of two entry lists one after the other is the sum of their sizes |
| FolderSize.EntryWithinTotal | autohack/core/util.py:106-115 | every entry's size is part of the folder's size, which is the sizes before it, its own and those after it |
| FolderSize.AddFile | autohack/core/util.py:106-115 | adding a file anywhere among a folder's entries grows its size by exactly the file's size |
| FolderSize.EmptyEntriesAddNothing | src/autohack/core/util.py:111-114 | a sub-folder contributes only through its contents: an empty folder, or an entry that is neither file nor folder, adds nothing |
| FolderSize.AddFileAtGrows | autohack/core/util.py:106-115 | adding a file at any depth never makes the folder smaller, and where the path leads to a folder it grows by exactly the file's size |
| SelectionMenu.SelectionMenu | autohack/core/util.py:118-146 | the key loop starts at item 0 and ends as the menu state machine does: Enter returns the cursor, Esc exits with status 0, other keys move or keep the cursor |
| SelectionMenu.UpWraps | autohack/core/util.py:134-135 | Up and "k" act alike; at the first item they wrap to the last, elsewhere they move one up |
| SelectionMenu.DownWraps | autohack/core/util.py:136-137 | Down and "j" act alike; at the last item they wrap to the first, elsewhere they move one down |
| SelectionMenu.UpDownInverse | autohack/core/util.py:134-137 | on a non-empty list Down undoes Up and Up undoes Down |
| SelectionMenu.DownTimesSplit | autohack/core/util.py:136-137 | pressing Down a + b times is pressing it a times, then b times |
| SelectionMenu.DownTimesStraight | autohack/core/util.py:136-137 | below the last item, Down moves one item at a time without wrapping |
| SelectionMenu.DownCycle | autohack/core/util.py:136-137 | n presses of Down on a list of n items bring the cursor back to where it was |
| SelectionMenu.MenuInRange | autohack/core/util.py:119-146 | on a non-empty list, the index Enter returns and the cursor held at any point are valid items |
| SelectionMenu.UnknownKeysIgnored | autohack/core/util.py:131-146 | keys that are not Up, Down, "k", "j", Enter or Esc leave the cursor where it is |
| SelectionMenu.FirstKey | autohack/core/util.py:119-144 | Enter right away selects item 0; Esc right away exits with status 0 |
| Text.TrimEnd | src/autohack/core/checker.py:17-18 | `rstrip(chars)` returns a prefix of the text that does not end in one of `chars`, and everything it dropped is made of `chars` |
| Text.TrimStart | src/autohack/compile_translations.py:29 | `lstrip(chars)` returns a suffix of the text that does not start with one of `chars`, and everything it dropped is made of `chars` |
| Text.TrimEndIdempotent | src/autohack/checker.py:27 | stripping the end twice is stripping it once |
| Text.TrimEnclosed | src/autohack/compile_translations.py:29 | stripping a text enclosed in one stripped character on each side gives the text back |
| Text.Split | src/autohack/config.py:127 | `split(".")` gives at least one part, and no part holds the separator |
| Text.JoinSplit | src/autohack/config.py:127 | joining the parts of a split with the separator gives the text back |
| Text.SplitJoin | src/autohack/lib/config.py:69 | splitting parts joined by a separator none of them holds gives the parts back |
| Text.SplitLines | src/autohack/checker.py:24 | no line of `splitlines()` holds a line break |
| Text.SplitLinesNoBreak | src/autohack/core/checker.py:19-20 | a text without line breaks is one line, or none when empty |
| Text.ReplaceLength | src/autohack/core/path.py:25 | every replaced occurrence changes the length by the difference of the two lengths |
| Text.ReplaceAbsent | src/autohack/core/path.py:25 | a text without the pattern is returned unchanged |
| Text.ReplaceLeavesNone | src/autohack/core/path.py:25 | when the replacement shares no character with the pattern, no occurrence of the pattern survives |
| Text.ReplaceInjective | src/autohack/core/path.py:25 | with at least one occurrence, different replacements give different results |
| Text.FormatAppend | src/autohack/checker.py:54 | `format` leaves text before the first field as it is |
| Decimal.NatToString | src/autohack/core/path.py:25 | `str(n)` of a natural number is a non-empty string of digits without a leading zero |
| Decimal.IntToString | src/autohack/core/path.py:25 | `str(i)` is the digits of `abs(i)`, after a minus sign when `i` is negative |
| Decimal.ParseIntToString | src/autohack/core/path.py:25 | the decimal form of an integer reads back as that integer |
| Decimal.IntToStringInjective | src/autohack/core/path.py:25 | distinct integers have distinct decimal forms |
| Bytes.PackU32 | src/autohack/compile_translations.py:69 | `struct.pack("<L", x)` is four bytes |
| Bytes.ReadPackU32 | src/autohack/compile_translations.py:69 | the four bytes read back little-endian as the packed value |
| Bytes.ReadPackedAt | src/autohack/compile_translations.py:114-136 | a packed word reads back at any position of a larger byte string |
| Bytes.EncodeChar | src/autohack/compile_translations.py:89-90 | the UTF-8 encoding of one character is one to four bytes |
| Bytes.Utf8Append | src/autohack/compile_translations.py:89-90 | the encoding of two texts one after the other is their encodings one after the other |
| Bytes.DecodeEncodeChar | src/autohack/compile_translations.py:89-90 | decoding the encoding of a character gives its code point back |
| Text.RepeatChar | src/autohack/core/util.py:42 | `c * n` is exactly max(n, 0) copies of `c` |
| Text.FormatNoFields | src/autohack/checker.py:54-56 | a template without fields formats to itself |
| Text.ReplacePrefix | src/autohack/core/path.py:25 | when the replacement shares no character with a prefix, a substituted text starts with that prefix only if the template did |
| Decimal.ParseNatToString | src/autohack/core/path.py:25 | the digits of `str(n)` read back as `n` |
| Server.StopCondition | src/autohack/backend/server.py:287-290 | a running loop stops exactly when a positive data limit or a positive error limit has been reached; with both limits 0 or less only a stop request ends it |
| Server.CheckerOnlyForCleanRuns | src/autohack/backend/server.py:408-431 | the checker's verdict matters only when the run had no memory or time breach and return code 0, and then it alone decides whether the data fails |
| Server.ClassifyPriority | src/autohack/backend/server.py:408-423 | a memory breach wins over a time breach and a bad return code, a time breach over the return code, and a runtime error means neither breach and a return code other than 0 |
| Server.ErrorNumbers | src/autohack/backend/server.py:433-436 | there are at most as many failing data as data, and each failing data number lies between 1 and the data count |
| Server.Numbered | src/autohack/backend/server.py:453-457 | the j-th failure is reported with error number j + 1 |
| Server.LogAppend | src/autohack/backend/server.py:615-623 | sending one more message to a client adds to its error reports and statistics count exactly what that message is |
| Server.ErrorNumbersExact | src/autohack/backend/server.py:433-436 | a data number is counted as an error exactly when that iteration's verdict is a failure |
| Server.ErrorNumbersIncreasing | src/autohack/backend/server.py:433-436 | error data are counted in strictly increasing data order, so no data is reported twice |
| Server.SavesLength | src/autohack/backend/server.py:433-447 | there is one `save_error_data` call per failing data |
| Server.SaveAt | src/autohack/backend/server.py:435-447 | the j-th save of a prefix of the run has error number j + 1 and the input, answer and output of the j-th failing data |
| Server.SavesNumbered | src/autohack/backend/server.py:435-447 | every save carries the error number of its position and the data of the matching failing iteration |
| Server.SavedInputFilesDistinct | src/autohack/backend/server.py:528-545 | when the input path template contains "$(id)", no two saves of a run write the same input file |
| Server.InputFilesDistinct | src/autohack/backend/server.py:539-545 | two saves with different error numbers and a template containing "$(id)" write different input files |
| Server.CheckedExactlyClean | src/autohack/backend/server.py:420-425 | the checker is called for exactly the data whose run was clean |
| Server.StatisticsAfterError | src/autohack/backend/server.py:376-434 | the iteration after a failing one always sends statistics |
| Server.StatisticsPeriodic | src/autohack/backend/server.py:376-401 | without failures, statistics are sent at exactly the multiples of the refresh speed |
| Server.ReportsMatchSaves | src/autohack/backend/server.py:433-460 | each `error_found` report pairs the error number of a save with the data number of a failing iteration |
| Server.ExtendSaves | src/autohack/backend/server.py:433-447 | one more iteration adds its own save, numbered one past the failures so far, exactly when it fails |
| Server.ExtendStatistics | src/autohack/backend/server.py:376-401 | one more iteration adds a statistics message exactly when its data number is a multiple of the refresh speed or the previous iteration failed |
| Server.RecordedStep | src/autohack/backend/server.py:292-460 | an iteration that saves, checks, reports and sends statistics as its data calls for keeps the records of the run in step with the data seen |
| Server.SessionState.constructor | src/autohack/backend/server.py:126-136 | the session `handle_init` stores: initialized, not running, both counters 0, no start time, and the symlink fallback flag |
| Server.Backend.constructor | src/autohack/backend/server.py:27-30 | the server starts with no sessions and nothing sent, saved or checked |
| Server.Backend.Send | src/autohack/backend/server.py:615-623 | `send_message` appends the message for that client to what was sent |
| Server.Backend.SendQuiet | src/autohack/backend/server.py:615-623 | a message that is neither `error_found` nor `statistics_update` leaves the client's error reports and statistics count as they were |
| Server.Backend.HandleInit | src/autohack/backend/server.py:78-160 | on success a fresh session with the initial values is stored for the client, other sessions are untouched, and `init_success` with the storage path and the fallback flag is sent; on failure only an `init_error` is sent |
| Server.Backend.HandleStart | src/autohack/backend/server.py:162-194 | without a session a `session_error` is sent; a running session gets a `state_error` and is unchanged; otherwise the session is set running with both counters 0 and the start time, and the run is scheduled |
| Server.Backend.HandleStop | src/autohack/backend/server.py:547-554 | an existing session stops running and `stopped` is sent; without a session nothing happens |
| Server.Backend.HandleGetStatus | src/autohack/backend/server.py:556-577 | the status sent is the session's flags and counters, or the uninitialised status without a session |
| Server.Backend.SaveErrorData | src/autohack/backend/server.py:528-545 | one save records the error number, the three path templates and the three contents |
| Server.Backend.CompileAll | src/autohack/backend/server.py:212-251 | the three programs are compiled in order; the first failure is reported with its capitalised name and message and compilation stops, and all three succeed exactly when none fails |
| Server.Backend.SendStatistics | src/autohack/backend/server.py:376-401 | statistics are sent exactly when due, and sending them clears the flag of a previous failure |
| Server.Backend.Judge | src/autohack/backend/server.py:403-460 | a failure increments the error count, stores it in the session, saves the data under the new number and sends `error_found` with the error text; the checker runs exactly for clean runs |
| Server.Backend.Generate | src/autohack/backend/server.py:293-377 | the data count is stored in the session; a failed input generation, a failed answer generation, and a refresh speed that is 0 or missing (`data_count % refresh_speed` raising ZeroDivisionError or TypeError) end the run, each for its own reason and with its own error message as the last one sent |
| Server.ModuloFailure | src/autohack/backend/server.py:377 | the error text of `data_count % refresh_speed`: the TypeError text exactly when the entry is missing, else the modulo-by-zero text |
| Server.Backend.Evaluate | src/autohack/backend/server.py:376-460 | after the statistics point and the judgement, the error count and the records of the run account for one more data, and a stop request clears `running` |
| Server.Backend.Iteration | src/autohack/backend/server.py:292-460 | one pass of the loop body: either an early end for its reason, with that reason's error message last, or one more data judged and recorded; `running` stays set only without an early end or a stop request |
| Server.Backend.Advance | src/autohack/backend/server.py:292-460 | the loop body under the loop's invariant: either the invariant holds one data further, or the run ends early with the records of the data before, `running` cleared and the early end's error message last |
| Server.Backend.RunLoop | src/autohack/backend/server.py:286-460 | the loop never exceeds a positive limit, records every completed iteration, ends early only with the error message of its data last, and when the guard fails a limit was reached or a stop request arrived |
| Server.Backend.Finish | src/autohack/backend/server.py:462-514 | `running` is cleared, `completed` with both counts is sent, then the storage warning if the stored data exceed 256 MB |
| Server.Backend.Prepare | src/autohack/backend/server.py:203-284 | a compilation failure clears `running` before any data, names the first program that failed, and sends its `compilation_error` last; otherwise `running` survives unless a stop request arrived during compilation |
| Server.Backend.RunCompiled | src/autohack/backend/server.py:261-514 | the run after compilation: limits respected, every completed iteration recorded, early ends explained by their data with their error message last, a finished run ending with `completed` and the due storage warning, and `running` cleared unless the data ran out |
| Server.Backend.RunHackProcess | src/autohack/backend/server.py:196-526 | `running` is false whenever the process returns; a compilation failure means no data and the first failing program's `compilation_error` last; otherwise the counters respect the limits, every completed iteration is recorded, and the process ends for a reason its data or a stop request gives, with that reason's error message, or `completed` and the due storage warning, last |
| Server.Backend.ProcessMessage | src/autohack/backend/server.py:63-76 | each message type does what its handler does: `init` adds a fresh session or reports the bad setup, `start` launches a run exactly for a known idle session and otherwise reports why not, `stop` clears `running` and confirms, `get_status` reports the session's state, `save_record` confirms a saved record, and an unknown type does nothing |
| Server.Backend.SaveRecord | src/autohack/backend/server.py:579-608 | `record_saved` is sent exactly when a record is written, which the corrected guard decides |
| Server.SaveRecordOutcome | src/autohack/backend/server.py:579-608 | a session that never started has nothing to record; a record is saved exactly when the session started, time has passed and data were generated; otherwise the division raises ZeroDivisionError |
| Server.FreshSessionRecord | src/autohack/backend/server.py:585-592 | for the session `handle_init` creates, the guard as written lets `time.time() - None` raise TypeError, where the corrected guard returns quietly |
| Server.RecordAgreesOnceStarted | src/autohack/backend/server.py:579-608 | once a run has started, the corrected `save_record` behaves exactly as written |
| Server.StorageWarningDue | src/autohack/backend/server.py:498-514 | the warning is due exactly when the storage folder exists and the files below it exceed 256 MB |
| Server.StorageWarningMissed | src/autohack/backend/server.py:499-501 | a storage folder holding one 300 MB file: the size test as written stays silent, the corrected one warns |
| Server.StorageWarningStays | src/autohack/backend/server.py:498-502 | saving more data never withdraws the warning |
| Server.ExtendNumbers | src/autohack/backend/server.py:420-436 | one more iteration adds its data number to the failures exactly when it fails, and to the checker calls exactly when its run was clean |
| Server.ExtendReports | src/autohack/backend/server.py:450-460 | one more iteration adds its own `error_found` report, numbered one past the failures so far, exactly when it fails |

## Left out

- The FastAPI application, the websocket endpoint and `asyncio`: handlers are modelled as sequential methods; the only interleaving modelled is a stop request arriving while `run_hack_process` awaits a send.
- Whether a message reaches the client: `send_message` appends to a log, and a disconnect (which deletes the client and its session) is not modelled, nor is a re-`init` or a disconnect during a run.
- `handle_init`'s file-system and logging work (directories, the logger, the configuration, the hidden-folder attribute, the symlink with its copy fallback) is a parameter saying how it ended: the fallback flag, or the error message. As the file stands, `Config(CONFIG_FILE_PATH, logger)` (src/autohack/backend/server.py:97) passes the logger where the defaults go and omits the logger, which the constructor of src/autohack/lib/config.py:7-13 requires; the model does not fix how `init` ends and takes the configuration to be one merged against DEFAULT_CONFIG.
- The result-folder handling after a run (`copytree` of the fallback folder, `rmtree` of an empty storage folder, src/autohack/backend/server.py:483-496).
- The floats of `statistics_update` and `completed` (elapsed time, speeds, progress) and the `time_limit / 1000` conversion: the messages carry only their counts; `save_record`'s text, its time formatting and the record file are left out too, and the model keeps only whether a record is written.
- The `except Exception` of `run_hack_process` is modelled only for the failure the loop raises itself at `data_count % refresh_speed`: ZeroDivisionError for 0 and TypeError when the entry is missing. Exceptions from the collaborators (for example a checker error) are not modelled. The other settings are taken as present integers and strings, as merging against DEFAULT_CONFIG guarantees; `time_limit / 1000` and the memory-limit scaling are left out with the other floats.
- A run that the script does not finish: when the script has no entry for the next iteration the model stops there (the `Suspended` outcome); nothing is claimed about later iterations.
- HackPaths.HackDataFilePath: paths are strings joined as `pathlib` joins them, with an absolute right operand replacing the base; `pathlib`'s normalisation is not modelled (repeated or trailing "/", "." components, an empty template standing for the folder itself, a working folder of "/"), so the strings can differ from `str()` of the real path in those cases.
- CoreChecker.CheckerPath: the same `pathlib` join without normalisation, both in the lookup and in the "not found" message.
- LibI18n.TranslationFilePath: the same `pathlib` join without normalisation; a language starting with "/" names a file outside the directory, as in the program.
- `subprocess`, `psutil` and the monitor thread of src/autohack/core/run.py, including the race between the monitor's fields and `communicate()`: a run is described by how it ended and by the monitor's samples.
- importlib loading and `inspect` signatures in `getChecker`: a user module is described by its attributes and signatures as data; the testlib checker's temporary files and subprocess are its exit code and result file content; strict UTF-8 decoding of checker output is not modelled.
- BasicChecker.Check: works on decoded text; the `decode("utf-8", errors="replace")` and the `latin-1` fallback are not modelled.
- JSON parsing and dumping in both configuration classes, in `I18N` and in the .po/.mo code: a file is its parsed content, dictionaries are maps, and key order (which `json.dump` preserves) is not modelled.
- Config.LoadConfig: `Config.DEFAULT_CONFIG.copy()` is a shallow copy, so a later `modifyConfigEntry` on a nested key would also change the class's defaults; the model treats configurations as values and does not capture that aliasing.
- The file-system side of `getFolderSize` (`os.scandir`, `stat`): a folder is a tree of entries, so symlink cycles and entries that change during the scan are not modelled.
- `compile_translations()`, the driver that finds every .po file, prints progress and catches exceptions, is not modelled; `make` is, with the .po file given as its lines and the .mo file as the bytes written.
- Terminal output is the text appended to standard output; `flush`, `inputMessage`, `writeMessage`, `getTranslatedMessage`, `exitProgram` and the menu's redrawing (`updateSelection` and the cursor movements around it) are not modelled; `readchar` keys are a given sequence and `sys.exit(0)` on Esc is the `Exited(0)` result.
- The other helpers of both util.py files, `ensureDirExists`, `mswindows`, `formatTime`, `writeData`, `readData` and `getFunctionInfo`, only call the file system, the platform, the clock or `inspect`, and are not modelled.
- Locale detection in `setup_i18n` is a parameter (what `locale.getdefaultlocale()` reported, None when it failed).
- src/autohack/util.py, the logger, the entry points, the frontend client, the constants files (beyond the defaults used as fixtures) and the exception classes (their text is written out where a message uses it) are not part of this model.

## Findings

| source | as written | input that shows it | evidently intended | confidence | as-written member | corrected member |
|---|---|---|---|---|---|---|
| src/autohack/core/run.py:43 | `self.maxMemory = max(self.maxMemory, vms)` with `maxMemory` starting as None: `max(None, n)` raises TypeError in Python, so the monitor thread dies at its first memory reading and never sets a flag | a program whose first sample is within the limits and whose later samples exceed the time limit is never flagged `timeOut` | the running maximum of the readings, starting from nothing (no reading counts as 0) | high; not executed | Run.AsWrittenMissesTimeLimit | Run.CodeRunner.MemoryMonitor |
| src/autohack/backend/server.py:585-592 | `if "start_time" not in session: return` never returns, since `handle_init` always stores the key (holding None) | `save_record` right after `init`: `time.time() - None` raises TypeError | a session that never started has nothing to record | high; not executed | Server.FreshSessionRecord | Server.SaveRecordOutcome |
| src/autohack/backend/server.py:499-501 | `os.path.getsize(HACK_DATA_STORAGE_FOLDER_PATH)` is the size of the directory entry (a few kilobytes), not of the files in it | a storage folder holding one 300 MB file: no warning | warn when the files stored below the folder exceed 256 MB | medium; not executed | Server.StorageWarningMissed | Server.StorageWarningDue |
| src/autohack/core/run.py:77 | `raise autohackRuntimeError(output, process.returncode)` (also lines 87 and 98, and the `except` at src/autohack/core/checker.py:60): no module defines `autohackRuntimeError`, and src/autohack/core/exception.py:1-26 has only the compilation and generation errors | a compiler exiting with code 1 and output "error: x": the caller gets NameError "name 'autohackRuntimeError' is not defined", without the output or the code | raise an error carrying the output and the exit code | high; not executed | Run.AsWrittenLosesFailure | Run.CompileCode |
| src/autohack/lib/config.py:51-66 | `mergeConfigs` never consults `CONFIG_VALIDATION_EXCLUDE` (src/autohack/core/constant.py:59-61), so `checker.args` is merged into the default `{}` and every key a user stored there is dropped and the file rewritten without it | a file whose `checker.args` is `{"compiler": "clang++"}`: after loading it is `{}` | keep the stored checker arguments as they are, unvalidated | high; not executed | LibConfig.OpenDropsCheckerArgs | LibConfig.ArgsSurviveOpen |
| src/autohack/backend/server.py:274 | `refresh_speed` is read from the configuration, but DEFAULT_CONFIG (src/autohack/core/constant.py:3-56) lacks it and merging keeps only the default keys; it exists only in DEFAULT_GLOBAL_CONFIG | any run whose first data generates: `data_count % None` raises TypeError at data 1 and the run ends with `runtime_error` | a refresh speed read from the defaults (10 in DEFAULT_GLOBAL_CONFIG) | medium; not executed | LibConfig.RefreshSpeedMissing | LibConfig.RefreshSpeedPresent |
