# e621dl: a verified model of the downloader's core

e621dl downloads posts from e621 into one directory per configuration section. This
project models the parts of it that decide things, and proves what they promise.

- **Tag conditions** (`CondScanner`, `CondFormula`, `CondCompiler`). A condition line
  such as `a & -(b | c\&d)` is scanned character by character. The scan rejects a bad
  escape and a `~` that starts a token. The tokens give the list of tags and a template.
  The source fills the template in, turns it into Python text and runs it with `exec`.
  Here the text becomes a syntax tree (`Formula`) with a parser and an evaluator that
  follow Python: `not` binds tighter than `and`, which binds tighter than `or`; `()` is
  false; a tag followed by a tag or `(` is a call that raises. Both versions of
  `local.py` are covered: `('{}' in tags)` in e621dl_lib, `check('{}',tags)` plus
  whole-text replacement in e621dl. The condition is accepted when a dry run on its own
  tags does not raise.
- **The work queue** (`WorkQueue`). `DownloadQueue` is a class with the source's fields
  (batches, `last_id`, `completed`, finished generators, configuration fingerprint). Its
  methods are proved against functions on a `QueueState` value.
- **Filtering and saving posts** (`PostFilter`, `Downloader`).
  - The whitelist / blacklist / anylist tests and the ordered acceptance chain.
  - The prefilter's chain, and the producer `prefilter_build_index` that fills the queue.
  - The consumer loop of `main`: batches, searches and pages, moved along by the cursor.
  - The skip / copy / download decision, and the `files` index it keeps.
- **Names, paths, dates and the file index** (`PathNames`, `FileIndex`). Cleaning a
  section name, building a path, clamping the search date, reading a post id back out of
  a file name, and `get_files_dict` in both versions.

`fnmatch`, `os.path.isfile`, `download_post` and `get_posts` are parameters. The file
system is a map from file names to paths plus a set of present paths. Today's date is an
ordinal passed in. The producer thread and the consumer loop are modelled one at a time:
each stops where the source would block waiting for the other.

Behaviour of the source worth knowing, all captured by the model:
- A batch that the prefilter emptied makes every search fall back to a full remote
  search (e621dl.py:259, `chunk if chunk else ...`).
- With an empty prefilter the producer queues nothing and marks the queue completed.
  The consumer then finds the queue empty and stops without running any search
  (`ConsumeQueue`: an empty queue leaves the run unchanged).
- `cachefunc` is initialised to `lambda: None`, a function object, which is always
  truthy. So `get_files_dict(cachefunc)` always merges the cache walk.
  `GetFilesDictByName` takes that truth value as a parameter.
- The dry run only evaluates what Python reaches. `a | b c` is accepted because `a`
  short-circuits past the call `b(c)`, and it then raises on a post without `a`
  (`DryRunMissesCall`).
- The generated Python gives `not` > `and` > `or`, so `a | b & c` is `a or (b and c)`
  (`AndBindsTighterThanOr`, `NotBindsTighterThanAnd`).

## Model

| member | source | states |
|---|---|---|
| CondScanner.ScanLine | e621dl_lib/local.py:329-350 | the character loop builds exactly the buffer the specification `Scan` defines, or stops with its error |
| CondScanner.ErrorSticks | e621dl_lib/local.py:333-346 | once a pass raises, the whole scan has failed with that error |
| CondScanner.BadEscapeRejected | e621dl/local.py:33-36 | a `\` followed by anything other than `\|&()` rejects the line |
| CondScanner.TildeAtTokenStartRejected | e621dl_lib/local.py:339-346 | a `~` rejects the line when it starts a token: at the start of the line, after a space, after an unescaped `\|&()`, or after an unescaped `-` that itself starts a token (`-~b`) |
| CondScanner.TildeInsideTagAccepted | e621dl_lib/local.py:339-346 | after a `-` inside a tag the `~` is kept: `a-~b` scans to the single tag `a-~b` |
| CondScanner.AcceptedEscapesValid | e621dl_lib/local.py:333-338 | in an accepted line every `\` (except a final one) is followed by one of `\|&()` |
| CondScanner.ScanPrefixShape | e621dl_lib/local.py:339-348 | the loop invariant: operators are padded by spaces unless escaped or a `-` inside a tag, a `~` never starts a token, and no non-space character is lost |
| CondScanner.SplitShape | e621dl_lib/local.py:350-351 | splitting such a buffer on spaces gives well-formed tokens, which joined are the buffer without its spaces |
| CondScanner.TokeniseShape | e621dl/local.py:29-51 | the tokens of an accepted line are well formed, none starts with `~`, and joined they are the line without spaces |
| CondCompiler.OperatorTokenIsSingle | e621dl_lib/local.py:353 | on tokeniser output, the substring test `token in '-\|&()'` holds exactly for a one-character operator token |
| CondCompiler.Unescape | e621dl_lib/local.py:353 | `replace('\\','')` leaves no backslash and keeps every other character |
| CondCompiler.TagsOfIsTagTokens | e621dl_lib/local.py:353 | the returned tags are the non-operator tokens, in order, unescaped |
| CondCompiler.LexemeOfToken | e621dl_lib/local.py:356-359 | a token becomes a placeholder exactly when it is a tag; `-`, `\|`, `&` become not, or, and; parentheses stay |
| CondCompiler.Fill | e621dl_lib/local.py:316-317 | `format(*tags)` succeeds exactly when there are enough tags, and the k-th placeholder receives the k-th tag |
| CondCompiler.FillFrom | e621dl_lib/local.py:317 | filling from the n-th tag succeeds exactly when enough tags remain, keeps the length and leaves no placeholder |
| CondCompiler.HolesMatchTags | e621dl_lib/local.py:353-356 | the template has exactly one placeholder per returned tag |
| CondCompiler.CompileScanErrors | e621dl_lib/local.py:324-348 | the compiler fails with a scan error exactly when the tokeniser does, and passes it on unchanged |
| CondCompiler.CompileAccepted | e621dl_lib/local.py:351-372 | an accepted condition returns the unescaped tag tokens and the template with one placeholder per tag; every tag fits in a one-line Python string literal; and its check does not raise on those tags |
| CondCompiler.UnsafeTagRejected | e621dl_lib/local.py:316-320 | a tag holding a line feed, carriage return or null character makes the `exec` of the filled-in text fail, so the condition is rejected as a syntax error |
| CondCompiler.CompiledWordsAreTags | e621dl_lib/local.py:315-317 | the filled-in check looks up exactly the returned tags, in order |
| CondCompiler.MakeCheckOfPrinted | e621dl_lib/local.py:312-321 | a template that fills in to a printed clean formula compiles to exactly that formula when every tag fits in a one-line string literal, and fails otherwise; the check is the formula's boolean meaning on every post |
| CondCompiler.DryRunMissesCall | e621dl_lib/local.py:362-370 | `a \| b c` passes the dry run yet raises on a post without `a` |
| CondCompiler.ReplaceOperatorsAppend | e621dl/local.py:55 | the three whole-text replacements distribute over concatenation |
| CondCompiler.TemplateTexts | e621dl/local.py:54-55 | both versions' template texts are renderings of the same template lexemes |
| CondCompiler.NewTemplateTextRenders | e621dl_lib/local.py:356-360 | the list rewrite of the new version renders the template with the `('{}' in tags)` leaf |
| CondCompiler.OldTemplateTextRenders | e621dl/local.py:54-55 | replacing `-`, `\|`, `&` in the joined old template renders the template with the `check('{}',tags)` leaf |
| CondCompiler.OldPieceText | e621dl/local.py:54-55 | one old template piece, after the replacements, is the text of its lexeme |
| CondCompiler.OperatorCharText | e621dl/local.py:55 | after the replacements, `-`, `\|`, `&` alone read not, or, and, and a parenthesis stays itself |
| CondCompiler.PlaceholderUnchanged | e621dl/local.py:54-55 | the `check('{}',tags)` placeholder holds no operator character, so the replacements leave it alone |
| CondFormula.CleanEvalHolds | e621dl/local.py:12-21 | on formulas without calls, Python's evaluation never raises and equals the boolean meaning with exact tag membership |
| CondFormula.EvalDependsOnLeaves | e621dl_lib/local.py:315-321 | a check gives the same result on two tag lists that agree on the tags it mentions |
| CondFormula.ParsePrint | e621dl_lib/local.py:318-320 | parsing the fully parenthesised text of a clean formula gives the formula back, in either leaf style |
| CondFormula.AndBindsTighterThanOr | e621dl_lib/local.py:357-360 | `a or b and c` reads as `a or (b and c)` |
| CondFormula.NotBindsTighterThanAnd | e621dl_lib/local.py:357-360 | `not a and b` reads as `(not a) and b` |
| CondFormula.AdjacentTags | e621dl_lib/local.py:356-363 | two adjacent tags are a call with the `('{}' in tags)` text and a syntax error with the `check('{}',tags)` text |
| PathNames.Lower | e621dl_lib/local.py:424 | `lower` maps A-Z to a-z and leaves every other character alone |
| PathNames.LowerString | e621dl_lib/local.py:424 | lowercasing a string is lowercasing each character |
| PathNames.SubstituteIllegals | e621dl_lib/local.py:411-416 | `:*?"<>\|` become `_`, both slashes become `/`, anything else is unchanged |
| PathNames.SubstituteIllegalsOld | e621dl/local.py:98-100 | each of `\:*?"<>\|/` becomes `_`, anything else is unchanged |
| PathNames.FilenameCleaned | e621dl_lib/local.py:418-420 | the cleaned file name keeps its length and legal characters and holds none of `:*?"<>\|\/` |
| PathNames.FilenameCleanIdempotent | e621dl_lib/local.py:418-420 | cleaning a file name twice is cleaning it once |
| PathNames.MakeNewDirClean | e621dl_lib/local.py:422-426 | the directory name keeps its length, has no illegal character, backslash or capital, and has `/` exactly where the section name had a separator |
| PathNames.MakePathLastComponent | e621dl_lib/local.py:428-429 | the path starts with `downloads/` and ends with `/` and the cleaned file name, which holds no separator |
| PathNames.OldDirIsOneComponent | e621dl/local.py:102-105 | the old directory segment keeps its length and has no separator, illegal character or capital |
| PathNames.MakePathOldParts | e621dl/local.py:102-107 | the old path is `downloads/`, the cleaned section name, `/`, then the file name, `.` and the extension |
| PathNames.MakePathOldInjective | e621dl/local.py:102-107 | in one section with one extension, different file names give different paths |
| PathNames.GetDate | e621dl/local.py:88-96 | the date ordinal always lies between 1 and today |
| PathNames.GetDateClamps | e621dl_lib/local.py:401-409 | the date is `days - 1` days before today when valid; one day or fewer gives today; at least `today` days gives ordinal 1 |
| PathNames.GetDateMonotone | e621dl/local.py:88-96 | looking more days back never gives a later date |
| PathNames.SplitAround | e621dl_lib/local.py:441 | splitting on a separator splits each side of it |
| PathNames.NatToStringRoundTrip | e621dl_lib/local.py:446 | `int(str(n))` is `n` |
| PathNames.FileIdRoundTrip | e621dl_lib/local.py:441-446 | a file saved as `[prefix.]id.ext`, finished or `.request`, gives its id back, for an extension without a dot other than `request` |
| PathNames.PartialParts | e621dl_lib/local.py:442-443 | appending `.request` adds exactly one last piece |
| FileIndex.LastWith | e621dl/local.py:117-124 | reference: the position of the last walked file with a key, or none when no file has it |
| FileIndex.IndexFromFails | e621dl_lib/local.py:446 | indexing fails exactly when some file has no readable key |
| FileIndex.IndexFromLookup | e621dl/local.py:117-124 | a key is in the index exactly when it was there before or some file has it, and it leads to the last such file |
| FileIndex.NameIndexTotal | e621dl/local.py:115-126 | the name-keyed index never fails |
| FileIndex.GetFilesDictByName | e621dl/local.py:115-126 | the two walking loops build the index of the downloads followed, when the flag is truthy, by the cache |
| FileIndex.CacheOverwritesDownloads | e621dl/local.py:121-124 | with the cache merged, a name present in the cache leads to a cache file of that name |
| FileIndex.NameIndexContents | e621dl/local.py:115-126 | a name is indexed exactly when some walked file has it; without a cache hit it leads to the last download with that name |
| FileIndex.GetFilesDictById | e621dl_lib/local.py:437-456 | the loops build the id-keyed index of the downloads, then the cache, or fail where an id is unreadable |
| FileIndex.SavedFileIndexed | e621dl_lib/local.py:439-447 | a file the downloader saved, finished or partial, is indexed under its post id |
| WorkQueue.ResetProperties | e621dl_lib/local.py:195-203 | after `reset` the queue is empty, not completed, at the sentinel, without finished generators, keeps its fingerprint, and a second reset changes nothing |
| WorkQueue.CheckConfigHashProperties | e621dl_lib/local.py:210-216 | a matching fingerprint changes nothing; a different one resets the queue and is stored; checking twice is checking once |
| WorkQueue.CompleteGenProperties | e621dl_lib/local.py:205-208 | the generator becomes finished, earlier ones stay finished, the cursor returns to the sentinel, batches and flag are untouched |
| WorkQueue.FifoOrder | e621dl_lib/local.py:153-165 | batches pushed onto an empty queue come out in the order they went in |
| WorkQueue.DownloadQueue.constructor | e621dl_lib/local.py:143-151 | the loaded state, or the reset state when loading fails; not aborted |
| WorkQueue.DownloadQueue.Append | e621dl_lib/local.py:157-165 | the batch goes to the back once there is room, so the queue never exceeds `maxlen`; nothing else changes |
| WorkQueue.DownloadQueue.PopLeft | e621dl_lib/local.py:153-155 | returns and removes the oldest batch; none on an empty queue, which is left unchanged |
| WorkQueue.DownloadQueue.First | e621dl_lib/local.py:191-193 | returns the oldest batch without removing it; none exactly when empty |
| WorkQueue.DownloadQueue.Last | e621dl_lib/local.py:187-189 | returns the newest batch; none exactly when empty |
| WorkQueue.DownloadQueue.Reset | e621dl_lib/local.py:195-203 | the new state is the reset state |
| WorkQueue.DownloadQueue.CompletedGen | e621dl_lib/local.py:205-208 | the name is added to the finished generators and the cursor reset |
| WorkQueue.DownloadQueue.CheckConfigHash | e621dl_lib/local.py:210-216 | the new state is the one the fingerprint check specifies |
| WorkQueue.DownloadQueue.InGens | e621dl_lib/local.py:218-220 | true exactly when the name is among the finished generators |
| PostFilter.SplitWordsShape | e621dl.py:270 | `split()` gives non-empty words without whitespace that together are the text without whitespace |
| PostFilter.ConfigWordsShape | e621dl.py:180 | the words of a tag option hold no whitespace, comma or capital, and keep every other character |
| PostFilter.SplitConfigTagsSpec | e621dl.py:181-183 | `-x` goes to the blacklist as `x`, `~x` to the anylist as `x`, anything else to the whitelist, none lost; an empty tag raises |
| PostFilter.SomeTagMatchesIff | e621dl.py:272 | the `any` over tags holds exactly when some tag matches the mask |
| PostFilter.MatchesSomeMaskIff | e621dl.py:280 | the `any` over masks holds exactly when some mask matches the tag |
| PostFilter.SomeTagMatchesSomeIff | e621dl.py:280 | the comprehension is non-empty exactly when some tag matches some mask |
| PostFilter.EveryMaskMatchedIff | e621dl.py:57 | the `all` holds exactly when every mask matches some tag |
| PostFilter.WhitelistPassesIff | e621dl.py:272 | the whitelist passes exactly when every mask matches some tag; an empty whitelist passes |
| PostFilter.BlacklistHitIff | e621dl.py:280 | the blacklist rejects exactly when some tag matches some mask; an empty one rejects nothing |
| PostFilter.AnylistMissedIff | e621dl.py:284 | the anylist rejects exactly when it is non-empty and no tag matches any mask |
| PostFilter.JudgeSpec | e621dl.py:269-297 | a post is accepted exactly when every test passes (tag lists, rating, score, favourites, condition, age); a raise comes only from the condition |
| PostFilter.BlacklistOrderFree | e621dl.py:253 | the blacklist verdict does not depend on the order of its masks |
| PostFilter.PrefilterJudgeSpec | e621dl.py:54-70 | the prefilter keeps a post exactly when its tag lists and condition accept it |
| PostFilter.MaxDaysAgo | e621dl.py:109-190 | the largest `days` value is at least one, bounds every value read, and is one of them unless it is the default 1 |
| PostFilter.PathEndsWithFilename | e621dl.py:299-304 | the save path is the section directory followed by exactly the file name used as the index key |
| PostFilter.FilenameStartsWithId | e621dl.py:300-303 | the first dot-separated piece of the file name reads back as the post id |
| PostFilter.NextCursor | e621dl.py:264-267 | a page shorter than `MAX_RESULTS` gives 0, which ends the search; a full page gives the id of its last post |
| Downloader.SaveSpec | e621dl.py:306-315 | an existing path is skipped; a known file name is copied from its indexed path; otherwise download; only a successful download adds `files[filename] = path`; no entry is lost |
| Downloader.RaisedStops | e621dl.py:292 | once a condition raised, later posts change nothing |
| Downloader.RunPostsSpec | e621dl.py:269-315 | handling posts never loses an index entry, every new entry is a successful download of an accepted post, and, when no condition raised, there is one log entry per post |
| Downloader.ProcessPosts | e621dl.py:269-315 | the post loop computes the specified run over the page |
| Downloader.RunSearch | e621dl.py:257-320 | the paging loop handles the chunk alone when it is non-empty, otherwise the remote pages from the sentinel, each cursor the last id of the page before |
| Downloader.RunAllSearches | e621dl.py:237-320 | every search runs on the chunk, in configuration order |
| Downloader.ConsumeQueue | e621dl.py:228-327 | batches run oldest first through every search; it resets the queue exactly when nothing raised and the producer had completed, and otherwise waits with an empty queue; after a raise the batch that raised and those after it stay queued; an empty queue runs nothing |
| Downloader.BatchesAfterRaise | e621dl.py:228-322 | after a raise the remaining batches change nothing |
| Downloader.RunBatchesKeepsIndex | e621dl.py:306-315 | over the whole run the index keeps every entry, and each new one is a successful download accepted by some search |
| Downloader.FilterPageSpec | e621dl.py:54-70 | filtering a page fails exactly when the condition raises on a post, and otherwise keeps exactly the accepted posts in order |
| Downloader.AcceptedPosts | e621dl.py:49-70 | reference: the kept posts are accepted, and every accepted post is kept |
| Downloader.FilterResults | e621dl.py:49-70 | the loop computes the specified filtering of the page |
| Downloader.PrefilterBuildIndex | e621dl.py:24-75 | whenever the producer stops for good, the queue is completed; it raises only on bad prefilter tags (queueing nothing) or at the first page that raises, after queueing every page before it; each queued batch is the filtered page at its position; it finishes only when no page was empty; the cursor is the last post of the last page that went through, and is left untouched when it stops before any page (no prefilter, already completed, bad tags, no room) |
| Downloader.QueuePages | e621dl.py:46-73 | each page is filtered and queued in order while there is room, and the cursor moves to its last post; a raise happens at the first page whose filtering raises (not queued) or that is empty (queued, then `results[-1]` fails); finishing or waiting means every page before was non-empty; the cursor is that of the last page that went through, or unchanged if none did |
| Downloader.QueuePage | e621dl.py:53-73 | one page: its filtered posts are queued unless filtering raises; it raises exactly when filtering raises or the page is empty (after queueing the empty batch); otherwise the cursor moves to its last post, and on a raise it is unchanged |
| Downloader.PrefilterBuildIndexAsWritten | e621dl.py:28-75 | as written, the producer never queues a batch or moves the cursor, and it raises on the first page |
| Downloader.StorageCrashExample | e621dl.py:46-50 | on one page with one post the prefilter accepts, the producer as written queues nothing while the connected one queues one batch |

## Findings

| source | as written | input that shows it | evidently intended | confidence | as-written member | corrected member |
|---|---|---|---|---|---|---|
| e621dl.py:28-48 | `PostsStorage()` only runs `pass` (e621dl_lib/local.py:223-224), and `connect()` is never called. So `storage.append(results)` reads the missing `self.cur` and raises AttributeError on the first page, before it is filtered or queued. The `finally` marks the queue completed, so nothing is ever queued. | a non-empty prefilter, e.g. `a`, whose search returns at least one page | the storage is connected before use (or the call is left out, as the commented-out `for results in storage` suggests), and every filtered page is queued | high, not executed | Downloader.PrefilterBuildIndexAsWritten, Downloader.StorageCrashExample | Downloader.PrefilterBuildIndex |

## Left out

- The threads, the lock, `sleep` and the `Condition` waits. The producer and the consumer are each modelled as running until they would block, not interleaved.
- `Append`: its spin-wait for room is the precondition that the queue has room.
- `StatPrinter`, `ActiveDownloadsSet` and `save_on_exit_events`: terminal output, download throttling and signal hooks.
- `PostsStorage`, the sqlite store of fetched pages: `PrefilterBuildIndex` leaves out its `storage.append(results)` call (e621dl.py:48). As written, that call raises on the first page; see Findings.
- Saving and loading the queue's pickle file. The constructor takes the loaded state, or none when loading fails.
- Reading the configuration file (`get_config`, `make_config`, `filehash`) and the loop over its sections, apart from the tag split, the word split and `max_days_ago`.
- e621dl_lib/remote.py and the `remote` module of e621dl: HTTP, retries, `get_posts`, `download_post`, `finish_partial_downloads`, the GitHub version check. Fetching and downloading are parameters.
- Tag aliasing (`get_tag_alias`) is a network lookup and is taken as the identity.
- Building the search string from the first five tags; it only goes to the remote side.
- `os.makedirs`, `os.walk`, `copy` / `os.link`: the walks are parameters, and a copy only makes its path present.
- `make_check_funk` escaping `'` in tags: a tag is a literal leaf of the formula, so the escape has no effect on the model.
- `CondScanner.ScanLine`: the warning about `%,#*` is printed only and changes nothing, so it is not modelled.
- `PathNames.LowerString`: `str.lower` is modelled on ASCII letters only.
- `PathNames.ParseInt`: `int()` is modelled on an optional sign and ASCII digits; Python also accepts surrounding whitespace, underscores and other Unicode digits.
- `PathNames.GetDate`: returns the date ordinal; the `strftime` formatting is not modelled.
- `Downloader.RunSearch`: needs the remote pages to descend (a full page ends with an id below the cursor, `CursorDescends`); otherwise the source's loop need not end.
- `Downloader.QueuePages`: checks for room before filtering a page, while the source filters first and then waits. Only the point where the producer pauses differs.
- `WorkQueue.DownloadQueue.CheckConfigHash`: the warning printed when a non-empty queue is reset is not modelled.
- The constants files; `MAX_RESULTS` (320) is the `maxResults` parameter.
