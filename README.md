# gitlab-build-status-cli, modelled in Dafny

`index.js` is a small command-line tool. It asks git for the checked-out
branch and the commit of `origin/<branch>`, then asks a GitLab server for the
CI statuses of that commit. It reduces them to one build status (`fail`,
`success` or `unknown`), records the result in a per-commit cache
(`builds.json`) and prints one coloured glyph. This project models that
chain:

- `Vcs` (vcs.dfy): the two git command lines, and the first-newline strip
  applied to what they print. The git process itself is a parameter
  `git: string -> ExecResult`, so the model receives whatever the command line
  would print.
- `Aggregation` (aggregation.dfy): the `find` calls and the precedence chain
  that reduce the job records to one status.
- `Api` (api.dfy): the statuses URL template and the curl command line.
- `Presenter` (presenter.dfy): the glyph `printStatus` chooses.
- `Cache` (cache.dfy): the module-level `builds` dictionary as a class
  `BuildCache`. Its members are the cache lookup, `fetchBuildStatus` and
  `saveBuildStatus`, which updates the dictionary in place and rewrites the
  file. The curl process is a parameter `curl: string -> CurlResult`.
- `Cli` (cli.dfy): the promise chain. It records the command lines it runs,
  so "no request on a cache hit" is a postcondition.

Points where the code's behaviour is easy to misread:

- The strip removes the first `\n`, wherever it is. It is not a trailing-newline
  trim. For git's one-line output both give the same result (`StripOneLine`).
- The commit id goes into the URL without escaping.
- `saveBuildStatus` also runs after a cache hit, so the file is rewritten on
  every successful run. The dictionary stays the same in that case
  (`SaveAfterHitKeepsBuilds`).
- Some curl bodies make the process end instead of rejecting. In these cases
  `JSON.parse` or `find` throws inside the exec callback (`Threw`). That
  happens for a body that is not a JSON array: an empty body, invalid JSON, an
  error object such as `{"message": ...}`, or `null`. It also happens for an
  array in which one of the two `find` calls reaches a `null` element. An
  element that is a number, string or boolean has no `status`. It simply
  matches neither `find`.
- Rejections are never caught. A failing git or curl command therefore ends
  the chain with nothing printed by the program.

## Model

| member | source | states |
|---|---|---|
| Vcs.OriginCommitCommand | index.js:9 | the command is the fixed `git rev-parse origin/` prefix followed by the branch verbatim |
| Vcs.OriginCommitCommandInjective | index.js:9 | distinct branches give distinct upstream commands |
| Vcs.IndexOf | index.js:25 | the match of `/\n/` is the first newline: none means no newline at all, some means a newline with none before it |
| Vcs.StripFirstNewline | index.js:25 | without a newline the text is unchanged; otherwise exactly one character goes, the first newline, and the output is the text before it followed by the text after it |
| Vcs.StripKeepsLaterNewlines | index.js:40 | the strip lowers the newline count by exactly one, so later newlines survive |
| Vcs.StripOneLine | index.js:40 | one line of output plus its terminator resolves to the line, with no newline left |
| Vcs.StripTwoLines | index.js:25 | `"a\nb\n"` becomes `"ab\n"`: only the first newline goes, even when a trailing one follows |
| Vcs.GetCurrentBranch | index.js:17-30 | rejects with git's stderr exactly when the command fails and never throws; otherwise resolves to the output with its first newline removed, which for one line of output is that line without its newline |
| Vcs.GetCommitshForUpstream | index.js:32-44 | the same for the `origin/<branch>` command: rejection iff git fails, otherwise the output with its first newline removed, so a one-line commit id comes back without its newline |
| Aggregation.Find | index.js:67-68 | `find` yields the first record whose status is exactly the wanted text, and yields nothing iff no record has it |
| Aggregation.Aggregate | index.js:66-91 | `fail` iff some record failed; `success` iff none failed and one succeeded; `unknown` iff neither, which includes no records at all |
| Aggregation.TextInjective | index.js:70-91 | the three aggregates resolve to three different status texts |
| Aggregation.AggregateOrderIndependent | index.js:67-91 | records with the same multiset in any order aggregate alike |
| Aggregation.AggregateAppend | index.js:67-91 | the aggregate of two concatenated lists is the higher-precedence aggregate of the two parts, so one failure outranks any number of successes |
| Api.StatusesUrl | index.js:47 | the URL starts with the base URL and the projects/commits path, holds the commit id verbatim at a fixed offset, and ends with `/statuses` |
| Api.StatusesUrlRoundTrip | index.js:47 | the commit id can be read back out of the URL |
| Api.StatusesUrlInjective | index.js:47 | two commits never share a statuses URL |
| Api.CurlCommand | index.js:59 | the command is the header prefix, the private token, a closing and an opening quote around one space, the URL verbatim and a closing quote |
| Api.CurlCommandNamesCommit | index.js:59 | under one config, different commits give different curl commands |
| Presenter.PrintStatus | index.js:105-116 | check iff `success`, cross iff `fail`, question mark for every other text |
| Presenter.PrintAggregate | index.js:105-116 | for a fresh aggregate, cross iff a job failed, check iff none failed and one succeeded, question mark otherwise |
| Cache.BuildCache.constructor | index.js:14-15 | the dictionary and the file both start as the loaded mapping |
| Cache.BuildCache.Cached | index.js:50 | a hit iff the entry is present and non-empty (truthy), giving that entry |
| Cache.BuildCache.FetchBuildStatus | index.js:46-94 | a hit resolves to the cached text for the same commit and issues no request; a miss issues the curl command for the statuses URL, and then rejects with stderr iff curl fails, throws on an unparseable body, or resolves to the aggregate's text |
| Cache.BuildCache.SaveBuildStatus | index.js:96-103 | sets the one key to the status, leaves every other key as it was, makes the file equal to the dictionary, and returns its argument unchanged |
| Cache.SaveAfterHitKeepsBuilds | index.js:97 | writing back a present entry's own value leaves the dictionary unchanged |
| Cli.Run | index.js:118-122 | the stages run in order: a rejection stops the chain with the cache untouched; a cache hit runs only the two git commands, keeps the cache and prints the cached status's glyph; a fresh result is saved under its commit and then printed |

## Left out

- Running git and curl through `child_process.exec` is left out. Their results are parameters of the model.
- Reading and parsing `config.json` and `builds.json` is left out, and so is `JSON.stringify` with `writeFileSync`. The model starts from the parsed values. The file is modelled as a copy of the dictionary.
- `JSON.parse` of curl's output is left out. The curl body reaches the model already parsed as `CurlResult.Body`. `Body(None)` stands for any output that makes `JSON.parse` or `.find` throw.
- Cli.Run: assumes the `builds.json` write succeeds. A throwing `writeFileSync` would reject the chain after the dictionary was updated, and nothing would be printed.
- A missing or malformed `config.json` or `builds.json` is left out. It throws at start-up, before the chain starts.
- chalk colouring and `console.log` are left out. The glyph is a code point plus a colour name.
- Promise scheduling is left out. Only the order of the stages and how each one settles are modelled.
- Aggregation.JobRecord: keeps only the `status` field, because `index.js` reads no other field. A `null` element that one of the `find` calls reaches makes `build.status` throw. That case is `Body(None)`. A `null` element that neither `find` reaches is never read. It stands as `JobRecord(None)`, which changes neither match.
- Cache.BuildCache.Cached: covers string entries only. A non-string JSON value in `builds.json` is not modelled. A key such as `constructor` that JavaScript finds on the object prototype is not modelled either.
- Api.Config: `projectId` is taken as the text the template literal renders. The number-to-text conversion is not modelled.
