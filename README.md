# Summary request, history store and build bump: a Dafny model

This project models three small pieces of logic in a browser extension that summarises web pages with a chat-completion API.

- **The summary request** (`src/shared/api.js`).
  - `getSystemPrompt` builds the system prompt from fixed sentences. Which sentences appear depends on:
    - the requested length (`brief`, `detailed`, or anything else);
    - the requested format (`bullets`, `academic`, `professional`, `simplified`, or anything else);
    - six feedback toggles.
  - The "ADDITIONAL ANALYSIS" block appears only when some value of the `feedback` object is strictly `true`.
  - A toggle's instruction sentence (lines 140-157) and section template (lines 162-179) appear when its property is merely truthy. Its analysis section (lines 116-133) appears only inside the block.
  - `generateSummary`:
    - rejects a falsy API key;
    - cuts the page text to 15000 characters and adds a marker;
    - sends the prompt and the text as two chat messages;
    - maps the reply to the first choice's content, or to an error naming the HTTP status.
- **The summary history** (`src/shared/storage.js`). This is a newest-first list of saved summaries, kept under one storage key and capped at 50 entries. Its operations are:
  - save (put first, then cap);
  - list;
  - delete by index, with a bounds check;
  - clear.
- **The build bump** (`config/incrementBuild.js`).
  - It raises the build number by one.
  - It writes the same new version into the manifest and the package record. The new version is the first three `.`-separated components of the manifest version (all of them when there are fewer), then `.`, then the new build number.

## Layout

| File | Module | Contents |
|---|---|---|
| `wrappers.dfy` | `Wrappers` | `Option` and `Result`. |
| `text.dfy` | `Text` | The string operations the source uses: `${n}` for integers, `split`/`join` on one character, small concatenation lemmas and, for the round-trip lemmas, reading a numeral back. |
| `prompt.dfy` | `Prompt` | `getSystemPrompt`, in two forms: <ul><li>the prompt as a concatenation of parts (`SystemPrompt`);</li><li>the source's step-by-step builder (`GetSystemPrompt` and its `Append…` helpers), proved to produce exactly `SystemPrompt`.</li></ul> |
| `api.dfy` | `Api` | `generateSummary`, over an abstract transport. |
| `storage.dfy` | `Storage` | The list functions and the `HistoryStore` class. Its field `summaryHistory` stands in for the stored key. |
| `build.dfy` | `Build` | `NextVersion` and the `BuildFiles` class, with fields `buildNumber`, `manifestVersion` and `packageVersion`. |

### Modelling choices

- **The `feedback` object** is a map from property names to `JsValue`s. This lets a strict `true` be told apart from other truthy values.
  - A missing property reads as `undefined`.
  - A missing `feedback` option is the empty map, as the destructuring default makes it.
- **`fetch`** is a function parameter `transport`. It takes the assembled `Request` to a `Reply`: either an HTTP response (ok flag, status, status text, decoded body) or a failure of the call itself.
  - `GenerateSummary` also returns the request it handed over, if any. This is how "nothing is sent without a key" is stated.
- **Storage failures.** Whether a storage call rejects is a boolean parameter of each operation. A rejected call writes nothing, and the operation returns `false` (or `[]` when listing).

### Where the code and its documentation disagree

The model follows the code:

- **Length and format values.** The doc comment of `generateSummary` (`src/shared/api.js`, lines 11-12) lists the accepted values of `format` and `length`. The prompt builder accepts any string and adds no clause for a value it does not recognise.
- **Feedback toggles.** The same doc comment (lines 14-19) types the six toggles as booleans. The prompt builder tests a toggle by truthiness and the analysis block by strict `true`, so the model's feedback values are any JavaScript values.
- **Save result.** The doc comment of `saveSummaryToHistory` (`src/shared/storage.js`, line 16) declares `Promise<void>`. The function returns `true` on success (line 33) and `false` when a storage call fails (line 36).

## Model

| member | source | states |
|---|---|---|
| Prompt.GetSystemPrompt | src/shared/api.js:84-184 | The builder's result is exactly `SystemPrompt(options)`. That is, in order: <ul><li>the preamble;</li><li>the length clause;</li><li>the no-opinions sentence;</li><li>the format clause;</li><li>the analysis block;</li><li>the instruction pass;</li><li>the wrap sentence;</li><li>the template pass;</li><li>the trailer.</li></ul> |
| Prompt.SystemPrompt | src/shared/api.js:84-184 | The reference definition of the prompt: the opening clauses, the analysis block, the instruction pass, the wrap sentence, the template pass and the trailer. Every prompt starts with its opening clauses and ends with the trailer. |
| Prompt.Truthy | src/shared/api.js:116 | JavaScript truthiness as `if (v)` tests it: `true` is truthy; `undefined`, `null`, `false`, `0` and `""` are not. |
| Prompt.Enabled | src/shared/api.js:116-131 | A toggle is on when its property is truthy. A missing property reads as `undefined`, so the toggle is then off. A property holding `true` turns it on. |
| Prompt.FeedbackRequested | src/shared/api.js:111 | `Object.values(feedback).some(value => value === true)` holds iff some property, toggle or not, holds exactly `true`. |
| Prompt.AppendLengthClause | src/shared/api.js:91-95 | The `if`/`else if` on `length` appends exactly `LengthClause(length)`. |
| Prompt.AppendFormatClause | src/shared/api.js:100-108 | The four-way `if` on `format` appends exactly `FormatClause(format)`. |
| Prompt.AppendAnalysisBlock | src/shared/api.js:111-136 | Appends exactly `AnalysisBlock(feedback)`. That is the header, the analysis pass and the closing line when some value is strictly `true`, and nothing otherwise. |
| Prompt.AppendPass | src/shared/api.js:140-157 | Six toggle `if`s append exactly `PassText(feedback, text)`, the pieces of the six toggles in declared order. |
| Prompt.AppendIfEnabled | src/shared/api.js:140-142 | One `if (feedback.enableX)` appends the toggle's text when it is on, and nothing when it is off. |
| Prompt.PassUnrolled | src/shared/api.js:162-179 | A pass over the six toggles is their six pieces, tone/bias first and fact contrast last. |
| Prompt.PromptStartsWithOpening | src/shared/api.js:88-108 | For every option value, the prompt starts with the preamble. Then come the length clause, the no-opinions sentence and the format clause, in that order. |
| Prompt.PromptContainsNoOpinions | src/shared/api.js:97 | The no-opinions sentence occurs in every prompt. |
| Prompt.PromptEndsWithTrailer | src/shared/api.js:181 | Every prompt ends with the fixed "Use only these headers exactly as shown. …" sentence. |
| Prompt.LengthClauseChoice | src/shared/api.js:91-95 | The brief clause is chosen iff the length is `"brief"`, and the detailed clause iff it is `"detailed"`. Any other value gives no clause. |
| Prompt.FormatClauseChoice | src/shared/api.js:100-108 | Each of the four format clauses is chosen iff the format is its own keyword. Any other value gives no clause. |
| Prompt.AnalysisBlockIffStrictTrue | src/shared/api.js:111-136 | If some value is strictly `true`, header + analysis pass + closing line occurs in the prompt. The block is empty iff no value is strictly `true`, and the prompt is then the opening followed directly by the closing part. |
| Prompt.TruthyToggleWithoutAnalysisBlock | src/shared/api.js:111-116 | When a toggle's property is the only property of `feedback` and holds a truthy value other than `true` (for example a non-empty string), the toggle is on, yet the analysis block stays out. |
| Prompt.StrayTrueOpensEmptyBlock | src/shared/api.js:111-136 | A `true` under a property that is no toggle opens the analysis block with no section in it: header followed directly by the closing line. |
| Prompt.PassIsEnabledBlocksInOrder | src/shared/api.js:116-133 | A pass is the blocks of the selected toggles: <ul><li>a toggle is selected iff it is on;</li><li>the selection is in declared order, with no toggle twice.</li></ul> |
| Prompt.Selected | src/shared/api.js:140-157 | A toggle is selected iff it is in the visited sequence and it is on. |
| Prompt.SelectedInOrder | src/shared/api.js:162-179 | Selecting from a sequence in declared order keeps the declared order. |
| Prompt.ContributionsAreSelectedBlocks | src/shared/api.js:140-157 | What the `if`s of a pass append equals the concatenated blocks of exactly the selected toggles. |
| Prompt.NoToggleNoText | src/shared/api.js:116-133 | With no toggle on, a pass adds nothing. |
| Prompt.OnlyOneToggle | src/shared/api.js:162-179 | With exactly one toggle on, a pass in declared order is that toggle's text alone. |
| Prompt.SingleTogglePass | src/shared/api.js:140-157 | A feedback object holding only a truthy toggle gives, in every pass, that toggle's text alone. |
| Prompt.SingleToggleFeedback | src/shared/api.js:116-131 | A feedback object holding only one toggle's truthy property turns on exactly that toggle. |
| Prompt.KeyInjective | src/shared/api.js:116-131 | The six toggles are read from six different properties. |
| Prompt.EnabledTogglesMembers | src/shared/api.js:140-157 | A toggle is among the enabled toggles iff its property is truthy. |
| Prompt.TogglesInDeclaredOrder | src/shared/api.js:116-133 | The visiting order is tone/bias, vague claims, counterpoints, sentiment, intent, fact contrast, without repetition. |
| Prompt.PromptDeterminedByClausesAndToggles | src/shared/api.js:88-181 | Two option sets give the same prompt when they agree on three things: <ul><li>the length and format clauses;</li><li>whether some value is strictly `true`;</li><li>which toggles are on.</li></ul> |
| Api.Truncated | src/shared/api.js:32-35 | The sent text is at most 15000 + marker length long. Text of at most 15000 characters is unchanged. Longer text becomes its first 15000 characters followed by the marker. |
| Api.Falsy | src/shared/api.js:27 | `!apiKey` holds for an absent key and for the empty string, and fails for every non-empty string. |
| Api.Assemble | src/shared/api.js:41-61 | The request body holds two messages: the system prompt first, then the user text. The `Authorization` header is `Bearer ` followed by the key. |
| Api.ErrorMessage | src/shared/api.js:28 | The missing-key error reads `API key is required`. The failed-request message starts with `API request failed: ` and ends with a space and the status text (line 66). |
| Api.TruncatedKeepsLeadingText | src/shared/api.js:33-35 | Every character before the cut is the page's own character at that position. |
| Api.TruncatedFixedPoints | src/shared/api.js:33-35 | Truncation leaves a text unchanged iff the text is at most 15000 long, or already is its first 15000 characters plus the marker. |
| Api.RequestCarriesPromptAndContent | src/shared/api.js:41-61 | The request carries two messages and a bearer header: <ul><li>a system message holding the prompt, which starts with the preamble and ends with the trailer;</li><li>a user message holding the bounded text, unchanged when short;</li><li>an `Authorization` header of `Bearer ` followed by the key.</li></ul> |
| Api.Outcome | src/shared/api.js:63-70 | An ok reply with a choice succeeds with `choices[0]` unchanged, and only such a reply succeeds. A non-ok reply fails with its status and status text. A failed call is passed on. The key error never comes from a reply. |
| Api.FailureMessageNamesStatus | src/shared/api.js:66 | The failure message starts with `API request failed: `. After that prefix, the text up to the first space reads back as the status, and the rest is the status text. |
| Api.GenerateSummary | src/shared/api.js:23-76 | The result is `ApiKeyRequired` iff the key is absent or empty, and then nothing is sent. Otherwise the request sent is the assembled prompt + truncated text + bearer key, and the result is `Outcome` of the reply. |
| Storage.Capped | src/shared/storage.js:28 | `slice(0, 50)` returns a prefix of the list of length min(length, 50): the whole list when it is no longer than 50, its first 50 entries otherwise. |
| Storage.Prepended | src/shared/storage.js:25-28 | After a save: <ul><li>the length is min(old length + 1, 50);</li><li>the new entry is at index 0;</li><li>index i holds the previous entry i-1.</li></ul> |
| Storage.RemovedAt | src/shared/storage.js:67 | `splice(index, 1)` removes exactly one entry. The entries before it stay in place, the later ones shift down by one, and the multiset loses exactly the removed entry. |
| Storage.RemoveUndoesInsert | src/shared/storage.js:66-67 | Removing at a position the entry was just inserted at gives back the list. |
| Storage.DeleteNewestUndoesSave | src/shared/storage.js:25-28 | On a list under 50 entries, deleting index 0 after a save restores the list. |
| Storage.SaveOntoFullListEvictsOldest | src/shared/storage.js:25-28 | A save onto a full list puts the new entry first and drops exactly the oldest entry. |
| Storage.CappedAbsorbs | src/shared/storage.js:28 | Capping before more entries are put in front changes nothing once the whole is capped. |
| Storage.SavesKeepNewestFirst | src/shared/storage.js:18-38 | Any run of saves leaves the saved entries newest first, then the earlier list, cut to 50. |
| Storage.FiftyOneSavesEvictFirst | src/shared/storage.js:25-28 | Fifty-one saves onto an empty history keep the fifty newest, newest first. The first entry saved is gone. |
| Storage.HistoryStore.Stored | src/shared/storage.js:21-22 | Reading the key gives the stored list, or `[]` when nothing was written under it (the same fallback is at lines 48 and 64). |
| Storage.HistoryStore.SaveSummaryToHistory | src/shared/storage.js:18-38 | On success, the method returns `true` and the stored list becomes `Prepended(old list, entry)`. On failure, it returns `false` and nothing changes. |
| Storage.HistoryStore.GetSummaryHistory | src/shared/storage.js:45-53 | Returns the stored list. It returns `[]` when nothing is stored or the read fails. |
| Storage.HistoryStore.DeleteSummaryFromHistory | src/shared/storage.js:61-76 | Returns `true` iff the storage works and `0 <= index < length`; the stored list then becomes `RemovedAt(old, index)`. Otherwise nothing changes. |
| Storage.HistoryStore.ClearSummaryHistory | src/shared/storage.js:83-91 | On success, the method returns `true` and the stored list is empty. On failure, it returns `false` and nothing changes. |
| Build.Kept | config/incrementBuild.js:19 | `split('.').slice(0, 3)` keeps a prefix of the components of length min(number of components, 3): all of them when there are at most three, the first three otherwise. |
| Build.VersionBase | config/incrementBuild.js:19 | `split('.').slice(0, 3).join('.')` splits back into exactly the kept components. |
| Build.NextVersion | config/incrementBuild.js:19-20 | `` `${versionBase}.${buildNumber}` `` starts with the version base followed by `.`, and ends with the decimal build number. |
| Build.NextVersionComponents | config/incrementBuild.js:19-20 | Splitting the new version on `.` gives the kept old components followed by exactly one more component, the decimal build number. |
| Build.BuildNumberReadsBack | config/incrementBuild.js:20 | The last component of the new version reads back as the build number. |
| Build.ExtraComponentsDiscarded | config/incrementBuild.js:19 | An old version with more than three components keeps the first three and loses the rest, such as an earlier build suffix. |
| Build.BumpTwiceKeepsBase | config/incrementBuild.js:19-20 | With at least three components, two bumps keep the first three components. The last component is then the build number two higher. |
| Build.ShortVersionAbsorbsBuild | config/incrementBuild.js:19-20 | A two-component version keeps the first build number as a permanent third component: after two bumps, both build numbers remain. |
| Build.BuildFiles.IncrementBuild | config/incrementBuild.js:15-51 | After the bump: <ul><li>the build number is one higher;</li><li>the manifest version is `NextVersion(old manifest version, new build number)`;</li><li>the package version equals the manifest version;</li><li>the exported value is the new build number.</li></ul> |
| Text.Split | config/incrementBuild.js:19 | `split('.')` gives at least one piece, and no piece contains `.`. |
| Text.Join | config/incrementBuild.js:19 | `join('.')` of no pieces is empty and of one piece is that piece. Otherwise the result starts with the first piece. |
| Text.JoinSplit | config/incrementBuild.js:19 | Joining the pieces of a split gives back the string. |
| Text.SplitJoin | config/incrementBuild.js:19 | Splitting a join of separator-free pieces gives back the pieces. |
| Text.IntToDecimal | config/incrementBuild.js:20 | `${n}` of an integer is non-empty, has no `.`, and starts with `-` iff the integer is negative. |
| Text.IntDecimalRoundTrip | config/incrementBuild.js:20 | Reading back `${n}` gives `n`. |
| Text.NatToDecimal | src/shared/api.js:66 | `${status}` is a non-empty run of digits without a leading zero. |
| Text.ParseNatToDecimal | src/shared/api.js:66 | Reading back the printed status gives the status. |

## Left out

- **I/O:**
  - the network call itself (`fetch`), its asynchrony, and any timeout or abort;
  - JSON encoding of the request body and JSON decoding of the reply;
  - `console` logging.

  The decoded reply is part of the transport's result.
- The error reply's body (`response.json().catch(() => null)`) is read only for logging, so it is not modelled.
- The `temperature: 0.5` floating-point value is kept as the literal `"0.5"`.
- `content.length` and `substring` count UTF-16 code units. The model counts characters of a Dafny string.
- Reply bodies are either a list of choice contents or unreadable.
  - A body without a `choices` array, or with an empty one, fails as `MalformedResponse`. In the source, this is the `TypeError` rethrown by the `catch`.
  - A choice whose `message.content` is missing would return `undefined`. This case is not modelled.
- `apiKey` values are absent or strings. A truthy non-string key (a number, say) is not modelled.
- A `feedback` object that is `null`, and values of `feedback` that are fractions or `NaN`, are not modelled. Numbers are integers here.
- Prompt.AnalysisBlockIffStrictTrue: when no value is strictly `true`, the model proves that the analysis block is empty. It does not prove that the text "ADDITIONAL ANALYSIS" or the closing line occurs nowhere else in the other fixed sentences. That property is a fact about the literal sentences, not about the control flow.
- **Storage:**
  - `chrome.storage.local` is a field. The asynchrony of its calls, and interleaving between overlapping operations (two saves that read the same old list), are not modelled.
  - A call that fails is modelled as failing before it writes.
  - A stored `summaryHistory` value that is truthy but not an array is not modelled.
  - A fractional `index` passed to `deleteSummaryFromHistory` is not modelled. The model's index is an integer.
- **Build bump:**
  - reading and writing the three JSON files;
  - the JSON formatting;
  - the `console` output.

  A `buildNumber` that is missing or not a number (where `+= 1` would give `NaN` or concatenate) is not modelled.
- Build.BuildFiles.IncrementBuild: the build number is an unbounded integer. In the source it is a JavaScript double, so `+= 1` is exact only while its magnitude is below 2^53.
- Text.IntToDecimal: prints every integer as plain decimal digits. JavaScript's `${n}` does so only for magnitudes below 10^21. From 10^21 on it uses exponent notation (for example `1e+21`), which can contain `.`. The new version would then have more components than `NextVersionComponents` states.
- **Other parts of the repository:**
  - the page-content parser and display fix-ups (regular-expression rewriting and DOM writes);
  - the side panel, content script and service worker (user interface and message passing);
  - the word-definition tooltips;
  - the debug helpers and the webpack configuration.
- The dictionary lookup `getWordDefinition` is imported by the content script (`src/content/wordDefinition.js`, line 6) and by the side panel (`src/sidepanel/wordDefinition.js`, line 6), but it is not defined in `src/shared/api.js`. It is not part of this model.
