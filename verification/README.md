# Maxli userbot plugins — a Dafny model

This project models the decision logic of five plugins of the Maxli
userbot, a Telegram-style chat bot that runs user-supplied Python plugins:

- **MaxliAFK** (`maxli_afk.dfy`, module `MaxliAfk`): the away mode. `.afk
  [reason]` switches it on, `.unafk` switches it off and reports how long the
  owner was away, and a watcher answers private messages, replies to the
  owner and group messages that name the owner, at most once per chat per
  timeout. The plugin's globals become the fields of the class `AfkState`;
  the clock, the owner's id and name, the timeout setting and the chat id the
  host resolves are parameters.
- **Maxli Store** (`maxli_store.dfy`, module `MaxliStore`): finds plugin
  files in a GitHub repository. Modelled are the URL parser
  `extract_repo_info` (the regular expression `github\.com/([^/]+)/([^/]+)`
  with its leftmost, greedy match), the repository list and its fallback,
  the `.py` filter of the directory listing, the case-folded substring
  filter of the search commands, the 20-result cap, the 1-based numbering,
  the choice of a module by number, and the choice of its download link.
  The directory listing the GitHub API returns is an input.
- **SystemInfo** (`system_info.dfy`, module `SystemInfo`): `format_bytes`
  (the division loop that picks the unit B…TB) and `format_uptime`.
- **SpeedTest** (`speedtest.dfy`, module `Speedtest`): the localisation
  lookup `get_string` with its two fallbacks, and `estimate_download_time`
  with its five buckets.
- **Image generator** (`gen_img.dfy`, module `GenImg`): model aliases, the
  in-place update of the nested configuration dictionary (class `Config`),
  the model list loop, and the request URL of `.genimg`.

Two support modules hold what the plugins borrow from Python: `Wrappers`
(an `Option` type; `None` stands for every falsy value) and `Text`
(`str()` and `int()` on decimal numbers, `isdigit()`, `lower()`, `in`,
`find()`, `replace(pattern, '')`, `sep.join()`).

The video-downloader plugin `TT dl.py` is not modelled.

## Model

| member | source | states |
|---|---|---|
| `Text.IntToString` | MaxliAFK.py:32-36 | `str(i)`: digits without leading zeros for `i >= 0` that `int()` reads back as `i`; a minus sign before the digits of `-i` otherwise |
| `Text.ParseNatToString` | MaxliStore.py:136 | `int(str(n)) == n` for every natural number |
| `Text.LowerIsLower` | MaxliAFK.py:91 | a lowered string has no upper-case letter, and lowering twice is lowering once |
| `Text.Find` | MaxliStore.py:262 | `find` is non-negative exactly when the needle occurs, and then gives its first occurrence |
| `Text.RemoveAll` | MaxliStore.py:24 | `replace(p, '')` never lengthens, returns the text unchanged exactly when `p` does not occur, and keeps lower-case text lower-case |
| `Text.RemoveAllTrailing` | MaxliStore.py:72 | removing a suffix pattern whose first character occurs nowhere before it leaves the text before it |
| `Text.NoUpperInPart` | MaxliStore.py:73 | any substring of lower-case text is lower-case |
| `Text.Join` | MaxliAFK.py:42 | joining one part gives that part; an empty join means every part was empty |
| `MaxliAfk.SplitDuration` | MaxliAFK.py:30-36 | the three buckets are chosen exactly by `< 60`, `< 3600`, otherwise; minutes and seconds recompose the input in the middle bucket with minutes in 1..59 and seconds in 0..59; in the hours bucket minutes are below 60 and hours and minutes bound the input within a minute |
| `MaxliAfk.FormatDurationText` | MaxliAFK.py:30-36 | below a minute the text is the number followed by " сек."; from a minute to an hour the text is `seconds // 60` minutes and `seconds % 60` seconds; from an hour on it is `seconds // 3600` hours and the minutes of the last hour |
| `MaxliAfk.AfkState.constructor` | MaxliAFK.py:11-14 | the globals start as not away, empty reason, start 0, no chat notified |
| `MaxliAfk.AfkState.AfkCommand` | MaxliAFK.py:39-47 | whatever the prior state: away, the reason is the space-joined arguments or "без причины", the start is now, the throttle map is empty, and the reply names the reason |
| `MaxliAfk.AfkState.UnafkCommand` | MaxliAFK.py:50-58 | only the flag is cleared; reason, start and throttle map are kept; the reply is the "not away" notice when the flag was off, else the away time |
| `MaxliAfk.AfkState.Watch` | MaxliAFK.py:61-108 | no reply and no change when not away, without sender, from the owner, or without chat id; a reply only for a private chat, a reply to the owner or a mention in a group; only after the timeout since the chat's last notice, which then becomes now; a suppressed message leaves the map alone; and a reply does go out whenever all conditions allow it |
| `MaxliStore.ExtractRepoInfo` | MaxliStore.py:17-30 | on success the url is the input and name equals path |
| `MaxliStore.SearchIsLeftmost` | MaxliStore.py:19 | the search returns the match at the first position where the pattern matches, or nothing if there is none |
| `MaxliStore.ExtractRepoInfoNoneIff` | MaxliStore.py:19-30 | None exactly when no "github.com/" is followed by a non-empty '/'-free owner, a '/', and a non-empty '/'-free repository |
| `MaxliStore.ExtractRepoInfoShape` | MaxliStore.py:19-29 | on success name and path are owner + "/" + repository with every ".git" removed, taken greedily at the leftmost match |
| `MaxliStore.ParsedRepos` | MaxliStore.py:33-37 | the parsed entries are exactly the successful parses of the URLs |
| `MaxliStore.ParsedReposAppend` | MaxliStore.py:33-37 | parsing keeps the configured order: the parses of a concatenation are the concatenation of the parses |
| `MaxliStore.BuildRepositories` | MaxliStore.py:32-45 | the list built by the loop is the parsed list, or the fallback when that is empty, so it is never empty |
| `MaxliStore.GetCurrentRepo` | MaxliStore.py:47-50 | an index within the list yields one of the listed repositories |
| `MaxliStore.ConfiguredRepositoryParses` | MaxliStore.py:13-30 | the configured URL parses to the same entry the fallback supplies |
| `MaxliStore.ConfiguredRepositories` | MaxliStore.py:13-50 | the configured list is that one entry, and it is the repository in use |
| `MaxliStore.PyFiles` | MaxliStore.py:366 | an entry is kept exactly when it is a file whose name ends in ".py"; never more than the listing |
| `MaxliStore.PyFilesAppend` | MaxliStore.py:366 | the filter keeps the listing's order: the filter of a concatenation is the concatenation of the filters |
| `MaxliStore.SearchKey` | MaxliStore.py:72 | the search key of a name has no upper-case letter |
| `MaxliStore.SearchQuery` | MaxliStore.py:58 | the query has no upper-case letter, one word is that word lowered, and an empty query means every word was empty |
| `MaxliStore.Matching` | MaxliStore.py:69-74 | a module is kept exactly when its search key contains the query; never more than the listing |
| `MaxliStore.MatchingAppend` | MaxliStore.py:111-115 | filtering keeps the listing's order: the filter of a concatenation is the concatenation of the filters |
| `MaxliStore.FilterModules` | MaxliStore.py:110-115 | the loop collects exactly the matching modules in listing order |
| `MaxliStore.MatchingEmptyQuery` | MaxliStore.py:150-158 | an empty query keeps every module |
| `MaxliStore.UpperCaseQueryMatchesNothing` | MaxliStore.py:154-155 | a query with an upper-case letter matches no module |
| `MaxliStore.RawDownloadUrl` | MaxliStore.py:374-377 | the raw link is the repository's `main` branch followed directly by the file's path: it starts with the one, ends with the other, and is exactly as long as both together |
| `MaxliStore.DownloadUrl` | MaxliStore.py:310-316 | the listing's link when set, else exactly the raw link; never empty |
| `MaxliStore.Highlight` | MaxliStore.py:259-268 | the "highlighted" name equals the name |
| `MaxliStore.ShowSearchResults` | MaxliStore.py:249-279 | one entry per module, numbered from 1 with its shown name, and the cap note exactly when 20 are shown |
| `MaxliStore.Preview` | MaxliStore.py:77-78 | the not-found preview shows the first ten names (or all, when fewer) |
| `MaxliStore.SearchCommand` | MaxliStore.py:52-88 | help without words, a load error for an empty listing; otherwise no match gives the preview, one match is downloaded, several are listed |
| `MaxliStore.PartialSearchCommand` | MaxliStore.py:93-125 | usage without words, a load error for an empty listing; otherwise the first min(matches, 20) matches, numbered from 1, with the cap note exactly at 20 |
| `MaxliStore.DownloadByNumber` | MaxliStore.py:143-165 | module n of the query's matches (of all modules for an empty query) when 1 <= n <= their count, else the count available |
| `MaxliStore.DownloadQuery` | MaxliStore.py:137 | no words give the empty query, one word is that word with its case kept, and an empty query means every word was empty |
| `MaxliStore.Candidates` | MaxliStore.py:150-158 | all modules for an empty query; otherwise exactly the modules whose search key contains it; never more than the listing |
| `MaxliStore.DownloadCommand` | MaxliStore.py:130-165 | usage unless the first word is all digits; then selection by number among the candidates of the words, case kept |
| `MaxliStore.DownloadQueryCaseMismatch` | MaxliStore.py:137 | with the listing [weather.py], `.maxlistore_s Weather` matches it but `.maxlistore_download 1 Weather` has no candidates |
| `MaxliStore.DownloadCommandLowered` | MaxliStore.py:130-165 | as the download command, with the words lower-cased like the searches' |
| `MaxliStore.LoweredDownloadFollowsListing` | MaxliStore.py:99-118 | with lowered words, module n of the download command is module n of the partial search's list for the same words |
| `SystemInfo.UnitFor` | system.py:48-51 | a reference for the loop: the unit is at most TB, the size exceeds 1024^unit when the unit is above B, and is at most 1024^(unit+1) below TB |
| `SystemInfo.UnitForUnique` | system.py:49-51 | the size thresholds 1024^n pin the unit down |
| `SystemInfo.FormatBytes` | system.py:43-52 | the unit is at most TB, value times 1024^unit is the size, the value is at most 1024 unless the unit is TB, the previous unit's value exceeded 1024, and the unit is the one the thresholds give; a zero size is 0.0 B |
| `SystemInfo.SplitUptime` | system.py:54-59 | hours below 24 and minutes below 60, and days, hours and minutes bound the seconds within a minute |
| `SystemInfo.SplitUptimeUnique` | system.py:54-58 | any split with those bounds is the one computed |
| `SystemInfo.SplitUptimeMinutes` | system.py:54-58 | days, hours and minutes together count the whole minutes in the seconds |
| `SystemInfo.UptimeTextReadsBack` | system.py:59 | equal "{d}d {h}h {m}m" texts come from equal days, hours and minutes |
| `SystemInfo.FormatUptimeToTheMinute` | system.py:54-59 | two uptimes give the same "{d}d {h}h {m}m" text exactly when they agree to the minute |
| `Speedtest.GetString` | Speedtest.py:75-77 | the language's entry; the English table for an unknown language; the English entry or "" for a key the table lacks |
| `Speedtest.TablesAgree` | Speedtest.py:12-73 | both tables translate the same keys |
| `Speedtest.EntriesNonEmpty` | Speedtest.py:12-73 | no text in either table is empty |
| `Speedtest.GetStringDefaults` | Speedtest.py:75-77 | the default language is Russian; a known key is found in every other language |
| `Speedtest.GetStringEmptyIff` | Speedtest.py:75-77 | the result is "" exactly for a key the English table lacks |
| `Speedtest.EstimateDownloadTime` | Speedtest.py:83-110 | unavailable exactly when the speed is not positive; otherwise under a second, whole seconds, minutes, or hours exactly by the thresholds 1, 60 and 3600 on the transfer time |
| `Speedtest.RenderEstimate` | Speedtest.py:85-110 | every text is non-empty, and only the unavailable estimate reads "N/A" |
| `Speedtest.EstimateText` | Speedtest.py:83-110 | the text is "N/A" exactly when the speed is not positive, and "< 1 сек" for a transfer under a second |
| `Speedtest.NotAvailableIff` | Speedtest.py:83-90 | "N/A" exactly when the speed is not positive |
| `Speedtest.EstimateShortBuckets` | Speedtest.py:92-97 | under a second gives "< 1 сек"; below a minute the whole seconds 1..59 |
| `Speedtest.EstimateMinutesBucket` | Speedtest.py:98-106 | between a minute and an hour the minutes are 1..59, the seconds-only branch is never taken, and minutes and seconds bound the time within a second |
| `Speedtest.EstimateHoursBucket` | Speedtest.py:107-110 | from an hour on, hours at least 1, minutes below 60, bounding the time within a minute |
| `GenImg.EntriesAreTheTable` | genimg.py:13-18 | the ordered entries and the lookup table hold the same pairs |
| `GenImg.ResolveModel` | genimg.py:115-118 | an argument is accepted exactly when its lower-cased form is a key, and then selects that key's model, flux or turbo |
| `GenImg.AliasesAgree` | genimg.py:13-18 | "1" and "flux" select flux, "2" and "turbo" select turbo, and nothing else does |
| `GenImg.WithSetting` | genimg.py:33-39 | after the update the module's settings hold the value under the key |
| `GenImg.WithSettingFrame` | genimg.py:34-39 | other modules, other keys and the descriptions are unchanged; a created module entry holds only the key and no descriptions |
| `GenImg.Config.constructor` | genimg.py:10 | a configuration with the given `external_modules` part |
| `GenImg.Config.GetSetting` | genimg.py:30-31 | the stored value of the key, or the default when the module or key has none |
| `GenImg.Config.SetSetting` | genimg.py:33-40 | the new configuration is the update applied to the old one, and the key reads back as the value |
| `GenImg.Config.CurrentModel` | genimg.py:57 | "flux" while no model is stored; a stored string is returned as it is |
| `GenImg.Config.ModelCommand` | genimg.py:99-122 | without arguments the list for the current model and no change; an unknown model changes nothing; a known one stores its model, which reads back as the current model |
| `GenImg.Config.GenerateCommand` | genimg.py:42-66 | usage exactly without words, an error exactly when no chat id can be had, otherwise the joined prompt and the URL built from the current settings |
| `GenImg.ModelLinesIff` | genimg.py:104-108 | a line is listed exactly for each entry with an all-digit key, numbered by its position among all entries, and marked exactly when its model is the current one |
| `GenImg.AvailableModelLines` | genimg.py:104-108 | for the configured models the list is "1. flux" and "2. turbo", each marked exactly when current |
| `GenImg.RenderModelList` | genimg.py:101-111 | the loop's text is the header, the rendered lines and the footer |
| `GenImg.ImageUrl` | genimg.py:66 | the URL starts with the service, the prompt, the width and the height, ends with the model and the enchant flag as "true" or "false", and is exactly as long as both parts together, so nothing lies between them |
| `GenImg.ImageUrlEnchant` | genimg.py:66 | the URL ends in "&enchant=true" exactly when the flag is set |

## Left out

- All calls into the host (`api.edit`, `api.reply`, `api.send_file`, `api.send_photo`, `api.delete`, `api.await_chat_id`, command and watcher registration): these are foreign calls; their inputs (the owner's id and name, the resolved chat id) are parameters and their outputs are the modelled replies or outcomes.
- HTTP requests (`get_repo_modules`, `download_file`, the image request and its status handling) and file writes and removals: I/O; the directory listing is an input sequence and the download ends at the chosen link.
- Reading and saving the configuration (`get_module_setting`, `register_module_settings`, `save_config`): the core configuration module is not part of this model; `GetSetting` reads the same `external_modules` entry that `set_setting` writes, and a module entry without a "settings" dictionary is not represented.
- The owner's `afk_message` template and its `format` call: the watcher's result is the reason and the duration text that are filled in.
- Clocks (`time.time`, `time.monotonic`, the Moscow time): the current time is a whole number of seconds passed in, so the truncation of a fractional elapsed time in `format_duration` is not modelled.
- System probing in system.py (`psutil`, `platform`, `subprocess`, `/etc/os-release`) and the speed-test library: OS and network I/O.
- `SystemInfo.FormatUptime`: the uptime is taken in whole seconds, whereas the source passes the float `time.time() - psutil.boot_time()`; the fraction, and `timedelta`'s rounding to microseconds just below a minute boundary, are not modelled.
- Floating point: sizes, speeds and transfer times are exact reals; `bits_to_mbps` rounding and every `:.1f` rendering (byte sizes, KB sizes in the module lists, ping, durations) are left out.
- The presentation of `show_modules_list`, `show_all_modules`, `show_help` and `maxlistore_repo_command`: fixed message texts and size columns; the search commands return an `Outcome` naming what is shown.
- `Text.Lower`: case folding covers the Latin and Russian alphabets only, not the whole of Unicode.
- `Text.IsDigits`: `isdigit()` is modelled for ASCII digits only; other Unicode digits are not represented.
- Exceptions: the search, download, speed-test, system-information and image-generation handlers catch theirs and report an error text, which the model does not represent beyond the modelled error paths. The AFK handlers, `.genimgmodel` and `.maxlistore_repo` catch nothing. In the watcher, a timeout setting that `int()` cannot read, or an `afk_message` template with a placeholder other than `{reason}` and `{duration}`, raises and ends the handler with no reply and no throttle update. `Watch` takes the timeout as an integer and leaves the template out, so it does not model that path: it always sends the notice and moves the throttle entry.
- The async structure: handlers run one at a time, so they are ordinary sequential methods.

## Findings

| source | as written | input that shows it | evidently intended | confidence | as-written member | corrected member |
|---|---|---|---|---|---|---|
| MaxliStore.py:137 | the download command joins its query words without lower-casing them, but compares them with lower-cased module names | listing [weather.py]; `.maxlistore_s Weather` lists weather.py as 1, `.maxlistore_download 1 Weather` answers that no module 1 exists | the words lower-cased as in the two search commands (MaxliStore.py:58 and MaxliStore.py:99), so that number n downloads the n-th listed module | not executed; high | `MaxliStore.DownloadQueryCaseMismatch` | `MaxliStore.LoweredDownloadFollowsListing` |
