# Report payload pipeline, modelled in Dafny

This project models the JSON pipeline of a small report wrapper. The wrapper fetches one
report document from an upstream API and then does four things with it:

- **Optimizer** (`src/optimizer.py`). It rewrites each record:
  - it renames the Portuguese keys of `dataCollectFromUser` to English;
  - it tags every `Full Conversation` sender as `"agent"` or `"user"`;
  - it lifts the first non-empty `aiAgent` to `meta.agent` and strips `aiAgent` from every record;
  - it drops an `agentId` that is `[]`.
- **Dashboard** (`src/dashboard_treatments.py`). It folds the optimized records into the "Visão Geral" page:
  - LIA message totals;
  - a two-letter state histogram;
  - ages and six age bands;
  - an after-hours count;
  - hour and day histograms;
  - zero-guarded percentages;
  - six placeholder fields that are always null.
- **Comparison** (`src/compare_report.py`). It measures what the optimizer changed:
  - `compare_responses`;
  - the change bullets and the conclusion of the Markdown report;
  - the metrics filter of `save_comparison_report`;
  - `_safe_suffix`.
- **Cache naming and endpoint lookup** (`src/storage.py` and `src/config.py`):
  - folder names, file-name suffixes and safe file names;
  - slugs, registry entries, `${VAR}` placeholders and `resolve_path`.

## How the model is built

- **JSON values.** JSON is a datatype whose objects are ordered association lists.
  - `d[k] = v` replaces the value in place when `k` is present, and appends the pair otherwise.
  - Key order and overwrite position are therefore observable, as they are in Python.
- **Exceptions.** A Python exception is the `Failure` case of a `Result`.
- **Loops.** Every loop in the source is a `method` with a `while` loop.
  - Each method is proved equal to a specification function: a left fold over the rest of the input.
  - The promised properties are proved as lemmas about those functions.
- **Pure helpers.** These are functions with contracts.
- **Parameters.** The registry (`api_endpoints.json`), the environment, the clock (`today`, `now`) and the JSON byte sizes are all parameters.

## Where the code and its documentation disagree

The model follows the code in each case below.

- **Consolidation.** The documentation says English keys are preferred. In the code, only writes that come from Portuguese keys are recorded in `seen_en`, so an English key always assigns. With both `nome completo` and `name` present, the later entry's value wins, at the earlier entry's position.
- **After-hours.** The docstring says the window ends at 09h (exclusive). The code tests `hour >= 19 or hour < 8`, so 08:00–08:59 is not after hours.
- **The optimizer is not total.** It raises in three cases:
  - on any record that is not a dict;
  - on a first truthy `aiAgent` that `dict.update` cannot read as key/value pairs: a string, a number, `true`, or a list with an element that is not a pair. A pair is a two-element list with a string key, a two-character string, or a dict with two keys. A list of pairs such as `[["id", 5]]` is accepted and lifted as `{"id": 5}`;
  - when an agent was found and `meta` exists but is not a dict.
- **An out-of-range timestamp is fatal.** An unparseable date is meant to be skipped, never fatal. The epoch branch of `_parse_date` catches only `OSError` and `ValueError`, though. A numeric `createdAt` or `birthDate` outside the platform's `time_t` range, such as `-1e19` or `10**22`, makes `utcfromtimestamp` raise `OverflowError`, and `build_visao_geral` then raises. The model does not follow the code here (see `Dashboard.ParseDate` under "## Left out").
- **`compare_responses` raises** when the optimized `meta` is truthy but not a dict.
- **The optimizer is not idempotent.** The tag `"agent"` is not a list, so a second run tags it `"user"`.

## Model

| member | source | states |
|---|---|---|
| JsonValues.Get | src/optimizer.py:72 | `d.get(k)` finds a value exactly when `k` is a key, and the pair it finds is in the dict |
| JsonValues.Set | src/optimizer.py:35-38 | `d[k] = v`: afterwards `k` maps to `v` and every other key keeps its value. An existing key keeps its position, a new key is appended, and distinct keys stay distinct |
| JsonValues.Remove | src/optimizer.py:71-73 | `d.pop(k, None)`: `k` is gone and every other key keeps its value. An absent key changes nothing |
| JsonValues.LastGet | src/optimizer.py:31-38 | the value under the last occurrence of a key exists exactly when the key occurs |
| JsonValues.Update | src/optimizer.py:70 | `acc.update(pairs)`: the keys are the union. A key named by the pairs holds the last value they give it, and any other key keeps `acc`'s value |
| JsonValues.UpdateCopies | src/optimizer.py:70 | updating with entries under fresh keys appends them, so `{}.update(a)` is a copy of `a` |
| JsonValues.AssignFromMeaning | src/compare_report.py:265-270 | a filtering copy loop over a dict holds, under each source key, what the entry rule makes of its value, and nothing under a skipped key |
| Text.TrimStart | src/storage.py:33 | `lstrip`: the result is a suffix of the input, does not start with a stripped character, and everything cut off is stripped |
| Text.TrimEnd | src/storage.py:17 | `rstrip`: the result is a prefix of the input, does not end with a stripped character, and everything cut off is stripped |
| Text.TrimFacts | src/storage.py:17 | `strip`: the result is the middle slice between a stripped prefix and a stripped suffix. Neither end is strippable, and it is empty exactly when every character is stripped |
| Text.UpperChar | src/dashboard_treatments.py:54 | `upper` moves `a`–`z` to `A`–`Z`, keeps every other ASCII character, and never yields the empty string |
| Text.Upper | src/dashboard_treatments.py:54 | upper-casing never shortens a string, so a non-empty string stays non-empty |
| Text.ReplaceOutside | src/storage.py:18 | `re.sub(r"[^class]", "_", s)` keeps the length. Each character is kept exactly when it is in the class, and becomes `_` otherwise |
| Text.ReplaceChar | src/config.py:77 | `s.replace(a, b)` keeps the length, turns every `a` into `b`, and keeps every other character |
| Text.NatToString | src/compare_report.py:176 | `str(n)` is a non-empty string of digits without a leading zero |
| Text.NatToStringRoundTrip | src/compare_report.py:176 | `int(str(n)) == n` |
| Text.StrLtIrreflexive | src/dashboard_treatments.py:157-159 | Python's `str` order, used by `sorted`, is irreflexive |
| Text.StrLtTransitive | src/dashboard_treatments.py:157-159 | that order is transitive |
| Text.StrLtTotal | src/dashboard_treatments.py:157-159 | any two distinct strings are ordered one way or the other |
| Counters.Inc | src/dashboard_treatments.py:112 | `c[k] += 1` on a `defaultdict(int)`: `k`'s count and the total each grow by one, and a new key is appended with count 1. Distinct keys and positive counts are kept |
| Counters.IncOthers | src/dashboard_treatments.py:124-126 | the increment leaves every other key's count alone and adds no key but `k` |
| Counters.Insert | src/dashboard_treatments.py:157 | inserting into a sorted list adds exactly that pair: the multiset, the length, the total, the key set and the counts change accordingly |
| Counters.SortedByKey | src/dashboard_treatments.py:157-159 | `dict(sorted(c.items()))` is a permutation of the entries. Length, total and key set are the same, and on distinct keys every count is the same |
| Counters.InsertAscending | src/dashboard_treatments.py:157 | inserting a new key into an ascending list keeps it ascending |
| Counters.SortedByKeyAscending | src/dashboard_treatments.py:157-159 | the emitted histogram has strictly ascending keys |
| Optimizer.PtToEnShape | src/optimizer.py:8-19 | the rename map is injective and inverted by its reverse map. The only English name that is also a Portuguese name is `cpf`, which maps to itself |
| Optimizer.EnToPtInverts | src/optimizer.py:8-19 | every Portuguese name is recovered from its English name |
| Optimizer.OnlyCpfIsBoth | src/optimizer.py:8-19 | a Portuguese name whose English name is again Portuguese can only be `cpf` |
| Optimizer.ConsolidateFromCons | src/optimizer.py:31-38 | one loop step. A non-Portuguese key is assigned as is. A Portuguese key is assigned under its English name unless a Portuguese key already wrote that name |
| Optimizer.ConsolidateDataCollectFromUser | src/optimizer.py:22-39 | the loop returns falsy and non-dict values unchanged, and consolidates a dict |
| Optimizer.ConsolidateValue | src/optimizer.py:22-39 | falsy and non-dict values are returned unchanged. A dict gives a dict with distinct keys and no Portuguese key but `cpf`, where each key holds the value of the last entry renamed to it |
| Optimizer.Renamed | src/optimizer.py:31-38 | renaming keeps the number of entries and gives every key its English name. No Portuguese name other than `cpf` is left |
| Optimizer.ConsolidateFromIsUpdate | src/optimizer.py:31-38 | on a dict, `seen_en` never skips an entry: consolidating is assigning every renamed entry in order |
| Optimizer.ConsolidatedMeaning | src/optimizer.py:22-39 | consolidation keeps distinct keys and renames every key. It leaves no Portuguese key but `cpf`, has exactly the renamed keys, and each name holds the value of the last entry renamed to it |
| Optimizer.ConsolidatedLaterWins | src/optimizer.py:31-38 | `nome completo` then `name`, or the reverse: the later value wins at the first position. Unknown keys stay in place |
| Optimizer.PortugueseThenEnglish | src/optimizer.py:31-38 | `[nome completo, name]` consolidates to the single `name` holding the English entry's value |
| Optimizer.EnglishThenPortuguese | src/optimizer.py:31-38 | `[name, nome completo]` consolidates to the single `name` holding the Portuguese entry's value |
| Optimizer.UnknownKeyKeptInPlace | src/optimizer.py:31-38 | an unknown key between `cidade` and `city` stays second, and `city` holds the later value |
| Optimizer.NormalizeSender | src/optimizer.py:42-51 | the tag is `"agent"` or `"user"`. It is `"agent"` exactly for a non-empty list whose first element is a dict with a truthy `firstName` |
| Optimizer.NormalizeTagIsUser | src/optimizer.py:51 | every string, `"agent"` included, is tagged `"user"` |
| Optimizer.NormalizedEntries | src/optimizer.py:65-68 | the entries keep their number, and entry i is entry i with its sender tagged |
| Optimizer.NormalizeConversation | src/optimizer.py:65-68 | the in-place sender loop yields exactly the normalized entries |
| Optimizer.ConsolidateStep | src/optimizer.py:61-64 | a present `dataCollectFromUser` is consolidated. The key set and every other value are unchanged |
| Optimizer.ConversationStep | src/optimizer.py:65-68 | a list `Full Conversation` has its senders tagged. The key set and every other value are unchanged |
| Optimizer.AgentStep | src/optimizer.py:71-73 | `aiAgent` is absent afterwards. `agentId` is removed exactly when it equals `[]`, and other keys are unchanged |
| Optimizer.OptimizedRecord | src/optimizer.py:60-74 | the optimized record: no `aiAgent`, `agentId` gone only when `[]`, data consolidated, senders tagged. Every other key keeps its value |
| Optimizer.PairOf | src/optimizer.py:70 | one list element gives a pair exactly when it is a two-element list with a string key (the pair is its two items) or a two-character string (its two characters). A two-key dict gives its two keys. Scalars never give a pair |
| Optimizer.PairsOf | src/optimizer.py:70 | a list is read as pairs exactly when every element gives a pair. The pairs keep the list's length and order |
| Optimizer.AgentPairs | src/optimizer.py:70 | `update` reads a dict's own entries or a list's pairs, and cannot read a string, a number or a boolean. A readable agent is truthy exactly when it gives some pair |
| Optimizer.DonateAgent | src/optimizer.py:69-70 | the accumulator is filled only while empty and only from a truthy `aiAgent`, and then holds the last value the pairs give each key. It raises exactly when that agent cannot be read as pairs |
| Optimizer.OptimizeItem | src/optimizer.py:54-74 | raises exactly on a non-dict item or a raising `update`. The record has no `aiAgent`, and an already filled accumulator is returned unchanged |
| Optimizer.OptimizeConversationItem | src/optimizer.py:54-74 | the record method fails exactly on a non-dict, or when `update` raises on an agent it cannot read as pairs. Otherwise it returns the optimized record and the new accumulator |
| Optimizer.OptimizeReport | src/optimizer.py:77-99 | a falsy or non-dict document is returned as is, and a dict that does not raise gives a dict |
| Optimizer.AttachAgent | src/optimizer.py:95-98 | raises exactly when there is an agent and `meta` exists but is not a dict. Otherwise only `meta` changes: it gains (or is created with) `agent` |
| Optimizer.OptimizeRecords | src/optimizer.py:88-94 | the record loop threads the accumulator, which takes the first truthy agent read as a dict or as a list of pairs, and stops at the first raising record |
| Optimizer.OptimizeReportResponse | src/optimizer.py:77-99 | the method computes `optimize_report_response` as specified by `OptimizeReport` |
| Optimizer.OptimizedRecords | src/optimizer.py:88-94 | the same number of records, record i being input record i optimized |
| Optimizer.OptimizeRecordsAgent | src/optimizer.py:69-70 | the loop raises exactly on a non-dict record, or on a first truthy agent that cannot be read as pairs. Otherwise it ends holding the dict built from that agent, and a filled accumulator is never touched again |
| Optimizer.OptimizeRecordsOrder | src/optimizer.py:88-94 | the loop's output is the records optimized, in order |
| Optimizer.OptimizeReportFails | src/optimizer.py:77-99 | falsy and non-dict documents come back unchanged. A dict raises exactly on a non-dict record, on a first truthy agent that cannot be read as pairs, or on an agent with a non-dict `meta` |
| Optimizer.OptimizeReportResult | src/optimizer.py:84-98 | on success, every top-level field but `data` and `meta` is kept. `data` holds the records optimized, or is dropped when not a list. `meta` is unchanged unless an agent was found, and then holds it under `agent` |
| Optimizer.WithOptimizedDataResult | src/optimizer.py:85-94 | the data step moves `data` last, holding the optimized records, and lifts the first agent; `meta` is not touched |
| Optimizer.LiftedAgentCopies | src/optimizer.py:69-70 | `meta.agent` is a copy of the first truthy `aiAgent` dict |
| Optimizer.PairListRecord | src/optimizer.py:54-74 | a record holding only `aiAgent: [["id", 5]]` becomes `{}` and fills the accumulator with `{"id": 5}` |
| Optimizer.PairListAgentLifted | src/optimizer.py:77-99 | the document `{"data": [{"aiAgent": [["id", 5]]}]}` optimizes to `{"data": [{}], "meta": {"agent": {"id": 5}}}` |
| Optimizer.ReportWithNewMeta | src/optimizer.py:95-98 | an agent found in a document without `meta` is attached as a new last field `meta` holding only `agent` |
| Optimizer.StringAgents | src/optimizer.py:70 | a list holding `"ab"` fills the accumulator with `{"a": "b"}`, and a truthy string agent raises |
| Optimizer.OneEntryRecord | src/optimizer.py:65-68 | a record holding only a one-entry conversation changes only that entry's sender |
| Optimizer.OneEntryRecords | src/optimizer.py:88-94 | the loop over that single record yields it optimized, with an empty accumulator |
| Optimizer.OneEntryReport | src/optimizer.py:77-99 | a document of one such record optimizes to the same shape with the entry normalized |
| Optimizer.ReportWithoutAgent | src/optimizer.py:95-99 | when no agent is found, the result is the data step's document unchanged |
| Optimizer.OptimizeNotIdempotent | src/optimizer.py:42-51 | optimizing twice differs from optimizing once: an `"agent"` tag becomes `"user"` |
| Optimizer.ListSenderTaggedAgent | src/optimizer.py:48-49 | a list sender with a named first dict is tagged `"agent"` |
| Optimizer.AgentStringTaggedUser | src/optimizer.py:51 | the string `"agent"` is tagged `"user"` |
| Dashboard.EpochSeconds | src/dashboard_treatments.py:18-19 | numbers above 10^12 are milliseconds and are divided by 1000. Others are seconds |
| Dashboard.ParseDate | src/dashboard_treatments.py:12-33 | `None`, lists and dicts give no date, and a string is handed to the text formats. An integer is read as seconds, or as milliseconds above 10^12. The uncaught `OverflowError` is not modelled (see "## Left out") |
| Dashboard.AgeInYears | src/dashboard_treatments.py:36-45 | the age is the number of anniversaries of the birth day on or before today: the r-th is not after today and the (r+1)-th is. It is None exactly when today is before the birth day, and a birthday exactly n years ago gives n |
| Dashboard.Idade | src/dashboard_treatments.py:36-45 | an age exists exactly when the birth date parses and is not after today. It is the number of anniversaries on or before today |
| Dashboard.ForaDoHorario | src/dashboard_treatments.py:82-85 | not after hours exactly when 8 <= hour < 19 |
| Dashboard.ForaDoHorarioBoundaries | src/dashboard_treatments.py:85 | 19:00 and 07:00 are after hours; 08:00 and 18:00 are not |
| Dashboard.TwoDigits | src/dashboard_treatments.py:124-125 | a zero-padded `strftime` field is two digits |
| Dashboard.TwoDigitsOrder | src/dashboard_treatments.py:157-159 | comparing keys that start with two-digit fields compares the numbers first |
| Dashboard.FourDigits | src/dashboard_treatments.py:125 | `%Y` of a four-digit year is its two two-digit halves |
| Dashboard.HourKeyOrder | src/dashboard_treatments.py:157 | `%H:00` keys sort in hour order |
| Dashboard.DayKeyShape | src/dashboard_treatments.py:125 | a `%Y-%m-%d` key of a four-digit year is four two-digit fields and dashes |
| Dashboard.MonthDayOrder | src/dashboard_treatments.py:158-159 | `-%m-%d` tails sort by (month, day) |
| Dashboard.DayKeyOrder | src/dashboard_treatments.py:158-159 | for four-digit years, `%Y-%m-%d` keys sort in date order |
| Dashboard.Take2 | src/dashboard_treatments.py:54 | `s[:2]` is the first two characters, or all of a shorter string |
| Dashboard.ExtrairEstado | src/dashboard_treatments.py:48-54 | a state exists exactly when `dataCollectFromUser.state` is a string with a non-space character. It is exactly the first two characters of the stripped, upper-cased value, or all of it when shorter |
| Dashboard.ExtrairDataAtendimento | src/dashboard_treatments.py:57-63 | a missing `createdAt` gives no date. A date comes only from a string, a number or a bool, and a string goes to the text formats |
| Dashboard.ContarMensagensAgente | src/dashboard_treatments.py:66-71 | 0 without a list conversation, and otherwise at most the number of entries |
| Dashboard.AgentEntries | src/dashboard_treatments.py:71 | counts no more than the entries there are |
| Dashboard.MensagensLiaItem | src/dashboard_treatments.py:74-79 | a non-negative integer `botMessageCount` is taken as is, and a non-negative float is truncated. A bool gives 1 or 0, as `int(True)` and `int(False)` do. Any other value gives the conversation's `"agent"` entries |
| Dashboard.AgentEntriesAfterNormalize | src/dashboard_treatments.py:66-71 | on an optimized conversation, the fallback counts exactly the entries whose raw sender was recognised as the agent |
| Dashboard.AgeBand | src/dashboard_treatments.py:129-142 | an age falls in the band whose range holds it |
| Dashboard.AgeBandUnique | src/dashboard_treatments.py:130-142 | no age belongs to two bands |
| Dashboard.BandsFromCounts | src/dashboard_treatments.py:129-142 | the bands grow by the number of ages, and `0-17` grows by the number under 18 |
| Dashboard.StateCount | src/dashboard_treatments.py:110-112 | the number of dict records whose state is `st` is at most the number of records with a state |
| Dashboard.HourCount | src/dashboard_treatments.py:120-124 | the number of dict records dated within hour `h` is at most the number of dated records |
| Dashboard.DayCount | src/dashboard_treatments.py:120-126 | the number of dict records dated on day `d` is at most the number of dated records |
| Dashboard.AgesOf | src/dashboard_treatments.py:113-119 | the valid ages of the dict records, in record order, one per record with a valid `birthDate` |
| Dashboard.InBand | src/dashboard_treatments.py:129-142 | the number of ages in band `i` is at most the number of ages |
| Dashboard.BandsFromPerBand | src/dashboard_treatments.py:129-142 | each band grows by exactly the number of ages that fall in its range |
| Dashboard.CountStateKey | src/dashboard_treatments.py:110-112 | the state step adds 1 under the record's own state and leaves every other key alone |
| Dashboard.CountDateKey | src/dashboard_treatments.py:120-126 | the date step adds 1 under the record's own hour and day keys and leaves every other key alone |
| Dashboard.TallyItemKeys | src/dashboard_treatments.py:106-126 | one item moves the state, hour and day counts under a key by exactly its own term. A non-dict item moves none |
| Dashboard.TallyItemAges | src/dashboard_treatments.py:106-119 | one item appends its valid age, if it has one, and nothing else |
| Dashboard.TallyFromKeys | src/dashboard_treatments.py:106-126 | over the loop, the count under every key grows by the number of records counted under that key |
| Dashboard.TallyFromAges | src/dashboard_treatments.py:106-119 | over the loop, the ages of the records are appended in record order |
| Dashboard.TallyHistograms | src/dashboard_treatments.py:106-126 | from the empty tally, every histogram's count under each key is its reference count, and the ages are the records' ages in order |
| Dashboard.AfterHoursCount | src/dashboard_treatments.py:120-123 | the number of dict records whose parsed `createdAt` is after hours is at most the number of dated records |
| Dashboard.TallyItemCounts | src/dashboard_treatments.py:106-126 | one item moves each counter, the after-hours count included, by exactly its own reference term. A non-dict item moves none |
| Dashboard.TallyFromCounts | src/dashboard_treatments.py:106-126 | over the loop, the LIA sum, the state total, the ages, the after-hours count and the hour and day totals are the reference counts over the records |
| Dashboard.CountAgeInvariant | src/dashboard_treatments.py:113-119 | the age step keeps `menores_de_18` equal to the number of ages under 18 |
| Dashboard.CountLiaInvariant | src/dashboard_treatments.py:109 | the LIA step keeps the loop invariant |
| Dashboard.CountStateInvariant | src/dashboard_treatments.py:110-112 | the state step keeps the loop invariant |
| Dashboard.CountDateInvariant | src/dashboard_treatments.py:120-126 | the date step keeps volume equal to cohort and after-hours within the hour total |
| Dashboard.TallyRecordInvariant | src/dashboard_treatments.py:109-126 | one dict record keeps the loop invariant |
| Dashboard.TallyItemInvariant | src/dashboard_treatments.py:106-108 | one item, skipped or not, keeps the loop invariant |
| Dashboard.TallyFromInvariant | src/dashboard_treatments.py:106-126 | the whole loop keeps the invariant: volume equals cohort, minors are counted, after-hours is bounded, histograms have distinct keys and positive counts |
| Dashboard.Percent | src/dashboard_treatments.py:145-146 | the integer 0 for no records. Otherwise part × 100 / total (unrounded) |
| Dashboard.CounterJson | src/dashboard_treatments.py:151 | `dict(counter)` keeps the entries and their order |
| Dashboard.BandsJson | src/dashboard_treatments.py:129 | the six bands in their fixed order |
| Dashboard.RenderOverview | src/dashboard_treatments.py:148-167 | the page has its 17 fields, the last six being null placeholders |
| Dashboard.OverviewHistograms | src/dashboard_treatments.py:110-142 | under every key, `estados` holds the number of dict records whose state is that key, `volume_por_hora` the number dated in that hour, `volume_por_dia` and `cohort_por_dia` the number dated on that day. The ages are those of the dict records in order, and each band holds the number of them in its range |
| Dashboard.OverviewFacts | src/dashboard_treatments.py:94-146 | `total_conversas` counts every item of a list `data` and is 0 otherwise. The LIA sum, the number of stated, aged and dated records, and the after-hours count equal their reference counts, the bands sum to the ages, `0-17` equals `menores_de_18`, volume equals cohort, and `fora_do_horario_count` is the number of records dated after hours, at most the dated records |
| Dashboard.HistogramsAscending | src/dashboard_treatments.py:157-159 | the hour, volume and cohort histograms are emitted with ascending keys |
| Dashboard.EmptyPercentages | src/dashboard_treatments.py:145-146 | with no records both percentages are the integer 0 |
| Dashboard.CountStateStep | src/dashboard_treatments.py:110-112 | the state step of the loop body |
| Dashboard.CountAgeStep | src/dashboard_treatments.py:113-119 | the age step of the loop body |
| Dashboard.CountDateStep | src/dashboard_treatments.py:120-126 | the date step of the loop body |
| Dashboard.CountRecord | src/dashboard_treatments.py:106-126 | the loop body on one item, non-dicts skipped |
| Dashboard.VisaoGeral | src/dashboard_treatments.py:88-167 | the page has 17 fields. `total_conversas` is the number of items of `data`, `mensagens_lia` the LIA sum over the records and `fora_do_horario_count` the number of records dated after hours |
| Dashboard.BuildVisaoGeral | src/dashboard_treatments.py:88-167 | the two loops and the page equal the specification `VisaoGeral`, whose properties are `OverviewFacts` |
| Dashboard.BuildDashboardPayload | src/dashboard_treatments.py:170-177 | the payload is exactly `{"visao_geral": page}` |
| Config.GetEndpointSlug | src/config.py:70-77 | a mapped key gives its slug. Otherwise the key has `-` turned into `_` and is stripped, with `"default"` for a blank result. The result is never empty and an unmapped key's slug holds no `-` |
| Config.ReportLiaSlug | src/config.py:67 | `report_lia` gives `liareport`, and a blank key gives `default` |
| Config.ResolveValue | src/config.py:129-133 | a `${VAR}` string becomes the environment value of the stripped name, or `""` when unset. Anything else is copied |
| Config.ResolvedPointwise | src/config.py:127-133 | every default entry in order, its value resolved |
| Config.ResolvedPointwiseKeys | src/config.py:127-133 | resolving keeps the key set |
| Config.ResolveFromPointwise | src/config.py:127-133 | on a dict, the resolution loop resolves each value in place and keeps the key order |
| Config.ResolveOne | src/config.py:129-133 | the loop body on one value |
| Config.ResolveDefaults | src/config.py:127-133 | the resolution loop |
| Config.GetEndpointConfig | src/config.py:108-135 | a key with `/` gives its path, leading slashes stripped, with no defaults. Otherwise there is a config exactly when the entry is a string or a dict with `path`, and a string entry gives itself with no defaults |
| Config.EndpointDefaults | src/config.py:122-134 | a dict entry gives its `path` and its defaults resolved pointwise. A non-dict `default_params` gives none |
| Config.ResolvePath | src/config.py:138-145 | a path exactly when `get_endpoint_config` finds one (a JSON null reads as None), and then that path |
| Config.EntryPath | src/config.py:101-104 | the loop body on one registry entry |
| Config.LoadEndpoints | src/config.py:93-105 | the filtering loop of `load_endpoints` |
| Config.LoadEndpointsMeaning | src/config.py:99-105 | exactly the string entries and the dicts with `path` are kept, each under its key with its path |
| Config.LoadEndpointsAgreesWithResolvePath | src/config.py:138-145 | on keys without `/`, `load_endpoints` and `get_endpoint_config` agree on which keys exist and on their paths |
| Storage.NormalizeForFolder | src/storage.py:15-19 | the result is never empty and uses only `[\w\-.]`. It is `default` when nothing is left after stripping, and otherwise the stripped name with every other character turned into `_` |
| Storage.NormalizeKeeps | src/storage.py:15-19 | a non-empty name made of folder characters is its own normal form |
| Storage.NormalizeForFolderIdempotent | src/storage.py:15-19 | normalizing twice is normalizing once |
| Storage.CacheFolderName | src/storage.py:27-34 | a resolving key without `/` names its own folder. A path loses its leading slashes and has `/` turned into `_`, and an empty unresolved key gives `unknown`. A non-empty key without `/` is normalized as it is, whether or not it resolves |
| Storage.PathFolder | src/storage.py:33-34 | a path folder is a non-empty string of folder characters |
| Storage.PathFolderIgnoresRegistry | src/storage.py:28-34 | a key with `/` gets the same folder whatever the registry and environment |
| Storage.UnknownFolder | src/storage.py:33 | the fallback `unknown` is kept as is |
| Storage.PathFolderOfCleanPath | src/storage.py:32-34 | a clean path gets exactly its slashes turned into `_` |
| Storage.Cut50 | src/storage.py:47 | `str(v)[:50]` is a prefix of at most 50 characters, and the whole value when it is short enough |
| Storage.PartOf | src/storage.py:46-48 | a key contributes one part exactly when its value is non-empty |
| Storage.Join | src/storage.py:51 | joining no parts is empty, and joining one part is that part |
| Storage.SuffixFromParams | src/storage.py:40-51 | empty params, or params where no part counts, give the clock. A single part is the suffix by itself |
| Storage.SuffixFromParamsLoop | src/storage.py:40-51 | the loop of `_suffix_from_params` |
| Storage.SuffixParts | src/storage.py:45-48 | the parts are those of `from`, `to`, `agentId`, in that order |
| Storage.SuffixFromParamsMeaning | src/storage.py:42-51 | the clock is used exactly when none of the three keys has a value. Otherwise the suffix is the joined parts |
| Storage.SuffixUsesThreeKeys | src/storage.py:45 | params agreeing on `from`, `to` and `agentId` give the same suffix |
| Storage.SuffixOfFromOnly | src/storage.py:45-51 | a lone `from` gives `from=` followed by at most fifty characters of it |
| Storage.CacheSuffix | src/storage.py:54-70 | `latest` gives the slug. Another non-empty timestamp gives `slug_timestamp`, and none gives the params suffix. The slug is `default` for keys with `/` |
| Storage.LatestSuffixIsStable | src/storage.py:65-68 | with `latest` the suffix ignores params and clock, and `report_lia` gives `liareport` |
| Storage.SafeSuffix | src/storage.py:86 | same length; a character is kept exactly when it is in `[\w\-=.]`, and the result uses only that class |
| Storage.SafeSuffixIdempotent | src/storage.py:86 | making safe twice is making safe once, and a safe suffix is kept |
| Storage.FileName | src/storage.py:86-88 | the name is `prefix_`, then the safe suffix, then `.json` |
| Storage.LatestFileName | src/storage.py:81 | `report_lia` saved as `latest` gives `<prefix>_liareport.json` |
| Storage.FileNamesDistinct | src/storage.py:86-88 | the raw, optimized and dashboard files of one call never collide |
| CompareReport.PtKeysMirrorRenameMap | src/compare_report.py:13-17 | the set equals the optimizer map's keys, and `cpf`, which keeps its name, is in it |
| CompareReport.SavedPercent | src/compare_report.py:72-73 | 0 for an empty raw payload, otherwise saved / size × 100. It is positive exactly when both are positive |
| CompareReport.CountFullConversationEntries | src/compare_report.py:80-85 | the nested loop sums the list lengths of dict records |
| CompareReport.AgentItems | src/compare_report.py:91-92 | counts at most the records there are |
| CompareReport.EmptyAgentIdItems | src/compare_report.py:95-96 | counts at most the records there are |
| CompareReport.MetaAgent | src/compare_report.py:93 | raises exactly on a truthy non-dict `meta`. Otherwise true exactly when `meta` is a dict with a truthy `agent` |
| CompareReport.SenderChangedMeaning | src/compare_report.py:109 | the sender test is "the optimized sender is a string different from the raw one" |
| CompareReport.SenderChanges | src/compare_report.py:105-110 | pairs are counted only up to the shorter list |
| CompareReport.CountSenderChanges | src/compare_report.py:105-110 | the inner zip loop |
| CompareReport.PtKeyCount | src/compare_report.py:113 | counts at most the keys there are |
| CompareReport.CountRecordPairs | src/compare_report.py:98-115 | the record zip loop: the `len` alternative only adds zero |
| CompareReport.When | src/compare_report.py:131-141 | a summary entry is present exactly when its condition fired |
| CompareReport.MetricsOf | src/compare_report.py:64-142 | `saved` is the size difference and its percentage is `saved` × 100 / raw size. The record counts are the lengths of the two `data` lists, and the conversation entries are the two `fullConversation` totals. The agent and empty-`agentId` removals are the raw minus the optimized counts, and the sender and Portuguese-key counters are their sums over the zipped record pairs. Each summary entry is present exactly when its counter fired |
| CompareReport.Compare | src/compare_report.py:64-142 | raises exactly on a truthy non-dict `meta`. `saved` is the size difference, possibly negative. `meta_agent_at_root` holds exactly when `meta` is a dict with a truthy `agent`. The four counters are their reference counts over the two record lists. Each of the five summary entries is present exactly when its counter fired |
| CompareReport.Measure | src/compare_report.py:68-115 | the counting loops compute the metrics |
| CompareReport.CompareResponses | src/compare_report.py:64-142 | the method computes `compare_responses` as specified by `Compare` |
| CompareReport.SenderChangesAfterNormalize | src/compare_report.py:105-110 | against its own normalization, a conversation counts exactly the senders whose tag differs from them |
| CompareReport.OptimizedCounts | src/compare_report.py:80-115 | against the optimizer's output, conversation totals agree, no agent or empty `agentId` is left, and senders and Portuguese keys count as in the raw records |
| CompareReport.OptimizedReportRecords | src/compare_report.py:75-76 | the optimized document's records are the raw records optimized |
| CompareReport.OptimizedMeta | src/compare_report.py:93 | the optimized `meta` is the raw one, unless an agent was lifted, and then it is a dict holding it |
| CompareReport.CompareAfterOptimizeFails | src/compare_report.py:93 | comparing with the optimizer's output raises exactly when no agent was lifted and the raw `meta` is truthy but not a dict |
| CompareReport.CompareAfterOptimize | src/compare_report.py:64-142 | comparing with the optimizer's output: counts are kept, every agent and empty `agentId` counts as removed, senders and Portuguese keys (`cpf` included) are counted, and `meta_agent_at_root` holds when an agent was lifted, and otherwise exactly when the raw `meta` is a dict with a truthy `agent` |
| CompareReport.CompareRaisesOnListMeta | src/compare_report.py:93 | a document with a list `meta` optimizes to itself, and the comparison then raises |
| CompareReport.NonNull | src/compare_report.py:270 | exactly the non-null elements are kept |
| CompareReport.Serializable | src/compare_report.py:267-270 | a scalar is kept, a list loses its nulls, and a dict is dropped |
| CompareReport.SerializeOne | src/compare_report.py:267-270 | the test of the loop on one value |
| CompareReport.SerializeMetrics | src/compare_report.py:265-270 | the filter loop of `save_comparison_report` |
| CompareReport.SummaryJson | src/compare_report.py:131-141 | a summary entry is null exactly when its change did not happen |
| CompareReport.NonNullSummary | src/compare_report.py:270 | a written summary has one line per change that happened |
| CompareReport.SerializedMeaning | src/compare_report.py:265-270 | on any dict, each key keeps its scalar, loses the nulls of its list, or disappears for a dict |
| CompareReport.SerializedSummaries | src/compare_report.py:264-271 | the written `summary_removed`, `summary_added` and `summary_normalized` list exactly the removals, additions and normalizations that happened |
| CompareReport.Bullets | src/compare_report.py:175-182 | one bullet per nonzero count, in a fixed order: the `aiAgent` bullet first, the `dataCollectFromUser` bullet last |
| CompareReport.Conclusion | src/compare_report.py:184-190 | the text starts with "Sim" exactly when the percentage is positive. It is the fixed structural text otherwise |
| CompareReport.BuildBullets | src/compare_report.py:175-182 | the bullets are appended one optimization at a time |
| CompareReport.AppendBullet | src/compare_report.py:175-176 | a bullet is appended exactly when its count is nonzero |
| CompareReport.ChangesSection | src/compare_report.py:171-191 | the report tail is the heading, the bullets and the conclusion |
| CompareReport.ReportAfterOptimize | src/compare_report.py:175-189 | after an optimizer run, the removal summaries match the bullets, and the conclusion says "Sim" exactly when the payload shrank |
| CompareReport.SafeSuffixOf | src/compare_report.py:20-23 | the suffix uses only `[\w\-=.]` and keeps the params suffix's length |
| CompareReport.SafeSuffixMatchesStorage | src/compare_report.py:32-35 | the comparison looks up exactly the names `save_raw` and `save_optimized` write without a timestamp |

## Left out

- Dashboard.ParseDate: an `OverflowError` from an out-of-range numeric date is not caught in the source and escapes `_extrair_data_atendimento`, `_idade_em_anos` and `build_visao_geral`. The Option-valued `fromEpoch` cannot express it, so every date reading here either parses or gives no date, and `Idade`, `ExtrairDataAtendimento` and `VisaoGeral` always produce a result.
- HTTP, the FastAPI route, the CLI entry points, threads and ngrok. `src/wrapper.py`, `src/wrapper_server.py`, `src/api_client.py` and `main.py` are not part of this model, and neither is the route's one-line union of query params over defaults.
- File-system I/O:
  - `mkdir` in `get_cache_folder`;
  - the JSON writes of `save_raw`, `save_optimized` and `save_dashboard`;
  - `load_raw_and_optimized`;
  - the mtime-sorted glob of `get_raw_and_optimized_paths` (only its params branch is modelled);
  - the writes of `save_comparison_report`;
  - `.env` loading and the lazy global caches of `src/config.py`.
  The registry and the environment are parameters.
- `json.dumps` and UTF-8 byte counting. The two sizes are inputs.
- Clocks. `datetime.now` and `datetime.utcnow` are the parameters `today` and `now`.
- `_parse_date` string and epoch parsing (`strptime`, `fromisoformat`, `utcfromtimestamp`). It is the abstract pair of functions `DateParser`, and only the 10^12 milliseconds threshold is stated.
- The header, size and structure lines of the Markdown report, the parameter line, and `generate_comparison_html`. They are number formatting (`{:,}`, `.2f`, `/1024`) and HTML rendering.
- Dashboard.Percent: the result is not rounded to two decimals (`round(..., 2)`). It is stated exactly as part × 100 / total.
- CompareReport.SavedPercent: the result is not rounded to two decimals.
- CompareReport.Conclusion: the test is on the unrounded percentage, and the printed percentage text is the parameter `pctText`. The source tests the rounded value, so a saving under 0.005% gives the structural text there. The same caveat applies to `ReportAfterOptimize`.
- Optimizer.DonateAgent: a list of pairs whose key is not a string (a number, a boolean or null) is modelled as raising. The source builds a dict with that non-string key, which the model's string-keyed objects cannot hold. A list of pairs with string keys is modelled exactly.
- Optimizer.OptimizeRecords: shares the `DonateAgent` limit on non-string keys in a list-of-pairs agent.
- Optimizer.OptimizeReportResponse: shares the `DonateAgent` limit on non-string keys in a list-of-pairs agent.
- JSON numbers are exact: integers are unbounded and floats are exact reals. `NaN`, `Infinity` and `-Infinity`, which `json.load` accepts, are not values of the model. So the `OverflowError` of `int(count)` on an infinite `botMessageCount`, and comparisons with `NaN`, are not modelled. Neither is binary floating-point rounding, in the milliseconds division or in the percentages.
- Text.UpperChar: `str.upper` is exact only up to U+00FF. Characters above are left unchanged.
- Text.IsWordChar: `\w` is exact only up to U+00FF. Characters above are not word characters.
- Dashboard.DayKeyOrder: the date-order property requires four-digit years, because `%Y` is not zero-padded below year 1000.
- Query parameters are a map from string to string. `str(v)` of other value types is not modelled.
- `deepcopy` and aliasing. JSON values are immutable here, so the optimizer's input is untouched by construction and nothing is shared between input and output.
