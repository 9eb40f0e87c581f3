# WiFi channel analyzer, modelled in Dafny

The repository holds five small analyzers of WiFi channels:

- `cli.py` and `main.py` keep `WiFiChannel` objects in a dictionary keyed by
  `(channel number, frequency band)`. They update those objects in place from
  keyword arguments and log every mutation to a history list. `cli.py` also
  writes the dictionary to `channels.json` after each mutation. Both rank the
  channels by a score, pick the best one, and pick the best one per band.
- `server.py` (Flask) and `Beta/Server.ts` (Express) keep a plain list of
  `(band, channel, interference)` entries. They append to it and filter it,
  and answer the channel of least interference in a band.
- `main.go` (Fiber) stores whole records in a map under an ID built from the
  channel number and the band printed to one decimal. It reports the channel
  of least score, starting its scan from a `MaxInt` sentinel.

The model has these modules:

- `Wrappers`: Option, Result and Outcome.
- `Ranking`: a stable sort by a real key, and the index of the first least key.
- `PyRepository`: the Python analyzers stated on values.
  - the record and its score;
  - the keyword merge of `update`;
  - Python's argument binding for the constructor;
  - the repository as the dictionary's values in insertion order plus the history;
  - the specification functions `AddOrUpdate`, `Remove`, `Ranked`, `Best` and `BestInBand`.
- `CliAnalyzer` and `MainAnalyzer`: the two Python files as classes.
  - Channel objects are updated in place.
  - The analyzer holds a `map` of them and a key sequence that records dictionary insertion order.
  - Each method is proved against the `PyRepository` functions.
- `InterferenceList`: the list logic that the Flask and Express servers share.
- `FlaskServer` and `ExpressServer`: the two server classes over a `seq`.
- `GoStore`: the Go channel map.
  - Go's `int` is modelled on a 64-bit platform, as a newtype, and the score wraps around explicitly.
  - The scan goes over the map in an arbitrary order.
  - The sentinel scan is kept as written, with a corrected scan beside it.

## Model

| member | source | states |
|---|---|---|
| Ranking.ArgMin | cli.py:115 | the index returned has the least key of the sequence, and every earlier element's key is strictly greater (the first of equal keys wins, as `max`/`min` return the first) |
| Ranking.SortByKey | server.py:36 | the sorted sequence has the input's length; reference definition of the stable library sort, characterised by SortByKeyPermutes, SortByKeyAscending, SortByKeyStable and SortByKeyHead |
| Ranking.SortByKeyPermutes | server.py:36 | sorting returns a permutation of its input |
| Ranking.SortByKeyAscending | server.py:36 | sorting returns the elements in ascending key order |
| Ranking.SortByKeyStable | cli.py:107-109 | the sort is stable: the elements of any one key keep their relative input order |
| Ranking.SortByKeyHead | server.py:36-37 | the head of the sorted sequence is the first element of least key |
| PyRepository.Score | cli.py:36-43 | reference definition of `score`, characterised by WidthScalesWholeScore, ScoreMonotone and ScoreScenario |
| PyRepository.Merged | cli.py:45-49 | reference definition of the keyword loop of `update`, characterised by MergedNothing, MergedIgnoresUnknown, MergedComposes, MergedIdempotent and MergedKeepsKey |
| PyRepository.Message | cli.py:88 | reference definition of the history lines of cli.py:88, 94 and 102, characterised by MessageExample and MessagesChannelOne |
| PyRepository.AddOrUpdate | cli.py:83-95 | reference definition of `add_or_update_channel` on values, characterised by AddOrUpdateBindsTwice, AddOrUpdateExisting, AddOrUpdateAbsent, MutationsKeepKeysDistinct and HistoryAppendOnly |
| PyRepository.Remove | cli.py:97-103 | reference definition of `remove_channel` on values, characterised by RemoveAbsent, RemovePresent, MutationsKeepKeysDistinct and HistoryAppendOnly |
| PyRepository.Ranked | cli.py:107-109 | reference definition of the display sort, characterised by RankedOrder |
| PyRepository.BestInBand | cli.py:119-127 | the position found, if any, holds a channel of the band; characterised by BestInBandStep and BestInBandIsFirstHighest |
| PyRepository.WidthScalesWholeScore | cli.py:36-43 | the width factor (1, 1.5 or 2) multiplies the whole score: 40 MHz scores 1.5 times, any width other than 20 and 40 twice, the 20 MHz score |
| PyRepository.ScoreMonotone | cli.py:41-43 | at equal width, more usage, interference or noise, or less transmission power, never raises the score |
| PyRepository.MergedNothing | cli.py:45-49 | an update with no keyword arguments leaves the channel unchanged |
| PyRepository.MergedIgnoresUnknown | cli.py:47-48 | a keyword that is not an attribute of the channel has no effect |
| PyRepository.MergedComposes | cli.py:47-49 | two updates in a row equal one update with the second's values overriding the first's |
| PyRepository.MergedIdempotent | cli.py:47-49 | repeating an update changes nothing more |
| PyRepository.MergedKeepsKey | main.py:20-22 | an update without a channel number keeps the channel's dictionary key |
| PyRepository.Constructed | cli.py:6-15 | constructing a new channel from the keyword arguments succeeds exactly when they are the five measurements, and the channel gets the key it is stored under |
| PyRepository.MessageExample | cli.py:94 | the history line of an addition reads "Added Channel 36 on 5.0GHz." for the float band the menu reads |
| PyRepository.AddOrUpdateBindsTwice | cli.py:83-92 | a keyword argument that binds `self`, the channel number or the band a second time raises before anything changes |
| PyRepository.AddOrUpdateExisting | cli.py:85-89 | on a present key only that channel is merged, in place, and "Updated …" is appended to the history |
| PyRepository.AddOrUpdateAbsent | cli.py:90-95 | on an absent key the constructed channel is appended at the end of the dictionary with "Added …", or the binding error is returned with nothing changed |
| PyRepository.RemoveAbsent | cli.py:97-100 | removing an absent key changes neither the channels nor the history |
| PyRepository.RemovePresent | cli.py:99-103 | removing a present key deletes exactly that channel, keeps the order of the others, and appends "Removed …" |
| PyRepository.MutationsKeepKeysDistinct | cli.py:83-103 | adding, updating and removing keep the dictionary's keys distinct |
| PyRepository.HistoryAppendOnly | cli.py:137-139 | each mutation extends the history by at most one line and never rewrites it |
| PyRepository.RankedOrder | cli.py:105-109 | the listing is a permutation of the channels, by descending score, with channels of equal score in insertion order |
| PyRepository.Best | cli.py:113-115 | no channel gives None; otherwise the position of a channel of highest score that no earlier channel equals |
| PyRepository.BestInBandStep | cli.py:121-127 | one step of the per-band scan replaces the band's best only on a strictly higher score |
| PyRepository.BestInBandIsFirstHighest | cli.py:117-127 | the per-band scan finds nothing exactly when the band has no channel, and otherwise the first channel of highest score in that band |
| PyRepository.FrequencyKeysCover | cli.py:119 | each band has its own key, and the keys are exactly those of the result dictionary |
| PyRepository.FrequencyKeyAsWrittenMisses | cli.py:122-124 | a 5 or 6 GHz band read as a float gives the key "5.0GHz" or "6.0GHz", which the result dictionary lacks |
| PyRepository.ScoreScenario | cli.py:36-43 | channel 6 at 20 MHz scores -15, channel 11 at 40 MHz scores -22.5, and the first is the best |
| PyRepository.AddScenario | main.py:35-43 | adding channel 1 on 5 GHz to an empty analyzer, with either spelling of the names, stores that record and logs "Added Channel 1 on 5.0GHz." |
| PyRepository.RemoveScenario | main.py:45-50 | removing that channel empties the analyzer and logs "Removed Channel 1 on 5.0GHz." |
| PyRepository.AddRemoveScenario | main.py:35-50 | adding and then removing the channel leaves no channels and the two history lines |
| CliAnalyzer.WiFiChannel.constructor | cli.py:6-34 | the new channel holds the seven given attributes |
| CliAnalyzer.WiFiChannel.Score | cli.py:36-43 | the object's score is the record's score |
| CliAnalyzer.WiFiChannel.Update | cli.py:45-49 | the loop over the keyword arguments leaves the object holding the merge of its old attributes and the arguments |
| CliAnalyzer.WiFiAnalyzer.constructor | cli.py:68-72 | the analyzer starts with no channels, an empty history, and a consistent dictionary |
| CliAnalyzer.WiFiAnalyzer.LogAction | cli.py:137-139 | the message is appended to the history |
| CliAnalyzer.WiFiAnalyzer.SaveChannelsDatabase | cli.py:74-81 | one more snapshot of the dictionary is written |
| CliAnalyzer.WiFiAnalyzer.LogAndSave | cli.py:88-89 | logging then saving keeps the analyzer consistent and one snapshot per history line |
| CliAnalyzer.WiFiAnalyzer.AddOrUpdateChannel | cli.py:83-95 | the new state and the outcome are those of `AddOrUpdate` on the old state; every object already stored stays under its key, so an existing channel is updated in place; the dictionary stays consistent and one snapshot is written per history line |
| CliAnalyzer.WiFiAnalyzer.UpdateChannel | cli.py:85-89 | on a present key the dictionary and its order are untouched and the stored object is updated in place, as `AddOrUpdate` says |
| CliAnalyzer.WiFiAnalyzer.AddChannel | cli.py:90-95 | on an absent key a new object is added, or the binding error is reported, as `AddOrUpdate` says; the objects already stored stay under their keys |
| CliAnalyzer.WiFiAnalyzer.RemoveChannel | cli.py:97-103 | the new state is `Remove` of the old one, and the dictionary loses exactly that key |
| CliAnalyzer.WiFiAnalyzer.UpdateEntry | cli.py:87 | the stored object is merged in place, and the contents change at that key's position only, to the merge |
| CliAnalyzer.WiFiAnalyzer.AddEntry | cli.py:91-93 | a fresh object is stored under the new key, last in insertion order; the objects already stored stay under their keys |
| CliAnalyzer.WiFiAnalyzer.DeleteEntry | cli.py:101 | the key leaves the dictionary and the insertion order, and the contents lose that key's position only |
| CliAnalyzer.WiFiAnalyzer.Values | cli.py:107-108 | the dictionary's values, in insertion order, are the repository contents |
| CliAnalyzer.WiFiAnalyzer.DisplayChannels | cli.py:105-111 | the channels are listed as `Ranked`, hence by descending score and stably |
| CliAnalyzer.WiFiAnalyzer.BestChannel | cli.py:113-115 | None exactly when there are no channels, otherwise the object `Best` designates |
| CliAnalyzer.WiFiAnalyzer.BestChannelPerBand | cli.py:117-127 | the result has the three band keys, each bound to the object `BestInBand` designates for that band |
| CliAnalyzer.WiFiAnalyzer.ScanStep | cli.py:121-127 | one iteration of the per-band loop advances the scan of the first i channels to the first i + 1 |
| MainAnalyzer.WiFiChannel.constructor | main.py:4-11 | the new channel holds the seven given attributes |
| MainAnalyzer.WiFiChannel.Score | main.py:13-16 | the object's score is the record's score |
| MainAnalyzer.WiFiChannel.Update | main.py:18-22 | the loop over the keyword arguments leaves the object holding the merge of its old attributes and the snake_case arguments |
| MainAnalyzer.WiFiAnalyzer.constructor | main.py:31-33 | the analyzer starts with no channels and an empty history |
| MainAnalyzer.WiFiAnalyzer.LogAction | main.py:80-82 | the message is appended to the history |
| MainAnalyzer.WiFiAnalyzer.AddOrUpdateChannel | main.py:35-43 | the new state and the outcome are those of `AddOrUpdate` on the old state; every object already stored stays under its key, so an existing channel is updated in place |
| MainAnalyzer.WiFiAnalyzer.UpdateChannel | main.py:38-40 | on a present key the dictionary and its order are untouched and the stored object is updated in place, as `AddOrUpdate` says |
| MainAnalyzer.WiFiAnalyzer.AddChannel | main.py:41-43 | on an absent key a new object is added, or the binding error is reported, as `AddOrUpdate` says; the objects already stored stay under their keys |
| MainAnalyzer.WiFiAnalyzer.RemoveChannel | main.py:45-50 | the new state is `Remove` of the old one, and the dictionary loses exactly that key |
| MainAnalyzer.WiFiAnalyzer.UpdateEntry | main.py:39 | the stored object is merged in place, and the contents change at that key's position only, to the merge |
| MainAnalyzer.WiFiAnalyzer.AddEntry | main.py:42 | a fresh object is stored under the new key, last in insertion order; the objects already stored stay under their keys |
| MainAnalyzer.WiFiAnalyzer.DeleteEntry | main.py:49 | the key leaves the dictionary and the insertion order, and the contents lose that key's position only |
| MainAnalyzer.WiFiAnalyzer.Values | main.py:54 | the dictionary's values, in insertion order, are the repository contents |
| MainAnalyzer.WiFiAnalyzer.DisplayChannels | main.py:52-56 | the channels are listed as `Ranked` |
| MainAnalyzer.WiFiAnalyzer.BestChannel | main.py:58-60 | None exactly when there are no channels, otherwise the object `Best` designates |
| MainAnalyzer.WiFiAnalyzer.BestChannelPerBand | main.py:62-72 | the result has the three band keys, each bound to the object `BestInBand` designates |
| MainAnalyzer.WiFiAnalyzer.ScanStep | main.py:69-72 | one iteration of the per-band loop advances the scan by one channel |
| InterferenceList.Without | server.py:28 | the filtered list is no longer than the list; characterised by WithoutMembers, WithoutAppend, WithoutAbsent and WithoutIdempotent |
| InterferenceList.Suitable | server.py:32 | the band's entries are no more than the list's; characterised by SuitableMembers and SuitableAppend |
| InterferenceList.BestChannel | server.py:30-37 | reference definition of `getBestChannel`, characterised by BestChannelIsFirstLeast and AddOtherBand |
| InterferenceList.WithoutAppend | server.py:28 | the filter distributes over concatenation, so survivors keep their order |
| InterferenceList.WithoutMembers | server.py:26-28 | an entry survives removal exactly when it was present and differs in band or channel |
| InterferenceList.WithoutAbsent | server.py:28 | removing a pair no entry has leaves the list unchanged |
| InterferenceList.WithoutIdempotent | server.py:26-28 | removing a pair twice is removing it once |
| InterferenceList.AppendThenRemove | server.py:22-28 | removing the pair of an added entry undoes the addition, and removes any older duplicates too |
| InterferenceList.SuitableMembers | server.py:32 | the band's entries are exactly the list's entries with that band |
| InterferenceList.SuitableArgMin | server.py:32-37 | the first least entry among the band's entries is the first least entry of the band in the whole list |
| InterferenceList.BestChannelIsFirstLeast | server.py:30-37 | the answer is None exactly when no entry has the band, and otherwise the channel of the band's first entry of least interference |
| InterferenceList.SuitableAppend | server.py:22-24 | adding an entry extends only its own band's entries |
| InterferenceList.AddOtherBand | server.py:22-37 | adding an entry of another band does not change a band's answer |
| FlaskServer.WiFiAnalyzer.constructor | server.py:18-20 | the list starts empty |
| FlaskServer.WiFiAnalyzer.AddChannel | server.py:22-24 | the entry is appended |
| FlaskServer.WiFiAnalyzer.RemoveChannel | server.py:26-28 | the list becomes its filter: survivors are exactly the entries differing in band or channel; an absent pair leaves it unchanged |
| FlaskServer.WiFiAnalyzer.GetBestChannel | server.py:30-37 | the answer is None exactly when the band has no entry, otherwise the channel of its first entry of least interference |
| FlaskServer.WiFiAnalyzer.GetBestChannelsPerBand | server.py:39-45 | the result maps exactly the three bands, each to its `getBestChannel` answer |
| ExpressServer.WiFiAnalyzer.constructor | Beta/Server.ts:20 | the list starts empty |
| ExpressServer.WiFiAnalyzer.AddChannel | Beta/Server.ts:22-24 | the entry is pushed at the end |
| ExpressServer.WiFiAnalyzer.RemoveChannel | Beta/Server.ts:26-28 | the list becomes its filter: survivors are exactly the entries differing in band or channel; an absent pair leaves it unchanged |
| ExpressServer.WiFiAnalyzer.GetBestChannel | Beta/Server.ts:30-35 | null exactly when the band has no entry, otherwise the channel of its first entry of least interference |
| ExpressServer.WiFiAnalyzer.GetBestChannelsPerBand | Beta/Server.ts:37-46 | the result maps exactly the three bands, each to its `getBestChannel` answer |
| GoStore.ExactScore | main.go:32 | reference definition of the score formula over unbounded integers, to which CalculateChannelScore is tied |
| GoStore.GenerateChannelID | main.go:26-28 | reference definition of the map key, characterised by SameTenthSameSlot, NearbyBandsShareSlot, DistinctTenthsDistinctSlots and LastWriteWins |
| GoStore.Wrap | main.go:30-33 | the 64-bit result is congruent to the exact value modulo 2^64, and equal to it when it is in range |
| GoStore.CalculateChannelScore | main.go:30-33 | the score is the formula's exact value wrapped to 64 bits, and that exact value whenever it fits |
| GoStore.ScoreWraps | main.go:30-33 | usage `MaxInt` with noise 1 overflows to the least int64 |
| GoStore.Tenths | main.go:26-28 | the number of tenths `%.1f` prints is within half a tenth of the band, and an exact half goes to the even neighbour |
| GoStore.TenthsOfNear | main.go:27 | a band strictly within half a tenth of t tenths is printed as t tenths |
| GoStore.SameTenthSameSlot | main.go:26-28 | records of one channel number whose bands round to the same tenth share an ID |
| GoStore.NearbyBandsShareSlot | main.go:26-28 | channel 6 on 2.4 GHz and on 2.44 GHz get the same ID |
| GoStore.DistinctTenthsDistinctSlots | main.go:26-28 | bands more than a tenth apart never share an ID |
| GoStore.LastWriteWins | main.go:42-43 | of two records with the same ID, stored one after the other, only the second remains |
| GoStore.ChannelStore.constructor | main.go:21 | the map starts empty |
| GoStore.ChannelStore.AddOrUpdateChannel | main.go:41-44 | the record is stored under its ID, replacing what was there; every other ID keeps its record |
| GoStore.ChannelStore.RemoveChannel | main.go:50-56 | exactly the ID written from the parameters is deleted; an absent ID changes nothing |
| GoStore.ChannelStore.BestChannelSummary | main.go:67-86 | as written: "no data" exactly when every stored score is `MaxInt`; otherwise a stored channel of least score, which is below `MaxInt` |
| GoStore.ChannelStore.LeastScoreSummary | main.go:67-86 | corrected: "no data" exactly when the map is empty; otherwise a stored channel of least score |
| GoStore.SentinelHidesChannel | main.go:69-83 | the map holding only channel 1 on 2.4 GHz with usage `MaxInt`, whose score is exactly `MaxInt`, is reported as "no data" by the scan as written, and as that channel by the corrected scan |

## Left out

- Everything outside the core is left out. This covers the interactive menu of `cli.py`, the `print`-based display of channels, history and summary, the Flask, Express and Fiber HTTP handlers and their request parsing, the packet sniffing, and the mutexes of `main.go`.
- The JSON text of `best_channel_per_band` is left out. The model returns the dictionary the text would be made from. In `cli.py` the values are the channel objects themselves, and `json.dumps` cannot serialize those.
- Writing `channels.json` is modelled as a snapshot counter, with one snapshot per history line. The file's contents are left out.
- CliAnalyzer.WiFiAnalyzer.constructor: the analyzer starts empty. Loading `channels.json` at start-up is file I/O and is left out.
- `server.py` and `Beta/Server.ts` both create the analyzer before its class is defined. That start-up order is not modelled.
- Numbers are left out where they are not exact:
  - Python and JavaScript numbers are modelled as unbounded integers (channel numbers and measurements) or exact reals (the score and the interference).
  - Neither language guarantees that. A TypeScript `number` is a double, so a channel can be 1.5, and Python accepts any value a caller passes.
  - Floating-point rounding, NaN, non-integer channel numbers and non-integer measurements are left out.
  - In Go, the band is an exact real. Only its printing to one decimal is modelled.
- PyRepository.Band: the Python band is one of the three bands 2.4, 5 and 6 GHz. Any other float typed at the menu is left out.
- PyRepository.BandText: the band is always printed the way the menus spell it, "2.4", "5.0" or "6.0", because they read it with `float` (cli.py:173-175). A caller that passes the int `5` would get "5GHz" in the history line; that spelling is not modelled.
- CliAnalyzer.WiFiChannel.Update: requires that the arguments neither bind `self` nor set the band.
  - A call that binds `self` raises in Python before the loop runs. Through `add_or_update_channel` that case is modelled as the `MultipleValues` error.
  - Setting the band through `update` would store an integer where the model keeps a `Band`. `add_or_update_channel` cannot pass the band either.
- MainAnalyzer.WiFiChannel.Update: the same two restrictions, for the snake_case names.
- PyRepository.Merged: names that `hasattr` finds on the object but that are not data attributes are treated as unknown and ignored. These are the methods such as `score` and `update`, and dunder attributes such as `__dict__`. In Python, `setattr` would shadow the method, or raise for some dunder names.
- Python keyword values are integers in the model. That is the only kind the menu passes.
- The remaining members of the classes (`display_history`, `summary`, `__str__`, `monitorNetworkPackets`) only print or format text, or capture packets. They are left out.
- GoStore.Tenths: a negative band that rounds to zero prints as "-0.0" in Go, an ID distinct from "0.0". The model does not separate the two.
- GoStore: the parsing of `RemoveChannel`'s path parameters is left out; the model takes the parsed numbers as parameters. Go ignores the parse errors: on a syntax error `Atoi` and `ParseFloat` give zero, and on an out-of-range value `Atoi` gives the clamped int and `ParseFloat` gives ±Inf, which the exact-real band cannot hold.
- GoStore: Go's `int` is 32 bits wide on 32-bit platforms. The model assumes a 64-bit platform, so the 32-bit wrap-around of the score and the sentinel 2^31-1 are not modelled.
- GoStore: `DisplayChannels` is left out. It is a JSON dump of the map.

## Findings

| source | as written | input that shows it | evidently intended | confidence | as-written member | corrected member |
|---|---|---|---|---|---|---|
| cli.py:122-124 | the per-band key is `f"{frequencyBand}GHz"`, and the menu reads the band with `float` (cli.py:173-175), so a 5 or 6 GHz channel gives "5.0GHz" or "6.0GHz", which is not among the dictionary's keys; main.py:70-71 does the same | a channel added on band 5.0, then `best_channel_per_band` raises `KeyError` | each band maps to its own key "2.4GHz", "5GHz" or "6GHz" | not executed | PyRepository.FrequencyKeyAsWrittenMisses | PyRepository.FrequencyKeysCover |
| main.go:69-82 | the scan starts from `MaxInt` and reports "no data" when the best score is still `MaxInt` | a single channel whose score is exactly `MaxInt` (usage `MaxInt`, every other field 0) is reported as "no data" | "no data" only when the map is empty | not executed | GoStore.SentinelHidesChannel | GoStore.ChannelStore.LeastScoreSummary |
