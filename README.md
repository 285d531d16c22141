# Stock monitors for NVIDIA graphics cards: a verified model of the decision logic

The repository holds two batch scripts, each run on a schedule. Each one reads a
product list, filters it, compares it with what the last run stored, posts a
Discord alert for what is new and stores the new state when a condition holds.

- `ldlc_monitor.py` (module `LdlcMonitor`) scrapes the LDLC graphics-card listing.
  The state is the list of product ids seen last time. A block is a candidate
  when its name names no excluded board partner, or says "founder", and its
  text says neither "rupture" nor "agotado". The candidate's id is the last
  `/`-separated segment of its link. A candidate is announced when its id is
  not in the stored list. The list is replaced by this run's ids when
  something was new, or when the stored list was empty and this run found at
  least one candidate.
- `nvidia_api.py` (module `NvidiaApi`) queries NVIDIA's product search API.
  The state maps each sku to its last known status. A product is a candidate
  when its title contains one of `5080`, `5090`, `4090` or `4080`. A candidate
  is announced when its status is not `OUT_OF_STOCK` and differs from the
  stored one (`UNKNOWN` when the sku is not stored). The map is replaced by
  this run's map when some status changed, or when the stored map was empty.

The model has five modules:

- `Wrappers` is an `Option` type.
- `Text` holds ASCII lowercasing, the substring test, `any(...)` over a word
  list, and the last path segment.
- `Seqs` holds the list shape both scraping loops share: each element yields
  zero or one result, and the results keep list order.
- `LdlcMonitor` and `NvidiaApi` each hold the pure decision functions, the loops
  of the scripts as methods proved against those functions, and a `Monitor`
  class.

The `Monitor` class holds the state file and the list of messages posted so
far. Its `CheckLdlc` / `CheckApi` method is one run of the script. The
properties that stop repeated alerts are proved as lemmas over the functions:

- a second run on the same input is quiet;
- no alert is sent for `OUT_OF_STOCK`;
- the state is replaced, not merged.

Statuses are plain strings, as in the source. Only `UNKNOWN`, `OUT_OF_STOCK`
and `IN_STOCK` are compared against, so any other string behaves the same way.

## Model

| member | source | states |
|---|---|---|
| `Text.Lower` | ldlc_monitor.py:98 | `str.lower()` as ASCII lowercasing: same length, each character lowered |
| `Text.LowerChar` | ldlc_monitor.py:98 | one character of `.lower()`: an ASCII capital becomes its small letter, any other character is unchanged, and no capital is left |
| `Text.Configured` | ldlc_monitor.py:31 | `if not WEBHOOK_URL`: a webhook counts as set only when present and non-empty |
| `Text.Contains` | ldlc_monitor.py:99-115 | `sub in s` as a left-to-right scan; `Text.ContainsIff` proves it equal to "occurs at some position" |
| `Text.ContainsAny` | ldlc_monitor.py:99 | `any(w in s for w in words)`, trying the words in order; `Text.ContainsAnyIff` proves it equal to "some word occurs" |
| `Text.ContainsIff` | ldlc_monitor.py:112-115 | the left-to-right scan for `sub in s` holds iff `sub` occurs in `s` at some position, both ways |
| `Text.ContainsAnyIff` | ldlc_monitor.py:99 | `any(w in s for w in words)` holds iff some word of the list occurs in `s`, both ways |
| `Text.MissingCharNotContained` | nvidia_api.py:73 | a word with a character the text lacks never occurs in it |
| `Text.LowerKeepsOccurrence` | ldlc_monitor.py:112-115 | a word that occurs in a text occurs, lowered, in the lowered text: a test on `.lower()` sees the word in any casing |
| `Text.LastSegment` | ldlc_monitor.py:119 | `link.split('/')[-1]` is the longest suffix of the link without '/': it holds no '/', is a suffix, and is the whole link or is preceded by '/' |
| `Seqs.FilterMapStep` | ldlc_monitor.py:77-128 | one more loop step appends the next element's result, if any, at the end |
| `Seqs.KeptIsListed` | ldlc_monitor.py:77-128 | every element the per-element step keeps shows up in the result |
| `Seqs.ListedIsKept` | ldlc_monitor.py:77-128 | every result comes from some element the per-element step kept (witness index returned) |
| `Seqs.FilterMapConcat` | ldlc_monitor.py:77-128 | the results of two concatenated lists are the concatenation of their results |
| `Seqs.DroppedIsSkipped` | ldlc_monitor.py:126-128 | an element the step drops contributes nothing, and the elements around it are still processed |
| `LdlcMonitor.IsThirdPartyBrand` | ldlc_monitor.py:98-99 | `es_marca_terceros`: the lowered name contains one of the nine excluded partner brands |
| `LdlcMonitor.IsStockNegative` | ldlc_monitor.py:112-115 | the lowered block text contains "rupture" or "agotado" |
| `LdlcMonitor.Admit` | ldlc_monitor.py:96-125 | a readable block becomes a candidate iff (its lowered name contains no excluded brand or contains "founder") and its lowered text contains neither "rupture" nor "agotado"; the product has id = last link segment, the default price "Precio no disponible", image "" and stock "En Stock (Probable)" |
| `LdlcMonitor.Keep` | ldlc_monitor.py:77-128 | one snapshot entry: an unreadable block (`None`) yields nothing, a readable one what `Admit` decides |
| `LdlcMonitor.Candidates` | ldlc_monitor.py:77-128 | `productos_encontrados`: the results of `Keep` over the snapshot in page order; its membership is pinned by `AdmittedIsCandidate` and `CandidateIsAdmitted` |
| `LdlcMonitor.CollectCandidates` | ldlc_monitor.py:75-128 | the scraping loop appends exactly `Candidates(items)`, in page order, skipping unreadable blocks |
| `LdlcMonitor.AdmittedIsCandidate` | ldlc_monitor.py:108-125 | every admitted block of the snapshot yields a candidate |
| `LdlcMonitor.CandidateIsAdmitted` | ldlc_monitor.py:108-125 | every candidate comes from some admitted block of the snapshot (witness index returned) |
| `LdlcMonitor.CandidateIdHasNoSlash` | ldlc_monitor.py:119 | a candidate's id is the last segment of its own link and contains no '/' |
| `LdlcMonitor.UnreadableBlockSkipped` | ldlc_monitor.py:126-128 | a block that fails to parse is skipped and the blocks before and after it are still processed |
| `LdlcMonitor.StockNegativeWins` | ldlc_monitor.py:108-115 | a block whose text contains "agotado" or "rupture" in any casing is never a candidate, whatever its name says |
| `LdlcMonitor.FoundersOverridesBrand` | ldlc_monitor.py:99-115 | "ASUS ROG Founders Edition RTX 5090" names an excluded brand yet is a candidate when its text has no stock-negative wording |
| `LdlcMonitor.PartnerCardExcluded` | ldlc_monitor.py:99-108 | "MSI RTX 5090 Gaming" is never a candidate |
| `LdlcMonitor.LoadSeen` | ldlc_monitor.py:21-25 | a missing or unreadable file reads as the empty list; a saved list reads back as saved |
| `LdlcMonitor.Ids` | ldlc_monitor.py:132 | the new seen-list has one id per candidate, in candidate order |
| `LdlcMonitor.Fresh` | ldlc_monitor.py:137-141 | the candidates the notification loop alerts on, in candidate order; never more than the candidates; `FreshMembers` and `FreshConcat` state what it holds |
| `LdlcMonitor.FreshConcat` | ldlc_monitor.py:137-141 | announcing is decided product by product: two halves of the candidate list announce their own parts, in a row |
| `LdlcMonitor.FreshMembers` | ldlc_monitor.py:137-141 | a product is announced iff it is a candidate and its id is not in the stored list |
| `LdlcMonitor.FreshEmptyIff` | ldlc_monitor.py:137-141 | nothing is announced iff every candidate's id is in the stored list |
| `LdlcMonitor.FreshOnColdStart` | ldlc_monitor.py:137-141 | with an empty stored list every candidate is announced, in order |
| `LdlcMonitor.ShouldSave` | ldlc_monitor.py:143-145 | save iff some candidate's id is not in the stored list, or the stored list is empty and there is a candidate |
| `LdlcMonitor.NextSeen` | ldlc_monitor.py:143-145 | the list the next run reads back: this run's ids when saved, the stored list otherwise; `SavedListReplacesOld`, `NothingNewKeepsOldList` and `SecondRunIsQuiet` are stated over it |
| `LdlcMonitor.Reconcile` | ldlc_monitor.py:131-145 | the notification loop yields exactly `Fresh(found, prior)`, the new list `Ids(found)` and the save flag `ShouldSave(found, prior)` |
| `LdlcMonitor.SavedListReplacesOld` | ldlc_monitor.py:132-145 | when saved, an id is in the new list iff some candidate of this run has it: ids of the old list that did not show up are dropped, not merged |
| `LdlcMonitor.NothingNewKeepsOldList` | ldlc_monitor.py:143-145 | a run with nothing new and a non-empty stored list keeps that list, so a card that drops out and comes back is not announced again |
| `LdlcMonitor.ColdStart` | ldlc_monitor.py:143-145 | a cold start announces every candidate and saves iff there is at least one; with zero candidates it never saves |
| `LdlcMonitor.SecondRunIsQuiet` | ldlc_monitor.py:131-145 | running again on the same candidates after any run announces nothing and saves nothing |
| `LdlcMonitor.LooksLikeFounders` | ldlc_monitor.py:34 | `es_founder`: the lowered name contains "founder" or "nvidia" |
| `LdlcMonitor.AlertFor` | ldlc_monitor.py:33-48 | title = name, url = link, thumbnail = image, description "Precio: …\nEstado: …"; red colour 15548997 and the `@everyone` message iff the lowered name contains "founder" or "nvidia", else green 5763719 and the plain message |
| `LdlcMonitor.Outbox` | ldlc_monitor.py:30-49 | one alert per product in order when a webhook is set; nothing at all when it is unset or empty |
| `LdlcMonitor.PartnerCandidateAlertsAsFounders` | ldlc_monitor.py:34-37 | a partner-brand card that passed the filter (so says "founder") always gets the red `@everyone` alert |
| `LdlcMonitor.Monitor.Notify` | ldlc_monitor.py:30-49 | posting appends the candidate's alert to the sent messages when a webhook is set, else nothing |
| `LdlcMonitor.Monitor.NotifyAll` | ldlc_monitor.py:137-141 | posting the fresh products one after another appends their alerts in order |
| `LdlcMonitor.Monitor.CheckLdlc` | ldlc_monitor.py:51-150 | an unreachable or empty listing changes nothing; otherwise the sent messages grow by the alerts for `Fresh` in candidate order and the file becomes `Saved(Ids(found))` iff `ShouldSave`, else stays as it was |
| `LdlcMonitor.CheckTwice` | ldlc_monitor.py:131-145 | two runs on the same page post and store exactly what one run does: an unreachable or empty page changes nothing, otherwise the messages are one run's alerts and the file is exactly what the first run left |
| `NvidiaApi.Defaulted` | nvidia_api.py:66-70 | the product as the loop reads it, with the defaults applied; `DefaultsApplied` states each field |
| `NvidiaApi.DefaultsApplied` | nvidia_api.py:66-70 | a missing title reads "Desconocido", a missing id the (defaulted) title, a missing status "UNKNOWN", a missing url "", a missing price "???"; present fields are kept |
| `NvidiaApi.IsTarget` | nvidia_api.py:73 | the title contains one of 5080, 5090, 4090, 4080, case-sensitively |
| `NvidiaApi.Pick` | nvidia_api.py:65-74 | one `productDetails` entry: its defaulted product when the title names a target, nothing otherwise |
| `NvidiaApi.Candidates` | nvidia_api.py:65-74 | the products the loop goes on to process, in API order; its membership is pinned by `TargetIsCandidate` and `CandidateIsTarget` |
| `NvidiaApi.TargetIsCandidate` | nvidia_api.py:72-74 | every product whose title contains a tracked model number is a candidate |
| `NvidiaApi.CandidateIsTarget` | nvidia_api.py:72-74 | every candidate is a listed product, with its defaults, whose title contains a tracked model number |
| `NvidiaApi.OtherModelExcluded` | nvidia_api.py:72-74 | "GeForce RTX 3060" is never a candidate, whatever its status |
| `NvidiaApi.NoTargetWithoutDigits` | nvidia_api.py:73 | a title without the digits '5' and '4' names none of 5080, 5090, 4090, 4080 |
| `NvidiaApi.PriorStatus` | nvidia_api.py:81 | the stored status of the sku, or "UNKNOWN" when the sku is not stored |
| `NvidiaApi.Changed` | nvidia_api.py:81-89 | the candidate's status differs from its stored one (`UNKNOWN` when not stored) |
| `NvidiaApi.ShouldAlert` | nvidia_api.py:86 | the status is not OUT_OF_STOCK and changed |
| `NvidiaApi.StateOf` | nvidia_api.py:62-77 | `estado_nuevo`: each candidate's sku mapped to its status, a later listing overwriting an earlier one; never more entries than candidates; `StateOfDomain` and `StateOfLastWins` state its contents |
| `NvidiaApi.AnyChange` | nvidia_api.py:63-90 | `hay_cambios` as the loop raises it; `AnyChangeIff` states it as "some candidate changed" |
| `NvidiaApi.ShouldSave` | nvidia_api.py:94 | `hay_cambios or not estado_antiguo` |
| `NvidiaApi.Next` | nvidia_api.py:94-95 | the map the next run reads back: the new map when saved, the stored one otherwise |
| `NvidiaApi.AlertsOf` | nvidia_api.py:83-90 | any alert implies the change flag is raised |
| `NvidiaApi.Reconcile` | nvidia_api.py:61-91 | the product loop yields exactly the alerts `AlertsOf`, the new map `StateOf` and the flag `AnyChange` over the candidates |
| `NvidiaApi.StatusStep` | nvidia_api.py:77-91 | one more candidate appends it to the alerts iff it should alert, sets its sku to its status in the new map, and raises the flag iff its status changed |
| `NvidiaApi.StateOfDomain` | nvidia_api.py:62-77 | a sku is in the new map iff some candidate has it: nothing is carried over from the stored map |
| `NvidiaApi.StateOfLastWins` | nvidia_api.py:77 | for a sku listed several times the last listing's status is stored |
| `NvidiaApi.NonTargetsNeverStored` | nvidia_api.py:72-77 | every sku in the new map belongs to a listed product whose title names a tracked model |
| `NvidiaApi.AlertsMembers` | nvidia_api.py:86-87 | a candidate is alerted on iff its status is not OUT_OF_STOCK and differs from its stored status |
| `NvidiaApi.NoAlertWhenOutOfStock` | nvidia_api.py:86 | no alert is ever for an OUT_OF_STOCK status |
| `NvidiaApi.AnyChangeIff` | nvidia_api.py:89-90 | the change flag is raised iff some candidate's status differs from its stored status (a switch to OUT_OF_STOCK counts) |
| `NvidiaApi.VanishedSkuIsNoChange` | nvidia_api.py:79-90 | a stored sku absent from this run changes neither the flag nor the alerts |
| `NvidiaApi.StateOfConsistent` | nvidia_api.py:77 | when no sku is listed with two statuses, the new map gives each candidate its own status |
| `NvidiaApi.SecondRunIsQuiet` | nvidia_api.py:61-95 | running again on the same candidates after any run sends nothing, reports no change, leaves the stored map as it is and does not write the file unless there are no candidates and the map is empty, given no sku listed with two statuses |
| `NvidiaApi.DuplicateSkuNeverSettles` | nvidia_api.py:77-95 | a sku listed IN_STOCK then OUT_OF_STOCK in one reply stores OUT_OF_STOCK; from that stored map the run raises an alert and a change and stores the same map again, so it does so on every later run |
| `NvidiaApi.SingleCandidateRun` | nvidia_api.py:61-95 | a run with one candidate alerts iff its status changed and is not OUT_OF_STOCK, and stores just that sku when it changed or the map was empty |
| `NvidiaApi.StatusTimeline` | nvidia_api.py:81-95 | UNKNOWN, COMING_SOON, COMING_SOON, IN_STOCK, OUT_OF_STOCK, IN_STOCK alerts at the 2nd (yellow), 4th and 6th (green broadcast) runs only, and the OUT_OF_STOCK run is stored |
| `NvidiaApi.AlertFor` | nvidia_api.py:34-47 | title, url, footer, description "**Estado:** …\n**Precio:** …"; colour 5763719 and the `@everyone` message iff the status is IN_STOCK, else 16776960 and the plain message |
| `NvidiaApi.Outbox` | nvidia_api.py:30-48 | one alert per product in order when a webhook is set; nothing when it is unset or empty |
| `NvidiaApi.LoadState` | nvidia_api.py:21-25 | a missing or unreadable file reads as the empty map; a saved map reads back as saved |
| `NvidiaApi.Monitor.Notify` | nvidia_api.py:30-48 | posting appends the product's alert to the sent messages when a webhook is set, else nothing |
| `NvidiaApi.Monitor.NotifyAll` | nvidia_api.py:86-87 | posting the alerts one after another appends their payloads in order |
| `NvidiaApi.Monitor.CheckApi` | nvidia_api.py:50-100 | a failed request or a non-200 reply changes nothing; otherwise the sent messages grow by the alerts in candidate order and the file becomes the new map iff some status changed or the stored map was empty |
| `NvidiaApi.CheckTwice` | nvidia_api.py:61-95 | two runs on the same reply post and store what one run does, given no sku listed with two statuses: a failed or non-200 reply changes nothing, otherwise the messages are one run's alerts and the file is exactly what the first run left |

## Left out

- Browser automation (driver setup, options, waits, CSS selectors): each product block is taken as already read. A block whose title or link could not be read is a `None` entry. A failed page load or wait is the `Unreachable` page. A listing with no product block counts as a failed wait.
- HTTP: the request and its JSON decoding are the `ApiReply` value. A missing `searchedProducts` or `productDetails` reads as the empty list.
- File I/O: only the "absent or unreadable reads as empty" rule and the save decision are modelled. A write that fails is not modelled.
- LdlcMonitor.LoadSeen: `cargar_vistos` returns whatever JSON value the file holds. The model reads only a list of id strings, or nothing. A file holding `{}`, `null`, a string, a number or a list of non-strings is not modelled.
- NvidiaApi.LoadState: `cargar_estado` returns whatever JSON value the file holds. The model reads only a map from strings to strings, or nothing. A file holding a list, `null`, a string or a map with non-string values is not modelled.
- Discord delivery: posting always succeeds and appends the payload to `sent`. In the source, a `requests.post` that raises aborts the rest of the run, so no state is saved. The model does not capture this.
- Order of posting within a run: the source posts each alert inside the product loop. The model first computes the run's alerts and then posts them in the same order. Nothing else in the run reads what was posted, so the messages and the saved state are the same.
- Environment variables, `print` logging, `__main__` and `driver.quit`: these are configuration and side effects with no decision logic.
- Text.Lower: Python's `str.lower()` lowercases every Unicode letter that has a lowercase form. The model lowercases ASCII letters only.
- NvidiaApi.RawProduct: JSON values are strings or absent. A field that is present but `null`, numeric or of another type is not modelled, and neither is an entry that is not a JSON object. In the source these cases behave differently:
  - A `null`, numeric or boolean `productTitle`, or an entry that is not an object, raises inside the loop. The whole run then ends with no save. A list or object title does not raise: the target test then checks elements or keys instead of substrings.
  - A `null` or numeric `status`, `productUrl` or `productPrice` runs through and is passed on as it is.
  - A numeric or `null` `productID` becomes a non-string key of the new map. `json.dump` writes it back as a string ("123", "null"). The next run's lookup with the original sku misses and reads `UNKNOWN`. So, unless its status is UNKNOWN, that card counts as changed and is saved on every run. It also alerts on every run unless its status is OUT_OF_STOCK or UNKNOWN.
- LdlcMonitor.RawItem: the title text is taken as already stripped. An image whose `src` attribute is missing reads as "".
- NvidiaApi.SecondRunIsQuiet: this holds only when no sku appears twice in one reply with two different statuses. `NvidiaApi.DuplicateSkuNeverSettles` shows that without this condition the run never settles. Also, when the reply has no candidate and the stored map is empty, `not estado_antiguo` holds on every run, so every run writes `{}` to the file again. The lemma excludes only this case from "writes nothing".
- Run timing, concurrency between overlapping runs, and the schedule: each run is one call of `CheckLdlc` or `CheckApi`.
