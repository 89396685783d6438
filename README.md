# Okkazeo listing monitor — a Dafny model of its change-detection pass

The program (`main.py`) watches one Okkazeo listing page. At start-up it
loads `seen.json` into the set `seen_annonces`. The file holds the set as
of the last pass that saved, so it can lag behind the URLs already
announced. Then, forever, it fetches the page, keeps the
links whose `href` contains `"annonces"`, and walks the resulting
`(url, title)` pairs in order. For each URL not yet in `seen_annonces` it
posts an alert to a Discord webhook and adds the URL to the set. If
anything new was found it writes the set back to `seen.json`. Every
exception in the pass is caught and printed, and the program sleeps for a
fixed interval before the next pass.

The model is organised as follows:

- `Common` (`common.dfy`): `Option`, the element set of a list, "no
  duplicates" and first-occurrence index.
- `Annonces` (`annonces.dfy`): the substring test `"annonces" in href`, the
  accumulation loop of `fetch_annonces` (`FetchAnnonces`, a method with a
  loop), and the filter function `Kept` that specifies it. The page selector
  already demands `/annonces/` in `href`, so on its output the test never
  drops an anchor (`SelectorImpliesSelected`, with `KeptLength`).
- `SeenStore` (`seen_store.dfy`): `Load` is the definition of the start-up
  load (no file gives the empty set, otherwise the set of the stored list),
  and `ListOf` lists the set for writing (a method with a loop).
- `Detection` (`detection.dfy`): the pass as a function `Detect` of the
  seen-set at its start, the annonces, and the webhook's answers.
  `SendAlert` is the definition of the status branch of
  `send_discord_alert`: only a transport exception escapes it. Around it
  sit the reference function `FirstNew` (unseen URLs, once each, at first
  occurrence) and the lemmas that state what a pass promises.
- `Watch` (`watch.dfy`): the class `Monitor`. It holds `seen`
  (`seen_annonces`), `file` (the contents of `seen.json`) and a ghost log
  `alerted` of every alert that returned. Its methods are the start-up
  load, `Save`, `Scan` (a `while` loop that updates `seen` in place),
  `Pass` (the loop and the conditional save), `Poll`
  (one `while True` iteration with the fetch), `Tick` (that iteration as
  the run sees it) and `Run` (a finite run of passes). The folds `RunFrom`
  and `DiskAfter` give the set in memory and the set on disk after the
  first `n` rounds. `Valid()` is the run-wide invariant: no URL was alerted twice,
  every alerted URL is in `seen`, and the set on disk is a subset of the
  set in memory.

The outside world enters as parameters. A page is either the list of
anchors its selector returned (each with its raw `href`, its resolved
absolute URL and its text) or a fetch exception. The webhook is a function
from `(url, title)` to a response status or a transport exception. Within
one pass each URL is alerted at most once, so a function per pass
describes every possible behaviour of the webhook.

Points where the code's behaviour is easy to mistake, as the model has them:

- The set is merged across passes. A URL is only ever added and never
  forgotten; there is no replace-by-this-pass semantics (`MergeScenario`).
- There is a single source URL.
- A failed fetch aborts the whole pass through the catch-all handler.
- An exception from the webhook aborts the rest of the pass. The failing
  URL stays unseen and nothing is saved, but the URLs already added in that
  pass stay in memory.
- The file can lag memory. A pass that alerts one URL and then raises on
  the next post keeps the first URL in memory but saves nothing, so after a
  restart that URL is alerted again (`RestartRealertsScenario`).
- A status of 400 or more is only reported. That URL is still marked seen.
- No alert is rejected locally, for instance for an empty title.
- The file is overwritten directly, with no atomic write.
- The delay between passes is a fixed sleep, with no jitter and no run
  budget.

## Model

| member | source | states |
|---|---|---|
| `Annonces.IsInfixIffOccurs` | main.py:38 | the substring test used by the filter holds exactly when the marker occurs at some position of `href` |
| `Annonces.FetchAnnonces` | main.py:32-40 | the accumulation loop returns exactly `Kept(anchors)`: the (absolute URL, text) of each anchor whose `href` contains "annonces" |
| `Annonces.KeptConcat` | main.py:34-39 | filtering distributes over concatenation, so document order is preserved |
| `Annonces.KeptMembers` | main.py:34-39 | an annonce is in the list exactly when some anchor whose `href` contains "annonces" yields it |
| `Annonces.SelectorImpliesSelected` | main.py:34-38 | every `href` matched by the selector `a[href*='/annonces/']` passes the `"annonces" in href` test |
| `Annonces.KeptLength` | main.py:34-39 | at most one annonce per anchor, and exactly one each when every anchor qualifies |
| `SeenStore.ListOf` | main.py:57 | `list(seen_annonces)` lists every element once, and loading the written list gives back the same set |
| `Detection.Detect` | main.py:69-74 | a pass never removes a URL, and the set afterwards is the old set plus exactly the URLs alerted |
| `Detection.FirstNewMembers` | main.py:69-72 | the reference list of URLs to alert holds exactly the URLs of the annonces that were not already seen |
| `Detection.FirstNewOrder` | main.py:69-72 | that list follows the order of the URLs' first occurrences among the annonces |
| `Detection.FirstNewNoDup` | main.py:69-73 | that list has no repeats, even when a URL occurs several times on the page |
| `Detection.DetectStops` | main.py:69-80 | each pass stops at a definite annonce `k`. The set is the old set plus the URLs before `k`, and the alerts are their unseen URLs in first-occurrence order. The pass raised exactly when `k` is short of the end, and then annonce `k` is unseen and its alert raised; no earlier alert raised |
| `Detection.AlertedOnceInOrder` | main.py:69-73 | within a pass no URL is alerted twice, no already-seen URL is alerted, and alerts come in first-occurrence order |
| `Detection.DetectCompletes` | main.py:69-74 | a pass without exception ends with the old set plus every URL of the annonces, having alerted exactly the unseen ones in first-occurrence order |
| `Detection.DetectAborts` | main.py:70-73 | a pass ended by an exception leaves the failing URL unseen and keeps in the set the URLs added before it |
| `Detection.ChangedIffAlerted` | main.py:67-76 | `new_found` is raised exactly when the seen-set grew |
| `Detection.NothingNew` | main.py:69-77 | when every URL is already seen, the pass alerts nobody, changes nothing and does not raise |
| `Detection.HttpErrorsDoNotAbort` | main.py:49-51 | without transport exceptions the pass never aborts, whatever the statuses, and every URL ends up seen |
| `Detection.TwoPassesAlertOnce` | main.py:70-73 | over two consecutive passes no URL is alerted twice |
| `Detection.MergeScenario` | main.py:69-74 | from an empty set, page "1, 2" alerts 1 and 2; page "2, 3" then alerts only 3, and the set becomes {1, 2, 3} |
| `Watch.Monitor.constructor` | main.py:19-23 | a missing file starts the in-memory set empty; otherwise the set holds exactly the stored list's entries, repeats collapsing; nothing has been alerted |
| `Watch.Monitor.Save` | main.py:54-57 | the file afterwards lists the in-memory set without repeats and loads back to it; memory is unchanged |
| `Watch.Monitor.Scan` | main.py:69-74 | the in-place loop reaches exactly the set and alerts of `Detect` from the old set, logs each returned alert once, and keeps the run-wide invariant |
| `Watch.Monitor.Pass` | main.py:67-77 | the loop's new set and alerts are those of `Detect`, and the alerts are fresh and repeat-free. A normal pass adds every URL and alerts the unseen ones in order. It saves exactly when no exception occurred and the set grew, and the file then matches memory; otherwise the file is untouched |
| `Watch.Monitor.Poll` | main.py:65-80 | a fetch exception changes nothing; otherwise the result is `Detect` on the filtered annonces. The set grows by exactly the alerted URLs, which are fresh and repeat-free. A normal pass adds every URL and alerts the unseen ones in first-occurrence order. It saves exactly when no exception occurred and the set grew |
| `Watch.RunAlertsOnce` | main.py:64-82 | over any run of rounds from a starting set, no URL is alerted twice, no URL of the starting set (such as one loaded from `seen.json`) is alerted at all, and the set reached is the starting set plus exactly the alerted URLs |
| `Watch.RestartRealertsScenario` | main.py:19-80 | a pass that alerts `u1` and then raises on the post for `u2` leaves `u1` in memory but saves nothing, so a restart from the stored file alerts `u1` again |
| `Watch.Monitor.Tick` | main.py:65-80 | one loop iteration moves memory and the alert log as `RoundStep` says, and the file holds the new set exactly when that round saves; otherwise the file is untouched |
| `Watch.Monitor.Run` | main.py:64-82 | the set reached and the alerts sent are those of `RunFrom` over the rounds, one round per loop iteration. The set is the old set plus exactly the URLs alerted during the run, and none of those was in the set at the start. The alert log only grows, no URL is ever alerted twice, and the file never holds a URL that memory lacks. `seen.json` afterwards loads to `DiskAfter`: the set reached by the last round that saved, or what it held before the run if no round saved |

## Left out

- HTTP transport (`requests.get` with its 10-second timeout, `raise_for_status`, `requests.post`): the page and the webhook's answers are parameters. The post to the webhook has no timeout, so a stalled webhook would block the loop forever; the model assumes every call returns, with a status or an exception.
- HTML parsing and the CSS selector `a[href*='/annonces/']`, `get_text` and `urljoin`: the anchors arrive with their href, resolved URL and text already computed.
- Reading `config.json` (webhook URL, page URL, poll interval): not part of the pass.
- JSON encoding and decoding and file I/O: `seen.json` is modelled as an optional list of strings. A corrupt file makes the real program crash at start-up; that is not modelled.
- An I/O error while writing `seen.json` is not modelled; the save always succeeds.
- `time.sleep` and the unbounded `while True`: `Run` covers any finite number of passes, without time.
- `print` logging and the Discord message text.
- The ghost alert log records only the alerts that returned, with any status. An alert whose transport raised may or may not have reached Discord; that URL stays unseen and is retried on a later pass.
