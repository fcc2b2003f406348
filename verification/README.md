# ga_mp_hits in Dafny

This project models the core of ga_mp_hits. ga_mp_hits is a batch job that
takes the registrations of the last thirty days and forwards each one to
Google Analytics as a Measurement Protocol "event" hit with document title
"offline". Each hit goes to one of three properties: android, iOS or web. A
baseline CSV file (`regs.csv`) lists the users already reported, and the job
is meant to skip them.

The model has seven modules:

- `Wrappers`: the `Option` type.
- `Hits`: the payload builders `registration` and `transaction` of
  `utils.py`. A payload is a finite map from Measurement Protocol parameters
  (`Param`) to values. `WireForm` turns it into the string-keyed
  dictionary (`tid`, `cid`, `cd1`, `t`, ...) that is handed to the HTTP
  client. A value is one of three things:
  - a text;
  - an integer;
  - a `Column`, the list of values a pandas Series carries when the job
    hands one to the builder.
- `Store`: the working set and the baseline file.
  - The query result is a sequence of `Row`s.
  - The baseline file is `Absent` or `Present(Table(columns, rows))`.
  - The module also holds `check_query_result`, `check_user`, the
    `regs_df[regs_df["uid"] == user]` selection, the create-if-missing load
    of the baseline, and `save_query`.
- `Transport`: `Sender` (property id, headers, endpoint URL). Each post is
  recorded by appending a `Post(sender, payload)` to a log.
- `Runner`: the `__main__` block of `sender.py`:
  - the emptiness check;
  - three senders;
  - the baseline load;
  - the per-user loop (dedup check, routing by campaign tag, time-delta
    clamp, hit construction, post);
  - the final save.

  `RunSpec` states the whole run as a function. `Run` is the method that
  follows the code's structure, and it is proved to agree with `RunSpec`.

- `RunProperties`: properties of whole runs as written: a second run, the
  first run, the three-user scenario, and which property a post goes to.
- `Intended`: the run its dedup check and its clamp are evidently meant to
  give, set beside the run as written (see "## Findings").

Inputs the job takes from outside are parameters of a `Job`:

- the rows the database returned;
- the configured constants;
- "now" in integer milliseconds;
- the debug flag. In the source this is the module constant `DEBUG = False`
  (sender.py:6); the model lets it take either value.

The test "the user's `utm_campaign` Series contains `adr_app`" (or
`ios_app`) is the parameter `matches` and is never interpreted. The order in
which the loop visits the distinct user ids is a parameter `order`. The
model accepts any duplicate-free listing of the set (`Enumerates`).

## Model

| member | source | states |
|---|---|---|
| Hits.RegistrationRoundTrip | utils.py:6-37 | an event hit has exactly the twelve keys tid, cid, cd1, t, ec, ea, el, qt, dt, cs, cn, v; t is "event", dt is "offline", cid and cd1 both hold the client id, and every argument can be read back from its own key |
| Hits.ParseEventInverse | utils.py:23-37 | a payload from which the event arguments can be read back is exactly the hit `registration` builds from them, so the builder is injective and its image is fully described |
| Hits.RegistrationWithDefaults | utils.py:6-7 | called without `v` and `event_label`, the hit carries protocol version 1 and the label text "None" |
| Hits.Transaction | utils.py:40-72 | a transaction hit has exactly the twelve keys tid, cid, cd1, t, ti, tr, tt, cu, qt, dt, cs, cn; t is "transaction", dt is "offline", cid equals cd1, and it carries no `v` key although `v` is a parameter |
| Hits.ParseTransactionInverse | utils.py:58-72 | a payload from which the transaction arguments can be read back is exactly the hit `transaction` builds from them |
| Hits.TransactionIgnoresVersion | utils.py:40-41 | the `v` argument of `transaction` has no effect on the hit |
| Hits.WireForm | sender.py:23-28 | the posted form has one textual key per payload parameter (tid, cid, cd1, t, ...) and the same value under it |
| Hits.ParamNamesDistinct | utils.py:23-37 | different parameters are posted under different key strings, so no payload entry overwrites another on the wire |
| Store.CheckQueryResult | utils.py:97-106 | the query result is accepted exactly when it is non-empty (its size, rows times columns, is non-zero) |
| Store.Select | sender.py:85-86 | the rows selected for a user id are exactly the working-set rows with that id; the selection is non-empty exactly when the id occurs in the working set |
| Store.SelectFirst | sender.py:86-87 | the first selected row, whose `reg_date` the run reads as `values[0]`, is the first row of the table with that user id |
| Store.SelectCounts | sender.py:86 | the selection holds every row with that user id as many times as the table does, and no other row |
| Store.SelectAppend | sender.py:86 | the selection keeps table order: selecting from two stacked tables gives the selection from the first followed by the selection from the second |
| Store.CheckUser | utils.py:109-123 | a baseline without a `uid` column raises a key error; otherwise the user counts as new exactly when its id is not among the baseline's ids; a known user leaves the file untouched; a new user causes the unchanged in-memory baseline to be written back, so the file still does not list the new id |
| Store.LoadBaseline | sender.py:73-78 | an existing baseline file is read as it is; a missing one is first created empty with the working set's column names, so afterwards the file always exists and no user id is known |
| Store.SaveQuery | utils.py:131-140 | the saved file reads back as the query result under the given columns, with the same user ids |
| Transport.NewSender | sender.py:15-21 | a sender keeps the property id, sends the single header User-Agent: Python Script, and uses the debug endpoint when debug is set and the collect endpoint otherwise |
| Transport.DebugSelectsEndpoint | sender.py:18-21 | the sender's URL is the debug endpoint if and only if debug is set, and the production endpoint if and only if it is not |
| Transport.SendEvent | sender.py:23-30 | posting appends exactly one post, this sender with this payload, and leaves every earlier post in place |
| Runner.ClampDelta | sender.py:88-90 | the delta is never above 1,440,000 ms after clamping; it is kept exactly when it does not exceed the threshold, otherwise it becomes 0; negative deltas are kept |
| Runner.Route | sender.py:85-124 | the android branch is taken exactly for a new user whose tag matches "adr_app"; the iOS branch exactly for a new user matching "ios_app" but not "adr_app"; every known user falls to the web branch |
| Runner.RegistrationHitFacts | sender.py:88-98 | the hit for a user is an event hit whose tid is the branch's configured property, whose cid, cs and cn are the user's client ids, affiliate ids and campaign tags, whose ec and ea are the configured category and action, whose qt is the clamped age of the first row (at most the threshold), with version 1 and the configured label |
| Runner.HitFor | sender.py:83-142 | the post for a user goes through the sender of the branch chosen from the dedup answer and the tag test; a user the baseline lists always goes through the web sender; the payload is an event hit whose tid is that sender's property and whose qt is an integer no larger than the threshold; the payload reads back as the builder arguments for the user's selected rows and branch, so its cid/cd1, cs, cn, ec, ea, el, v and qt (the first row's clamped age) are all fixed |
| Runner.EnumerationSize | sender.py:71-80 | iterating over the set of user ids visits as many ids as there are distinct ids |
| Runner.RunSpec | sender.py:59-144 | an empty result ends the run with no post and the file untouched; a baseline without `uid` stops the run at the first check with no post; otherwise there is exactly one post per distinct user id, each built from the baseline as loaded before the loop, and the saved file is the working set under the six column names |
| Runner.RouteAndBuild | sender.py:85-142 | each of the three branches picks its own sender and builds the hit with the same clamp and the branch's property, which is what the single routing rule and the shared hit construction describe |
| Runner.Visit | sender.py:83-142 | one pass of the loop fails with a key error exactly when the baseline has no `uid` column and then leaves the file alone; otherwise it yields the post `HitFor` describes |
| Runner.SendAll | sender.py:80-142 | the loop raises a key error exactly when it has at least one user and the baseline lacks `uid`, with no post made; otherwise it makes, in order, the planned post for each listed user id; the file ends as it was or holds the baseline as loaded, so no user is recorded before the final save |
| Runner.Run | sender.py:59-144 | the run agrees with `RunSpec`; a finished run made one post per distinct user id and left the working set as the baseline |
| RunProperties.SecondRunResendsAll | sender.py:80-144 | after a finished run, a second run over the same working set finishes again and posts every user once more, all through the web sender, and does not skip them |
| RunProperties.FirstRunRoutesByTag | sender.py:73-85 | with no baseline file every user is new, so each post goes through the sender its campaign tag selects |
| RunProperties.PostedPropertyIdentifiesBranch | sender.py:85-131 | when the three property ids differ, a post's tid is the android id exactly for a new android-tagged user, the iOS id exactly for a new iOS-tagged user with no android tag, and the web id exactly for everyone else |
| RunProperties.PostedToOwnProperty | sender.py:91-140 | each post's tid is the property of the sender that posts it |
| RunProperties.KnownUserGoesWeb | sender.py:83-85 | a user the loaded baseline already lists is posted through the web sender |
| RunProperties.ThreeUsersOneKnown | sender.py:59-144 | three rows with distinct user ids, the first already in the baseline, give three posts, not two; the known user's post goes to web, and the final file lists all three ids |
| Intended.IntendedClampDelta | sender.py:88-90 | the clamp with a four-hour threshold: never above 14,400,000 ms, and a delta is kept exactly when it does not exceed that or is 0 |
| Intended.ClampThresholdDiscrepancy | sender.py:89-90 | the two clamps agree up to 24 minutes and above four hours; in between, the clamp as written zeroes a delta that the intended one keeps |
| Intended.ClampCounterexample | sender.py:89-90 | a delta of 1,440,001 ms is zeroed as written and kept by the intended clamp |
| Intended.IntendedRoute | sender.py:83-124 | a known user gets no channel; a new user gets the channel the as-written routing picks |
| Intended.IntendedHit | sender.py:83-142 | no post for a user the baseline lists; for a new user, its `IntendedPost` through the sender its tag selects |
| Intended.IntendedSendsSound | sender.py:80-124 | every intended post is the post of a listed user the baseline does not know, so no known user is posted |
| Intended.IntendedSendsComplete | sender.py:80-124 | every listed user the baseline does not know gets its intended post |
| Intended.IntendedPayloadFacts | sender.py:88-98 | the hit built with the four-hour clamp is an event hit whose tid is the channel's property and whose qt is the first row's age clamped at four hours |
| Intended.IntendedPost | sender.py:86-100 | the post meant for a new user goes through its channel's sender, and is an event hit carrying that sender's property and a time delta clamped at four hours |
| Intended.IntendedSendsCount | sender.py:80-85 | with no user listed twice, one post is meant for each listed user the baseline does not know |
| Intended.AllKnownPostsNothing | utils.py:109-119 | when the baseline lists every user, no post is meant to be made |
| Intended.IntendedRunSpec | sender.py:59-144 | the intended run ends and leaves the file exactly as the run as written does; a finished run makes as many posts as there are users the loaded baseline does not know, each post is the post of such a user, and every such user's post is made |
| Intended.IntendedSecondRunPostsNothing | sender.py:80-144 | after a finished run, a second intended run over the same working set finishes and posts nothing |
| Intended.IntendedThreeUsersOneKnown | sender.py:59-144 | three users with distinct ids, the first already known, give two intended posts |

## Left out

- The database query (`dataloader.py`, `Vertica`) is not modelled. The rows it returns are the input `Job.regs`.
- `requests.post` and the network are not modelled. Posting appends to a log, and HTTP responses and status codes are not modelled.
- The log records each payload keyed by `Param`. `Hits.WireForm` gives the string-keyed dictionary the HTTP client receives, but it is not applied to the log. How the client form-encodes that dictionary is not modelled; for example, a column value is sent as repeated `key=value` pairs.
- Reading the YAML configuration is not modelled. The constants are a record given as input.
- `string_date` and the date window of the query only shape the SQL text, so they are not modelled.
- CSV parsing and pandas type coercion are not modelled. A file holds a table as written.
- The pandas test `"adr_app" in series` is not interpreted: it is the parameter `matches`. In pandas, `in` on a Series tests the index labels, not the values, so as written the two tagged branches may never fire. The model keeps the test abstract, and every property holds for any answer it gives.
- Runner.ClampDelta: the time difference is taken in whole milliseconds. The float `total_seconds()*1000` and the truncating `int()` are not modelled.
- The iteration order of a Python `set` is not modelled. Runs are stated for any duplicate-free listing of the user ids.
- `print` calls are not modelled.
- Hits.Registration states nothing in its own contract. Its properties are proved as separate lemmas (`RegistrationRoundTrip`, `ParseEventInverse`) so that each proof stays small.
- `DataFrame.append` returns a new frame and the source discards it, so `check_user` writes back the baseline it was given. The model does exactly this (see `Store.CheckUser`).

## Findings

| source | as written | input that shows it | evidently intended | confidence | as-written member | corrected member |
|---|---|---|---|---|---|---|
| sender.py:83-124 | a user that `check_user` reports as known fails only the two tagged tests, and the `else` branch posts it to the web property | two runs over the same rows: the second posts every user again; three distinct users, one known, give three posts | `check_user` tells whether a user "had this event before" (utils.py:110-111), so a known user is skipped | medium, not executed | RunProperties.SecondRunResendsAll | Intended.IntendedSecondRunPostsNothing |
| sender.py:89 | the threshold `4*60*60*100` is 1,440,000 ms, which is 24 minutes | a delta of 1,440,001 ms is replaced by 0 | the factor 4*60*60 counts the seconds of four hours, which is 14,400,000 ms once multiplied by 1000 | low, not executed | Intended.ClampCounterexample | Intended.IntendedClampDelta |

`Runner` models the code as written throughout. `Intended` holds the corrected
definitions beside it: `IntendedRunSpec` skips known users and clamps at four
hours. `Intended.IntendedThreeUsersOneKnown` gives two posts where
`RunProperties.ThreeUsersOneKnown` gives three.
