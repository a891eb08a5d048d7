# marathon-coaching, modelled in Dafny

marathon-coaching is a running-coach application:

- a FastAPI backend pulls a runner's activities and laps from Garmin Connect into a SQL database and serves summaries of them;
- a Celery task asks an AI server for coaching feedback and records the outcome;
- an MCP server dispatches agent requests and exposes the backend to LLM agents as tools;
- a Streamlit front end draws a year-long activity calendar and prints durations in Korean units.

This project models the decision logic of those parts and proves what each promises.

## Structure

There is one module per source file, plus a few shared modules:

- `Wrappers`: `Option` and `Result`.
- `Text`: Python's `str(int)`, `int(str)`, `split`, `replace`, `format(i, "0wd")`, `startswith` and `in`.
- `Json`: vendor payloads and dictionary rows as values, with `d.get`, truthiness and numeric coercion.
- `Dates`: proleptic Gregorian ordinals, `weekday()`, the `YYYY-MM` key, datetime instants.
- `Models`: the `activities`, `activity_splits`, `activity_comments` and `ai_feedback` rows.
- `Store`: the SQLAlchemy session as a class `Session` with three tables: committed, flushed (staged and visible to queries), and pending.
  - `add`, `add(split)`, `flush()`, `commit()`, `rollback()` and `delete()` are its methods.
  - The pure transitions `After*` specify them.
  - `delete(comment)` only marks the comment, and the session holds the marked ids. The commit removes the marked rows. A rollback forgets the marks.
  - A commit fails when the database refuses a split written in the open transaction. This refusal is left abstract: it is the parameter `accepts`.
  - Equality on an id column follows SQLite's comparison (`Json.SameStored`). A NULL id is never equal to anything. A bool is held as 1 or 0. An integer or string is compared as its text.
  - Queries see committed and flushed rows, as with the repository's `autoflush=False` sessions.
  - A query or a flush raises when a value cannot be bound (`Store.Bindable`, `Store.RowBinds`). The sqlite3 driver binds None, booleans, numbers in 64 bits and text, but no list or dict. A `Boolean` column takes only None, True, False, 0 and 1. `Flush` reports the failure and leaves the rows pending; the service tracks that the session then refuses everything until its rollback.

The service modules are:

- `GarminSync` / `GarminSyncLemmas` model `backend/app/services/garmin_service.py`. Class `GarminService` works over a `Session`.
- `Activities` / `ActivitiesLemmas` model `backend/app/services/activity_service.py`. Class `ActivityService` works over a `Session`.
- `ActivityFormat` / `ActivityFormatLemmas` model the formatters of `activity_service.py`.
- `Coaching` models `backend/tasks/coaching.py`. The pending row of `backend/app/main.py` is included.
- `AiProvider`, `ToolsManager`, `RunningController` and `BackendProvider` model the MCP server.
- `ActivityCalendar` and `FrontendApp` model the front end.

What the code gets from outside is a parameter:

- the Garmin client: login success, the fetched feed, and the lap fetch per activity id;
- `datetime.fromisoformat`, as the abstract parser `IsoParser`;
- the HTTP reply of each call;
- what the LLM agent does on each attempt;
- `json.loads` and `json.dumps`;
- the environment lookup.

Floats are exact reals. Python's floor `//`, `%` and `int()` are written out with `.Floor`, and `round(x, 2)` rounds to nearest, ties to even.

In the lap reconciler, the `commit()` and `rollback()` of each lap act on the whole session. A failing lap therefore also discards the activity row that sync flushed just before it and that `synced_count` has already counted (`GarminSyncLemmas.CountedRowLost`). A record with no `activityId` is stored with a NULL id. The lookup of `str(None)` never finds that row, and the 404 it raises is swallowed. The row is then committed with no laps (`GarminSyncLemmas.NullIdRowKept`).

## Model

| member | source | states |
|---|---|---|
| GarminSync.GarminService.SyncActivities | backend/app/services/garmin_service.py:41-206 | The session ends as the reference run `Sync` leaves it and the answer is its outcome: login/fetch failure, "No activities found", synced count with feed length, or a re-raised 500 after rollback |
| GarminSync.GarminService.SyncRecords | backend/app/services/garmin_service.py:89-194 | The record loop leaves the session, `synced_count` and any escaping error exactly as the reference loop `RecordsRun` does |
| GarminSync.GarminService.SyncRecord | backend/app/services/garmin_service.py:90-194 | One record: a non-dict escapes; a record whose query raises (broken session, unbindable id), a known or a badly dated record is skipped uncounted; a new one is stored; as `RecordStep` |
| GarminSync.GarminService.SaveRecord | backend/app/services/garmin_service.py:184-192 | Add and flush the row; a failed flush raises before the count and breaks the session; otherwise count the row, reconcile its laps and swallow their error; as `StoreRow` |
| GarminSync.GarminService.ProcessActivitySplits | backend/app/services/garmin_service.py:208-238 | Looks the row up by `str(activity_id)` with SQLite equality, so a NULL or bool id is never found; a miss is a 500 carrying "404: Activity not found", a lap error a 500 with its text, and the session is as the lap reconciler left it |
| GarminSync.RecordsRunSnoc | backend/app/services/garmin_service.py:89-194 | The loop over one more record is one more loop turn, while nothing has escaped |
| GarminSyncLemmas.ExistingIndexMeaning | backend/app/services/garmin_service.py:92-99 | The existence query finds a row exactly when the user already has one with that Garmin id |
| GarminSyncLemmas.ZonesMeaning | backend/app/services/garmin_service.py:102-117 | Both zone maps have exactly keys zone_1..zone_5; an absent vendor field is 0, a present one copied |
| GarminSyncLemmas.TransformFails | backend/app/services/garmin_service.py:120-126 | A record is kept exactly when its three timestamps are strings that parse |
| GarminSyncLemmas.TransformKeys | backend/app/services/garmin_service.py:129-135 | The row carries the user id, the parsed timestamps, and the record's Garmin id and name |
| GarminSyncLemmas.TransformFlags | backend/app/services/garmin_service.py:129-182 | `elevation_corrected`, `favorite`, `manual_activity` default to False when absent and are copied otherwise |
| GarminSyncLemmas.TransformRenames | backend/app/services/garmin_service.py:129-182 | Renamed columns copy their vendor keys, e.g. `average_cadence` from `averageRunningCadenceInStepsPerMinute`, `vo2max_value` from `vO2MaxValue` |
| GarminSyncLemmas.TransformMeasures | backend/app/services/garmin_service.py:129-182 | Distance, duration and speed columns copy their vendor keys unchanged |
| GarminSyncLemmas.RecordStepSkips | backend/app/services/garmin_service.py:90-99 | A non-dict record escapes and changes nothing; on a broken session or with a parameter that does not bind, a dict is skipped at its query, nothing changed; a known or badly dated record is skipped, uncounted, the session unchanged |
| GarminSyncLemmas.RecordStepStores | backend/app/services/garmin_service.py:184-190 | A new record with good dates, queried on a working session with bindable parameters, goes to `StoreRow` |
| GarminSyncLemmas.StoreRowMeaning | backend/app/services/garmin_service.py:184-192 | The row is counted exactly when its flush succeeds; a failed flush leaves the row pending, uncounted, the session broken; a successful one comes before the laps, whose error is swallowed while the flushed row stays open |
| GarminSyncLemmas.StoreRowKeeps | backend/app/services/garmin_service.py:184-192 | Storing never loses a committed row and leaves no split open when none was |
| GarminSyncLemmas.SplitsForFlushedRow | backend/app/services/garmin_service.py:222-234 | An integer or string id of the row just flushed is found by its text, so the call is the lap reconciler under that text, its error re-raised as a 500 |
| GarminSyncLemmas.SplitsForUnfoundId | backend/app/services/garmin_service.py:222-226 | A null or bool id is looked up as "None", "True" or "False", which the flushed row (NULL, 1 or 0) does not hold, so it is the 500 carrying "404: Activity not found" |
| GarminSyncLemmas.SplitsForMissingRow | backend/app/services/garmin_service.py:224-226 | A row no lookup finds gives a 500 carrying "404: Activity not found" and changes nothing |
| GarminSyncLemmas.SplitsForKeeps | backend/app/services/garmin_service.py:208-238 | Reconciling laps loses no committed row and leaves no split open |
| GarminSyncLemmas.RecordStepBounds | backend/app/services/garmin_service.py:187 | One turn counts at most one record |
| GarminSyncLemmas.SyncOutcomes | backend/app/services/garmin_service.py:66-87 | Login or fetch failure rolls back and raises a 500; an empty feed writes nothing; success reports `total_activities = len(activities)` and at most that many synced |
| GarminSyncLemmas.SyncEarlyFailureCommitsNothing | backend/app/services/garmin_service.py:203-206 | A failure before the loop commits nothing from the run |
| GarminSyncLemmas.SyncOfDicts | backend/app/services/garmin_service.py:184-201 | From a session with no open split and bindable pending rows, a feed of dicts whose rows bind always ends in a response |
| GarminSyncLemmas.BindingDictsKeepSession | backend/app/services/garmin_service.py:89-194 | Over dicts whose rows bind, the session stays working and every pending row stays bindable |
| GarminSyncLemmas.RecordStepBinds | backend/app/services/garmin_service.py:90-194 | One turn over a dict whose row binds keeps the session working and its pending rows bindable |
| GarminSyncLemmas.SplitsForNothingPending | backend/app/services/garmin_service.py:208-238 | The lap reconciler leaves nothing pending when nothing was |
| GarminSyncLemmas.BrokenSkipsDicts | backend/app/services/garmin_service.py:90-99 | After a failed flush, every later dict fails at its query and the loop changes nothing more |
| GarminSyncLemmas.UnboundRowFailsSync | backend/app/services/garmin_service.py:184-206 | A single new record whose row a column refuses is not counted; the commit then raises and the sync answers a 500 after the rollback |
| GarminSyncLemmas.TextFlagRefused | backend/app/services/garmin_service.py:146-180 | A `favorite`, `manualActivity` or `elevationCorrected` given as text makes the row refused by its `Boolean` column |
| GarminSyncLemmas.ScalarRecordBinds | backend/app/services/garmin_service.py:129-180 | A record of bindable scalars with boolean flags, for a 64-bit user id, yields a row that binds |
| Store.FlushSucceedsAdd | backend/app/services/garmin_service.py:184-185 | After an add, the flush succeeds exactly when it would have before and the new row binds |
| GarminSyncLemmas.SyncRerun | backend/app/services/garmin_service.py:92-99 | Re-syncing a feed the user already has counts 0 and leaves the committed rows unchanged |
| GarminSyncLemmas.CountedRowLost | backend/app/services/garmin_service.py:184-192 | A new record whose row binds, with an integer or string id whose first lap is not a dict, is counted as synced although the lap's rollback discards its row |
| GarminSyncLemmas.NullIdRowKept | backend/app/services/garmin_service.py:184-201 | A new record without `activityId` whose row binds is counted, its lap lookup misses and is swallowed, and the final commit keeps its row with no splits |
| GarminSyncLemmas.SyncAfterLoop | backend/app/services/garmin_service.py:196-201 | A loop that let nothing escape and broke no flush ends in the final commit and the synced response |
| GarminSyncLemmas.StoreRowLapFails | backend/app/services/activity_service.py:432-437 | With a single non-dict lap, the lap's rollback takes the flushed row with it |
| Activities.ActivityService.ProcessActivitySplits | backend/app/services/activity_service.py:382-441 | A fetch error is re-raised with the session unchanged; otherwise the session is as the reference reconciler `ProcessSplits` leaves it |
| Activities.ActivityService.RunLaps | backend/app/services/activity_service.py:401-438 | The lap loop leaves the session as the reference loop `LapsRun` does |
| Activities.ActivityService.StoreLap | backend/app/services/activity_service.py:402-438 | One lap: add its split under the id text as given and commit; roll back when the lap is not a dict, its start does not parse, or the commit fails |
| Activities.Iterate | backend/app/services/activity_service.py:401 | `for lap in v` visits a list's items, a string's characters or a dict's keys; anything else is not iterable |
| Activities.IteratedLapsRollBack | backend/app/services/activity_service.py:401-438 | A string or dict as `lapDTOs` makes every turn roll back |
| Activities.ActivityService.GetActivity | backend/app/services/activity_service.py:117-119 | Ok exactly when a visible row has that Garmin id, and then it is such a row; otherwise a 404 "Activity not found" |
| Activities.ActivityService.DeleteActivityComment | backend/app/services/activity_service.py:361-380 | No comment with the id gives a 404 and changes nothing; otherwise the comment is marked deleted and the session committed; a failed commit leaves the mark open and the comment in place |
| Activities.ActivityService.GetActivitySummary | backend/app/services/activity_service.py:264-297 | A successful summary counts the user's rows |
| Activities.ActivityService.GetMonthlyActivitySummary | backend/app/services/activity_service.py:299-338 | The two loops give the reference summary `MonthlySummaryOf` of the user's rows |
| Activities.ActivityService.SumByMonth | backend/app/services/activity_service.py:317-327 | The bucket loop gives the reference totals `MonthTotals`, raising at the first non-number |
| Activities.ActivityService.RewriteMonths | backend/app/services/activity_service.py:329-335 | Every bucket is rewritten with its pace and printed duration, and no key is added or lost |
| Activities.ActivityService.GetActivitiesLapsWithComments | backend/app/services/activity_service.py:192-262 | The nested loops give the reference response `LapsWithCommentsOf`, stopping at the first failing conversion |
| Activities.ActivityService.ViewActivity | backend/app/services/activity_service.py:208-260 | One activity's entry: its laps converted, then its comments, then its first feedback; as `ActivityViewOf` |
| Activities.ActivityService.GetActivityLaps | backend/app/services/activity_service.py:477-493 | A successful answer has one row per split of the activity |
| Activities.ConvertAll | backend/app/services/activity_service.py:216-230 | An appending loop whose conversion may raise gives `MapResult`: every element converted in order, or the first error |
| Activities.ConvertEach | backend/app/services/activity_service.py:233-238 | An appending loop converts every element in order |
| Activities.MonthTotalsStep | backend/app/services/activity_service.py:318-327 | The bucket loop over one more activity is one more bucket update |
| ActivitiesLemmas.LapStepOutcome | backend/app/services/activity_service.py:402-438 | A stored lap commits its split with everything the transaction held; a failing lap keeps the committed rows; no transaction stays open |
| ActivitiesLemmas.LapsRunKeeps | backend/app/services/activity_service.py:401-438 | The lap loop never loses a committed row, and every split it commits carries the given activity id |
| ActivitiesLemmas.AllStoredEach | backend/app/services/activity_service.py:401-438 | All laps are stored exactly when each one is |
| ActivitiesLemmas.AllStoredSplits | backend/app/services/activity_service.py:403-431 | When all laps are stored, each becomes the split at its own position |
| ActivitiesLemmas.LapsRunAllStored | backend/app/services/activity_service.py:401-438 | When every lap is stored, the committed splits are exactly the laps' splits, in lap order |
| ActivitiesLemmas.ProcessSplitsMeaning | backend/app/services/activity_service.py:394-441 | A fetch error is re-raised and writes nothing; no data or no `lapDTOs` writes nothing; a non-iterable `lapDTOs` is the only other error; no committed row is lost |
| ActivitiesLemmas.DeleteRemovesFirstMatch | backend/app/services/activity_service.py:374-380 | With comment ids unique, the commit after the delete removes exactly the first comment with the id and keeps every other in order, other tables untouched; a rollback instead keeps the committed rows |
| ActivitiesLemmas.SummaryMeaning | backend/app/services/activity_service.py:280-297 | Row count, `round(Σm/1000, 2)`, the formatted total duration and the totals' pace; it raises exactly on a non-number or on distance without duration |
| ActivitiesLemmas.AveragePaceMeaning | backend/app/services/activity_service.py:284-290 | "00:00" without distance; otherwise `_format_pace(Σduration/km)` for a positive duration, which reads back to the millisecond |
| ActivitiesLemmas.SpeedOfTotals | backend/app/services/activity_service.py:285-288 | The speed `km·1000/dur` through `_speed_to_pace` is the pace `dur/km` |
| ActivitiesLemmas.SpeedOfNegativeDuration | backend/app/services/activity_service.py:285-288 | A negative total duration gives a negative speed, so the pace prints "0:00.000" |
| ActivitiesLemmas.MonthTotalsOk | backend/app/services/activity_service.py:317-327 | The bucket loop raises exactly when some distance or duration is not a number |
| ActivitiesLemmas.MonthTotalsKeys | backend/app/services/activity_service.py:318-325 | The buckets are exactly the `YYYY-MM` months in which some activity started |
| ActivitiesLemmas.MonthTotalsSums | backend/app/services/activity_service.py:326-327 | Each bucket holds its month's Σdistance/1000 (unrounded) and Σduration |
| ActivitiesLemmas.BucketPaceMeaning | backend/app/services/activity_service.py:329-335 | A month's pace stays "00:00" exactly when its duration is not positive; otherwise it is `_format_pace(duration/km)` |
| ActivitiesLemmas.MonthlySummaryMeaning | backend/app/services/activity_service.py:299-338 | It raises exactly on a non-number; the keys are the months of the user's activities, each the rewrite of its bucket |
| ActivitiesLemmas.InsertByStartAdds | backend/app/services/activity_service.py:205-207 | Inserting by start time adds exactly that row |
| ActivitiesLemmas.InsertByStartSorted | backend/app/services/activity_service.py:205-207 | Inserting into a latest-first list keeps it latest-first |
| ActivitiesLemmas.ByStartDescMeaning | backend/app/services/activity_service.py:205-207 | `order_by(start_time_local desc)` is latest first and a permutation of the rows |
| ActivitiesLemmas.ActivityViewsPointwise | backend/app/services/activity_service.py:208-262 | The response converts every activity in order and raises exactly when one conversion raises |
| ActivitiesLemmas.FeedbackOfMeaning | backend/app/services/activity_service.py:211-259 | The feedback attached is the first feedback row on the activity's Garmin id, or None |
| ActivitiesLemmas.ActivityViewOk | backend/app/services/activity_service.py:208-260 | An entry raises exactly when a lap or the activity has a non-numeric reading; its laps and comments are those joined by Garmin id |
| ActivitiesLemmas.ActivityViewNumbers | backend/app/services/activity_service.py:241-253 | An entry's distance is m to km and speeds m/s to km/h, each `round(x, 2)` |
| ActivitiesLemmas.ActivityViewMeaning | backend/app/services/activity_service.py:245-260 | An entry's Garmin id, name, start, formatted duration, paces, laps, comments and first feedback |
| ActivitiesLemmas.LapsWithCommentsMeaning | backend/app/services/activity_service.py:192-262 | The user's activities, latest first, each converted; raises exactly when one conversion raises |
| ActivitiesLemmas.LapViewOk | backend/app/services/activity_service.py:216-230 | A lap entry raises exactly when a speed, the distance or the duration is not a number |
| ActivitiesLemmas.LapViewNumbers | backend/app/services/activity_service.py:216-230 | A lap's distance is m to km and its speeds m/s to km/h, each `round(x, 2)` |
| ActivitiesLemmas.LapViewMeaning | backend/app/services/activity_service.py:216-230 | A lap entry formats its duration and paces and copies heart rate and cadence |
| ActivitiesLemmas.MetresPerSecondPace | backend/app/services/activity_service.py:217-226 | The pace of an m/s speed via km/h is "0:00.000" at rest and otherwise reads back as `1000/speed` seconds per km |
| ActivitiesLemmas.ActivityLapsOk | backend/app/services/activity_service.py:477-493 | `get_activity_laps` lists the splits of that id and raises exactly on a non-numeric `average_speed` |
| ActivitiesLemmas.ActivityLapsMeaning | backend/app/services/activity_service.py:477-493 | One row per matching split, in order, its `average_speed` printed with `_format_pace` |
| ActivityFormat.DurationClockReconstructs | backend/app/services/activity_service.py:505-509 | hours·3600 + minutes·60 + secs + ms/1000 is within a millisecond below the input, with minutes, secs < 60 and ms < 1000 |
| ActivityFormat.StripDotZero | backend/app/services/activity_service.py:556-558 | Exactly one trailing ".0" is removed; other strings are unchanged |
| ActivityFormat.ParseGarminDatetime | backend/app/services/activity_service.py:542-561 | The string with ".0" stripped goes to the parser; a non-string raises; a parse error is re-raised |
| ActivityFormat.Round2 | backend/app/services/activity_service.py:221 | `round(x, 2)` is a whole number of hundredths within 0.005 of x |
| ActivityFormatLemmas.ReadDurationOfFormatDuration | backend/app/services/activity_service.py:495-509 | A non-negative `_format_duration` reads back as its input to the millisecond; the hours before ":MM:SS.mmm" are the whole hours in at least two digits, exactly two below 100 |
| ActivityFormatLemmas.ReadPaceOfFormatPace | backend/app/services/activity_service.py:511-525 | A non-negative `_format_pace` reads back as its input to the millisecond; the minutes before ":SS.mmm" are the whole minutes with no leading zeros |
| ActivityFormatLemmas.SpeedToPaceMeaning | backend/app/services/activity_service.py:527-540 | "0:00.000" for speed ≤ 0, otherwise `_format_pace(3600/speed)` |
| ActivityFormatLemmas.FormatPaceExample | backend/app/services/activity_service.py:521-525 | 330 seconds per km prints "5:30.000" |
| ActivityFormatLemmas.SpeedToPaceExample | backend/app/services/activity_service.py:537-540 | 12 km/h prints "5:00.000" |
| ActivityFormatLemmas.FormatDurationExample | backend/app/services/activity_service.py:505-509 | 3661.5 s prints "01:01:01.500" |
| ActivityFormatLemmas.FormatNegativeDurationExample | backend/app/services/activity_service.py:505-509 | With floor arithmetic, −1 s prints "-1:59:59.000" |
| Store.DeleteCommentStaged | backend/app/services/activity_service.py:378-379 | A delete changes nothing visible and nothing a rollback keeps; the commit keeps exactly the comments not marked, other tables as they were |
| Store.CommitExtends | backend/app/services/activity_service.py:432-433 | A commit keeps every visible activity row in place and only appends |
| Coaching.FeedbackTable.Submit | backend/app/main.py:57-64 | Appends one "pending" row with a fresh id, no data, and the user and time given |
| Coaching.FeedbackTable.RequestCoaching | backend/tasks/coaching.py:18-45 | The table becomes `AfterCoaching` of the old table for this id and outcome |
| Coaching.NextId | backend/app/main.py:62-64 | The id handed out is larger than every id in the table |
| Coaching.CoachingOutcome | backend/tasks/coaching.py:25-43 | No row with the id means no change; otherwise only that row changes, keeping id, user and creation time; a 200 with JSON completes it with the body; anything else fails it and keeps its data |
| Coaching.SubmittedRowResolved | backend/tasks/coaching.py:27-43 | Running the coaching task on the row just submitted resolves that row alone |
| AiProvider.AnalyzeActivity | mcp/app/providers/ai_provider.py:58-82 | An answer is shaped under "analysis"; a failure is re-raised with its message |
| AiProvider.ShapedMeaning | mcp/app/providers/ai_provider.py:73-79 | The result holds the agent's "output" (or ""), the model name and the user id |
| AiProvider.CreateRaceTraining | mcp/app/providers/ai_provider.py:147-202 | The retry loop gives the reference run `Training` from attempt 0 with delay 2: result and sleeps |
| AiProvider.TrainingFrom | mcp/app/providers/ai_provider.py:157-202 | The deciding attempt is never beyond the third; every earlier one failed with "429"; the delays double; the result is the deciding attempt's |
| AiProvider.RaceTrainingAttempts | mcp/app/providers/ai_provider.py:157-202 | At most 3 attempts, sleeping 2 then 4 seconds; it succeeds exactly when the deciding attempt answers |
| AiProvider.AttemptFailureMeaning | mcp/app/providers/ai_provider.py:201-202 | The raised message contains "(시도 k/3)" and ends with the original error text |
| ToolsManager.CreateTools | mcp/app/providers/tools_manager.py:93-119 | The tools are `Selected` of the requested names, all of `tool_creators` when none are given |
| ToolsManager.Creator | mcp/app/providers/tools_manager.py:98-112 | A name is known exactly when it is a tool's name, and then it creates that tool |
| ToolsManager.SelectedConcat | mcp/app/providers/tools_manager.py:110-116 | Selection distributes over concatenated requests |
| ToolsManager.SelectedMeaning | mcp/app/providers/tools_manager.py:110-116 | Never longer than the request; each tool appears as often as its name; unknown names only give [] |
| ToolsManager.SelectedKnown | mcp/app/providers/tools_manager.py:110-114 | A request of known names gives exactly those tools, in order |
| ToolsManager.CreateToolsAll | mcp/app/providers/tools_manager.py:98-107 | No names gives the four tools in `tool_creators` order |
| ToolsManager.ToolBody | mcp/app/providers/tools_manager.py:15-91 | Malformed `UpdateSchedule` JSON or any raised call gives the fallback |
| ToolsManager.RunTool | mcp/app/providers/tools_manager.py:15-91 | With the call awaited, a failing backend gives the fallback |
| ToolsManager.RunToolReports | mcp/app/providers/tools_manager.py:15-91 | With the call awaited, the backend's answer reaches the agent serialised; only a failure or bad input gives "[]"/"{}" |
| ToolsManager.ToolsAlwaysFallBack | mcp/app/providers/tools_manager.py:18-23 | As written, every tool returns its fallback whatever the input |
| ToolsManager.ActivityToolLosesData | mcp/app/providers/tools_manager.py:18-23 | An input on which the as-written tool answers "[]" and the awaited one reports the activity |
| RunningController.HandleRequestAnswers | mcp/app/controllers/running_controller.py:14-28 | Every request is answered, by the as-written dispatcher and by the corrected one: "success" with one data entry and no error, or "error" with a message and no data |
| RunningController.AnalyzeRequestFails | mcp/app/controllers/running_controller.py:14-28 | The as-written dispatcher sends "analyze_activity" to the as-written handler, so it is answered with an error and no data |
| RunningController.UnknownAction | mcp/app/controllers/running_controller.py:23-26 | Any other action is an error "Unknown action: <action>", from both dispatchers |
| RunningController.DataActions | mcp/app/controllers/running_controller.py:30-50 | A falsy `user_id` gives "user_id is required"; otherwise the backend's data under "activities"/"summary", or its error; both dispatchers agree |
| RunningController.AnalyzeAction | mcp/app/controllers/running_controller.py:52-72 | Through the corrected dispatcher: missing `user_id` or `query` gives "user_id and query are required" and no data; otherwise the shaped analysis or the agent's error |
| RunningController.AnalyzeActivityAlwaysFails | mcp/app/controllers/running_controller.py:61 | As written, every analyze request is answered with an error, the TypeError when the parameters are present |
| RunningController.AnalyzeActivityDiscrepancy | mcp/app/controllers/running_controller.py:61 | A request the as-written dispatcher answers with the missing-argument error where the corrected one answers with the analysis |
| BackendProvider.Normalized | mcp/app/providers/backend_provider.py:11-12 | The result has a scheme; a URL with one is unchanged; otherwise exactly "http://" is prepended |
| BackendProvider.BackendClient.constructor | mcp/app/providers/backend_provider.py:9-12 | `base_url` is the normalised environment value, "http://localhost:8001" without one |
| BackendProvider.Received | mcp/app/providers/backend_provider.py:14-44 | Ok exactly for a 200 with JSON; a non-200 raises "API 호출 실패: " with the text; other exceptions pass through |
| BackendProvider.ApiFailureCarriesText | mcp/app/providers/backend_provider.py:25 | The non-200 error ends with the whole response text |
| BackendProvider.UrlsShape | mcp/app/providers/backend_provider.py:16 | The endpoint URLs are the base followed by the path and the user id, and keep the base's scheme |
| BackendProvider.BackendClient.GetRunningActivities | mcp/app/providers/backend_provider.py:14-28 | The laps URL is fetched and its reply received |
| BackendProvider.BackendClient.GetMonthlyActivitySummary | mcp/app/providers/backend_provider.py:30-44 | The monthly-summary URL is fetched and its reply received |
| ActivityCalendar.GroupByDate | frontend/components/activity_calendar.py:6-11 | Each day's list is that day's activities in feed order, the keys are exactly those days, and a start that does not parse fails the grouping |
| ActivityCalendar.GroupStep | frontend/components/activity_calendar.py:8-11 | Appending one activity adds its day to the days and the activity to that day only |
| ActivityCalendar.Level | frontend/components/activity_calendar.py:134-157 | The level is between 0 and 7 |
| ActivityCalendar.LevelThresholds | frontend/components/activity_calendar.py:134-157 | Level ≥ k exactly when the distance reaches k's threshold (>0, 5, 10, 15, 21, 30, 42) |
| ActivityCalendar.LevelMonotone | frontend/components/activity_calendar.py:134-157 | More distance never lowers the level |
| ActivityCalendar.GridStartMeaning | frontend/components/activity_calendar.py:82-99 | The grid starts on a Sunday 1 to 7 days before the window and has 53 or 54 columns |
| ActivityCalendar.TodayInLastColumn | frontend/components/activity_calendar.py:99-104 | Today is in the last column, in its weekday's row |
| ActivityCalendar.Grid | frontend/components/activity_calendar.py:99-126 | `total_weeks` columns of 7 cells, each the cell of its date |
| ActivityCalendar.WindowCoveredOnce | frontend/components/activity_calendar.py:101-120 | Every date of [today−364, today] is in exactly one cell, a day cell; every other cell is blank |
| ActivityCalendar.BlankOutsideWindow | frontend/components/activity_calendar.py:106-120 | A cell is blank exactly when its date is outside the window |
| ActivityCalendar.CellLabels | frontend/components/activity_calendar.py:109-126 | The weekday label only in column 0; the month label only on the first of a month; level 0 on an empty day |
| FrontendApp.KoreanDuration | frontend/app.py:114-125 | Anything but three colon-separated parts comes back unchanged |
| FrontendApp.KoreanDurationOfClock | frontend/app.py:114-123 | Zero-padded "HH:MM:SS" reads as the three numbers, with the units chosen by hours then minutes |
| FrontendApp.KoreanDurationOfParts | frontend/app.py:114-125 | Three colon-separated parts that all parse as integers are shown in Korean units |
| FrontendApp.KoreanUnitsRule | frontend/app.py:118-123 | The text has "시" exactly when hours > 0 and "분" exactly when hours or minutes > 0, and always ends in the seconds and "초" |
| FrontendApp.KoreanDurationKeepsDecimal | frontend/app.py:117-125 | A string with a decimal point comes back unchanged |
| FrontendApp.PartNotInteger | frontend/app.py:117-125 | Three parts, one not an integer, bring the input back |
| FrontendApp.KoreanDurationKeepsBackendDuration | frontend/app.py:117-125 | The backend's "HH:MM:SS.mmm" durations are shown as they are |
| FrontendApp.SplitKeeps | frontend/app.py:117 | A character other than ':' lies in one of the parts of the split |

## Left out

- The Garmin Connect client, aiohttp/requests calls, the Celery broker, the LLM agents, prompts and Vertex set-up are I/O or foreign code. They are parameters: the client's outcomes, the HTTP reply, the agent's run per attempt.
- SQLAlchemy internals (relationships, autoflush, identity map) are not modelled. The session is three tables: committed, flushed and pending.
- A database commit's own failures are not modelled in detail. Whether the store refuses a split is the abstract parameter `accepts`.
- SQLite compares an integer column with numeric text by its value ("0123" equals 123). The model compares by the canonical text instead. Comments and feedback are joined to their activity by equal JSON values.
- `datetime.fromisoformat`, `strptime` and `strftime` are an abstract parser. Only the ".0" stripping, the `YYYY-MM` key, dates as ordinals and `weekday()` are modelled.
- Floating point is not modelled. `round`, `%`, `int()`, `*3.6` and the sums are over exact reals, so float rounding is not captured.
- `int()` on strings: underscores between digits and non-ASCII digits are not modelled.
- The logging calls and their messages, and the HTML/CSS of the calendar and the rest of the Streamlit UI, are presentation.
- `AiProvider.CreateRaceTraining` models `asyncio.sleep` as the recorded delays only.
- `running_coach_prompt` and the agent constructors in `ai_provider.py` are not modelled.
- `GarminSync.SplitsFor` renders `str(activity_id)` only for null, booleans, integers and strings. For a float, list or dict id it gives an error.
- `ActivityCalendar.CalendarActivity` takes its distance as a number. The `ValueError`/`TypeError` of `float()` on a bad `distance` (frontend/components/activity_calendar.py:131) is not modelled.
- `get_activities`, `create_activity`, `create_activity_comment`, `save_activity_feedback` and `get_activity_feedback` of `activity_service.py` are not modelled. Nor is `check_garmin_login` of `garmin_service.py`.
- `MCPRequest.context` and `MCPResponse.metadata` are never read or set by the controller, and are left out.
- The tools' names are kept. Their description strings are not.
- `ToolsManager.CreateTools` returns tool names only. The `user_id` each closure binds is not carried, because the backend's answer is a parameter of `RunTool` and the user it was asked for plays no part in the model.
- `Activities.ActivityView` has no `"id"` entry, and `Activities.ActivityService.ViewActivity` does not give one. The surrogate primary key `activities.id` (activity_service.py:244) is assigned by the database at flush, and the model's rows carry no such key.
- `Store.RowBinds` models only the driver's binding and the `Boolean` column's check. Other conversions of SQLAlchemy's column types are not modelled: a `Float` or `Integer` column given text, for example, is stored as SQLite stores it. The `JSON` and `DateTime` columns are taken to bind.
- `GarminSync.StoreRow` and `GarminSync.ExistingIndex` take a value that cannot be bound to fail in the flush or the query, as a whole. Which parameter raised, and the exception's text, are not modelled.
- `RunningController.MissingLaps` fixes the TypeError text to one interpreter version's wording.
- `Activities.ActivityService.GetActivitySummary` and `Activities.ActivityService.GetActivityLaps` state only the row count in their own contract. The full meaning is proved in `ActivitiesLemmas.SummaryMeaning` and `ActivitiesLemmas.ActivityLapsMeaning`.

## Findings

| source | as written | input that shows it | evidently intended | confidence | as-written member | corrected member |
|---|---|---|---|---|---|---|
| mcp/app/providers/tools_manager.py:18 | The closures call the async `BackendProvider` methods without `await`, so `json.dumps` gets a coroutine and raises. `get_schedules` and `update_schedule` (lines 54 and 73) do not exist on `BackendProvider`. Every tool returns its fallback. | `GetRunningActivities` against a backend holding one activity answers "[]" | the awaited backend answer, serialised | not executed | ToolsManager.RunToolAsWritten, ToolsManager.ToolsAlwaysFallBack, ToolsManager.ActivityToolLosesData | ToolsManager.RunTool, ToolsManager.RunToolReports |
| mcp/app/controllers/running_controller.py:61 | `analyze_activity(user_id, query, comments)` is called with three arguments, but the method also requires `laps`. | `{"action": "analyze_activity", "parameters": {"user_id": 1, "query": "q"}}` is answered with the missing-argument TypeError | the agent's analysis under "analysis" | not executed | RunningController.HandleAnalyzeActivityAsWritten, RunningController.AnalyzeActivityAlwaysFails, RunningController.AnalyzeRequestFails | RunningController.HandleAnalyzeActivity, RunningController.AnalyzeAction |
