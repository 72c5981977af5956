# X-OPT application-state model

X-OPT is a Windows game-optimiser with an immediate-mode UI and four panels:

- **Boost**: ten optimisation toggles, an optimisation score, and a grade and ring colour for that score.
- **Deep Clean**: a one-shot job that empties the temporary, Windows temporary and prefetch folders and flushes the DNS cache.
- **Game Launch**: a file picker and a high-priority launcher.
- **Phonk Player**: a music player with a transport bar.

Status toasts appear over all panels and fade out after three seconds.

This project models the state logic of `src/main.cpp` and proves what it promises. That covers:

- the global `AppState` object and its toast queue;
- the toggle click and the actions behind the toggles;
- the score and its bands;
- the cleanup job and the Clean button;
- the player's open/play/pause/stop machine and its transport buttons;
- the launcher's status logic;
- the sidebar tab selection.

Modules:

- `Palette`: the tints a toast can carry.
- `Wrappers`: `Option`.
- `Notify`: toasts, and the sweep as a function on sequences. The sweep's laws are proved here: survivors are exactly the unexpired entries, in order; a zero-time sweep changes nothing; two sweeps compose.
- `Boost`: the flag snapshot (the set of flags that are on), the score, the grade and ring bands, the actions' notifications and write-backs, and the row-click function. Includes the Explorer-row finding and its correction.
- `Cleanup`: the per-folder removal count (a loop) and decimal rendering of counts as `std::to_string` writes them. Also the job's log lines and the log sink, with the lemma that the log's total line reads back as the sum of its folder lines.
- `Player`: the path stem that becomes a track title, and the panel's 40-byte title display.
- `App`: the class `AppState`, whose fields are those of the global state object plus the player's device-open flag. Its methods perform each event of the UI and are specified against the functions above.

What `Valid()` keeps between events:

- the tab index is in 0..3;
- every toast is still counting down;
- no job is marked running;
- the player only plays an open device and only opens a loaded track;
- Explorer is never marked killed.

The last point holds because of the finding below.

The OS calls are not modelled. Where the program branches on one, its outcome is a parameter of the method:

- whether `GetTempPathW` succeeded;
- the success of each entry removal in a folder;
- whether `CreateProcessW` succeeded;
- the file a dialog returned, if any.

Every other OS call is ignored by the program and so is absent from the model. Toast countdowns are integer milliseconds: the source's `3.0f` seconds is `3000`.

Strings are the program's narrow `std::string`s. For the strings that come from input (typed or chosen paths, and the track titles taken from them), a Dafny `char` stands for one byte. So the limits applied to them are byte counts: the 511 of a path buffer, and the 40 and 37 of the track title display. The program's own literals are written with their Unicode characters. An em dash or an arrow there is one `char` but several bytes in the program, and no length limit is ever applied to these literals.

Where the program's behaviour differs from the design notes of the system, the model follows the code. Neither of the following is in the code, so neither is modelled:

- the "failed action leaves the toggle unchanged" rule;
- the `AlreadyRunning` rejection: the Clean button is simply not drawn while the job runs.

The design notes also clamp the score to [0, 100]. The code does not clamp, and `Boost.BoostScore` proves the sum never leaves that range.

## Model

| member | source | states |
|---|---|---|
| `Boost.With` | src/main.cpp:137-146 | Setting one flag of the snapshot gives that flag the new value and leaves every other flag as it was. |
| `Boost.WithCommutes` | src/main.cpp:137-146 | Setting two different flags gives the same snapshot in either order. |
| `Boost.BoostScore` | src/main.cpp:369-380 | The score of any flag combination lies within 0..100. |
| `Boost.ScoreIsWeightedSum` | src/main.cpp:369-380 | The score equals the sum of the weights of the flags that are on: 10, 20, 8, 12, 0, 15, 18, 10, 0 and 7 in flag order. |
| `Boost.ScoreStep` | src/main.cpp:369-380 | Turning any one flag on raises the score by exactly that flag's weight, whatever the other flags are. |
| `Boost.UnweightedFlagsIgnored` | src/main.cpp:369-380 | The CPU-boost and NVIDIA-boost flags never change the score. |
| `Boost.ScoreFullIffAllWeighted` | src/main.cpp:369-380 | The score is 100 if and only if all eight weighted flags are on. |
| `Boost.ScoreOrderIndependent` | src/main.cpp:369-380 | Setting flag A then B gives the same score as setting B then A. |
| `Boost.GradeOf` | src/main.cpp:748-751 | Each of the four grades is returned exactly on its band: above 80, 51..80, 21..50, 20 and below. |
| `Boost.GradeCaptionInjective` | src/main.cpp:748-751 | Different grades get different captions. |
| `Boost.ScoreCaption` | src/main.cpp:748-751 | The caption under the score is "Excellent — Near-native performance" above 80, "Good — Significant improvements applied" on 51..80, "Fair — Apply more toggles below" on 21..50 and "Baseline — Enable tweaks to boost FPS" at 20 and below. |
| `Boost.GradeMonotone` | src/main.cpp:748-751 | A higher score never gets a lower grade. |
| `Boost.RingTint` | src/main.cpp:738-739 | The ring is green exactly above 60, orange exactly on 31..60 and red exactly at 30 and below. |
| `Boost.RingMonotone` | src/main.cpp:738-739 | A higher score never gets a worse ring colour. |
| `Boost.ScenarioPowerAndSuperfetch` | src/main.cpp:369-380 | With only high-performance power and SuperFetch-off set, the score is 35 and the grade Fair. |
| `Boost.Notice` | src/main.cpp:207-292 | Every action's toast is green, except KillExplorer's, which is orange. |
| `Boost.NoticeTellsArgument` | src/main.cpp:221-292 | For every action other than the two Explorer ones, the toast for "on" differs from the toast for "off". |
| `Boost.Writeback` | src/main.cpp:207-292 | The only flags an action writes are the Game Bar and Explorer flags. SetGameBar sets the Game Bar flag to the negation of its argument, KillExplorer sets the Explorer flag, RestartExplorer clears it, and every other action leaves the flags as they were. |
| `Boost.ExplorerToggleChoice` | src/main.cpp:217-219 | ToggleExplorer calls RestartExplorer exactly when the flag reads killed, and KillExplorer otherwise. |
| `Boost.ToggleExplorerNegates` | src/main.cpp:207-219 | Called on its own, ToggleExplorer's write-back negates the Explorer flag. |
| `Boost.Bound` | src/main.cpp:774-823 | Every row is bound to a flag other than the NVIDIA-boost flag, which no row shows. |
| `Boost.BoundInjective` | src/main.cpp:774-823 | Different rows are bound to different flags. |
| `Boost.RowCall` | src/main.cpp:769-823 | Exactly the Explorer row calls an Explorer action, and exactly the Game Bar row calls SetGameBar. The animations and Game Bar rows pass the negation of the switch, and every other non-Explorer row passes the switch itself. |
| `Boost.Click` | src/main.cpp:769-823 | A row click changes no flag other than the row's bound flag. |
| `Boost.ClickNotice` | src/main.cpp:769-823 | A row click's toast is orange exactly when the click is on the Explorer row with the flag reading killed. |
| `Boost.ClickFlipsOneFlag` | src/main.cpp:769-823 | A click on any row other than the Explorer row negates exactly that row's flag and leaves every other flag unchanged. For the Game Bar row, SetGameBar's write agrees with the widget's flip. |
| `Boost.ClickExplorerRestores` | src/main.cpp:805-807 | A click on the Explorer row leaves every flag as it was. Its notification is "Explorer killed" when the flag was set and "Explorer restarted" when it was clear. |
| `Boost.ExplorerNeverKilled` | src/main.cpp:207-219 | If Explorer is not marked killed, no row click marks it killed, and the Explorer row only ever restarts it. |
| `Boost.ClickScore` | src/main.cpp:769-823 | A click on any row other than Explorer moves the score by exactly the bound flag's weight: down if the flag was on, up if it was off. |
| `Boost.ClickIntendedFlipsEveryRow` | src/main.cpp:805-807 | With the Explorer callback corrected to kill on "on" and restart on "off", every row, Explorer included, negates exactly its bound flag. |
| `Boost.ClickIntendedScore` | src/main.cpp:805-807 | With the corrected Explorer callback, a click on any row moves the score by exactly the bound flag's weight. |
| `Notify.Fresh` | src/main.cpp:178-181 | A pushed entry carries the given message and tint, and its countdown is running. |
| `Notify.PushKeepsLive` | src/main.cpp:178-181 | Pushing onto a queue of running countdowns keeps every countdown running. |
| `Notify.Decremented` | src/main.cpp:697-698 | The decrement pass keeps the queue's length. |
| `Notify.DecrementedEntries` | src/main.cpp:697-698 | The decrement pass keeps each entry's message and tint and lowers its countdown by the frame time. |
| `Notify.Survivors` | src/main.cpp:715-716 | The erase step never lengthens the queue and leaves only entries whose countdown is positive. |
| `Notify.SurvivorsAppend` | src/main.cpp:715-716 | Filtering a concatenation filters each part and keeps the parts in order. |
| `Notify.SweptAppend` | src/main.cpp:693-716 | A sweep treats the parts of the queue independently and keeps their order. |
| `Notify.SweptSingle` | src/main.cpp:693-716 | One toast survives a sweep exactly when its lowered countdown is positive, and survives with that lowered countdown. |
| `Notify.Swept` | src/main.cpp:693-716 | After a sweep every countdown is positive and the queue is no longer than before. |
| `Notify.SweptZero` | src/main.cpp:693-716 | A sweep with zero elapsed time leaves a queue of running toasts as it was. |
| `Notify.SweptCompose` | src/main.cpp:693-716 | Two sweeps of a and b milliseconds, with b not negative, equal one sweep of a+b. |
| `Notify.SweptAfterPush` | src/main.cpp:178-181 | A freshly pushed toast survives any frame shorter than 3 s. It stays last in the queue, behind the sweep of the older toasts. |
| `Notify.ScenarioThreeExpire` | src/main.cpp:693-716 | Three fresh toasts are all gone after a 3.1 s frame. |
| `Cleanup.CountTrue` | src/main.cpp:328-336 | The number of successful removals never exceeds the number of entries. |
| `Cleanup.CountTrueIsMultiplicity` | src/main.cpp:328-336 | The count is the number of successful removals, that is, the multiplicity of success among the outcomes. |
| `Cleanup.CountTrueAppend` | src/main.cpp:328-336 | The successes of two runs of removals together are the successes of each run, added. |
| `Cleanup.DeleteTempFolder` | src/main.cpp:328-336 | The loop counts exactly the entries whose removal reported no error, so the count is at most the number of entries. |
| `Cleanup.NatToString` | src/main.cpp:347-364 | The decimal text of a count is non-empty, all digits, and has no leading zero. |
| `Cleanup.ParseNatToString` | src/main.cpp:347-364 | Reading the decimal text of a count gives the count back. |
| `Cleanup.NatToStringInjective` | src/main.cpp:347-364 | Different counts are written differently. |
| `Cleanup.ReadCountFramed` | src/main.cpp:347-364 | A count written between a fixed prefix and suffix reads back as itself. |
| `Cleanup.JobTotal` | src/main.cpp:340-357 | The total is the sum of the three folder counts when the temp path was found, and the sum of the other two otherwise. |
| `Cleanup.JobTotalIsRemovals` | src/main.cpp:340-357 | The total is the number of successful removals over the folders attempted, the temp folder only when its path was found. |
| `Cleanup.FolderLines` | src/main.cpp:342-362 | The job logs four lines before its total when the temp path was found and three otherwise. |
| `Cleanup.FolderLinesShape` | src/main.cpp:342-362 | The temp folder's line comes first when that path was found, and the Windows temp, prefetch and DNS lines always close the list, in that order. |
| `Cleanup.JobLines` | src/main.cpp:338-367 | The job logs exactly one line more than its folder lines. |
| `Cleanup.JobLinesShape` | src/main.cpp:338-367 | The job's log is its folder lines followed by the total line with the job's total. |
| `Cleanup.Sink` | src/main.cpp:868-871 | The sink writes at least one character per line, its newline. |
| `Cleanup.SinkAppend` | src/main.cpp:868-871 | Logging two runs of lines one after the other gives the two renderings, concatenated. |
| `Cleanup.CompletionMessage` | src/main.cpp:365 | The summary toast is longer than its fixed text: the total always has a digit. |
| `Cleanup.CompletionMessageReadsBack` | src/main.cpp:365 | The total reads back from the summary toast between "Clean complete — " and " items removed". |
| `Cleanup.JobLogTotals` | src/main.cpp:338-367 | The log shows one line per folder attempted, then the DNS line, then the total. The counts read from the folder lines are those folders' counts. The total line reads back as their sum, with the temp folder counted only if it was found. |
| `Cleanup.ScenarioTotal160` | src/main.cpp:338-367 | Counts 120, 0 and 40 give the line "Total: 160 items cleared". |
| `Player.DisplayTitle` | src/main.cpp:1034-1041 | The displayed title is at most 40 bytes. An empty title shows "No Track". A title of 1..40 bytes is shown unchanged. A longer one shows its first 37 bytes and "...", 40 in all. |
| `Player.DisplayTitleIdempotent` | src/main.cpp:1034-1041 | Displaying a displayed title again changes nothing. |
| `Player.FileName` | src/main.cpp:395-397 | The file name of a path contains no separator and is no longer than the path. |
| `Player.FileNameIsLastComponent` | src/main.cpp:395-397 | The file name is a suffix of the path, and it is either the whole path or starts right after a separator. |
| `Player.FileNameOfPlain` | src/main.cpp:395-397 | A path without a separator is its own file name. |
| `Player.NameStem` | src/main.cpp:395-397 | The stem of a file name is a prefix of it. "." and ".." are their own stems. Otherwise the stem is cut just before the last dot, provided that dot is not the first character. When no such dot exists the name is kept whole. |
| `Player.Stem` | src/main.cpp:395-397 | The stem of a path contains no separator. |
| `Player.StemIsPrefix` | src/main.cpp:395-397 | The stem of a path is a prefix of its file name. |
| `Player.StemShape` | src/main.cpp:395-397 | A stem shorter than the file name stops at the file name's last dot, which is not its first character, and the name is not "..". A stem equal to the file name means the name is "." or "..", or has no dot after its first character. |
| `Player.StemOfTrackPath` | src/main.cpp:395-397 | Opening `dir\name.ext`, where ext has no dot and may be empty, titles the track `name`. |
| `Player.StemOfBareName` | src/main.cpp:395-397 | A bare `name.ext`, where ext has no dot, has the stem `name`. |
| `Player.StemOfDirectory` | src/main.cpp:395-397 | A path ending in a separator has an empty stem. |
| `Player.StemOfDotFile` | src/main.cpp:395-397 | A file name made of a single leading dot and a dot-free extension, possibly empty, is its own stem. |
| `App.Clip` | src/main.cpp:160-167 | A path buffer keeps the longest prefix of the text that fits in 511 bytes. |
| `App.TabTitle` | src/main.cpp:1218-1221 | Every tab has a non-empty header title. |
| `App.TabTitlesDistinct` | src/main.cpp:1218-1221 | The header titles tell the four tabs apart. |
| `App.AppState.constructor` | src/main.cpp:132-176 | The state object's initial state: tab 0, every flag off, score 0, the launcher and player captions, an empty queue. The invariant holds. |
| `App.AppState.Startup` | src/main.cpp:1464-1465 | Before the first frame, the blue "X-OPT Engine ready" toast is appended to the queue, and the invariant is kept. |
| `App.AppState.Boot` | src/main.cpp:1464-1465 | The state the main loop starts from is the initial state except that the queue holds exactly the blue welcome toast. |
| `App.AppState.PushNotif` | src/main.cpp:178-181 | The queue grows by one entry at the end, with the given message and tint and a 3000 ms countdown. Earlier entries are unchanged. |
| `App.AppState.RenderNotifs` | src/main.cpp:693-716 | The two loops, decrementing newest first and then erasing, leave exactly the sweep of the old queue, and every countdown is positive. |
| `App.AppState.Toggle` | src/main.cpp:487 | The switch negates its bound field and no other toggle field. |
| `App.AppState.KillExplorer` | src/main.cpp:207-211 | Marks Explorer killed, changes no other flag, and pushes the orange "killed" toast. |
| `App.AppState.RestartExplorer` | src/main.cpp:212-216 | Marks Explorer running, changes no other flag, and pushes the green "restarted" toast. |
| `App.AppState.ToggleExplorer` | src/main.cpp:217-219 | Negates the Explorer flag and pushes the toast of the action it chose from the old flag. |
| `App.AppState.SetGameBar` | src/main.cpp:251-261 | Sets the Game Bar flag to the negation of its argument, changes no other flag, and pushes the matching toast. |
| `App.AppState.Perform` | src/main.cpp:207-292 | Calling any action changes the flags exactly by its write-back and pushes exactly its notification. |
| `App.AppState.BoostRow` | src/main.cpp:769-823 | The switch flips the bound flag, and then the row's callback runs on the new value. The flags become exactly the pure row-click result, exactly the row's notice is pushed, and an Explorer that was never killed stays unkilled. |
| `App.AppState.ClickRow` | src/main.cpp:769-823 | A row click transforms the flags exactly as the pure row-click function does, pushes exactly one toast, and keeps the invariant. In particular, Explorer stays unkilled. |
| `App.AppState.RefreshScore` | src/main.cpp:727-728 | The stored score becomes the score of the current flags and lies within 0..100. |
| `App.AppState.Frame` | src/main.cpp:1240-1255 | In one frame the score is refreshed only on the Boost tab and the toasts are swept. The invariant is kept. |
| `App.AppState.Log` | src/main.cpp:868-871 | The log sink appends the line and a newline. |
| `App.AppState.ClearSystemFolders` | src/main.cpp:349-362 | After the temp folder, the Windows temp and prefetch folders are cleared, their counts are added to the total, and the DNS cache is flushed. Their three done flags are set, and the log gains their two folder lines and the DNS line, in that order. |
| `App.AppState.ClearFolders` | src/main.cpp:341-362 | The folder part of the job returns the sum of the counts (the temp folder only if it was found) and logs the folder lines in order. It sets the three unconditional done flags, and the temp flag only when the temp path was found. |
| `App.AppState.CleanTempFiles` | src/main.cpp:338-367 | The whole job appends the full job log, pushes one "Clean complete" toast with the total, sets the done flags as the folders are reached, and ends not running. |
| `App.AppState.CleanNow` | src/main.cpp:864-873 | The button resets the log and the four done flags, so afterwards the log is exactly the job's lines and the temp done flag is exactly whether the temp path was found. |
| `App.AppState.EditGamePath` | src/main.cpp:914 | Typing sets the game path to what the 512-byte buffer holds of the text, and keeps the invariant. |
| `App.AppState.Browse` | src/main.cpp:923-936 | A cancelled dialog changes nothing. A chosen file becomes the game path and sets the status to "Ready to launch!" and the launch-ready flag, with a "Game selected" toast. The invariant is kept. |
| `App.AppState.LaunchGameWithPriority` | src/main.cpp:310-326 | An empty path pushes a red "No game path set!" toast and leaves the status unchanged. A successful spawn sets the "Launched with HIGH priority!" status with a green toast. A failed spawn sets "Launch failed — check path" with a red toast. The invariant is kept. |
| `App.AppState.PhonkOpen` | src/main.cpp:391-399 | Opening marks the device open and the track loaded, and titles the track with the path's stem. The invariant is kept. |
| `App.AppState.PhonkPlay` | src/main.cpp:401-408 | Play starts playback only when the device is open, and otherwise leaves it as it was. The invariant is kept. |
| `App.AppState.PhonkPause` | src/main.cpp:410-413 | Pause stops playback. The invariant is kept. |
| `App.AppState.PhonkStop` | src/main.cpp:415-420 | Stop ends playback and closes the device. The loaded flag is untouched. The invariant is kept. |
| `App.AppState.EditTrackPath` | src/main.cpp:1007 | Typing sets the track path to what the 512-byte buffer holds of the text, and keeps the invariant. |
| `App.AppState.LoadButton` | src/main.cpp:1016-1028 | A cancelled dialog changes nothing. A chosen file is stored, opened and titled by its stem, with no playback and a purple "Track loaded" toast. |
| `App.AppState.LoopButton` | src/main.cpp:1070 | The loop button flips looping and keeps the invariant. |
| `App.AppState.PrevButton` | src/main.cpp:1072-1075 | Rewind leaves a loaded track open and playing with its stem as title. With no track it leaves the player stopped and closed. |
| `App.AppState.PlayPauseButton` | src/main.cpp:1078-1081 | With nothing loaded and a path typed, the button opens that path first. Then it pauses if the player was playing, and otherwise plays if the device is open. |
| `App.AppState.NextButton` | src/main.cpp:1083-1086 | Skip stops and closes the player and pushes the "no queue" toast. |
| `App.AppState.SelectTab` | src/main.cpp:1173-1189 | Choosing one of the four sidebar items selects that tab, keeping the tab index in 0..3. |

## Left out

- Drawing, layout, styling, fonts, window and device management: they are presentation and do not change the modelled state.
- Floating point: the toast fade, the slider, the score ring geometry, the visualiser, the volume and progress of the player (`GetProgress`, `SetVolume`) and the animated percentage of the Clean panel. Toast countdowns are integers in milliseconds instead of `float` seconds.
- OS calls (power plans, registry writes, services, timer resolution, `taskkill`, MCI commands, `ipconfig`, `remove_all`, file dialogs): the program ignores their results, except the four outcomes the methods take as parameters.
- Concurrency: the cleanup job's detached thread, the notification mutex and the atomic running flag. The job is modelled as one sequential call, so the race between the button and the thread starting (the flag is set inside the thread), and the unlocked appends to the log, are not captured.
- `Cleanup.DeleteTempFolder`: an error while iterating a folder is not modelled. The range-for at src/main.cpp:331 advances with the throwing `operator++` of `fs::directory_iterator`, so such an error throws `filesystem_error` on the detached job thread and ends the program. Only a folder that cannot be opened (no entries, count 0) is modelled.
- `Cleanup.DeleteTempFolder`: `size_t` counts and totals are unbounded naturals; wrap-around past 2^64 entries is not modelled.
- `Player.Stem`: follows `std::filesystem::path::stem` for paths split by `\` and `/`; a drive-letter root without a separator (`C:song.mp3`) is not treated as a root here. Nor is the cut at a `:` inside the file name: on Windows the standard library ends the file name there (it strips an NTFS alternate data stream), so `dir\a:b.mp3` has the stem `a`, whereas the model gives `a:b`.
- `App.AppState.Browse` and `App.AppState.LoadButton`: the dialog's own 511-byte limit is not modelled; the stored path is cut to the buffer, while the toast and the opened track use the full text, as the program does.
- The no-op for re-applying a toggle's current state and the failure path of an action, both described in the system's design notes, are not in the code: the widget always flips and every action ignores its OS outcome.

## Findings

| source | as written | input that shows it | evidently intended | confidence | as-written member | corrected member |
|---|---|---|---|---|---|---|
| src/main.cpp:805-807 | The "Kill Windows Explorer" row flips `explorerKilled` before its callback runs, and the callback calls `ToggleExplorer`, which reads the flipped flag: from false it sees true and calls `RestartExplorer`, which writes false. | A click on the Explorer row with `explorerKilled == false`: the flag ends false and the toast is "Explorer restarted". | The switch kills Explorer when turned on and restarts it when turned off, so the flag follows the switch like every other row. | not executed | `Boost.ClickExplorerRestores` | `Boost.ClickIntendedFlipsEveryRow` |

`Boost.ExplorerNeverKilled` spells the finding out: starting from the initial state, no click ever marks Explorer killed. `App.AppState.ClickRow` models the program as written, which is why `Valid()` can promise that Explorer is never killed. The corrected click is `Boost.ClickIntended`. Under it every row, Explorer included, negates its bound flag, and `Boost.ClickIntendedScore` moves the score by the bound flag's weight for every row.
