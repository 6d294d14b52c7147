# LibraryReservation seat core in Dafny

A Dafny model of the seat-reservation core of the LibraryReservation iOS app:

- **Reminder reconciliation.** `NotificationManager` keeps the device's pending local notifications in step with the user's notification preferences, the configured reserve time of day and the current reservation. The device store is a map from the six fixed request identifiers to alerts. Adding under a pending identifier replaces the old alert.
- **Reservation state.** `ReservationManager` owns the signed-in account, the current reservation and the history. It updates them from the outcomes of the seat service. `load` reads the reservation and history from one archive file per account; `save` writes only the reservation (see below). Every assignment to `reservation` re-schedules the reminders and hands the value to the companion watch.
- **The reservation screen.** `SeatReservationViewController` decides whether reservations are for today or tomorrow, and lays the rooms of the selected library out two per row.

Files:

- `clock.dfy` (module `Clock`): instants as whole minutes under one fixed calendar; the (day, hour, minute) components a trigger matches, with their round trip.
- `seat_model.dfy` (module `SeatModel`): the reservation record, the account, and the four-way outcome `error | failed | requireLogin | success` of a seat-service call.
- `notifications.dfy` (module `Notifications`): identifiers, alerts, the away-time budget, the store after each step as pure functions, the `NotificationManager` class, and the lemmas about reconciliation.
- `reservations.dfy` (module `Reservations`): the archive, the file-store functions, the selection rule `FirstCurrent`, and the `ReservationManager` class.
- `room_grid.dfy` (module `RoomGrid`): row count and index pairing with coverage lemmas, the today/tomorrow rule, and the screen state `SeatReservationScreen`.

Modelling choices:

- **Methods that change state** are proved against pure functions of the old state: `Scheduled`, `SeatUpdated`, `SettingsApplied`, `Loaded`, `Saved` and `Deleted`. The lemmas beside those functions state what the source promises.
- **Settings.** `Settings.shared.notificationSettings` and `AppSettings.shared.libraryConfiguration.reserveTimeComponents` are modelled as the fields `settings` and `reserveTime` of `NotificationManager`. The core reads them and never writes them.
- **Current reservation for reminders.** The reservation that `updateSeatNotification` reads from the shared reservation manager is a parameter.
- **Network calls.** Each call to the seat service and its completion is one synchronous method. The method takes the outcome as a `SeatResponse` argument and appends the request it would send to the log `requests`.
- **Watch transfer.** The transfer to the watch is recorded in the log `transfers`.
- **JSON.** Encoding and decoding are functions injected at construction (`encode`, `decode`). Decoding may fail.
- **Files.** The group directory is a map from file name to bytes.

Two behaviours of the code look unintended; the model follows the code:

- **`fetch(page:)`.** It changes state only for `page == 0`, while `refresh` requests page 1. So no page fetched through `fetch` after a refresh affects the current reservation unless it is page 0. `Reservations.ReservationManager.Fetch` states this directly.
- **`save` and `load`.** `save` encodes the bare reservation, while `load` decodes a `ReservationArchive` (reservation plus history). The model claims no save/load round trip. `Reservations.SaveThenLoadFindsNothing` shows the consequence: with any decoder that rejects a bare reservation where an archive is expected, loading right after saving finds nothing.

Three more behaviours of the code may be surprising; the model follows the code in each:

- **Logout.** `accountLogout` deletes the old account's file and leaves memory as it is.
- **Started reservations.** With the upcoming preference on, an upcoming reminder for a reservation that has already started is neither added nor removed.
- **Global switch.** `schedule(reservation:)`, which the `reservation` hook calls, reads only the seat preferences and never `enable`. So a reservation change while notifications are disabled still adds reminders. `Notifications.NotificationManager.Schedule` and `Notifications.EndReminderCases` state this as written, and `Notifications.ScheduleIgnoresGlobalSwitch` shows an end reminder added right after the switch cleared the store.

## Model

| member | source | states |
|---|---|---|
| `Clock.ComponentsOf` | LibraryReservation/Notification/NotificationManager.swift:102 | the (day, hour, minute) extracted from an instant has hour in 0..23 and minute in 0..59, and names that same instant again |
| `Clock.ComponentsRoundTrip` | LibraryReservation/Notification/NotificationManager.swift:120 | components in range are exactly the components of the instant they name |
| `Notifications.IdentifierNamesDistinct` | LibraryReservation/Notification/NotificationManager.swift:13-18 | the six identifier strings are pairwise distinct, so keying the store by identifier is keying it by string |
| `Notifications.Scheduled` | LibraryReservation/Notification/NotificationManager.swift:82-161 | scheduling touches only the four reservation identifiers, every other entry keeps its alert, and with no reservation none of the four stays pending |
| `Notifications.SeatUpdated` | LibraryReservation/Notification/NotificationManager.swift:51-80 | after the seat update reserve is pending iff `seat.make`, then with the daily reserve-time alert, and late is kept exactly as it was |
| `Notifications.SettingsApplied` | LibraryReservation/Notification/NotificationManager.swift:38-45 | with `enable` off the store is empty; with it on, late is kept and reserve is pending iff `seat.make` |
| `Notifications.AwayBudget` | LibraryReservation/Notification/NotificationManager.swift:143-150 | the budget is the allowed away time (60 minutes in hours 11, 12, 17, 18, else 30) less the 10-minute warning, so it is 50 or 20 |
| `Notifications.NotificationManager.Add` | LibraryReservation/Notification/NotificationManager.swift:70-71 | adding under an identifier replaces whatever was pending under it and touches nothing else |
| `Notifications.NotificationManager.Remove` | LibraryReservation/Notification/NotificationManager.swift:73 | removal deletes exactly the given identifiers |
| `Notifications.NotificationManager.UpdateNotificationSettings` | LibraryReservation/Notification/NotificationManager.swift:38-45 | the new store is `SettingsApplied`: empty when notifications are disabled, otherwise the seat update |
| `Notifications.NotificationManager.RemoveAllNotifications` | LibraryReservation/Notification/NotificationManager.swift:47-49 | nothing stays pending |
| `Notifications.NotificationManager.UpdateSeatNotification` | LibraryReservation/Notification/NotificationManager.swift:51-80 | the new store is `SeatUpdated`: the reserve step, then the reminders of the current reservation or their removal |
| `Notifications.NotificationManager.Schedule` | LibraryReservation/Notification/NotificationManager.swift:82-161 | the new store is `Scheduled` of the old: the upcoming, end and away-expiry steps in source order, or removal of all reservation reminders when there is no reservation |
| `Notifications.NotificationManager.RemoveAllSeatNotifications` | LibraryReservation/Notification/NotificationManager.swift:163-165 | exactly the upcoming, end, awayStart and awayEnd identifiers are removed |
| `Notifications.DisabledClearsEverything` | LibraryReservation/Notification/NotificationManager.swift:38-49 | with `enable` off no identifier at all is pending, including reserve and the never-scheduled late |
| `Notifications.ReserveReminderFollowsPreference` | LibraryReservation/Notification/NotificationManager.swift:53-74 | with notifications enabled, reserve is pending iff `seat.make`, and then repeats daily at the reserve hour and minute |
| `Notifications.NoReservationClearsSeatReminders` | LibraryReservation/Notification/NotificationManager.swift:82-86 | with no reservation the store loses exactly the four reservation identifiers; every other entry keeps its alert |
| `Notifications.ScheduleKeepsReserveAndLate` | LibraryReservation/Notification/NotificationManager.swift:82-161 | scheduling never adds, removes or replaces the reserve or the late request |
| `Notifications.UpcomingReminderCases` | LibraryReservation/Notification/NotificationManager.swift:89-109 | upcoming on and not started: pending, non-repeating, at the components of start − 10 min, with location and message as body; upcoming off: absent; on but started: left exactly as it was |
| `Notifications.UpcomingFiresTenMinutesEarly` | LibraryReservation/Notification/NotificationManager.swift:101-104 | the components of the upcoming trigger name the instant ten minutes before the start |
| `Notifications.EndReminderCases` | LibraryReservation/Notification/NotificationManager.swift:111-126 | end is pending iff `seat.end`, non-repeating, at the components of the end instant |
| `Notifications.AwayReminderFireTime` | LibraryReservation/Notification/NotificationManager.swift:142-153 | the away-expiry trigger names away-start + 50 min when the away-start hour is 11, 12, 17 or 18, and away-start + 20 min otherwise |
| `Notifications.AwayReminderCases` | LibraryReservation/Notification/NotificationManager.swift:128-160 | tempAway on, away and away-start known: awayEnd pending; tempAway off: awayStart and awayEnd both absent; on but not away: only awayEnd absent, awayStart untouched |
| `Notifications.ScheduleIdempotent` | LibraryReservation/Notification/NotificationManager.swift:82-161 | scheduling twice with the same inputs gives the store that scheduling once gives |
| `Notifications.SettingsAppliedIdempotent` | LibraryReservation/Notification/NotificationManager.swift:38-80 | re-running the whole reconciliation with unchanged inputs leaves the store unchanged |
| `Notifications.ScheduleIgnoresGlobalSwitch` | LibraryReservation/Notification/NotificationManager.swift:82-126 | with `enable` off the reconciliation leaves nothing pending, yet scheduling a reservation afterwards adds its end reminder when `seat.end` is on |
| `Notifications.ScenarioNormalReservation` | LibraryReservation/Notification/NotificationManager.swift:89-126 | a 09:50 to 11:50 reservation with every preference on gets upcoming at 09:40 and end at 11:50 of its day, and no away-expiry reminder |
| `Notifications.ScenarioAwayOffPeak` | LibraryReservation/Notification/NotificationManager.swift:128-154 | away since 10:00, an off-peak hour, gives the away-expiry reminder at 10:20 of that day |
| `Reservations.FileName` | LibraryReservation/SeatReservation/Models/ReservationManager.swift:60 | the file name is `SeatReservation-`, then the username, then `.archive`, and the username can be read back from between them |
| `Reservations.FileNameInjective` | LibraryReservation/SeatReservation/Models/ReservationManager.swift:60 | two usernames get the same archive file name iff they are equal |
| `Reservations.FirstCurrent` | LibraryReservation/SeatReservation/Models/ReservationManager.swift:119-124 | the selection is none iff every fetched entry is history; otherwise it is a fetched entry that is not history |
| `Reservations.FirstCurrentAt` | LibraryReservation/SeatReservation/Models/ReservationManager.swift:119-124 | the selection is the entry at the first position, in server order, that is not history |
| `Reservations.Deleted` | LibraryReservation/SeatReservation/Models/ReservationManager.swift:98-105 | with no account the store is unchanged; otherwise exactly that account's file is gone and every other file is unchanged |
| `Reservations.DeleteSparesOtherAccounts` | LibraryReservation/SeatReservation/Models/ReservationManager.swift:98-105 | deleting one account's archive leaves every other account's archive present and unchanged |
| `Reservations.ArchiveIn` | LibraryReservation/SeatReservation/Models/ReservationManager.swift:54-67 | an archive is found exactly when there is an account whose own file is present and decodes, and it is that file's decoding |
| `Reservations.Loaded` | LibraryReservation/SeatReservation/Models/ReservationManager.swift:54-70 | any state other than (nil, []) comes only from a present, decodable file of the account itself |
| `Reservations.LoadReadsArchive` | LibraryReservation/SeatReservation/Models/ReservationManager.swift:54-70 | when the account's file decodes to an archive, reservation and history are both taken from that one archive |
| `Reservations.LoadIsolatesAccounts` | LibraryReservation/SeatReservation/Models/ReservationManager.swift:54-70 | what one account loads is unchanged by deleting or overwriting another account's archive file |
| `Reservations.LoadAfterDelete` | LibraryReservation/SeatReservation/Models/ReservationManager.swift:54-70 | after an account's archive is deleted, loading that account gives (nil, []) |
| `Reservations.Saved` | LibraryReservation/SeatReservation/Models/ReservationManager.swift:76-92 | no account leaves the store unchanged; with an account but no reservation the owner's file (the manager's own account's, not the parameter's) is removed, and it is the only file that can disappear; the only file that can be written is the account's, holding the encoding of the reservation |
| `Reservations.SaveThenLoadFindsNothing` | LibraryReservation/SeatReservation/Models/ReservationManager.swift:84-86 | because save writes the bare reservation, a decoder that rejects it as an archive makes a load right after a save find (nil, []) |
| `Reservations.ReservationManager.constructor` | LibraryReservation/SeatReservation/Models/ReservationManager.swift:26-31 | the manager starts with the launch account and the state loaded from its archive, after one hook firing |
| `Reservations.ReservationManager.SetReservation` | LibraryReservation/SeatReservation/Models/ReservationManager.swift:16-21 | every assignment, nil to nil included, sets the value, schedules reminders for it once and appends it once to the watch transfers |
| `Reservations.ReservationManager.AccountLogout` | LibraryReservation/SeatReservation/Models/ReservationManager.swift:33-38 | only the old account's archive file is deleted (nothing without an account); memory is untouched |
| `Reservations.ReservationManager.AccountLogin` | LibraryReservation/SeatReservation/Models/ReservationManager.swift:40-48 | without an account nothing changes; otherwise the account is switched, the hook fires for nil, then the new account's archive is loaded and the hook fires for it |
| `Reservations.ReservationManager.Load` | LibraryReservation/SeatReservation/Models/ReservationManager.swift:50-52 | loads for the manager's own account |
| `Reservations.ReservationManager.LoadFor` | LibraryReservation/SeatReservation/Models/ReservationManager.swift:54-70 | reservation and history become `Loaded` of the file store, with one hook firing for the loaded reservation |
| `Reservations.ReservationManager.Save` | LibraryReservation/SeatReservation/Models/ReservationManager.swift:72-74 | saves for the manager's own account |
| `Reservations.ReservationManager.SaveFor` | LibraryReservation/SeatReservation/Models/ReservationManager.swift:76-92 | no account: no-op; no reservation: deletes the manager's own account's file, not the parameter's; otherwise writes the encoding of the reservation alone |
| `Reservations.ReservationManager.Delete` | LibraryReservation/SeatReservation/Models/ReservationManager.swift:94-96 | deletes the manager's own account's file |
| `Reservations.ReservationManager.DeleteFor` | LibraryReservation/SeatReservation/Models/ReservationManager.swift:98-105 | removes that account's file, if any; no account is a no-op |
| `Reservations.ReservationManager.AdoptFirstCurrent` | LibraryReservation/SeatReservation/Models/ReservationManager.swift:119-124 | the loop assigns the first entry that is not history, with one hook firing; when there is none it assigns nothing |
| `Reservations.ReservationManager.Refresh` | LibraryReservation/SeatReservation/Models/ReservationManager.swift:107-129 | requests page 1; on success history is the list, reservation the first entry that is not history or nil, the result is saved and returned; otherwise the outcome is passed through and memory, files, transfers and reminders are unchanged |
| `Reservations.ReservationManager.CancelReservation` | LibraryReservation/SeatReservation/Models/ReservationManager.swift:131-150 | no reservation: success with no request and no change; success: reservation nil and the own account's file deleted; any failure: only the request is recorded |
| `Reservations.ReservationManager.Fetch` | LibraryReservation/SeatReservation/Models/ReservationManager.swift:152-166 | the outcome is returned unchanged; only page 0 with success sets history and, if one exists, the first entry that is not history as reservation; nothing is saved |
| `RoomGrid.RowCount` | LibraryReservation/SeatReservation/SeatReservationViewController.swift:116-118 | `(count + 1) / 2` is the least number of two-slot rows holding every room |
| `RoomGrid.LeftInBounds` | LibraryReservation/SeatReservation/SeatReservationViewController.swift:120-128 | every requested row's left index is a room; the right index is missing iff the count is odd and the row is the last |
| `RoomGrid.SlotOfIndex` | LibraryReservation/SeatReservation/SeatReservationViewController.swift:120-128 | row r shows index i iff i is a room index and i / 2 == r |
| `RoomGrid.SlotsPrefix` | LibraryReservation/SeatReservation/SeatReservationViewController.swift:116-128 | the first k rows show rooms 0 to min(2k, count) − 1, each once and in order |
| `RoomGrid.AllRoomsShownOnce` | LibraryReservation/SeatReservation/SeatReservationViewController.swift:116-128 | all rows together show every room index 0 to count − 1 exactly once, in order |
| `RoomGrid.ReservesTomorrowByMinuteOfDay` | LibraryReservation/SeatReservation/SeatReservationViewController.swift:44-55 | the hour-then-minute comparison means "the minute of the day has reached the reserve time" |
| `RoomGrid.SeatReservationScreen.ViewDidLoad` | LibraryReservation/SeatReservation/SeatReservationViewController.swift:39-55 | the date moves one day ahead with "Tomorrow" iff the hour is past the reserve hour or equal with the minute at least the reserve minute; otherwise today |
| `RoomGrid.SeatReservationScreen.SelectLibrary` | LibraryReservation/SeatReservation/SeatReservationViewController.swift:21-37 | selecting nil empties the rooms; selecting a library shows its cached rooms |
| `RoomGrid.SeatReservationScreen.Update` | LibraryReservation/SeatReservation/SeatReservationViewController.swift:190-196 | rooms are replaced only when the library is the selected one; otherwise they are unchanged |
| `RoomGrid.SeatReservationScreen.Handle` | LibraryReservation/SeatReservation/SeatReservationViewController.swift:159-170 | only a successful room check reaches `Update`; any other outcome leaves the rooms unchanged |
| `RoomGrid.SeatReservationScreen.NumberOfRows` | LibraryReservation/SeatReservation/SeatReservationViewController.swift:116-118 | the table's rows are just enough to hold the rooms shown two per row, and each row it asks for has a left room |
| `RoomGrid.SeatReservationScreen.CellRooms` | LibraryReservation/SeatReservation/SeatReservationViewController.swift:120-135 | a row shows room 2r on the left and room 2r+1 on the right exactly when it exists; the indices shown are that row's `RowSlots`, so the coverage lemmas apply to what the cells display |

## Left out

- **Delivery of notifications.** The `UNUserNotificationCenterDelegate` extension and the push SDK calls are outside the core. So are the authorization check and the removal of delivered notifications in `init`, and observer registration and `deinit`.
- **Notification content.** Titles, bodies, badge, sound, category identifiers and the reservation JSON in `userInfo` are opaque. The payload records only which reminder it is and the reservation. The upcoming reminder also records its body: the location, plus the message on its own line when there is one.
- **Calendar.**
  - Time zones, daylight saving and seconds are not modelled: a day is always 1440 minutes.
  - The `day` component is a day count since the epoch. The real calendar's day-of-month repeats every month, and the model does not capture that.
  - The commented-out time arithmetic is dead code and is not modelled.
- **Network and JSON.** Requests, decoding fallbacks and queues are not modelled. The outcome of each call is an argument, and encoding and decoding are injected functions.
- **Completion order.** The source calls the completion handler of `fetch(page:)` before it updates state, so the handler sees the old state. The model returns the outcome instead, and cannot express what a callback observes.
- **File system.**
  - A file write never fails in the model. The source only logs a failed write.
  - `delete(account:)` passes the file URL's `absoluteString` to `removeItem(atPath:)`. That string is a URL rather than a path, so on a device the removal likely fails. The model removes the file as the code evidently intends.
  - How `appendingPathComponent` treats special characters in usernames is not modelled.
  - `Reservations.LoadAfterDelete` rests on the model's delete removing the file, as the code intends; on a device the failing removal described above would leave the old archive readable.
- **Encoding errors.** `save(account:)` encodes with `try!`, so an encoding error crashes the app. The injected `encode` is total, so the model has no such crash.
- **Derived reservation flags.** The app derives `isStarted` and `isHistory` of a reservation from its time window and the current clock. The model stores them as booleans observed at the moment of the call, so it does not capture a reservation becoming started or history as time passes.
- **Missing reserve time.** `viewDidLoad` force-unwraps the hour and minute of the configured reserve time. It crashes when the hour is missing, and when the minute is missing during the reserve hour, the only time the minute is read. `TimeOfDay` always has both, so the model cannot express that crash.
- **Other collaborators.** The watch transfer is only a log of the values sent. `SeatHistoryManager`, the library manager's room check request and `AccountManager` are outside the core.
- **Concurrency.** Main-queue dispatch and the shared singletons are not modelled. Every completion is applied as one synchronous call.
- **UI.** The room cell, layout, animation, alerts, navigation, theming and the date formatting of the title are not modelled.
