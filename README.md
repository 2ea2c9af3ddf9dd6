# KinéBilan core, modelled in Dafny

KinéBilan is the back end of a physiotherapy practice. It keeps patients and
their appointments, and enforces a periodic assessment (a *bilan*): a patient
whose last bilan is missing or at least `max_days` days old (60 by default)
is due for a new one. Due patients get their next appointment turned into a
bilan, or a reminder to book one. Appointments are imported from the
practitioner's Doctolib agenda. Imported appointments of due patients may be
cancelled automatically. Notifications are sent by email, SMS and push.

This project models that core and proves properties of the model.

- **State.** The database is a value `Schema.Db`. It holds four tables as
  maps from id to row, plus the next id of each table (ids start at 1).
  `Schema.Wf` states what every operation keeps:
  - ids are positive and below the next id;
  - every appointment belongs to a stored patient;
  - the UNIQUE columns are unique.
- **The session.** The ORM session is the class `Storage.Store`. Its
  `Snapshot()` is the current `Db`.
- **Ids.** SQLite gives the next row of an `INTEGER PRIMARY KEY` table
  without `AUTOINCREMENT` (`app/models/patient.py:12` and the other models'
  `id` columns) the id one past the highest stored, so the id of a deleted
  last row is handed out again. `Schema.SqliteIds` states that each next id
  is that id. The empty database has it (`Schema.EmptyWf`), and every change
  the store can make keeps it: inserts (`Schema.InsertsKeepSqliteIds`),
  overwrites (`Schema.OverwritesKeepSqliteIds`) and the delete, which
  recomputes both next ids (`Schema.RemovePatientWf`). Every operation
  changes the database only through these, or by rolling back to an earlier
  state, so its new rows get the ids SQLite would give.
- **State-changing code.** Every request handler, service method and loop
  that changes rows is a method on the store. Its `ensures` ties the new
  snapshot, and the answer, to a function of the old snapshot. The
  properties are lemmas about those functions.
- **Dates and times.** Dates are day ordinals as Python's `date.toordinal()`
  numbers them (0001-01-01 is day 1). Times are minutes of the day.
- **Inputs the code does not compute.** These become parameters:
  - the clock: `today` and `now`;
  - the ISO and `strptime` parsers;
  - the SMTP, Twilio and Firebase transports;
  - the Doctolib login, agenda and remote cancellation.

Modules, by source file:

- `PatientModel`, `AppointmentModel`, `NotificationModel`, `DeviceModel`: the four models.
- `PatientsApi`, `AppointmentsApi` (with `Api` for the commit) and `BilanCheck`: the REST handlers and `check_bilans`.
- `Reports`: the dashboard, the bilan status and the notification statistics.
- `DoctolibSync`: the import of the agenda.
- `Delivery`, `EmailChannel`, `SmsChannel`, `PushChannel`, `Dispatch` and `Manager`: the notification services.
- `Schema`, `Storage`, `Common`, `Text`, `Calendar` and `Sorting`: the rows, the session, query helpers, and Python's string, date and ordering semantics.

## Model

| member | source | states |
|---|---|---|
| PatientModel.NeedsBilanMonotone | app/models/patient.py:63-69 | the rule is monotone in `max_days`: a patient due under a longer period is due under every shorter one |
| PatientModel.NeedsBilanBoundary | app/models/patient.py:68-69 | the comparison is `>=`: exactly `max_days` days is due, one day fewer is not |
| PatientModel.StaysDue | app/models/patient.py:63-69 | with the last bilan date unchanged, a due patient stays due on every later day |
| PatientModel.FutureBilanNotDue | app/models/patient.py:68-69 | a last bilan date in the future gives a negative day count, so it never makes a patient due for a positive `max_days` |
| PatientModel.DuePatients | app/models/patient.py:63-69 | the ids listed are exactly the stored patients for which `needs_bilan` holds, strictly increasing |
| AppointmentModel.SlotOrderIsDateThenTime | app/models/appointment.py:70 | ordering by one minute count is the same as `order_by(date, time)` |
| AppointmentModel.Upcoming | app/models/appointment.py:59-70 | the result is a permutation of the appointments that pass the filter |
| AppointmentModel.UpcomingMembers | app/models/appointment.py:66-69 | an appointment is listed iff it belongs to the patient, is scheduled, and is on a later day or later today than the current time |
| AppointmentModel.SlotOrderTotal | app/models/appointment.py:70 | ordering by date then time is a total preorder, so the sort is well defined |
| AppointmentModel.UpcomingChronological | app/models/appointment.py:70 | every earlier entry of the list is no later, by date then time, than every later entry |
| AppointmentModel.UpcomingCongruent | app/models/appointment.py:66-70 | the list depends only on owner, date, time and status of the appointments |
| AppointmentModel.BilanStatusUpdated | app/models/appointment.py:73-90 | an unknown id changes nothing; otherwise only `is_bilan` and `type` of that appointment change, with type 'bilan' when marked and 'regular' when unmarked, so `type == 'bilan'` iff `is_bilan`; marking a bilan sets the owner's last bilan date to the appointment's date (earlier or later than before) and changes no other patient; no other table or counter changes |
| AppointmentModel.BilanStatusUpdatedWf | app/models/appointment.py:73-90 | the update keeps the database well formed |
| AppointmentModel.UpdateBilanStatus | app/models/appointment.py:73-90 | returns whether the id exists; the new state is `BilanStatusUpdated` of the old |
| NotificationModel.MarkedSent | app/models/notification.py:48-52 | status becomes sent and the sending time is `now`; the error text and every other field are unchanged |
| NotificationModel.MarkedFailed | app/models/notification.py:54-58 | status becomes failed with the error text; the sending time and every other field are unchanged |
| NotificationModel.MarksOverwrite | app/models/notification.py:48-58 | neither mark looks at the previous status: a failed row marked sent keeps its old error, a sent row marked failed keeps its sending time |
| NotificationModel.MarkAsSent | app/models/notification.py:48-52 | only that row changes, to `MarkedSent` of the old row; the database stays well formed |
| NotificationModel.MarkAsFailed | app/models/notification.py:54-58 | only that row changes, to `MarkedFailed` of the old row; the database stays well formed |
| NotificationModel.GetPending | app/models/notification.py:60-63 | lists exactly the pending notifications, in increasing id order |
| NotificationModel.PendingOn | app/models/notification.py:60-63 | lists exactly the pending notifications of one channel, in increasing id order |
| NotificationModel.ReminderTextParts | app/models/notification.py:68-76 | the reminder starts with "Bonjour <first name>," and ends with the signature; it announces the conversion of the given appointment, or asks the patient to book one when there is none |
| NotificationModel.BilanReminder | app/models/notification.py:66-84 | the new row is a pending email for the patient and appointment, with the reminder subject, no error, no sending time, and the reminder text as its message |
| NotificationModel.CreateBilanReminder | app/models/notification.py:66-89 | adds exactly that row under the next notification id and returns the id; the database stays well formed |
| DeviceModel.DeviceWithToken | app/models/user_device.py:62 | a found id holds the token; none means no stored device holds it |
| DeviceModel.Refreshed | app/models/user_device.py:64-71 | the device type is overwritten; patient, user and name are replaced only by truthy new values; the device becomes active and its last use is `now`; the token is kept |
| DeviceModel.RegisterKnownToken | app/models/user_device.py:62-71 | registering a stored token refreshes that row in place: same id, no new row |
| DeviceModel.RegisterNewToken | app/models/user_device.py:72-81 | registering an unknown token adds one active device under the next id and changes nothing else |
| DeviceModel.RegisterWf | app/models/user_device.py:17 | registration keeps tokens unique and the database well formed |
| DeviceModel.RegisterDevice | app/models/user_device.py:59-84 | the new state is `Registered` of the old; the returned device holds the token |
| DeviceModel.Deactivate | app/models/user_device.py:53-56 | only the `active` flag of that device changes, to false |
| DeviceModel.UpdateLastUsed | app/models/user_device.py:48-51 | only the last use of that device changes, to `now` |
| DeviceModel.ActiveDevices | app/services/notification/push.py:112 | lists exactly the patient's active devices, in increasing id order |
| DeviceModel.DeactivateThenRegister | app/models/user_device.py:53-81 | a deactivated device is no longer among its patient's active devices; registering its token again for that patient makes it active again |
| Delivery.Settled | app/models/notification.py:48-58 | a delivery marks the row sent at `now`, a failure marks it failed with the error; only status, sending time and error of that one row change, and nothing else in the database |
| Delivery.SettledWf | app/services/notification/email.py:79-83 | after a send attempt the notification is never left pending, and the database stays well formed |
| Delivery.Settle | app/services/notification/email.py:79-83 | the new state is `Settled` of the old |
| EmailChannel.SendEmail | app/services/notification/email.py:26-60 | without server, user name or password the send fails with "Configuration SMTP incomplète" before any server is asked; otherwise it succeeds exactly when the server accepts, and fails with the server's error text after the prefix "Erreur lors de l'envoi de l'email: " |
| EmailChannel.EmailOutcomeCases | app/services/notification/email.py:62-85 | an email goes out exactly when the patient exists and has an address, SMTP is configured and the server accepts; a patient without an address fails with "Patient sans email valide" before the server is asked |
| EmailChannel.SubjectDefault | app/services/notification/email.py:75 | the subject is the notification's own when it has a non-empty one, otherwise "Notification de KinéBilan"; never empty |
| EmailChannel.ProcessEmail | app/services/notification/email.py:62-85 | returns whether the email went out and records that outcome on the row, and changes nothing else |
| SmsChannel.InternationalNumber | app/services/notification/sms.py:35-41 | the number always starts with '+': kept when it already did, a ten-character number starting with '0' becomes "+33" and the rest, anything else gets '+' in front |
| SmsChannel.InternationalNumberIdempotent | app/services/notification/sms.py:35-41 | normalising a normalised number changes nothing |
| SmsChannel.FrenchNumber | app/services/notification/sms.py:34-41 | "0612345678" becomes "+33612345678"; a nine-digit number only gains '+'; an international number is kept |
| SmsChannel.SendSms | app/services/notification/sms.py:23-61 | an incomplete Twilio account fails with "Configuration Twilio incomplète"; otherwise the provider, given the international number, decides: its id on success, "Erreur Twilio: …" on an API error, "Erreur lors de l'envoi du SMS: …" on any other error |
| SmsChannel.SmsOutcomeCases | app/services/notification/sms.py:63-85 | a text goes out exactly when the patient exists with a phone, the account is configured and the provider accepts the normalised number; without a phone it fails before the provider is asked |
| SmsChannel.ProcessSms | app/services/notification/sms.py:63-85 | returns whether the text went out and records that outcome on the row, and changes nothing else |
| PushChannel.SendPush | app/services/notification/push.py:46-71 | an uninitialised service fails with "Firebase non initialisé"; otherwise the send succeeds exactly when the messaging service accepts, and fails with the prefixed error text |
| PushChannel.ContentOf | app/services/notification/push.py:118-135 | the title is the subject or "Notification KinéBilan"; the body is the message's first 100 characters, the whole message when it is short enough; the data carry the notification id, the patient id and the full message |
| PushChannel.Broadcast | app/services/notification/push.py:122-141 | every device counts once, as a success or as an error |
| PushChannel.BroadcastSucceeds | app/services/notification/push.py:138-146 | some send succeeded exactly when some device accepted the message |
| PushChannel.BroadcastUninitialized | app/services/notification/push.py:48-50 | without an initialised service no device succeeds and every device records the same error |
| PushChannel.Tokens | app/services/notification/push.py:126-128 | one token per device, in the device order |
| PushChannel.PushOutcomeCases | app/services/notification/push.py:100-149 | a missing patient fails with "Patient non trouvé" and a patient without an active device with "Aucun appareil enregistré pour ce patient", before anything is sent; otherwise the push succeeds exactly when some active device accepted it |
| PushChannel.SendToDevices | app/services/notification/push.py:122-141 | the loop's counters equal `Broadcast` over the tokens |
| PushChannel.ProcessPush | app/services/notification/push.py:100-149 | returns whether the push succeeded and records that outcome on the row, and changes nothing else |
| Dispatch.Name | app/models/notification.py:15 | the `type` column of a channel is one of "email", "sms" and "push" |
| Dispatch.NameInjective | app/models/notification.py:15 | different channels are stored under different names |
| Dispatch.ChannelNamed | app/services/notification/manager.py:67-73 | a found channel has that name; none means no channel has it |
| Dispatch.ProcessVia | app/services/notification/manager.py:67-73 | the channel's `process_notification`: returns whether it went out and records that outcome on the row |
| Dispatch.Run | app/services/notification/email.py:104-110 | the count a batch returns is at most its number of notifications |
| Dispatch.RunFrame | app/services/notification/email.py:87-110 | a batch only settles notifications: other tables and counters are unchanged, every notification keeps its channel, one outside the batch is untouched, and every one in the batch ends sent or failed |
| Dispatch.SentAmong | app/services/notification/email.py:104-110 | the number of listed notifications marked sent is at most the length of the list |
| Dispatch.SentAmongFrame | app/services/notification/email.py:104-110 | the sent count over a list depends only on the listed rows |
| Dispatch.RunCountsSent | app/services/notification/email.py:104-110 | the count a batch returns is exactly the number of its notifications that end up marked sent |
| Dispatch.BatchDrains | app/services/notification/email.py:91-107 | after the batch over a channel's pending list, none of that channel's notifications is pending |
| Dispatch.BatchOnlySettles | app/services/notification/email.py:105-107 | a batch never makes a notification pending: what is pending afterwards was pending, unchanged, before |
| Dispatch.RunUnfold | app/services/notification/email.py:105-107 | a batch from a position is the notification at that position, then the rest of the batch |
| Dispatch.BatchTurn | app/services/notification/email.py:105-107 | the turn processes the first remaining notification, adds one to the count exactly when it went out, keeps the set of notifications, and leaves the whole batch equal to the count so far plus the remaining turns |
| Dispatch.Drain | app/services/notification/email.py:104-108 | the loop over the listed notifications leaves the database and the count of those that went out exactly as `Run` gives them |
| Dispatch.ProcessPending | app/services/notification/email.py:87-110 | the new state and the count are those of `Run` over the channel's pending list |
| Dispatch.ProcessEmailNotifications | app/services/notification/email.py:87-110 | the email batch: `Run` over the pending emails, returning how many went out |
| Dispatch.ProcessSmsNotifications | app/services/notification/sms.py:87-110 | the SMS batch: `Run` over the pending texts, returning how many went out |
| Dispatch.ProcessPushNotifications | app/services/notification/push.py:151-174 | the push batch: `Run` over the pending pushes, returning how many went out |
| Manager.ChannelsOr | app/services/notification/manager.py:45-47 | a missing or empty channel list becomes email, sms, push; a non-empty one is kept; the result is never empty |
| Manager.FreshIds | app/services/notification/manager.py:78 | the new notifications get consecutive ids from the counter on, one per channel |
| Manager.EnqueuedShape | app/services/notification/manager.py:49-62 | queuing adds exactly one pending notification per listed channel, at the next free ids and in list order, carrying the message, subject and appointment, and changes nothing else; the database stays well formed |
| Manager.DispatchedFrame | app/services/notification/manager.py:64-73 | immediate processing only settles notifications: no other table and no notification outside the list changes, one of an unknown type stays as it was, every listed one of a known type is settled, and answers are keyed by channel names only |
| Manager.NotifyUnknownPatient | app/services/notification/manager.py:39-43 | an unknown patient fails with "Patient <id> non trouvé" and the database is unchanged |
| Manager.NotifyQueues | app/services/notification/manager.py:45-86 | without immediate processing, every requested channel (all three by default) gets one new pending notification with the message, subject and appointment, under the returned id, and it is in that channel's pending list |
| Manager.NotifyImmediately | app/services/notification/manager.py:45-79 | with immediate processing the same notifications are created, and each one whose type names a channel is settled at once while the others stay pending; the answers are keyed by channel names only |
| Manager.AddDrafts | app/services/notification/manager.py:49-62 | the loop adds the drafts of `Enqueued` and returns their ids |
| Manager.DispatchAll | app/services/notification/manager.py:64-73 | the loop's state and answers are those of `Dispatched` |
| Manager.DispatchTurn | app/services/notification/manager.py:67-73 | one turn processes the next listed notification when it is stored and of a known type, records its answer under the channel's name, and extends `Dispatched` by that one id |
| Manager.NotifyPatient | app/services/notification/manager.py:25-86 | the new state and the answer are those of `Notified` |
| Manager.AppointmentReminderMentions | app/services/notification/manager.py:113-117 | the standard reminder announces a bilan or a session as the flag says, names the day and time, and asks for the prescription only before a bilan |
| Manager.ReminderQueued | app/services/notification/manager.py:88-130 | a reminder for a stored appointment queues, on each of the three channels, a pending notification for its patient linked to the appointment, titled "Rappel de rendez-vous - <day>", carrying the custom message when one is given and the standard text otherwise |
| Manager.SendReminder | app/services/notification/manager.py:88-130 | the new state and the answer are those of `Reminded` |
| Manager.AlertFrame | app/services/notification/manager.py:149-156 | the alert greets the patient by first name and ends with the closing sentence |
| Manager.AlertStatesDelay | app/services/notification/manager.py:151-154 | the alert states the delay in days only when the count is non-zero, and otherwise gives the general reason |
| Manager.AlertQueued | app/services/notification/manager.py:132-166 | an alert for a stored patient queues the alert text on the three channels, with the alert subject and no appointment |
| Manager.SendBilanAlert | app/services/notification/manager.py:132-166 | the new state and the answer are those of `Alerted` |
| Manager.StageDrains | app/services/notification/manager.py:179-183 | one batch job leaves its own channel with nothing pending, and a channel with nothing pending stays so |
| Manager.AllPendingDrained | app/services/notification/manager.py:168-192 | after the three jobs no email, SMS or push notification is left pending |
| Manager.ProcessAllPending | app/services/notification/manager.py:168-192 | the three counts are those of the email, SMS and push batches run in that order, and the total is their sum |
| Api.Committed | app/api/appointments.py:145 | a commit that keeps every UNIQUE column unique stores the changes and answers as planned; one that violates a constraint answers 500 and leaves the database as it was before the request |
| Api.Commit | app/api/appointments.py:145 | the session after the commit and the answer are those of `Committed` |
| Api.CommittedWf | app/api/appointments.py:145 | a request whose changes keep keys and owners sound leaves the database well formed, and either crashes or stores exactly its changes |
| Api.PerPage | app/api/appointments.py:20 | the page size is 20 by default, the given value up to 100, and 100 above; never more than 100 |
| AppointmentsApi.BilanArgCases | app/api/appointments.py:54-56 | for every argument: it selects the bilans exactly when it has four characters, each the lower- or upper-case letter of "true" |
| AppointmentsApi.BilanArgExamples | app/api/appointments.py:54-56 | "true", "TRUE" and "True" select the bilans; "1", "yes", "" and "false" select the other appointments |
| AppointmentsApi.BilanSelection | app/api/appointments.py:28-56 | without `is_bilan` every appointment is listed; with it, exactly those whose flag equals `is_bilan.lower() == 'true'` |
| AppointmentsApi.Requested | app/api/appointments.py:126-137 | the new row has the request's patient, date, time, notes and Doctolib id; duration 30, status 'scheduled', type 'regular' and no bilan unless given; the type is not tied to `is_bilan` |
| AppointmentsApi.SetAppointmentUnique | app/models/appointment.py:13 | writing a row keeps `doctolib_id` unique exactly when no other row holds the new id |
| AppointmentsApi.BilanDatesUnique | app/models/patient.py:13-16 | moving last bilan dates keeps the patients' UNIQUE columns unique |
| AppointmentsApi.WithBilanDate | app/api/appointments.py:142-143 | only the last bilan date of that patient changes, to the date; nothing else in the database changes |
| AppointmentsApi.CreateRefusals | app/api/appointments.py:105-124 | a body that is not JSON answers 400, a missing or falsy patient id, date or time 400, an unknown patient 404, an unparsable date or time 400; none of them stores anything |
| AppointmentsApi.CreateStores | app/api/appointments.py:126-147 | a valid request stores the requested row under the next id and answers 201 with it; a bilan becomes the patient's last bilan date, no other patient changes; it crashes with nothing stored exactly when the Doctolib id is taken |
| AppointmentsApi.CreateWf | app/api/appointments.py:101-147 | creating an appointment keeps the database well formed |
| AppointmentsApi.CreateAppointment | app/api/appointments.py:101-147 | the new state and answer are those of `Created` |
| AppointmentsApi.Changed | app/api/appointments.py:159-187 | every key present in the body replaces its column, every absent key keeps it, and the owner never changes |
| AppointmentsApi.UpdateRefusals | app/api/appointments.py:153-171 | a body that is not JSON answers 400, an unknown id 404, an unparsable date or time 400, and each changes nothing |
| AppointmentsApi.UpdateApplies | app/api/appointments.py:173-197 | the changed row is stored under its id and answers 200; the owner's last bilan date moves to the (possibly new) date only when `is_bilan` is switched on, and the type follows the request alone; it crashes with nothing stored exactly when the new Doctolib id is taken |
| AppointmentsApi.UpdateWf | app/api/appointments.py:149-197 | updating an appointment keeps the database well formed |
| AppointmentsApi.UpdateAppointment | app/api/appointments.py:149-197 | the new state and answer are those of `Updated` |
| BilanCheck.FirstUpcoming | app/api/appointments.py:227-231 | none exactly when the patient has no upcoming appointment; otherwise the first of the upcoming list, an appointment of that patient |
| BilanCheck.ActionFor | app/api/appointments.py:229-243 | a reminder alone exactly when nothing is upcoming; a promotion exactly when the first upcoming appointment is not a bilan, and then of that appointment; nothing when it already is one |
| BilanCheck.Flagged | app/api/appointments.py:233-234 | the appointment becomes a bilan with type 'bilan' and nothing else changes |
| BilanCheck.CheckStep | app/api/appointments.py:225-243 | one turn adds or removes no patient and no appointment |
| BilanCheck.Checked | app/api/appointments.py:223-243 | the loop creates at most one reminder per patient and adds or removes no patient and no appointment |
| BilanCheck.StepFrame | app/api/appointments.py:225-243 | one turn keeps the database well formed, creates at most one reminder, and changes only the patient's own appointments (to flagged bilans) and last bilan date, adding notifications after the existing ones |
| BilanCheck.CheckedFrame | app/api/appointments.py:225-245 | the pass keeps the database well formed and writes only to the rows of the due patients |
| BilanCheck.ActionStable | app/api/appointments.py:227-232 | a patient the pass has not reached yet gets the action decided on the original database |
| BilanCheck.Acting | app/api/appointments.py:223-243 | the number of patients that get a reminder is at most the number of due patients |
| BilanCheck.CheckedCount | app/api/appointments.py:239-243 | the count the pass reports is the number of due patients that get a reminder |
| BilanCheck.StepRows | app/api/appointments.py:229-235 | the turn of a patient flags the first upcoming appointment and records its date as the last bilan date, or writes nothing to the patient's rows |
| BilanCheck.CheckedRows | app/api/appointments.py:225-243 | for each due patient the pass writes exactly what the patient's own action calls for, decided on the original database |
| BilanCheck.StepReminder | app/models/notification.py:78-87 | the turn stores its reminder under the next notification id |
| BilanCheck.CheckedReminder | app/api/appointments.py:238-243 | each due patient that gets a reminder gets it under the id that follows the reminders of the patients before it, referring to the promoted appointment or to none |
| BilanCheck.Checks | app/api/appointments.py:210-251 | `notifications_created` is at most `patients_checked` |
| BilanCheck.DueListed | app/api/appointments.py:218-221 | the due patients come from the table, each once |
| BilanCheck.ChecksTouchOnlyFirstUpcoming | app/api/appointments.py:210-251 | the only appointments the endpoint modifies are the first upcoming ones of due patients that were not bilans, each becoming a bilan; the database stays well formed and the count is the number of patients acted upon |
| BilanCheck.ChecksPatient | app/api/appointments.py:218-243 | a patient that is not due is untouched; a due patient whose first upcoming appointment is not a bilan gets it promoted, its date as last bilan date, and a new reminder referring to it; a due patient with nothing upcoming gets a new reminder referring to no appointment |
| BilanCheck.CheckTurn | app/api/appointments.py:225-243 | the loop body's state and count are those of `CheckStep` |
| BilanCheck.CheckAll | app/api/appointments.py:223-243 | the loop's state and count are those of `Checked` |
| BilanCheck.CheckBilans | app/api/appointments.py:210-251 | the state and the two counts are those of `Checks` |
| PatientsApi.PatientsPerPage | app/api/patients.py:18 | the page size is 20 by default, the given value up to 100, and never more than 100 |
| PatientsApi.EmailHolderUnique | app/models/patient.py:16 | under `UNIQUE(email)` at most one patient holds an email, so the lookup by email finds that one |
| PatientsApi.DateOf | app/api/patients.py:81-95 | an absent, `null` or empty date stores no date; a given one stores the parsed date |
| PatientsApi.Built | app/api/patients.py:97-109 | the new row carries the names and every other value as given, and has a birth date or last bilan date exactly when a non-empty one was given |
| PatientsApi.SetPatientUnique | app/models/patient.py:13-16 | writing a row keeps both UNIQUE columns unique exactly when the row clashes with no other on email or Doctolib id |
| PatientsApi.CreatePatientRefusals | app/api/patients.py:66-95 | a body that is not JSON answers 400, a missing or empty name 400, an email some patient has 409, an unparsable birth date 400, in that order, and none stores anything |
| PatientsApi.CreatePatientStores | app/api/patients.py:97-114 | a valid request stores the built row under the next id, answers 201, and touches no other row; it crashes with nothing stored exactly when the row clashes, which for the email can only happen with an email given as "" |
| PatientsApi.CreatePatientWf | app/api/patients.py:62-114 | creating a patient keeps the database well formed |
| PatientsApi.CreatePatient | app/api/patients.py:62-114 | the new state and answer are those of `CreatedPatient` |
| PatientsApi.DateChange | app/api/patients.py:149-167 | an absent date key keeps the column, a `null` or empty one clears it, a given one sets the parsed date |
| PatientsApi.OnlyPresentKeysChange | app/api/patients.py:126-167 | each key present in the body sets its column, each absent key keeps it, and an empty date clears it |
| PatientsApi.NoKeysNoChange | app/api/patients.py:126-167 | an empty update leaves the row as it was |
| PatientsApi.UpdatePatientRefusals | app/api/patients.py:120-165 | a body that is not JSON answers 400, an unknown id 404, an email another patient holds 409, an unparsable date 400, in that order; none stores anything, so the keys assigned before a refusal are never committed |
| PatientsApi.KeepOrClearEmail | app/api/patients.py:131-137 | keeping the patient's own email, or clearing it, is never refused as taken |
| PatientsApi.UpdatePatientApplies | app/api/patients.py:126-171 | an accepted update stores the changed row under its id, answers 200 and touches no other row; it crashes with nothing stored exactly when the changed row clashes with another |
| PatientsApi.UpdatePatientWf | app/api/patients.py:116-171 | updating a patient keeps the database well formed |
| PatientsApi.DateKey | app/api/patients.py:150-167 | one date key is accepted exactly when it is absent, empty or parses, and then gives the column afterwards |
| PatientsApi.AssignKeys | app/api/patients.py:127-147 | the plain keys assigned one by one give `PlainChanged` |
| PatientsApi.UpdatePatient | app/api/patients.py:116-171 | the new state and answer are those of `UpdatedPatient` |
| PatientsApi.DeletedPatient | app/api/patients.py:177 | an unknown id answers 404 and changes nothing |
| PatientsApi.DeleteCascades | app/models/patient.py:27 | deleting a stored patient answers 200 and removes the row and exactly that patient's appointments; the other rows and the notifications stay, and the database stays well formed |
| PatientsApi.DeletePatient | app/api/patients.py:173-182 | the new state and answer are those of `DeletedPatient` |
| PatientsApi.NameOrderTotal | app/api/patients.py:194 | ordering by last name then first name is a total preorder |
| PatientsApi.SortedByName | app/api/patients.py:194 | sorting under that order gives a list in that order |
| PatientsApi.NeedingBilanMembers | app/api/patients.py:191-194 | the listing holds every stored patient who needs a bilan and no other, as often as the due list holds it |
| PatientsApi.NeedingBilanSorted | app/api/patients.py:194 | the listing goes by last name and then first name |
| Reports.SelectAllCount | app/api/reports.py:22 | counting every row of a table gives the number of rows stored |
| Reports.WeekBounds | app/api/reports.py:40-41 | the week starts on the Monday on or before today, with no later Monday between, and ends on the Sunday six days later; today lies inside it |
| Reports.SameWeek | app/api/reports.py:40-45 | every day between the week's start and end has the same week |
| Reports.DashboardBounds | app/api/reports.py:15-64 | the patients due for a bilan are at most all patients, today's scheduled appointments at most the week's, the pending notifications at most all notifications |
| Reports.BilanStatusPartition | app/api/reports.py:102-153 | valid and not-valid bilans split the patients; those with a scheduled bilan are among those without a valid one; the difference the report returns is exactly the number of due patients with no scheduled bilan, so it is never negative; the not-valid count is the size of the due list |
| Reports.TallyAccounts | app/api/reports.py:176-205 | the report fails exactly when some row has a status other than sent, pending or failed; otherwise the total is the sum of all counts, each status counter is the sum of its rows, and there is one entry per type met, whose total is the sum of that type's rows |
| Reports.TallyLastRow | app/api/reports.py:200 | an entry's counter for a status holds the count of the last row with that type and status, because it is overwritten and not added |
| Reports.TallyStaysFailed | app/api/reports.py:203 | once a row has failed, the whole report fails |
| Reports.NotificationStats | app/api/reports.py:155-205 | the loop over the grouped rows returns `Tally` of them |
| DoctolibSync.ParseNameStripped | app/services/doctolib/sync.py:213-216 | both parts of a parsed name come out stripped |
| DoctolibSync.ParseNameUpperFirst | app/services/doctolib/sync.py:198-203 | "NOM Prénom …": an all-capitals first word is the last name and the rest, joined by spaces, the first name |
| DoctolibSync.ParseNameLastWord | app/services/doctolib/sync.py:204-207 | otherwise the last word is the last name and the words before it the first name |
| DoctolibSync.ParseNameOneWord | app/services/doctolib/sync.py:208-211 | a name with no inner space is all last name, with an empty first name |
| DoctolibSync.BilanMotifIgnoresCase | app/services/doctolib/sync.py:260-261 | the case of a reason does not change whether it is a bilan |
| DoctolibSync.KeywordMakesBilan | app/services/doctolib/sync.py:257-261 | a reason holding any of the five keywords anywhere is a bilan |
| DoctolibSync.NoKeywordNoBilan | app/services/doctolib/sync.py:253-261 | an empty reason, or one holding none of the keywords, is not a bilan |
| DoctolibSync.FoundOrAdded | app/services/doctolib/sync.py:95-99 | the patient picked is stored and carries exactly the parsed first and last name |
| DoctolibSync.FoundOrAddedSpec | app/services/doctolib/sync.py:218-241 | a patient is added exactly when none has the name; a found one is the lowest id with the name and nothing changes; an added one takes the next id with every other column empty; the database stays well formed |
| DoctolibSync.ByDoctolibId | app/services/doctolib/sync.py:113 | a found appointment is stored and holds the Doctolib id |
| DoctolibSync.ByDoctolibIdSpec | app/services/doctolib/sync.py:113 | in a well-formed database nothing is found exactly when no appointment holds the id |
| DoctolibSync.ByDoctolibIdFinds | app/services/doctolib/sync.py:113 | in a well-formed database the appointment holding the id is the one found |
| DoctolibSync.Upserted | app/services/doctolib/sync.py:113-139 | the patient stays stored, and an appointment reported as existing is stored |
| DoctolibSync.UpsertedRefreshes | app/services/doctolib/sync.py:115-122 | when the id is stored, the upsert only overwrites that appointment's date, time, bilan flag, type and notes |
| DoctolibSync.UpsertedWf | app/services/doctolib/sync.py:113-139 | the upsert keeps the database well formed and adds no patient |
| DoctolibSync.AlertedFrame | app/services/notification/manager.py:132-166 | a bilan alert only writes notifications and keeps the database well formed |
| DoctolibSync.CancelledAndAlertedFrame | app/services/doctolib/sync.py:153-162 | the local cancellation and the alert change only that appointment's status, to cancelled, and the notifications |
| DoctolibSync.SyncRefusals | app/services/doctolib/sync.py:40-74 | without an email or a password the run fails with the configuration error, after a failed login with the login error, and neither changes anything; otherwise it returns counters whose total is the number of records |
| DoctolibSync.ImportsKeepTotal | app/services/doctolib/sync.py:74-77 | the loop never changes the total |
| DoctolibSync.StepRejects | app/services/doctolib/sync.py:86-107 | a record with no id, name, date or time is listed as incomplete and changes nothing; one whose date or time does not parse is listed with that date and time and adds no appointment, though its patient may have been added |
| DoctolibSync.AppliedUpdates | app/services/doctolib/sync.py:115-162 | on a stored id only date, time, bilan flag, type and notes change, and the status becomes cancelled exactly when auto-cancel is on, the reason is no bilan, the patient is due, the appointment was scheduled and the remote cancellation succeeds |
| DoctolibSync.AppliedCreates | app/services/doctolib/sync.py:123-139 | on a new id one scheduled appointment of 30 minutes is added under the next id, a bilan also sets the patient's last bilan date, and nothing is cancelled |
| DoctolibSync.StepApplies | app/services/doctolib/sync.py:92-162 | a complete parsable record is upserted for the patient found or added by name and counted as updated or created, cancelled, and new patient accordingly, with no error |
| DoctolibSync.StepUpdates | app/services/doctolib/sync.py:113-162 | a record whose id is stored refreshes that appointment, whoever the name designates, counts one update, and cancels under the conditions above, judged on the patient found by name |
| DoctolibSync.StepCreates | app/services/doctolib/sync.py:123-139 | a record whose id is new adds one appointment for the patient found or added by name and counts one creation; a bilan sets that patient's last bilan date whatever the date |
| DoctolibSync.AppliedWf | app/services/doctolib/sync.py:113-162 | the upsert and the cancellation keep the database well formed, add no patient, and add an appointment exactly when no appointment held the id |
| DoctolibSync.AppliedKeeps | app/services/doctolib/sync.py:113-162 | they keep every row under the same name and Doctolib id, and leave the id stored |
| DoctolibSync.StepWf | app/services/doctolib/sync.py:77-165 | one record keeps the database well formed and every row, and leaves the record covered: its patient exists by name and, when it parses, its id is stored |
| DoctolibSync.StepAccounting | app/services/doctolib/sync.py:77-165 | each record counts once as an error, a creation or an update; only updates are cancelled; at most one new patient; earlier errors stay |
| DoctolibSync.ImportsWf | app/services/doctolib/sync.py:77-168 | the whole loop keeps the database well formed and every row, and leaves every record covered |
| DoctolibSync.ImportsAccounting | app/services/doctolib/sync.py:77-168 | over the loop, errors plus creations plus updates is the number of records, cancellations are among the updates and new patients are at most one per record |
| DoctolibSync.AppliedStoredAddsNothing | app/services/doctolib/sync.py:113-122 | the upsert of a stored id adds no patient and no appointment |
| DoctolibSync.StepCoveredAddsNothing | app/services/doctolib/sync.py:92-139 | a record already covered adds no patient, no appointment, and counts no creation and no new patient |
| DoctolibSync.ImportsCoveredAddsNothing | app/services/doctolib/sync.py:77-168 | records that are all covered add nothing |
| DoctolibSync.ReimportAddsNothing | app/services/doctolib/sync.py:30-179 | importing the same agenda a second time adds no patient and no appointment and reports no creation and no new patient |
| DoctolibSync.SynchronisedWf | app/services/doctolib/sync.py:30-186 | a run keeps the database well formed |
| DoctolibSync.FindOrCreatePatient | app/services/doctolib/sync.py:95-99 | the id and the new state are those of `FoundOrAdded` |
| DoctolibSync.UpsertAppointment | app/services/doctolib/sync.py:113-139 | the new state and the appointment found are those of `Upserted` |
| DoctolibSync.ApplyRecord | app/services/doctolib/sync.py:113-162 | the new state, the appointment found and whether it was cancelled are those of `Applied` |
| DoctolibSync.ImportRecord | app/services/doctolib/sync.py:78-165 | one pass of the loop gives the state and counters of `SyncStep` |
| DoctolibSync.ImportComplete | app/services/doctolib/sync.py:92-162 | the pass over a complete record gives `SyncStep` |
| DoctolibSync.ImportPicked | app/services/doctolib/sync.py:101-162 | the pass once the patient is picked gives `PickedStep` |
| DoctolibSync.SyncAppointments | app/services/doctolib/sync.py:30-179 | the state and answer of a run are those of `Synchronised` |
| Schema.NewPatient | app/models/patient.py:29-40 | a patient built from its two names has every optional column empty |
| Schema.NewAppointment | app/models/appointment.py:25-35 | an appointment built from patient, date and time lasts 30 minutes, is scheduled, regular, not a bilan, with no notes and no Doctolib id |
| Schema.NewNotification | app/models/notification.py:23-28 | a notification built from patient and message is a pending email with no subject, appointment, error or sending time |
| Schema.NewDevice | app/models/user_device.py:23-28 | a device is stored active, last used at the time of its insertion, with the fields as given |
| Schema.Db.RemovePatient | app/models/patient.py:12-27 | deleting a patient removes that row and, by the cascade, exactly the appointments it owns; notifications and devices are kept, and neither next id grows |
| Schema.RemoveTopReusesId | app/models/patient.py:12 | deleting the patient with the highest id, when the id just below is taken or it is id 1, makes that id the next one handed out, so creating a patient afterwards gives back the same set of ids |
| Schema.RemovePatientWf | app/models/patient.py:12-27 | the cascade keeps every remaining appointment owned by a stored patient; afterwards the next patient and appointment ids are one past the highest left, whatever they were before |
| Schema.EmptyWf | app/models/patient.py:12 | the empty database is well formed and its next ids are all 1 |
| Schema.InsertsKeepSqliteIds | app/models/patient.py:12 | inserting a patient, an appointment, a notification or a device keeps every next id one past the highest id |
| Schema.OverwritesKeepSqliteIds | app/models/patient.py:12 | overwriting a stored row keeps every next id one past the highest id |
| Storage.Store.DeletePatient | app/api/patients.py:179-180 | the session's delete and commit give the state after `RemovePatient` |
| Text.Strip | app/services/doctolib/sync.py:198 | the result has no whitespace at either end and is no longer than the input |
| Text.StripIdempotent | app/services/doctolib/sync.py:214-215 | stripping a name part that is already stripped changes nothing |
| Text.Split | app/services/doctolib/sync.py:198 | a split gives at least one piece and no piece holds the separator |
| Text.JoinSplit | app/services/doctolib/sync.py:198-207 | joining the pieces of a split with the same separator gives the string back |
| Text.SplitAfterWord | app/services/doctolib/sync.py:201-203 | the first piece is the text before the first separator |
| Text.SplitBeforeWord | app/services/doctolib/sync.py:205-207 | the last piece is the text after the last separator |
| Text.Lower | app/services/doctolib/sync.py:260 | lower-casing keeps the length and maps each character on its own, upper-case letters to lower-case ones and every other character to itself |
| Text.LowerIdempotent | app/services/doctolib/sync.py:260-261 | lower-casing twice gives the same as once |
| Text.LowerConcat | app/services/doctolib/sync.py:260-261 | lower-casing distributes over concatenation, so a keyword found in a reason is found in its lower-case form |
| Calendar.WeekdayProgression | app/api/reports.py:40 | day one is a Monday, and the weekday goes up by one each day, wrapping after Sunday, with a period of seven |
| Calendar.ToCivil | app/services/notification/manager.py:115-122 | the month a day falls in is between 1 and 12 and its day of the month between 1 and 31 |
| Calendar.ToCivilRoundTrip | app/services/notification/manager.py:115-122 | for every day ordinal, the date printed is a real Gregorian date (its day within its month, leap years included) whose ordinal, counted independently as `date.toordinal()` does, is that day |
| Calendar.ToCivilLeapDay | app/services/notification/manager.py:115 | the day numbered 730179 is 29 February 2000, as in the Gregorian calendar |
| Calendar.FormatDate | app/services/notification/manager.py:115-122 | a date prints as `dd/mm/yyyy`, with the slashes at positions 2 and 5 |
| Calendar.FormatTime | app/services/notification/manager.py:115-117 | a time prints as `HH:MM`, five characters with the colon in the middle |
| Sorting.SortBy | app/api/patients.py:194 | the rows ordered are the rows given, as a multiset |
| Sorting.SortBySorted | app/api/patients.py:194 | under a total preorder the rows come out in order |
| Sorting.StrLeTotal | app/api/patients.py:194 | any two names compare one way or the other |
| Sorting.StrLeTransitive | app/api/patients.py:194 | the comparison of names is transitive |
| Sorting.StrLeAntisymmetric | app/api/patients.py:194 | two names that each come no later than the other are equal |
| Sorting.PairLeTotal | app/api/patients.py:194 | ordering by last name then first name compares any two rows |
| Sorting.PairLeTransitive | app/api/patients.py:194 | that ordering is transitive |

## Left out

- **The Doctolib scraper** (`app/services/doctolib/scraper.py`). It drives a headless browser. The model takes its results as inputs:
  - whether the login succeeded;
  - the list of agenda records. A record whose `.motif` element is missing carries `None` under `motif` (`app/services/doctolib/scraper.py:76`), which the source stores as a NULL note; the model reads it as the empty reason and stores the note "". The bilan test gives false either way;
  - the remote cancellation's answer for each Doctolib id.
- **The transports.** The SMTP session and MIME building, the Twilio client and Firebase's initialisation and sending are foreign SDK calls. Each becomes an input that answers success or failure with a message. `PushService`'s singleton state is reduced to whether Firebase is initialised.
- **`send_to_topic`** (`app/services/notification/push.py:73-98`). It is a Firebase call with no effect on the database, and nothing in the core calls it.
- **`sync_doctolib`'s asyncio event loop**, the `async`/`await` plumbing, and the periodic task runner (`app/tasks.py`).
- **Authentication and routing.** JWT authentication, Flask routing and `jsonify` marshalling are left out. So are `to_dict()` and the JSON shapes of the answers. An answer is modelled as a status code with either a message or the affected id.
- **Request arguments.** `max_days`, `per_page`, `days` and `is_bilan` are taken as already-read values. `int()` raising on a non-numeric `max_days` (an error 500) is not modelled. The default of 60 days is `PatientModel.DefaultMaxDays`.
- **JSON values.** JSON bodies are records of optional strings and numbers. Truthiness is spelled out (`Filled`). A JSON value of the wrong type (a number where a string is expected, a list, a nested object) is not modelled.
- **`created_at` and `updated_at` timestamps.** They are not stored.
- **The notification statistics' time window.** `notification_stats` receives its grouped rows as input. The `created_at >= start_date` filter and the GROUP BY that produces them are left out.
- **The clock.** Each request reads the clock once: one `today` and one `now`. The source reads `utcnow()` and `now()` separately, even within one request. This includes the moment `get_upcoming_for_patient` compares against and the `sent_at` of each send. The model does not distinguish UTC from local time.
- **Times carry no seconds.** `strptime("%H:%M")` and the ISO parser are inputs that return whole minutes. A time with seconds, compared with the current time, is not modelled.
- **Years before 1000.** `Calendar.FormatDate` pads the year with zeros to four digits, so year 999 prints as `0999`. Python's `strftime('%Y')` output for such years depends on the platform's C library, and that dependence is not modelled.
- **The database backend.** The model follows the configured default backend, SQLite (`app/config/default.py:10`), which does not enforce foreign keys. No foreign key in the source has an `ON DELETE` clause. The appointments of a deleted patient go through the ORM relationship's `cascade="all, delete-orphan"` (`app/models/patient.py:27`), which runs on every backend. The patient's notifications and devices stay, with references to a patient that no longer exists. When the deleted patient (or a cascaded appointment) had the highest id, the next patient (or appointment) created gets that id again, and the model reproduces this reuse (`Schema.Db.RemovePatient`, `Schema.RemoveTopReusesId`): the kept notifications and devices then refer to the new row, so a pending reminder of the deleted patient goes to the new patient's address and devices. The SQL `today - Patient.last_bilan_date` of the due-patient queries (`app/api/patients.py:42`, `:193`, `app/api/appointments.py:220`, `app/api/reports.py:29`, `:116`, `:123`, `:139`) is modelled as a whole day count. SQLite subtracts the stored ISO texts as numbers, which yields a difference of years, and that is not modelled.
- PatientsApi.DeleteCascades: on a backend that enforces foreign keys, `delete_patient` fails at the commit with an error 500 and deletes nothing whenever the patient has a notification or a device, or one of its appointments is referenced by a notification. The model gives the non-enforcing backend's answer (200, the notifications and devices kept) in those cases too.
- AppointmentsApi.Requested: a JSON `null` under a present `type`, `status`, `duration` or `is_bilan` key is read as an absent key. The source passes `None` to the row: with `"type": null` the NOT NULL column makes the commit fail with an error 500, and the other three store NULL. `Requested` stores the defaults ('regular', 'scheduled', 30, false) instead.
- AppointmentsApi.Changed: a JSON `null` under a present `type`, `status`, `date`, `time` or `is_bilan` key is read as an absent key, and `Changed` keeps the old column. In the source, `"type": null` makes the commit fail with an error 500, `"date": null` and `"time": null` make `fromisoformat` raise a `TypeError` (an error 500), and `"status": null` and `"is_bilan": null` store NULL. A `null` duration, notes or Doctolib id is modelled.
- PatientsApi.OnlyPresentKeysChange: a JSON `null` under a present `first_name` or `last_name` key is read as an absent key, and the model keeps the old name. The source assigns `None` to a NOT NULL column, and the commit fails with an error 500. A `null` under the other keys is modelled.
- DoctolibSync.ParseNameUpperFirst: the "all capitals" test `Text.IsUpper` knows the cased letters of Latin-1 only. A first word in capitals of another script (Greek, Cyrillic, or Latin Extended letters such as Œ and Ÿ) is not recognised, so "ИВАНОВ Иван" is not split this way, as Python would split it.
- DoctolibSync.ParseNameLastWord: for the same reason, a first word in capitals outside Latin-1 falls through to this branch, and "ИВАНОВ Иван" gives the last name "Иван".
- Text.Lower: only the upper-case letters of Latin-1 are mapped. Other cased letters (Greek, Cyrillic, Œ, Ÿ) are kept as they are, and a character Python lower-cases to two characters (such as 'İ') keeps length one.
- **Collation and ties.**
  - String ordering (`ORDER BY last_name, first_name`) is code-point order (SQLite's BINARY collation).
  - Rows that tie keep id order. SQLite does not promise this.
  - `.first()` without `ORDER BY` is taken to return the lowest id.
- **`get_patients` and `get_appointments`.** Only their `per_page` clamp and the `is_bilan` filter are modelled. The search, the remaining filters, the ordering and the pagination objects are left out.
- **`get_patient`, `get_appointment` and `delete_appointment`.** These read-one and delete handlers are not modelled. `delete_patient` is modelled.
- **`monthly_appointments`.** It is not modelled: it groups by `extract('month')` and names months with `strftime('%B')`, which depends on the locale.
- **`valid_bilan_percentage`.** Its floating-point rounding is not modelled. The four integer counts of `bilan_status` are.
- **Exceptions in `sync_appointments`.** An exception inside its loop (`app/services/doctolib/sync.py:164`) can only come from the scraper, the notification manager or a failed flush. The model lets none of them fail, so that error entry never appears. The outer `except` (line 181) is left out for the same reason.
- **Error texts.** The texts in `results['errors']` are modelled as structured entries (`Incomplete(record)`, `BadDateTime(date, time)`), not as the formatted strings with a dict `repr`.
- **Statement order in `update_patient`.** The handler assigns `first_name` and `last_name` to the session's row before it checks the email. A refusal commits nothing, so those assignments never reach the database. The model checks first and writes only on success, and stores the same rows.
- **Intermediate commits.** Several calls commit the whole session partway through a request:
  - `mark_as_sent` and `mark_as_failed` (`app/models/notification.py:52`, `:58`);
  - `create_bilan_reminder` (`:87`), inside the loop of `check_bilans`;
  - `notify_patient` (`app/services/notification/manager.py:62`), which runs inside the loop of `sync_appointments`.

  None of the steps between those commits can fail in the model. The model therefore applies each request as one sequence of writes, and the database it ends with is the same. What an intermediate commit would keep after a later crash is not modelled.
