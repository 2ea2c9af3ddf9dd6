/**
 * The Doctolib import (`app/services/doctolib/sync.py`): every appointment
 * the practice's Doctolib agenda lists is matched to a patient by name,
 * created or refreshed locally by its Doctolib id, and, when automatic
 * cancellation is on, a regular appointment of a patient overdue for a
 * bilan is cancelled remotely and locally and the patient is alerted.
 *
 * The browser session is not modelled: whether the login succeeds, the
 * records the agenda lists and the answer of each remote cancellation are
 * inputs, and so are the `strptime` parsers of the `%d/%m/%Y` dates and
 * `%H:%M` times.
 */
module DoctolibSync {
  import opened Common
  import opened Text
  import opened Schema
  import opened Storage
  import opened PatientModel
  import opened Dispatch
  import opened Manager

  // ---------------------------------------------------------------------
  // Names

  /** The `first_name` and `last_name` a display name is split into. */
  datatype Name = Name(first: string, last: string)

  /**
   * `_parse_patient_name`: with two words or more, an all-capitals first
   * word is the last name ("NOM Prénom"), otherwise the last word is; a
   * single word is the last name alone.
   */
  function ParseName(patientName: string): Name {
    var parts := Split(Strip(patientName), ' ');
    if |parts| >= 2 then
      if IsUpper(parts[0]) then Name(Strip(Join(parts[1..], " ")), Strip(parts[0]))
      else Name(Strip(Join(parts[..|parts| - 1], " ")), Strip(parts[|parts| - 1]))
    else Name("", Strip(patientName))
  }

  /** Both parts of a parsed name are already stripped. */
  lemma ParseNameStripped(patientName: string)
    ensures var r := ParseName(patientName);
            Strip(r.first) == r.first && Strip(r.last) == r.last
  {
    var parts := Split(Strip(patientName), ' ');
    var r := ParseName(patientName);
    if |parts| >= 2 {
      var first := if IsUpper(parts[0]) then Join(parts[1..], " ") else Join(parts[..|parts| - 1], " ");
      var last := if IsUpper(parts[0]) then parts[0] else parts[|parts| - 1];
      assert r == Name(Strip(first), Strip(last));
      StripIdempotent(first);
      StripIdempotent(last);
    } else {
      assert r == Name("", Strip(patientName));
      StripIdempotent(patientName);
      StripTrimmed("");
    }
  }

  /** A non-empty string with no whitespace in it. */
  predicate Word(w: string) {
    w != [] && forall i :: 0 <= i < |w| ==> !IsSpace(w[i])
  }

  /** A non-empty string with no whitespace at either end. */
  predicate Trimmed(s: string) {
    s != [] && !IsSpace(s[0]) && !IsSpace(s[|s| - 1])
  }

  lemma WordTrimmed(w: string)
    requires Word(w)
    ensures Trimmed(w) && ' ' !in w && Strip(w) == w
  {
    StripTrimmed(w);
  }

  /** "DUPONT Jean Pierre" gives the last name DUPONT and the first name "Jean Pierre". */
  lemma ParseNameUpperFirst(last: string, first: string)
    requires Word(last) && IsUpper(last) && Trimmed(first)
    ensures ParseName(last + " " + first) == Name(first, last)
  {
    var name := last + " " + first;
    WordTrimmed(last);
    assert name[0] == last[0] && name[|name| - 1] == first[|first| - 1];
    StripTrimmed(name);
    SplitAfterWord(last, ' ', first);
    assert last + [' '] + first == name;
    var parts := Split(name, ' ');
    assert parts[1..] == Split(first, ' ');
    JoinSplit(first, ' ');
    StripTrimmed(first);
  }

  /** "Jean Pierre Dupont" gives the last name Dupont and the first name "Jean Pierre". */
  lemma ParseNameLastWord(first: string, last: string)
    requires Word(last) && Trimmed(first) && !IsUpper(Split(first, ' ')[0])
    ensures ParseName(first + " " + last) == Name(first, last)
  {
    var name := first + " " + last;
    WordTrimmed(last);
    assert name[0] == first[0] && name[|name| - 1] == last[|last| - 1];
    StripTrimmed(name);
    SplitBeforeWord(first, ' ', last);
    assert first + [' '] + last == name;
    var parts := Split(name, ' ');
    assert parts == Split(first, ' ') + [last];
    assert parts[0] == Split(first, ' ')[0];
    assert parts[..|parts| - 1] == Split(first, ' ');
    JoinSplit(first, ' ');
    StripTrimmed(first);
  }

  /** A name with no inner space is all last name. */
  lemma ParseNameOneWord(patientName: string)
    requires ' ' !in Strip(patientName)
    ensures ParseName(patientName) == Name("", Strip(patientName))
  {
    SplitWithoutSep(Strip(patientName), ' ');
  }

  // ---------------------------------------------------------------------
  // Reasons

  /** The words that mark a reason as a bilan. */
  const BilanKeywords: seq<string> := ["bilan", "diagnostic", "première séance", "première consultation", "initial"]

  /** `_is_bilan_appointment(motif)`: a non-empty reason naming a keyword, whatever its case. */
  predicate IsBilanMotif(motif: string) {
    motif != "" && exists i :: 0 <= i < |BilanKeywords| && Contains(Lower(motif), BilanKeywords[i])
  }

  /** The case of a reason does not change its classification. */
  lemma BilanMotifIgnoresCase(motif: string)
    ensures IsBilanMotif(Lower(motif)) == IsBilanMotif(motif)
  {
    LowerIdempotent(motif);
  }

  /** A reason with a keyword anywhere in it is a bilan. */
  lemma KeywordMakesBilan(before: string, i: nat, after: string)
    requires i < |BilanKeywords|
    ensures IsBilanMotif(before + BilanKeywords[i] + after)
  {
    var k := BilanKeywords[i];
    assert Lower(k) == k;
    LowerConcat(before + k, after);
    LowerConcat(before, k);
    ContainsMiddle(Lower(before), k, Lower(after));
    assert |before + k + after| > 0;
  }

  /** A reason with none of the keywords, or an empty one, is a regular appointment. */
  lemma NoKeywordNoBilan(motif: string)
    requires forall i :: 0 <= i < |BilanKeywords| ==> !Contains(Lower(motif), BilanKeywords[i])
    ensures !IsBilanMotif(motif) && !IsBilanMotif("")
  {
  }

  // ---------------------------------------------------------------------
  // Inputs and results

  /**
   * One entry of the agenda: `id` is absent when the record has none; a
   * missing name, date, time or reason reads as the empty string. The
   * reason is stored as the appointment's notes; a reason the page does not
   * show at all, which the source stores as NULL, is stored here as "".
   */
  datatype Record = Record(id: Option<string>, patientName: string, date: string, time: string, motif: string)

  /** The settings the service reads at start. */
  datatype Config = Config(
    email: Option<string>,
    password: Option<string>,
    autoCancel: bool,
    maxDays: int,
    immediate: bool)

  /**
   * What one run depends on besides the database: the settings, the
   * notification services, the two parsers, the remote cancellation's
   * answer per Doctolib id, and the clock.
   */
  datatype Context = Context(
    cfg: Config,
    svc: Services,
    parseDate: string -> Option<Date>,
    parseTime: string -> Option<Minute>,
    cancel: string -> bool,
    today: Date,
    now: Instant)

  /** An entry of `results['errors']`. */
  datatype SyncError = Incomplete(record: Record) | BadDateTime(date: string, time: string)

  /** `results`, without the log lines. */
  datatype Counts = Counts(
    total: nat,
    created: nat,
    updated: nat,
    newPatients: nat,
    cancelled: nat,
    errors: seq<SyncError>)

  datatype SyncResult = SyncFailed(error: string) | Synced(counts: Counts)

  /** The state after a run, and its answer. */
  datatype SyncReply = SyncReply(db: Db, result: SyncResult)

  const IncompleteConfig: string := "Configuration Doctolib incomplète"
  const LoginFailed: string := "Échec de connexion à Doctolib"

  /** The database and the counters between two records. */
  datatype Progress = Progress(db: Db, counts: Counts)

  /** The record has an id, a name, a date and a time. */
  predicate Complete(rec: Record) {
    Filled(rec.id) && rec.patientName != "" && rec.date != "" && rec.time != ""
  }

  /** Both the date and the time of the record parse. */
  predicate Parses(rec: Record, ctx: Context) {
    ctx.parseDate(rec.date).Some? && ctx.parseTime(rec.time).Some?
  }

  // ---------------------------------------------------------------------
  // Finding or creating the patient

  function NameFilter(db: Db, name: Name): nat -> bool {
    k => k in db.patients && db.patients[k].firstName == name.first && db.patients[k].lastName == name.last
  }

  /** Some patient carries the name. */
  predicate Named(db: Db, name: Name) {
    exists k :: k in db.patients && db.patients[k].firstName == name.first && db.patients[k].lastName == name.last
  }

  /** The patient found, the database after the lookup, and whether the patient was added. */
  datatype Pick = Pick(db: Db, id: nat, added: bool)

  /**
   * `_find_or_create_patient` and the flush of a new patient: the first
   * patient by id with that first and last name, or a new patient with only
   * those two fields.
   */
  function FoundOrAdded(db: Db, name: Name): (r: Pick)
    ensures r.id in r.db.patients
    ensures r.db.patients[r.id].firstName == name.first && r.db.patients[r.id].lastName == name.last
  {
    var hits := Select(db.patients, db.nextPatient, NameFilter(db, name));
    if hits != [] then
      assert hits[0] in hits;
      Pick(db, hits[0], false)
    else Pick(db.AddPatient(NewPatient(name.first, name.last)), db.nextPatient, true)
  }

  /**
   * A patient is added exactly when none has the name; an existing one is
   * the lowest id that has it, and a new one takes the next id with every
   * other column empty. The database stays well formed.
   */
  lemma FoundOrAddedSpec(db: Db, name: Name)
    requires Wf(db)
    ensures var r := FoundOrAdded(db, name);
      && Wf(r.db)
      && (r.added <==> !Named(db, name))
      && (!r.added ==> r.db == db && forall k :: k in db.patients && k < r.id ==> !NameFilter(db, name)(k))
      && (r.added ==> r.id == db.nextPatient && r.db == db.AddPatient(NewPatient(name.first, name.last)))
  {
    var hits := Select(db.patients, db.nextPatient, NameFilter(db, name));
    if hits != [] {
      assert hits[0] in hits;
    }
  }

  // ---------------------------------------------------------------------
  // Upsert on the Doctolib id

  /** `'bilan' if is_bilan else 'regular'`. */
  function KindOf(isBilan: bool): string {
    if isBilan then Bilan else Regular
  }

  /** What the import overwrites on an appointment it already holds. */
  function Rescheduled(a: Appointment, date: Date, time: Minute, isBilan: bool, motif: string): Appointment {
    a.(date := date, time := time, isBilan := isBilan, kind := KindOf(isBilan), notes := Some(motif))
  }

  /** The appointment the import creates: 30 minutes, scheduled. */
  function Imported(patientId: nat, id: string, date: Date, time: Minute, isBilan: bool, motif: string): Appointment {
    Appointment(Some(id), patientId, date, time, Some(30), Scheduled, KindOf(isBilan), Some(motif), isBilan)
  }

  function DoctolibFilter(db: Db, id: string): nat -> bool {
    k => k in db.appointments && db.appointments[k].doctolibId == Some(id)
  }

  /** `Appointment.query.filter_by(doctolib_id=id).first()`. */
  function ByDoctolibId(db: Db, id: string): (r: Option<nat>)
    ensures r.Some? ==> r.value in db.appointments && db.appointments[r.value].doctolibId == Some(id)
  {
    var hits := Select(db.appointments, db.nextAppointment, DoctolibFilter(db, id));
    if hits == [] then None
    else
      assert hits[0] in hits;
      Some(hits[0])
  }

  /** In a well-formed database the lookup finds the one appointment with that id, if any. */
  lemma ByDoctolibIdSpec(db: Db, id: string)
    requires Wf(db)
    ensures ByDoctolibId(db, id).None? <==> forall k :: k in db.appointments ==> db.appointments[k].doctolibId != Some(id)
  {
    if ByDoctolibId(db, id).None? {
    }
  }

  /** In a well-formed database the appointment holding a Doctolib id is the one found. */
  lemma ByDoctolibIdFinds(db: Db, id: string, e: nat)
    requires Wf(db) && e in db.appointments && db.appointments[e].doctolibId == Some(id)
    ensures ByDoctolibId(db, id) == Some(e)
  {
    ByDoctolibIdSpec(db, id);
    var f := ByDoctolibId(db, id).value;
    assert db.appointments[f].doctolibId == Some(id);
  }

  /** The database after the upsert, and the appointment that was there before, if any. */
  datatype Upsert = Upsert(db: Db, existing: Option<nat>)

  /**
   * The upsert of one parsed record for the patient `patientId`; a new
   * bilan also becomes the patient's last bilan date.
   */
  function Upserted(db: Db, patientId: nat, id: string, date: Date, time: Minute, isBilan: bool, motif: string): (r: Upsert)
    requires patientId in db.patients
    ensures patientId in r.db.patients
    ensures r.existing.Some? ==> r.existing.value in r.db.appointments
  {
    match ByDoctolibId(db, id)
    case Some(e) => Upsert(db.SetAppointment(e, Rescheduled(db.appointments[e], date, time, isBilan, motif)), Some(e))
    case None =>
      var added := db.AddAppointment(Imported(patientId, id, date, time, isBilan, motif));
      if isBilan then Upsert(added.SetPatient(patientId, added.patients[patientId].(lastBilanDate := Some(date))), None)
      else Upsert(added, None)
  }

  /** The upsert of a stored Doctolib id only refreshes that appointment. */
  lemma UpsertedRefreshes(db: Db, patientId: nat, id: string, date: Date, time: Minute, isBilan: bool, motif: string, e: nat)
    requires patientId in db.patients && ByDoctolibId(db, id) == Some(e)
    ensures Upserted(db, patientId, id, date, time, isBilan, motif)
            == Upsert(db.SetAppointment(e, Rescheduled(db.appointments[e], date, time, isBilan, motif)), Some(e))
  {
  }

  /** Rewriting an appointment with the same owner and Doctolib id keeps the database well formed. */
  lemma RefreshWf(db: Db, e: nat, a: Appointment)
    requires Wf(db) && e in db.appointments
    requires a.patientId == db.appointments[e].patientId && a.doctolibId == db.appointments[e].doctolibId
    ensures Wf(db.SetAppointment(e, a))
  {
    var r := db.SetAppointment(e, a);
    assert UniqueAppointmentDoctolibIds(r.appointments) by {
      forall i, j | i in r.appointments && j in r.appointments && i != j && r.appointments[i].doctolibId.Some?
        ensures r.appointments[i].doctolibId != r.appointments[j].doctolibId
      {
        assert r.appointments[i].doctolibId == db.appointments[i].doctolibId;
        assert r.appointments[j].doctolibId == db.appointments[j].doctolibId;
      }
    }
  }

  /** Adding an appointment of a stored patient under a Doctolib id no appointment holds keeps the database well formed. */
  lemma ImportWf(db: Db, a: Appointment)
    requires Wf(db) && a.patientId in db.patients
    requires a.doctolibId.Some? ==> forall k :: k in db.appointments ==> db.appointments[k].doctolibId != a.doctolibId
    ensures Wf(db.AddAppointment(a))
  {
  }

  /** Changing a patient's last bilan date keeps the database well formed. */
  lemma LastBilanWf(db: Db, patientId: nat, date: Date)
    requires Wf(db) && patientId in db.patients
    ensures Wf(db.SetPatient(patientId, db.patients[patientId].(lastBilanDate := Some(date))))
  {
    var r := db.SetPatient(patientId, db.patients[patientId].(lastBilanDate := Some(date)));
    assert forall k :: k in r.patients ==> (r.patients[k].email == db.patients[k].email
                                         && r.patients[k].doctolibId == db.patients[k].doctolibId);
  }

  /** The upsert keeps the database well formed and adds no patient. */
  lemma UpsertedWf(db: Db, patientId: nat, id: string, date: Date, time: Minute, isBilan: bool, motif: string)
    requires Wf(db) && patientId in db.patients
    ensures var r := Upserted(db, patientId, id, date, time, isBilan, motif).db;
      && Wf(r) && r.patients.Keys == db.patients.Keys && r.nextPatient == db.nextPatient
  {
    ByDoctolibIdSpec(db, id);
    match ByDoctolibId(db, id)
    case Some(e) =>
      RefreshWf(db, e, Rescheduled(db.appointments[e], date, time, isBilan, motif));
    case None =>
      var added := db.AddAppointment(Imported(patientId, id, date, time, isBilan, motif));
      ImportWf(db, Imported(patientId, id, date, time, isBilan, motif));
      if isBilan {
        LastBilanWf(added, patientId, date);
      }
  }

  // ---------------------------------------------------------------------
  // Automatic cancellation

  /**
   * The conditions under which the remote cancellation is asked for:
   * automatic cancellation on, a regular appointment, a patient due for a
   * bilan, and an appointment that already existed and is still scheduled.
   */
  predicate CancelGuard(db: Db, ctx: Context, patientId: nat, existing: Option<nat>, isBilan: bool)
    requires patientId in db.patients
  {
    && ctx.cfg.autoCancel && !isBilan
    && NeedsBilan(db.patients[patientId], ctx.today, ctx.cfg.maxDays)
    && existing.Some? && existing.value in db.appointments
    && db.appointments[existing.value].status == Scheduled
  }

  /** The `days_overdue` passed to the alert: the days since the last bilan, if any. */
  function DaysOverdue(p: Patient, today: Date): Option<int> {
    if p.lastBilanDate.Some? then Some(today - p.lastBilanDate.value) else None
  }

  /** The local cancellation, then `send_bilan_alert` for the patient. */
  function CancelledAndAlerted(db: Db, ctx: Context, patientId: nat, e: nat): Db
    requires patientId in db.patients && e in db.appointments
  {
    var cancelled := db.SetAppointment(e, db.appointments[e].(status := Cancelled));
    Alerted(cancelled, ctx.svc, ctx.cfg.immediate, patientId, DaysOverdue(db.patients[patientId], ctx.today), ctx.now).db
  }

  /** An alert only writes notifications; the database stays well formed. */
  lemma AlertedFrame(db: Db, svc: Services, immediate: bool, patientId: nat, daysOverdue: Option<int>, now: Instant)
    requires Wf(db)
    ensures var r := Alerted(db, svc, immediate, patientId, daysOverdue, now).db;
      && Wf(r)
      && r.patients == db.patients && r.appointments == db.appointments
      && r.nextPatient == db.nextPatient && r.nextAppointment == db.nextAppointment
  {
    if patientId in db.patients {
      var message := AlertMessage(db.patients[patientId], daysOverdue);
      var chans := ChannelsOr(None);
      EnqueuedShape(db, patientId, message, Some(AlertSubject), chans, None);
      var queued := Enqueued(db, patientId, message, Some(AlertSubject), chans, None);
      DispatchedFrame(queued, svc, FreshIds(db.nextNotification, |chans|), now);
    }
  }

  /** Cancelling and alerting changes only the appointment's status and the notifications. */
  lemma CancelledAndAlertedFrame(db: Db, ctx: Context, patientId: nat, e: nat)
    requires Wf(db) && patientId in db.patients && e in db.appointments
    ensures var r := CancelledAndAlerted(db, ctx, patientId, e);
      && Wf(r)
      && r.appointments == db.appointments[e := db.appointments[e].(status := Cancelled)]
      && r.patients == db.patients
      && r.nextPatient == db.nextPatient && r.nextAppointment == db.nextAppointment
  {
    var cancelled := db.SetAppointment(e, db.appointments[e].(status := Cancelled));
    AlertedFrame(cancelled, ctx.svc, ctx.cfg.immediate, patientId, DaysOverdue(db.patients[patientId], ctx.today), ctx.now);
  }

  // ---------------------------------------------------------------------
  // One record, then the whole run

  /** What the upsert and the cancellation check did to the database. */
  datatype Change = Change(db: Db, existing: Option<nat>, cancelled: bool)

  /**
   * The upsert of a complete record whose date and time parse, for the
   * patient `patientId`, followed by the cancellation check.
   */
  function Applied(db: Db, patientId: nat, id: string, date: Date, time: Minute, isBilan: bool, motif: string,
                   ctx: Context): Change
    requires patientId in db.patients
  {
    var up := Upserted(db, patientId, id, date, time, isBilan, motif);
    if CancelGuard(up.db, ctx, patientId, up.existing, isBilan) && ctx.cancel(id) then
      Change(CancelledAndAlerted(up.db, ctx, patientId, up.existing.value), up.existing, true)
    else Change(up.db, up.existing, false)
  }

  /** One pass of the loop of `sync_appointments` over the record `rec`. */
  function SyncStep(p: Progress, rec: Record, ctx: Context): Progress {
    if !Complete(rec) then Progress(p.db, p.counts.(errors := p.counts.errors + [Incomplete(rec)]))
    else PickedStep(p.counts, FoundOrAdded(p.db, ParseName(rec.patientName)), rec, ctx)
  }

  /** The rest of the pass once the record's patient is found or added. */
  function PickedStep(c: Counts, pick: Pick, rec: Record, ctx: Context): Progress
    requires Complete(rec) && pick.id in pick.db.patients
  {
    var c1 := c.(newPatients := c.newPatients + if pick.added then 1 else 0);
    if !Parses(rec, ctx) then Progress(pick.db, c1.(errors := c1.errors + [BadDateTime(rec.date, rec.time)]))
    else
      var ch := PickedChange(pick, rec, ctx);
      Progress(ch.db, Counted(c1, ch))
  }

  /** The upsert and cancellation check of a complete record whose date and time parse. */
  function PickedChange(pick: Pick, rec: Record, ctx: Context): Change
    requires Complete(rec) && pick.id in pick.db.patients && Parses(rec, ctx)
  {
    Applied(pick.db, pick.id, rec.id.value, ctx.parseDate(rec.date).value, ctx.parseTime(rec.time).value,
            IsBilanMotif(rec.motif), rec.motif, ctx)
  }

  /** The counters after a record was upserted: created or updated, and maybe cancelled. */
  function Counted(c: Counts, ch: Change): Counts {
    c.(created := c.created + (if ch.existing.None? then 1 else 0),
       updated := c.updated + (if ch.existing.Some? then 1 else 0),
       cancelled := c.cancelled + if ch.cancelled then 1 else 0)
  }

  /** The loop over the records, in order. */
  function Imports(p: Progress, records: seq<Record>, ctx: Context): Progress
    decreases |records|
  {
    if records == [] then p
    else SyncStep(Imports(p, records[..|records| - 1], ctx), records[|records| - 1], ctx)
  }

  /** The counters before the first record. */
  function Started(records: seq<Record>): Counts {
    Counts(|records|, 0, 0, 0, 0, [])
  }

  /** `sync_appointments` with the login's answer and the records the agenda lists. */
  function Synchronised(db: Db, ctx: Context, loginOk: bool, records: seq<Record>): SyncReply {
    if !Filled(ctx.cfg.email) || !Filled(ctx.cfg.password) then SyncReply(db, SyncFailed(IncompleteConfig))
    else if !loginOk then SyncReply(db, SyncFailed(LoginFailed))
    else
      var p := Imports(Progress(db, Started(records)), records, ctx);
      SyncReply(p.db, Synced(p.counts))
  }

  // ---------------------------------------------------------------------
  // Properties of one record

  /** Without an email or a password, or when the login fails, nothing is read and nothing changes. */
  lemma SyncRefusals(db: Db, ctx: Context, loginOk: bool, records: seq<Record>)
    ensures !Filled(ctx.cfg.email) || !Filled(ctx.cfg.password) ==>
              Synchronised(db, ctx, loginOk, records) == SyncReply(db, SyncFailed(IncompleteConfig))
    ensures Filled(ctx.cfg.email) && Filled(ctx.cfg.password) && !loginOk ==>
              Synchronised(db, ctx, loginOk, records) == SyncReply(db, SyncFailed(LoginFailed))
    ensures Filled(ctx.cfg.email) && Filled(ctx.cfg.password) && loginOk ==>
              Synchronised(db, ctx, loginOk, records).result.Synced?
              && Synchronised(db, ctx, loginOk, records).result.counts.total == |records|
  {
    if Filled(ctx.cfg.email) && Filled(ctx.cfg.password) && loginOk {
      ImportsKeepTotal(Progress(db, Started(records)), records, ctx);
    }
  }

  lemma {:induction false} ImportsKeepTotal(p: Progress, records: seq<Record>, ctx: Context)
    ensures Imports(p, records, ctx).counts.total == p.counts.total
    decreases |records|
  {
    if records != [] {
      ImportsKeepTotal(p, records[..|records| - 1], ctx);
    }
  }

  /**
   * A record without an id, a name, a date or a time is listed as an error
   * and changes nothing; one whose date or time does not parse is listed
   * as an error and adds no appointment, though its patient may have been
   * added.
   */
  lemma StepRejects(p: Progress, rec: Record, ctx: Context)
    ensures !Complete(rec) ==> SyncStep(p, rec, ctx) == Progress(p.db, p.counts.(errors := p.counts.errors + [Incomplete(rec)]))
    ensures Complete(rec) && !Parses(rec, ctx) ==>
              var r := SyncStep(p, rec, ctx);
              && r.db == FoundOrAdded(p.db, ParseName(rec.patientName)).db
              && r.db.appointments == p.db.appointments
              && r.counts.errors == p.counts.errors + [BadDateTime(rec.date, rec.time)]
              && r.counts.created == p.counts.created && r.counts.updated == p.counts.updated
  {
  }

  lemma CancelRefreshed(db: Db, up: Db, ctx: Context, patientId: nat, e: nat, refreshed: Appointment)
    requires Wf(up) && patientId in up.patients && e in up.appointments
    requires up.appointments == db.appointments[e := refreshed]
    ensures var r := CancelledAndAlerted(up, ctx, patientId, e);
      && r.appointments == db.appointments[e := refreshed.(status := Cancelled)]
      && r.patients == up.patients
  {
    CancelledAndAlertedFrame(up, ctx, patientId, e);
    var r := CancelledAndAlerted(up, ctx, patientId, e);
    assert r.appointments == db.appointments[e := refreshed][e := refreshed.(status := Cancelled)];
  }

  /**
   * An upsert on a stored Doctolib id refreshes that appointment: only the
   * date, time, bilan flag, type and notes change, and the status becomes
   * cancelled exactly when the cancellation conditions hold and the remote
   * cancellation succeeds. No appointment is added.
   */
  lemma AppliedUpdates(db: Db, patientId: nat, id: string, date: Date, time: Minute, isBilan: bool, motif: string,
                       ctx: Context, e: nat)
    requires Wf(db) && patientId in db.patients
    requires e in db.appointments && db.appointments[e].doctolibId == Some(id)
    ensures var r := Applied(db, patientId, id, date, time, isBilan, motif, ctx);
            var a := db.appointments[e];
            var refreshed := Rescheduled(a, date, time, isBilan, motif);
            var cancel := ctx.cfg.autoCancel && !isBilan && NeedsBilan(db.patients[patientId], ctx.today, ctx.cfg.maxDays)
                          && a.status == Scheduled && ctx.cancel(id);
      && r.existing == Some(e) && r.cancelled == cancel
      && r.db.appointments == db.appointments[e := if cancel then refreshed.(status := Cancelled) else refreshed]
      && r.db.patients == db.patients
  {
    ByDoctolibIdFinds(db, id, e);
    UpsertedRefreshes(db, patientId, id, date, time, isBilan, motif, e);
    var up := Upserted(db, patientId, id, date, time, isBilan, motif);
    var refreshed := Rescheduled(db.appointments[e], date, time, isBilan, motif);
    assert up.db.appointments == db.appointments[e := refreshed] && up.db.patients == db.patients;
    if CancelGuard(up.db, ctx, patientId, up.existing, isBilan) && ctx.cancel(id) {
      UpsertedWf(db, patientId, id, date, time, isBilan, motif);
      CancelRefreshed(db, up.db, ctx, patientId, e, refreshed);
    }
  }

  /**
   * An upsert on a new Doctolib id adds one scheduled appointment under the
   * next id for the patient; a bilan also becomes that patient's last bilan
   * date, whatever the date. Nothing is cancelled.
   */
  lemma AppliedCreates(db: Db, patientId: nat, id: string, date: Date, time: Minute, isBilan: bool, motif: string,
                       ctx: Context)
    requires Wf(db) && patientId in db.patients
    requires forall k :: k in db.appointments ==> db.appointments[k].doctolibId != Some(id)
    ensures var r := Applied(db, patientId, id, date, time, isBilan, motif, ctx);
      && r.existing.None? && !r.cancelled
      && r.db.appointments == db.appointments[db.nextAppointment := Imported(patientId, id, date, time, isBilan, motif)]
      && r.db.patients == (if isBilan then db.patients[patientId := db.patients[patientId].(lastBilanDate := Some(date))]
                           else db.patients)
      && r.db.nextAppointment == db.nextAppointment + 1 && r.db.nextPatient == db.nextPatient
  {
    ByDoctolibIdSpec(db, id);
  }

  /**
   * A complete, parsable record is upserted for the patient found or added
   * by name; it counts as updated when its Doctolib id was stored and as
   * created otherwise, and as cancelled when it was cancelled.
   */
  lemma StepApplies(p: Progress, rec: Record, ctx: Context)
    requires Complete(rec) && Parses(rec, ctx)
    ensures var r := SyncStep(p, rec, ctx);
            var pick := FoundOrAdded(p.db, ParseName(rec.patientName));
            var ch := Applied(pick.db, pick.id, rec.id.value, ctx.parseDate(rec.date).value, ctx.parseTime(rec.time).value,
                              IsBilanMotif(rec.motif), rec.motif, ctx);
      && r.db == ch.db
      && r.counts.created == p.counts.created + (if ch.existing.None? then 1 else 0)
      && r.counts.updated == p.counts.updated + (if ch.existing.Some? then 1 else 0)
      && r.counts.cancelled == p.counts.cancelled + (if ch.cancelled then 1 else 0)
      && r.counts.newPatients == p.counts.newPatients + (if pick.added then 1 else 0)
      && r.counts.errors == p.counts.errors && r.counts.total == p.counts.total
  {
  }

  /**
   * A record whose Doctolib id is already stored refreshes that appointment,
   * whoever the name designates: its date, time, bilan flag, type and notes
   * are overwritten, its status becomes cancelled exactly when automatic
   * cancellation is on, the reason is not a bilan, the patient found by name
   * is due for a bilan, the appointment was scheduled and the remote
   * cancellation succeeded, and no appointment is added.
   */
  lemma StepUpdates(p: Progress, rec: Record, ctx: Context, e: nat)
    requires Wf(p.db) && Complete(rec) && Parses(rec, ctx)
    requires e in p.db.appointments && p.db.appointments[e].doctolibId == rec.id
    ensures var r := SyncStep(p, rec, ctx);
            var pick := FoundOrAdded(p.db, ParseName(rec.patientName));
            var a := p.db.appointments[e];
            var isBilan := IsBilanMotif(rec.motif);
            var refreshed := Rescheduled(a, ctx.parseDate(rec.date).value, ctx.parseTime(rec.time).value, isBilan, rec.motif);
            var cancel := ctx.cfg.autoCancel && !isBilan && NeedsBilan(pick.db.patients[pick.id], ctx.today, ctx.cfg.maxDays)
                          && a.status == Scheduled && ctx.cancel(rec.id.value);
      && r.db.appointments == p.db.appointments[e := if cancel then refreshed.(status := Cancelled) else refreshed]
      && r.counts.updated == p.counts.updated + 1 && r.counts.created == p.counts.created
      && r.counts.cancelled == p.counts.cancelled + (if cancel then 1 else 0)
  {
    var pick := FoundOrAdded(p.db, ParseName(rec.patientName));
    FoundOrAddedSpec(p.db, ParseName(rec.patientName));
    assert pick.db.appointments == p.db.appointments;
    AppliedUpdates(pick.db, pick.id, rec.id.value, ctx.parseDate(rec.date).value, ctx.parseTime(rec.time).value,
                   IsBilanMotif(rec.motif), rec.motif, ctx, e);
    StepApplies(p, rec, ctx);
  }

  /**
   * A record whose Doctolib id is not stored yet adds one scheduled
   * appointment under the next id, for the patient found or added by name;
   * a bilan also becomes that patient's last bilan date, whatever the date.
   */
  lemma StepCreates(p: Progress, rec: Record, ctx: Context)
    requires Wf(p.db) && Complete(rec) && Parses(rec, ctx)
    requires forall k :: k in p.db.appointments ==> p.db.appointments[k].doctolibId != rec.id
    ensures var r := SyncStep(p, rec, ctx);
            var pick := FoundOrAdded(p.db, ParseName(rec.patientName));
            var date := ctx.parseDate(rec.date).value;
            var isBilan := IsBilanMotif(rec.motif);
      && r.db.appointments == p.db.appointments[p.db.nextAppointment :=
                                Imported(pick.id, rec.id.value, date, ctx.parseTime(rec.time).value, isBilan, rec.motif)]
      && r.db.patients == (if isBilan then pick.db.patients[pick.id := pick.db.patients[pick.id].(lastBilanDate := Some(date))]
                           else pick.db.patients)
      && r.counts.created == p.counts.created + 1 && r.counts.updated == p.counts.updated
      && r.counts.cancelled == p.counts.cancelled
  {
    var pick := FoundOrAdded(p.db, ParseName(rec.patientName));
    FoundOrAddedSpec(p.db, ParseName(rec.patientName));
    assert pick.db.appointments == p.db.appointments && pick.db.nextAppointment == p.db.nextAppointment;
    AppliedCreates(pick.db, pick.id, rec.id.value, ctx.parseDate(rec.date).value, ctx.parseTime(rec.time).value,
                   IsBilanMotif(rec.motif), rec.motif, ctx);
    StepApplies(p, rec, ctx);
  }

  // ---------------------------------------------------------------------
  // Properties of the whole run

  /** Every patient and appointment of `db` is still in `db2`, under the same name or Doctolib id. */
  ghost predicate Keeps(db: Db, db2: Db) {
    && (forall k :: k in db.patients ==> k in db2.patients && db2.patients[k].firstName == db.patients[k].firstName
                                          && db2.patients[k].lastName == db.patients[k].lastName)
    && (forall k :: k in db.appointments ==> k in db2.appointments
                                              && db2.appointments[k].doctolibId == db.appointments[k].doctolibId)
  }

  /** Some appointment carries the Doctolib id. */
  predicate HoldsDoctolibId(db: Db, id: string) {
    exists k :: k in db.appointments && db.appointments[k].doctolibId == Some(id)
  }

  /**
   * The record is already reflected in `db`: its patient exists by name,
   * and when its date and time parse, its Doctolib id is stored.
   */
  ghost predicate Covered(db: Db, rec: Record, ctx: Context) {
    Complete(rec) ==>
      && Named(db, ParseName(rec.patientName))
      && (Parses(rec, ctx) ==> HoldsDoctolibId(db, rec.id.value))
  }

  lemma CoveredKept(db: Db, db2: Db, rec: Record, ctx: Context)
    requires Covered(db, rec, ctx) && Keeps(db, db2)
    ensures Covered(db2, rec, ctx)
  {
    if Complete(rec) {
      var name := ParseName(rec.patientName);
      var k :| k in db.patients && db.patients[k].firstName == name.first && db.patients[k].lastName == name.last;
      assert k in db2.patients;
      if Parses(rec, ctx) {
        var j :| j in db.appointments && db.appointments[j].doctolibId == Some(rec.id.value);
        assert j in db2.appointments;
      }
    }
  }

  lemma KeepsTransitive(a: Db, b: Db, c: Db)
    requires Keeps(a, b) && Keeps(b, c)
    ensures Keeps(a, c)
  {
  }

  /** The upsert adds an appointment exactly when the Doctolib id was not stored. */
  lemma UpsertedNext(db: Db, patientId: nat, id: string, date: Date, time: Minute, isBilan: bool, motif: string)
    requires patientId in db.patients
    ensures var r := Upserted(db, patientId, id, date, time, isBilan, motif);
      r.db.nextAppointment == db.nextAppointment + (if r.existing.None? then 1 else 0)
  {
  }

  /**
   * The upsert and the cancellation keep the database well formed, add no
   * patient, and add an appointment exactly when none held the Doctolib id.
   */
  lemma AppliedWf(db: Db, patientId: nat, id: string, date: Date, time: Minute, isBilan: bool, motif: string, ctx: Context)
    requires Wf(db) && patientId in db.patients
    ensures var r := Applied(db, patientId, id, date, time, isBilan, motif, ctx);
      && Wf(r.db) && r.db.patients.Keys == db.patients.Keys && r.db.nextPatient == db.nextPatient
      && r.db.nextAppointment == db.nextAppointment + (if r.existing.None? then 1 else 0)
  {
    UpsertedWf(db, patientId, id, date, time, isBilan, motif);
    UpsertedNext(db, patientId, id, date, time, isBilan, motif);
    var up := Upserted(db, patientId, id, date, time, isBilan, motif);
    if CancelGuard(up.db, ctx, patientId, up.existing, isBilan) && ctx.cancel(id) {
      CancelledAndAlertedFrame(up.db, ctx, patientId, up.existing.value);
    }
  }

  /** Rewriting one appointment without touching its Doctolib id, or the patients, keeps every row. */
  lemma RewriteKeeps(db: Db, r: Db, e: nat, a: Appointment)
    requires e in db.appointments && a.doctolibId == db.appointments[e].doctolibId
    requires r.appointments == db.appointments[e := a] && r.patients == db.patients
    ensures Keeps(db, r)
    ensures a.doctolibId.Some? ==> HoldsDoctolibId(r, a.doctolibId.value)
  {
    assert r.appointments[e] == a;
  }

  /** Adding an appointment under a fresh id, and at most changing a last bilan date, keeps every row. */
  lemma AddKeeps(db: Db, r: Db, a: Appointment, patientId: nat, date: Date)
    requires KeysBelow(db.appointments, db.nextAppointment) && patientId in db.patients
    requires r.appointments == db.appointments[db.nextAppointment := a]
    requires r.patients == db.patients || r.patients == db.patients[patientId := db.patients[patientId].(lastBilanDate := Some(date))]
    ensures Keeps(db, r)
    ensures a.doctolibId.Some? ==> HoldsDoctolibId(r, a.doctolibId.value)
  {
    assert db.nextAppointment !in db.appointments;
    assert r.appointments[db.nextAppointment] == a;
  }

  /** The upsert and the cancellation keep every row and leave the Doctolib id stored. */
  lemma AppliedKeeps(db: Db, patientId: nat, id: string, date: Date, time: Minute, isBilan: bool, motif: string, ctx: Context)
    requires Wf(db) && patientId in db.patients
    ensures var r := Applied(db, patientId, id, date, time, isBilan, motif, ctx).db;
      Keeps(db, r) && HoldsDoctolibId(r, id)
  {
    ByDoctolibIdSpec(db, id);
    var r := Applied(db, patientId, id, date, time, isBilan, motif, ctx).db;
    match ByDoctolibId(db, id)
    case Some(e) =>
      AppliedUpdates(db, patientId, id, date, time, isBilan, motif, ctx, e);
      RewriteKeeps(db, r, e, r.appointments[e]);
    case None =>
      AppliedCreates(db, patientId, id, date, time, isBilan, motif, ctx);
      AddKeeps(db, r, Imported(patientId, id, date, time, isBilan, motif), patientId, date);
  }

  /** One record keeps the database well formed, keeps every row and leaves the record covered. */
  lemma StepWf(p: Progress, rec: Record, ctx: Context)
    requires Wf(p.db)
    ensures var r := SyncStep(p, rec, ctx);
      Wf(r.db) && Keeps(p.db, r.db) && Covered(r.db, rec, ctx)
  {
    if Complete(rec) {
      var name := ParseName(rec.patientName);
      FoundOrAddedSpec(p.db, name);
      var pick := FoundOrAdded(p.db, name);
      assert Keeps(p.db, pick.db);
      if Parses(rec, ctx) {
        var date, time := ctx.parseDate(rec.date).value, ctx.parseTime(rec.time).value;
        AppliedWf(pick.db, pick.id, rec.id.value, date, time, IsBilanMotif(rec.motif), rec.motif, ctx);
        AppliedKeeps(pick.db, pick.id, rec.id.value, date, time, IsBilanMotif(rec.motif), rec.motif, ctx);
        StepApplies(p, rec, ctx);
        var r := SyncStep(p, rec, ctx);
        KeepsTransitive(p.db, pick.db, r.db);
        assert pick.id in r.db.patients;
      }
    }
  }

  /**
   * Each record ends up as exactly one of: an error, a created appointment
   * or an updated one; only updated ones can be cancelled, and each record
   * adds at most one patient.
   */
  lemma StepAccounting(p: Progress, rec: Record, ctx: Context)
    ensures var r := SyncStep(p, rec, ctx).counts;
      && r.total == p.counts.total
      && r.created + r.updated + |r.errors| == p.counts.created + p.counts.updated + |p.counts.errors| + 1
      && r.cancelled - p.counts.cancelled <= r.updated - p.counts.updated
      && p.counts.newPatients <= r.newPatients <= p.counts.newPatients + 1
      && p.counts.errors <= r.errors
  {
    if Complete(rec) && Parses(rec, ctx) {
      StepApplies(p, rec, ctx);
      var pick := FoundOrAdded(p.db, ParseName(rec.patientName));
      var ch := Applied(pick.db, pick.id, rec.id.value, ctx.parseDate(rec.date).value, ctx.parseTime(rec.time).value,
                        IsBilanMotif(rec.motif), rec.motif, ctx);
      assert ch.cancelled ==> ch.existing.Some?;
    }
  }

  /** The run keeps the database well formed, keeps every row and leaves every record covered. */
  lemma {:induction false} ImportsWf(p: Progress, records: seq<Record>, ctx: Context)
    requires Wf(p.db)
    ensures var r := Imports(p, records, ctx);
      && Wf(r.db) && Keeps(p.db, r.db)
      && forall i :: 0 <= i < |records| ==> Covered(r.db, records[i], ctx)
    decreases |records|
  {
    if records != [] {
      var init := records[..|records| - 1];
      var last := records[|records| - 1];
      ImportsWf(p, init, ctx);
      var mid := Imports(p, init, ctx);
      StepWf(mid, last, ctx);
      var r := Imports(p, records, ctx);
      KeepsTransitive(p.db, mid.db, r.db);
      forall i | 0 <= i < |records|
        ensures Covered(r.db, records[i], ctx)
      {
        if i < |init| {
          assert records[i] == init[i];
          CoveredKept(mid.db, r.db, records[i], ctx);
        }
      }
    }
  }

  /**
   * Over the whole run, every record is counted once as an error, a created
   * or an updated appointment; cancellations are among the updates and new
   * patients are at most one per record.
   */
  lemma {:induction false} ImportsAccounting(records: seq<Record>, p: Progress, ctx: Context)
    ensures var r := Imports(p, records, ctx).counts;
      && r.total == p.counts.total
      && r.created + r.updated + |r.errors| == p.counts.created + p.counts.updated + |p.counts.errors| + |records|
      && r.cancelled - p.counts.cancelled <= r.updated - p.counts.updated
      && p.counts.newPatients <= r.newPatients <= p.counts.newPatients + |records|
    decreases |records|
  {
    if records != [] {
      ImportsAccounting(records[..|records| - 1], p, ctx);
      StepAccounting(Imports(p, records[..|records| - 1], ctx), records[|records| - 1], ctx);
    }
  }

  /** The upsert of a stored Doctolib id adds no patient and no appointment. */
  lemma AppliedStoredAddsNothing(db: Db, patientId: nat, id: string, date: Date, time: Minute, isBilan: bool, motif: string,
                                 ctx: Context)
    requires Wf(db) && patientId in db.patients && HoldsDoctolibId(db, id)
    ensures var r := Applied(db, patientId, id, date, time, isBilan, motif, ctx);
      && r.existing.Some?
      && r.db.patients.Keys == db.patients.Keys && r.db.nextPatient == db.nextPatient
      && r.db.appointments.Keys == db.appointments.Keys && r.db.nextAppointment == db.nextAppointment
  {
    var e :| e in db.appointments && db.appointments[e].doctolibId == Some(id);
    AppliedUpdates(db, patientId, id, date, time, isBilan, motif, ctx, e);
    AppliedWf(db, patientId, id, date, time, isBilan, motif, ctx);
  }

  /** A record already covered adds no patient and no appointment. */
  lemma StepCoveredAddsNothing(p: Progress, rec: Record, ctx: Context)
    requires Wf(p.db) && Covered(p.db, rec, ctx)
    ensures var r := SyncStep(p, rec, ctx);
      && r.db.patients.Keys == p.db.patients.Keys && r.db.nextPatient == p.db.nextPatient
      && r.db.appointments.Keys == p.db.appointments.Keys && r.db.nextAppointment == p.db.nextAppointment
      && r.counts.created == p.counts.created && r.counts.newPatients == p.counts.newPatients
  {
    if Complete(rec) {
      var name := ParseName(rec.patientName);
      FoundOrAddedSpec(p.db, name);
      if Parses(rec, ctx) {
        var pick := FoundOrAdded(p.db, name);
        AppliedStoredAddsNothing(pick.db, pick.id, rec.id.value, ctx.parseDate(rec.date).value, ctx.parseTime(rec.time).value,
                                 IsBilanMotif(rec.motif), rec.motif, ctx);
        StepApplies(p, rec, ctx);
      }
    }
  }

  /** Records that are all covered add no patient and no appointment. */
  lemma {:induction false} ImportsCoveredAddsNothing(p: Progress, records: seq<Record>, ctx: Context)
    requires Wf(p.db) && forall i :: 0 <= i < |records| ==> Covered(p.db, records[i], ctx)
    ensures var r := Imports(p, records, ctx);
      && r.db.patients.Keys == p.db.patients.Keys && r.db.nextPatient == p.db.nextPatient
      && r.db.appointments.Keys == p.db.appointments.Keys && r.db.nextAppointment == p.db.nextAppointment
      && r.counts.created == p.counts.created && r.counts.newPatients == p.counts.newPatients
    decreases |records|
  {
    if records != [] {
      var init := records[..|records| - 1];
      var last := records[|records| - 1];
      forall i | 0 <= i < |init|
        ensures Covered(p.db, init[i], ctx)
      {
        assert init[i] == records[i];
      }
      ImportsCoveredAddsNothing(p, init, ctx);
      ImportsWf(p, init, ctx);
      var mid := Imports(p, init, ctx);
      CoveredKept(p.db, mid.db, last, ctx);
      StepCoveredAddsNothing(mid, last, ctx);
    }
  }

  /**
   * Importing the same agenda a second time, with the same parsers and
   * answers, adds no patient and no appointment: every record's patient is
   * found by name and every appointment by its Doctolib id.
   */
  lemma ReimportAddsNothing(db: Db, ctx: Context, records: seq<Record>)
    requires Wf(db) && Filled(ctx.cfg.email) && Filled(ctx.cfg.password)
    ensures var once := Synchronised(db, ctx, true, records);
            var twice := Synchronised(once.db, ctx, true, records);
      && twice.db.patients.Keys == once.db.patients.Keys
      && twice.db.appointments.Keys == once.db.appointments.Keys
      && twice.result.Synced? && twice.result.counts.created == 0 && twice.result.counts.newPatients == 0
  {
    var first := Imports(Progress(db, Started(records)), records, ctx);
    ImportsWf(Progress(db, Started(records)), records, ctx);
    ImportsCoveredAddsNothing(Progress(first.db, Started(records)), records, ctx);
  }

  /** The run keeps the database well formed. */
  lemma SynchronisedWf(db: Db, ctx: Context, loginOk: bool, records: seq<Record>)
    requires Wf(db)
    ensures Wf(Synchronised(db, ctx, loginOk, records).db)
  {
    ImportsWf(Progress(db, Started(records)), records, ctx);
  }

  // ---------------------------------------------------------------------
  // The import on the database session

  /** `_find_or_create_patient`, then the `add` and `flush` of a new patient. */
  method FindOrCreatePatient(s: Store, name: Name) returns (id: nat, added: bool)
    requires s.Valid()
    modifies s
    ensures s.Valid()
    ensures Pick(s.Snapshot(), id, added) == FoundOrAdded(old(s.Snapshot()), name)
  {
    FoundOrAddedSpec(s.Snapshot(), name);
    var hits := Select(s.patients, s.nextPatient, NameFilter(s.Snapshot(), name));
    if hits != [] {
      return hits[0], false;
    }
    id := s.InsertPatient(NewPatient(name.first, name.last));
    added := true;
  }

  /** The update of the appointment holding the Doctolib id, or the creation of a new one. */
  method UpsertAppointment(s: Store, patientId: nat, id: string, date: Date, time: Minute, isBilan: bool, motif: string)
    returns (existing: Option<nat>)
    requires s.Valid() && patientId in s.patients
    modifies s
    ensures s.Valid()
    ensures Upsert(s.Snapshot(), existing) == Upserted(old(s.Snapshot()), patientId, id, date, time, isBilan, motif)
  {
    UpsertedWf(s.Snapshot(), patientId, id, date, time, isBilan, motif);
    existing := ByDoctolibId(s.Snapshot(), id);
    match existing
    case Some(e) =>
      s.UpdateAppointment(e, Rescheduled(s.appointments[e], date, time, isBilan, motif));
    case None =>
      var created := s.InsertAppointment(Imported(patientId, id, date, time, isBilan, motif));
      if isBilan {
        s.UpdatePatient(patientId, s.patients[patientId].(lastBilanDate := Some(date)));
      }
  }

  /** The upsert of a parsed record, then the cancellation check. */
  method ApplyRecord(s: Store, ctx: Context, patientId: nat, id: string, date: Date, time: Minute, isBilan: bool,
                     motif: string) returns (existing: Option<nat>, cancelled: bool)
    requires s.Valid() && patientId in s.patients
    modifies s
    ensures s.Valid()
    ensures Change(s.Snapshot(), existing, cancelled) == Applied(old(s.Snapshot()), patientId, id, date, time, isBilan, motif, ctx)
  {
    existing := UpsertAppointment(s, patientId, id, date, time, isBilan, motif);
    cancelled := false;
    if CancelGuard(s.Snapshot(), ctx, patientId, existing, isBilan) && ctx.cancel(id) {
      var e := existing.value;
      var overdue := DaysOverdue(s.patients[patientId], ctx.today);
      RefreshWf(s.Snapshot(), e, s.appointments[e].(status := Cancelled));
      s.UpdateAppointment(e, s.appointments[e].(status := Cancelled));
      var alert := SendBilanAlert(s, ctx.svc, ctx.cfg.immediate, patientId, overdue, ctx.now);
      cancelled := true;
    }
  }

  /** One pass of the loop of `sync_appointments`: the counters after the record `rec`. */
  method ImportRecord(s: Store, ctx: Context, rec: Record, counts: Counts) returns (next: Counts)
    requires s.Valid()
    modifies s
    ensures s.Valid()
    ensures Progress(s.Snapshot(), next) == SyncStep(Progress(old(s.Snapshot()), counts), rec, ctx)
  {
    if !Complete(rec) {
      return counts.(errors := counts.errors + [Incomplete(rec)]);
    }
    next := ImportComplete(s, ctx, rec, counts);
  }

  /** The pass over a record with an id, a name, a date and a time. */
  method ImportComplete(s: Store, ctx: Context, rec: Record, counts: Counts) returns (next: Counts)
    requires s.Valid() && Complete(rec)
    modifies s
    ensures s.Valid()
    ensures Progress(s.Snapshot(), next) == SyncStep(Progress(old(s.Snapshot()), counts), rec, ctx)
  {
    var patientId, added := FindOrCreatePatient(s, ParseName(rec.patientName));
    next := ImportPicked(s, ctx, rec, counts, patientId, added);
  }

  /** The pass once the record's patient is found or added: the date and time, then the upsert. */
  method ImportPicked(s: Store, ctx: Context, rec: Record, counts: Counts, patientId: nat, added: bool) returns (next: Counts)
    requires s.Valid() && Complete(rec) && patientId in s.patients
    modifies s
    ensures s.Valid()
    ensures Progress(s.Snapshot(), next) == PickedStep(counts, Pick(old(s.Snapshot()), patientId, added), rec, ctx)
  {
    ghost var pick := Pick(s.Snapshot(), patientId, added);
    next := counts.(newPatients := counts.newPatients + if added then 1 else 0);
    if !Parses(rec, ctx) {
      PickedUnparsed(counts, pick, rec, ctx);
      return next.(errors := next.errors + [BadDateTime(rec.date, rec.time)]);
    }
    var existing, cancelled := ApplyRecord(s, ctx, patientId, rec.id.value, ctx.parseDate(rec.date).value,
                                           ctx.parseTime(rec.time).value, IsBilanMotif(rec.motif), rec.motif);
    PickedParsed(counts, pick, rec, ctx, Change(s.Snapshot(), existing, cancelled));
    next := Counted(next, Change(s.Snapshot(), existing, cancelled));
  }

  /** `PickedStep` on a record whose date or time does not parse. */
  lemma PickedUnparsed(c: Counts, pick: Pick, rec: Record, ctx: Context)
    requires Complete(rec) && pick.id in pick.db.patients && !Parses(rec, ctx)
    ensures var c1 := c.(newPatients := c.newPatients + if pick.added then 1 else 0);
            PickedStep(c, pick, rec, ctx) == Progress(pick.db, c1.(errors := c1.errors + [BadDateTime(rec.date, rec.time)]))
  {
  }

  /** `PickedStep` on a record whose date and time parse, given the upsert's change `ch`. */
  lemma PickedParsed(c: Counts, pick: Pick, rec: Record, ctx: Context, ch: Change)
    requires Complete(rec) && pick.id in pick.db.patients && Parses(rec, ctx)
    requires ch == PickedChange(pick, rec, ctx)
    ensures var c1 := c.(newPatients := c.newPatients + if pick.added then 1 else 0);
            PickedStep(c, pick, rec, ctx) == Progress(ch.db, Counted(c1, ch))
  {
  }

  /**
   * `sync_appointments`: the credentials, the login, then every record in
   * order; the counters it returns account for every record.
   */
  method SyncAppointments(s: Store, ctx: Context, loginOk: bool, records: seq<Record>) returns (result: SyncResult)
    requires s.Valid()
    modifies s
    ensures s.Valid()
    ensures SyncReply(s.Snapshot(), result) == Synchronised(old(s.Snapshot()), ctx, loginOk, records)
  {
    if !Filled(ctx.cfg.email) || !Filled(ctx.cfg.password) {
      return SyncFailed(IncompleteConfig);
    }
    if !loginOk {
      return SyncFailed(LoginFailed);
    }
    var counts := Started(records);
    var i := 0;
    while i < |records|
      invariant 0 <= i <= |records|
      invariant s.Valid()
      invariant Progress(s.Snapshot(), counts) == Imports(Progress(old(s.Snapshot()), Started(records)), records[..i], ctx)
    {
      assert records[..i + 1][..i] == records[..i];
      counts := ImportRecord(s, ctx, records[i], counts);
      i := i + 1;
    }
    assert records[..i] == records;
    result := Synced(counts);
  }
}
