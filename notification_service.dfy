/** The notification service: each business event writes one record into table
    `notifications` and sends one e-mail. The backend and the mail transport are the
    `Store` and `Mailer` objects; how each backend call ends and whether each e-mail goes
    out are parameters, and so are the clock (`now`, in milliseconds) and the
    locale-formatted dates the e-mails print. */
module NotificationService {
  import opened Wrappers
  import opened Numbers
  import opened Records
  import opened Sequences
  import opened Backend
  import opened WeeklyReportTemplate
  import opened EmailService

  const Day := 24 * 60 * 60 * 1000
  const Week := 7 * Day
  const SensorsPath := "/dashboard/sensors"
  const StaleReason := "Sensor sem leituras nas últimas 24 horas"

  function CriticalMessage(sensorName: string, level: Milli): string
  {
    "Sensor " + sensorName + " detectou nível de água crítico: " + NumberText(level) + "m"
  }

  function MaintenanceMessage(sensorName: string, reason: string): string
  {
    "Sensor " + sensorName + " precisa de manutenção: " + reason
  }

  /** `createNotification`: one unread record with the given fields (type "info" and
      category "system" unless told otherwise); `true` iff the insert reported no error.
      An exception is caught and also gives `false`. */
  method CreateNotification(store: Store, outcome: Outcome, userId: string, title: string,
                            message: string, kind: string := "info", category: string := "system",
                            actionUrl: Option<string> := None) returns (ok: bool)
    requires store.Valid()
    modifies store`notifications, store`nextId
    ensures store.Valid()
    ensures ok <==> outcome.Answered?
    ensures store.notifications == old(store.notifications) + (if ok then
      [Notification(old(store.nextId), userId, title, message, kind, category, actionUrl, false)]
      else [])
  {
    store.InsertNotification(userId, title, message, kind, category, actionUrl, outcome);
    ok := outcome.Answered?;
  }

  /** `sendCriticalLevelAlert`: the record is written first, and the e-mail is sent whether
      or not the write succeeded. */
  method SendCriticalLevelAlert(store: Store, mailer: Mailer, userId: string, userEmail: string,
                                sensorName: string, level: Milli, insert: Outcome,
                                dispatch: Dispatch, stamp: string)
    requires store.Valid()
    modifies store`notifications, store`nextId, mailer
    ensures store.Valid()
    ensures store.notifications == old(store.notifications) + (if insert.Answered? then
      [Notification(old(store.nextId), userId, "Nível Crítico Detectado",
                    CriticalMessage(sensorName, level), "warning", "alert", Some(SensorsPath), false)]
      else [])
    ensures mailer.sent == old(mailer.sent) + [CriticalEmail(userEmail, sensorName, level, stamp)]
  {
    var _ := CreateNotification(store, insert, userId, "Nível Crítico Detectado",
                                CriticalMessage(sensorName, level), "warning", "alert", Some(SensorsPath));
    var _ := mailer.SendCriticalAlert(userEmail, sensorName, level, stamp, dispatch);
  }

  /** The record `sendMaintenanceAlert` writes, before its id is known. */
  function MaintenanceDraft(userId: string, sensorName: string, reason: string): Notification
  {
    Notification(0, userId, "Manutenção Necessária", MaintenanceMessage(sensorName, reason),
                 "warning", "maintenance", Some(SensorsPath), false)
  }

  /** `sendMaintenanceAlert`: one "maintenance" record, then the e-mail. */
  method SendMaintenanceAlert(store: Store, mailer: Mailer, userId: string, userEmail: string,
                              sensorName: string, reason: string, insert: Outcome,
                              dispatch: Dispatch, day: string)
    requires store.Valid()
    modifies store`notifications, store`nextId, mailer
    ensures store.Valid()
    ensures store.notifications == old(store.notifications) + (if insert.Answered? then
      [MaintenanceDraft(userId, sensorName, reason).(id := old(store.nextId))] else [])
    ensures mailer.sent == old(mailer.sent) + [MaintenanceEmail(userEmail, sensorName, reason, day)]
  {
    var _ := CreateNotification(store, insert, userId, "Manutenção Necessária",
                                MaintenanceMessage(sensorName, reason), "warning", "maintenance",
                                Some(SensorsPath));
    var _ := mailer.SendMaintenanceAlert(userEmail, sensorName, reason, day, dispatch);
  }

  // ---------------------------------------------------------------------------------------
  // Weekly report

  predicate InLastWeek(now: int, r: Reading) { r.createdAt.millis >= now - Week }

  /** The `reportData` the weekly report is built from. The sensors are the caller's own;
      the reading total counts every reading of the last seven days, whoever owns its
      sensor; a failed query's `null` data becomes an empty list or 0. */
  function WeeklyInputFor(sensors: seq<Sensor>, readings: seq<Reading>, userId: string, now: int,
                          sensorsQuery: Outcome, readingsQuery: Outcome): (w: WeeklyInput)
    ensures w.sensors.Some? && w.alerts == Some([]) && w.totalReadings.Finite?
    ensures forall s :: s in w.sensors.value ==> s in sensors && s.userId == userId
  {
    var own := Filter(sensors, (s: Sensor) => s.userId == userId);
    forall s | s in own ensures s in sensors && s.userId == userId {
      FilterMembers(sensors, (s: Sensor) => s.userId == userId, s);
    }
    WeeklyInput(
      Some(if sensorsQuery.Answered? then own else []),
      Whole(if readingsQuery.Answered? then Count(readings, r => InLastWeek(now, r)) else 0),
      Some([]))
  }

  /** The reading total is not filtered by owner: one more reading in the window, of any
      sensor, raises it by one. */
  lemma WeeklyTotalIgnoresOwner(sensors: seq<Sensor>, readings: seq<Reading>, userId: string,
                                now: int, r: Reading)
    requires InLastWeek(now, r)
    ensures WeeklyInputFor(sensors, readings + [r], userId, now, Answered, Answered).totalReadings.v
         == WeeklyInputFor(sensors, readings, userId, now, Answered, Answered).totalReadings.v + 1000
  {
    assert (readings + [r])[..|readings|] == readings;
  }

  function WeeklyNotice(userId: string, userEmail: string, emailSent: bool): Notification
  {
    Notification(
      0, userId,
      if emailSent then "Relatório Semanal Enviado" else "Falha no Envio do Relatório",
      if emailSent then "Seu relatório semanal foi enviado para " + userEmail + " com sucesso."
      else "Houve um problema ao enviar o relatório semanal para " + userEmail + ".",
      if emailSent then "success" else "error",
      "report", None, false)
  }

  /** The report record is a "success" exactly when the e-mail went out, an "error"
      otherwise, and always in category "report". */
  lemma WeeklyNoticeKind(userId: string, userEmail: string, emailSent: bool)
    ensures WeeklyNotice(userId, userEmail, emailSent).category == "report"
    ensures WeeklyNotice(userId, userEmail, emailSent).kind == "success" <==> emailSent
    ensures WeeklyNotice(userId, userEmail, emailSent).kind == "error" <==> !emailSent
  {
  }

  /** `sendWeeklyReportNotification`: query the caller's sensors and the week's readings,
      send the report, record the outcome, and return whether the e-mail went out. A query
      that throws ends it with `false` and no e-mail or record. */
  method SendWeeklyReportNotification(store: Store, mailer: Mailer, userId: string,
                                      userEmail: string, userName: string, now: int,
                                      sensorsQuery: Outcome, readingsQuery: Outcome,
                                      start: string, end: string, dispatch: Dispatch,
                                      insert: Outcome) returns (ok: bool)
    requires store.Valid()
    modifies store`notifications, store`nextId, mailer
    ensures store.Valid()
    ensures sensorsQuery.Threw? || readingsQuery.Threw? ==>
              !ok && store.notifications == old(store.notifications) && mailer.sent == old(mailer.sent)
    ensures !sensorsQuery.Threw? && !readingsQuery.Threw? ==>
              var input := WeeklyInputFor(store.sensors, store.readings, userId, now,
                                          sensorsQuery, readingsQuery);
              && (ok <==> dispatch == Delivered)
              && mailer.sent == old(mailer.sent) + [WeeklyEmail(userEmail, userName, input, start, end)]
              && store.notifications == old(store.notifications) + (if insert.Answered? then
                   [WeeklyNotice(userId, userEmail, ok).(id := old(store.nextId))] else [])
  {
    if sensorsQuery.Threw? || readingsQuery.Threw? {
      return false;
    }
    var input := WeeklyInputFor(store.sensors, store.readings, userId, now, sensorsQuery, readingsQuery);
    var emailSent := mailer.SendWeeklyReport(userEmail, userName, input, start, end, dispatch);
    var n := WeeklyNotice(userId, userEmail, emailSent);
    var _ := CreateNotification(store, insert, userId, n.title, n.message, n.kind, n.category);
    ok := emailSent;
  }

  // ---------------------------------------------------------------------------------------
  // Maintenance sweep

  /** The readings of sensor `id` in the 24 hours before `now`. */
  function Recent(readings: seq<Reading>, now: int, id: int): seq<Reading>
  {
    Filter(readings, (r: Reading) => r.sensorId == id && r.createdAt.millis >= now - Day)
  }

  /** Whether the sweep alerts on sensor `s` given how its readings query ended: an answer
      with no readings, or `null` data from an error, both count as stale. */
  predicate Stale(readings: seq<Reading>, now: int, s: Sensor, q: Outcome)
  {
    match q
    case Answered => Recent(readings, now, s.id) == []
    case Failed(_) => true
    case Threw(_) => false
  }

  /** The stale sensors among the first `n` swept, in order. */
  function Targets(active: seq<Sensor>, readings: seq<Reading>, now: int, qs: seq<Outcome>, n: nat): seq<Sensor>
    requires n <= |active|
  {
    if n == 0 then []
    else Targets(active, readings, now, qs, n - 1)
         + (if Stale(readings, now, active[n - 1], At(qs, n - 1, Answered)) then [active[n - 1]] else [])
  }

  /** The position of the first readings query that throws, or `n`. */
  function FirstThrow(qs: seq<Outcome>, i: nat, n: nat): (r: nat)
    requires i <= n
    ensures i <= r <= n
    ensures forall j :: i <= j < r ==> !At(qs, j, Answered).Threw?
    ensures r < n ==> At(qs, r, Answered).Threw?
    decreases n - i
  {
    if i == n then n else if At(qs, i, Answered).Threw? then i else FirstThrow(qs, i + 1, n)
  }

  /** The sensors the sweep alerts on: the active ones whose readings are stale, up to the
      first query that throws. A failed or throwing sensor query sweeps nothing. */
  function Swept(sensorsQuery: Outcome, sensors: seq<Sensor>, readings: seq<Reading>, now: int,
                 qs: seq<Outcome>): seq<Sensor>
  {
    if sensorsQuery.Answered? then
      var active := Filter(sensors, IsActive);
      Targets(active, readings, now, qs, FirstThrow(qs, 0, |active|))
    else []
  }

  function AlertEmails(targets: seq<Sensor>, email: string, day: string): seq<Email>
  {
    if targets == [] then []
    else AlertEmails(targets[..|targets| - 1], email, day)
         + [MaintenanceEmail(email, targets[|targets| - 1].name, StaleReason, day)]
  }

  /** The records written for the alerts, ids aside: one per alert whose insert answered. */
  function AlertDrafts(targets: seq<Sensor>, inserts: seq<Outcome>): seq<Notification>
  {
    if targets == [] then []
    else
      var n := |targets|;
      AlertDrafts(targets[..n - 1], inserts)
      + (if At(inserts, n - 1, Answered).Answered? then
           [MaintenanceDraft(targets[n - 1].userId, targets[n - 1].name, StaleReason)] else [])
  }

  function Unnumbered(ns: seq<Notification>): (r: seq<Notification>)
    ensures |r| == |ns|
  {
    seq(|ns|, i requires 0 <= i < |ns| => ns[i].(id := 0))
  }

  /** `checkSensorMaintenance`: for each active sensor, query its last 24 hours of readings;
      when there are none, alert the sensor's owner by way of the caller's e-mail address
      (`caller`, or nothing when no one is signed in). An exception ends the sweep. The
      records the sweep writes are `added`. */
  method CheckSensorMaintenance(store: Store, mailer: Mailer, now: int, sensorsQuery: Outcome,
                                readingsQueries: seq<Outcome>, caller: Option<string>,
                                inserts: seq<Outcome>, dispatches: seq<Dispatch>, day: string)
    returns (ghost added: seq<Notification>)
    requires store.Valid()
    modifies store`notifications, store`nextId, mailer
    ensures store.Valid()
    ensures var targets := if caller.Some? then
                             Swept(sensorsQuery, store.sensors, store.readings, now, readingsQueries)
                           else [];
            && mailer.sent == old(mailer.sent) + AlertEmails(targets, caller.GetOr(""), day)
            && store.notifications == old(store.notifications) + added
            && Unnumbered(added) == AlertDrafts(targets, inserts)
  {
    var active := if sensorsQuery.Answered? then Filter(store.sensors, IsActive) else [];
    var w := SweepInput(active, store.readings, now, readingsQueries, caller, inserts, day);
    ghost var sent0, notes0 := mailer.sent, store.notifications;
    ghost var done: seq<Sensor>, emails: seq<Email> := [], [];
    added := [];
    var i, k := 0, 0;
    while i < |active| && !At(readingsQueries, i, Answered).Threw?
      invariant Progress(w, i, done, emails, added)
      invariant k == |done|
      invariant store.Valid()
      invariant mailer.sent == sent0 + emails
      invariant store.notifications == notes0 + added
    {
      i, k, done, emails, added := SweepTurn(store, mailer, w, At(dispatches, k, Delivered),
                                             i, k, done, emails, added, sent0, notes0);
    }
    ProgressEnd(w, i, done, emails, added);
  }

  /** What the sweep runs on: the active sensors, the readings table, the clock, how each
      readings query ends, the signed-in caller's e-mail address, how each insert ends and
      the date the e-mails print. */
  datatype SweepInput = SweepInput(
    active: seq<Sensor>,
    readings: seq<Reading>,
    now: int,
    queries: seq<Outcome>,
    caller: Option<string>,
    inserts: seq<Outcome>,
    day: string)

  /** One turn of the sweep's loop, on sensor `w.active[i]`. */
  method SweepTurn(store: Store, mailer: Mailer, w: SweepInput, dispatch: Dispatch, i: nat, k: nat,
                   ghost done: seq<Sensor>, ghost emails: seq<Email>, ghost added: seq<Notification>,
                   ghost sent0: seq<Email>, ghost notes0: seq<Notification>)
    returns (i': nat, k': nat, ghost done': seq<Sensor>, ghost emails': seq<Email>,
             ghost added': seq<Notification>)
    requires i < |w.active| && !At(w.queries, i, Answered).Threw?
    requires Progress(w, i, done, emails, added) && k == |done|
    requires store.Valid() && mailer.sent == sent0 + emails && store.notifications == notes0 + added
    modifies store`notifications, store`nextId, mailer
    ensures Progress(w, i', done', emails', added') && k' == |done'| && i' == i + 1
    ensures store.Valid() && mailer.sent == sent0 + emails' && store.notifications == notes0 + added'
  {
    var alerted, mail, step := AlertIfStale(store, mailer, w.active[i], w.readings, w.now,
                                            At(w.queries, i, Answered), w.caller,
                                            At(w.inserts, k, Answered), dispatch, w.day);
    Regroup(sent0, emails, mail);
    Regroup(notes0, added, step);
    done', k' := done, k;
    if alerted {
      done', k' := done + [w.active[i]], k + 1;
    }
    ProgressStep(w, i, done, emails, added, alerted, mail, step, done');
    i', emails', added' := i + 1, emails + mail, added + step;
  }

  /** One turn of the sweep for sensor `s`, whose readings query ended with `q`; `step` is
      what it adds to the notifications table. */
  method AlertIfStale(store: Store, mailer: Mailer, s: Sensor, readings: seq<Reading>, now: int,
                      q: Outcome, caller: Option<string>, insert: Outcome, dispatch: Dispatch,
                      day: string)
    returns (alerted: bool, ghost mail: seq<Email>, ghost step: seq<Notification>)
    requires store.Valid() && !q.Threw?
    modifies store`notifications, store`nextId, mailer
    ensures store.Valid()
    ensures alerted <==> Stale(readings, now, s, q) && caller.Some?
    ensures mailer.sent == old(mailer.sent) + mail
    ensures mail == if alerted then [MaintenanceEmail(caller.value, s.name, StaleReason, day)] else []
    ensures store.notifications == old(store.notifications) + step
    ensures Unnumbered(step)
         == if alerted && insert.Answered? then [MaintenanceDraft(s.userId, s.name, StaleReason)] else []
  {
    var stale := match q
      case Answered => Recent(readings, now, s.id) == []
      case Failed(_) => true
      case Threw(_) => false;
    alerted := stale && caller.Some?;
    mail, step := [], [];
    if alerted {
      SendMaintenanceAlert(store, mailer, s.userId, caller.value, s.name, StaleReason,
                           insert, dispatch, day);
      mail := [MaintenanceEmail(caller.value, s.name, StaleReason, day)];
      if insert.Answered? {
        step := [store.notifications[|store.notifications| - 1]];
        assert Unnumbered(step)[0] == step[0].(id := 0);
      }
    }
  }

  /** The sweep after `i` sensors: no readings query so far threw, `done` are the sensors
      alerted on, `emails` the e-mails sent and `added` the records written. */
  ghost predicate Progress(w: SweepInput, i: nat, done: seq<Sensor>, emails: seq<Email>,
                           added: seq<Notification>)
  {
    && i <= |w.active|
    && (forall j :: 0 <= j < i ==> !At(w.queries, j, Answered).Threw?)
    && done == (if w.caller.Some? then Targets(w.active, w.readings, w.now, w.queries, i) else [])
    && emails == AlertEmails(done, w.caller.GetOr(""), w.day)
    && Unnumbered(added) == AlertDrafts(done, w.inserts)
  }

  lemma ProgressStep(w: SweepInput, i: nat, done: seq<Sensor>, emails: seq<Email>,
                     added: seq<Notification>, alerted: bool, mail: seq<Email>,
                     step: seq<Notification>, done': seq<Sensor>)
    requires Progress(w, i, done, emails, added)
    requires i < |w.active| && !At(w.queries, i, Answered).Threw?
    requires alerted <==> Stale(w.readings, w.now, w.active[i], At(w.queries, i, Answered)) && w.caller.Some?
    requires Unnumbered(step) == if alerted && At(w.inserts, |done|, Answered).Answered? then
                                   [MaintenanceDraft(w.active[i].userId, w.active[i].name, StaleReason)]
                                 else []
    requires done' == if alerted then done + [w.active[i]] else done
    requires mail == if alerted then
                       [MaintenanceEmail(w.caller.value, w.active[i].name, StaleReason, w.day)]
                     else []
    ensures Progress(w, i + 1, done', emails + mail, added + step)
  {
    TargetsStep(w.active, w.readings, w.now, w.queries, i);
    UnnumberedConcat(added, step);
    if alerted {
      AlertStep(done, w.active[i], w.caller.value, w.day, w.inserts);
    }
  }

  lemma ProgressEnd(w: SweepInput, i: nat, done: seq<Sensor>, emails: seq<Email>,
                    added: seq<Notification>)
    requires Progress(w, i, done, emails, added)
    requires i == |w.active| || At(w.queries, i, Answered).Threw?
    ensures var targets := if w.caller.Some? then
                             Targets(w.active, w.readings, w.now, w.queries,
                                     FirstThrow(w.queries, 0, |w.active|))
                           else [];
            && emails == AlertEmails(targets, w.caller.GetOr(""), w.day)
            && Unnumbered(added) == AlertDrafts(targets, w.inserts)
  {
    assert i == FirstThrow(w.queries, 0, |w.active|);
  }

  lemma TargetsStep(active: seq<Sensor>, readings: seq<Reading>, now: int, qs: seq<Outcome>, i: nat)
    requires i < |active|
    ensures Targets(active, readings, now, qs, i + 1)
         == Targets(active, readings, now, qs, i)
            + (if Stale(readings, now, active[i], At(qs, i, Answered)) then [active[i]] else [])
  {
  }

  lemma AlertStep(done: seq<Sensor>, s: Sensor, email: string, day: string, inserts: seq<Outcome>)
    ensures AlertEmails(done + [s], email, day)
         == AlertEmails(done, email, day) + [MaintenanceEmail(email, s.name, StaleReason, day)]
    ensures AlertDrafts(done + [s], inserts)
         == AlertDrafts(done, inserts)
            + (if At(inserts, |done|, Answered).Answered? then
                 [MaintenanceDraft(s.userId, s.name, StaleReason)] else [])
  {
    assert (done + [s])[..|done|] == done;
  }

  lemma Regroup<T>(a: seq<T>, b: seq<T>, c: seq<T>)
    ensures (a + b) + c == a + (b + c)
  {
  }

  lemma UnnumberedConcat(a: seq<Notification>, b: seq<Notification>)
    ensures Unnumbered(a + b) == Unnumbered(a) + Unnumbered(b)
  {
  }
}
