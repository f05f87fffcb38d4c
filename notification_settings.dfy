/** The notification preferences form: a two-level settings object edited one field at a
    time, saved as one `email_settings` row per user and loaded back from it. The row keeps
    fewer fields than the form, so a save followed by a load does not give back every
    field. */
module NotificationSettings {
  import opened Wrappers
  import opened Numbers
  import opened Records
  import opened Backend
  import NotificationService
  import EmailService

  /** The groups of the settings object. */
  datatype Category = WaterLevelAlerts | WeeklyReports | MaintenanceAlerts | SystemNotifications

  /** The fields the groups hold. */
  datatype Key = Enabled | Threshold | Email | Push | Frequency | Day | Time

  type Settings = map<Category, map<Key, Value>>

  /** `settings[category][key]`, `undefined` when either is absent. */
  function Get(s: Settings, c: Category, k: Key): Value
  {
    if c in s && k in s[c] then s[c][k] else Undefined
  }

  /** The settings the form starts with. */
  function Defaults(): Settings
  {
    map[
      WaterLevelAlerts := map[Enabled := Flag(true), Threshold := Amount(2000), Email := Flag(true),
                              Push := Flag(false), Frequency := Text("immediate")],
      WeeklyReports := map[Enabled := Flag(true), Email := Flag(true), Day := Text("monday"),
                           Time := Text("09:00")],
      MaintenanceAlerts := map[Enabled := Flag(true), Email := Flag(true), Push := Flag(true)],
      SystemNotifications := map[Enabled := Flag(true), Email := Flag(false), Push := Flag(true)]]
  }

  /** `updateSetting(category, key, value)`: a copy of the settings with one field
      replaced (or added, with its group if need be). */
  function Update(s: Settings, c: Category, k: Key, v: Value): Settings
  {
    s[c := (if c in s then s[c] else map[])[k := v]]
  }

  /** An update changes exactly the one field: every other field of every group reads as
      before, and no group disappears. */
  lemma UpdateOnlyThatField(s: Settings, c: Category, k: Key, v: Value, c': Category, k': Key)
    ensures Get(Update(s, c, k, v), c', k') == if c' == c && k' == k then v else Get(s, c', k')
    ensures Update(s, c, k, v).Keys == s.Keys + {c}
    ensures c in s ==> Update(s, c, k, v)[c].Keys == s[c].Keys + {k}
  {
  }

  /** Updating a field twice keeps the last value; updating it to the value it has is no
      change. */
  lemma UpdateLastWins(s: Settings, c: Category, k: Key, v: Value, w: Value)
    ensures Update(Update(s, c, k, v), c, k, w) == Update(s, c, k, w)
    ensures c in s && k in s[c] && s[c][k] == v ==> Update(s, c, k, v) == s
  {
    var base := if c in s then s[c] else map[];
    assert base[k := v][k := w] == base[k := w];
    if c in s && k in s[c] && s[c][k] == v {
      assert s[c][k := v] == s[c];
      assert s[c := s[c]] == s;
    }
  }

  /** The `email_settings` row `handleSave` writes. */
  function RowOf(s: Settings, userId: string, now: int): SettingsRow
  {
    SettingsRow(
      userId,
      Get(s, WaterLevelAlerts, Email),
      Get(s, WeeklyReports, Enabled),
      Get(s, WaterLevelAlerts, Enabled),
      Get(s, MaintenanceAlerts, Enabled),
      Get(s, WeeklyReports, Day),
      Get(s, WeeklyReports, Time),
      Get(s, WaterLevelAlerts, Threshold),
      now)
  }

  /** The settings `loadSettings` builds from a row. */
  function SettingsOf(row: SettingsRow): Settings
  {
    map[
      WaterLevelAlerts := map[Enabled := row.criticalAlerts, Threshold := row.criticalThreshold,
                              Email := row.emailNotifications, Push := Flag(true),
                              Frequency := Text("immediate")],
      WeeklyReports := map[Enabled := row.weeklyReports, Email := row.emailNotifications,
                           Day := row.reportDay, Time := row.reportTime],
      MaintenanceAlerts := map[Enabled := row.maintenanceAlerts, Email := row.emailNotifications,
                               Push := Flag(true)],
      SystemNotifications := map[Enabled := Flag(true), Email := Flag(false), Push := Flag(true)]]
  }

  /** Saving then loading keeps the three `enabled` flags, the threshold, the report day
      and time, and the water-level e-mail flag. */
  lemma SaveLoadKeeps(s: Settings, userId: string, now: int)
    ensures var t := SettingsOf(RowOf(s, userId, now));
            && Get(t, WaterLevelAlerts, Enabled) == Get(s, WaterLevelAlerts, Enabled)
            && Get(t, WeeklyReports, Enabled) == Get(s, WeeklyReports, Enabled)
            && Get(t, MaintenanceAlerts, Enabled) == Get(s, MaintenanceAlerts, Enabled)
            && Get(t, WaterLevelAlerts, Threshold) == Get(s, WaterLevelAlerts, Threshold)
            && Get(t, WeeklyReports, Day) == Get(s, WeeklyReports, Day)
            && Get(t, WeeklyReports, Time) == Get(s, WeeklyReports, Time)
            && Get(t, WaterLevelAlerts, Email) == Get(s, WaterLevelAlerts, Email)
  {
  }

  /** Whatever was edited, a loaded form has one e-mail flag for the three e-mail groups,
      push on for water-level and maintenance alerts, "immediate" frequency, and the fixed
      system group. */
  lemma LoadOverrides(row: SettingsRow)
    ensures var t := SettingsOf(row);
            && Get(t, WeeklyReports, Email) == row.emailNotifications
            && Get(t, MaintenanceAlerts, Email) == row.emailNotifications
            && Get(t, WaterLevelAlerts, Email) == row.emailNotifications
            && Get(t, WaterLevelAlerts, Push) == Flag(true)
            && Get(t, MaintenanceAlerts, Push) == Flag(true)
            && Get(t, WaterLevelAlerts, Frequency) == Text("immediate")
            && t[SystemNotifications] == map[Enabled := Flag(true), Email := Flag(false), Push := Flag(true)]
  {
  }

  /** The round trip loses edits: the starting settings, saved and loaded, come back with
      water-level push notifications turned on. */
  lemma SaveLoadIsLossy(userId: string, now: int)
    ensures SettingsOf(RowOf(Defaults(), userId, now)) != Defaults()
  {
    assert Get(Defaults(), WaterLevelAlerts, Push) == Flag(false);
    assert Get(SettingsOf(RowOf(Defaults(), userId, now)), WaterLevelAlerts, Push) == Flag(true);
  }

  const SavedTitle := "Configurações Atualizadas"
  const SavedMessage := "Suas preferências de notificação foram salvas com sucesso."
  const SavedToast := Toast("Configurações salvas",
                            "Suas preferências de notificação foram atualizadas com sucesso!", false)
  const ErrorToast := Toast("Erro", "Erro ao salvar configurações. Tente novamente.", true)

  /** The signed-in user as the form sees it: id, e-mail and the `full_name` of the user
      metadata. */
  datatype SessionUser = SessionUser(id: string, email: Option<string>, fullName: Option<string>)

  /** `s || ""` on an optional text: absent and empty both give "". */
  function OrEmpty(s: Option<string>): string
  {
    if s.Some? then s.value else ""
  }

  /** The three arguments `sendTestReport` hands the notification service: `user?.id || ""`,
      `user?.email || ""` and `user?.user_metadata?.full_name || user?.email || ""`. */
  function ReportId(user: Option<SessionUser>): string
  {
    if user.Some? then user.value.id else ""
  }

  function ReportEmail(user: Option<SessionUser>): string
  {
    if user.Some? then OrEmpty(user.value.email) else ""
  }

  function ReportName(user: Option<SessionUser>): (r: string)
    ensures user.Some? && OrEmpty(user.value.fullName) != "" ==> r == user.value.fullName.value
    ensures user.None? || OrEmpty(user.value.fullName) == "" ==> r == ReportEmail(user)
  {
    if user.Some? && OrEmpty(user.value.fullName) != "" then user.value.fullName.value
    else ReportEmail(user)
  }

  /** The success toast; the template prints "undefined" where there is no e-mail. */
  function TestSentToast(user: Option<SessionUser>): Toast
  {
    var shown := if user.Some? && user.value.email.Some? then user.value.email.value else "undefined";
    Toast("Relatório de teste enviado", "Um relatório de teste foi enviado para " + shown, false)
  }

  const TestFailedToast := Toast("Erro no envio", "Houve um problema ao enviar o relatório de teste.", true)

  class Form {
    var settings: Settings
    var isLoading: bool
    var isSendingTest: bool
    var toasts: seq<Toast>

    constructor ()
      ensures settings == Defaults() && !isLoading && !isSendingTest && toasts == []
    {
      settings, isLoading, isSendingTest, toasts := Defaults(), false, false, [];
    }

    /** `updateSetting`. */
    method UpdateSetting(c: Category, k: Key, v: Value)
      modifies this`settings
      ensures settings == Update(old(settings), c, k, v)
    {
      settings := Update(settings, c, k, v);
    }

    /** `loadSettings`: the user's row replaces the form's settings; no row ("PGRST116"),
        another error or an exception leaves them as they are. */
    method LoadSettings(store: Store, userId: string, outcome: Outcome)
      modifies this`settings
      ensures settings == if outcome.Answered? && userId in store.emailSettings
                          then SettingsOf(store.emailSettings[userId]) else old(settings)
    {
      if outcome.Answered? && userId in store.emailSettings {
        settings := SettingsOf(store.emailSettings[userId]);
      }
    }

    /** `handleSave`: the upsert; then, only if it reported no error, the confirmation
        notification and the success toast; otherwise the error toast. The insert's own
        failure is swallowed by `createNotification`, so the success toast shows anyway. */
    method HandleSave(store: Store, userId: string, now: int, upsert: Outcome, insert: Outcome)
      requires store.Valid()
      modifies this`isLoading, this`toasts, store`emailSettings, store`notifications, store`nextId
      ensures store.Valid()
      ensures !isLoading
      ensures store.emailSettings == if upsert.Answered?
                                     then old(store.emailSettings)[userId := RowOf(settings, userId, now)]
                                     else old(store.emailSettings)
      ensures store.notifications == old(store.notifications)
              + if upsert.Answered? && insert.Answered? then
                  [Notification(old(store.nextId), userId, SavedTitle, SavedMessage, "success", "system",
                                None, false)]
                else []
      ensures toasts == old(toasts) + [if upsert.Answered? then SavedToast else ErrorToast]
    {
      isLoading := true;
      store.UpsertSettings(RowOf(settings, userId, now), upsert);
      if upsert.Answered? {
        var _ := NotificationService.CreateNotification(store, insert, userId, SavedTitle, SavedMessage,
                                                        "success", "system");
        toasts := toasts + [SavedToast];
      } else {
        toasts := toasts + [ErrorToast];
      }
      isLoading := false;
    }

    /** `sendTestReport`: the weekly report for the signed-in user, through the notification
        service, with the arguments above; then the success toast when the service reports
        the e-mail sent, the failure toast otherwise. The service catches its own
        exceptions and returns false, so the form's own catch (the "Erro" toast) is never
        reached. */
    method SendTestReport(user: Option<SessionUser>, store: Store, mailer: EmailService.Mailer, now: int,
                          sensorsQuery: Outcome, readingsQuery: Outcome, start: string, end: string,
                          dispatch: EmailService.Dispatch, insert: Outcome)
      requires store.Valid()
      modifies this`isSendingTest, this`toasts, store`notifications, store`nextId, mailer
      ensures store.Valid() && !isSendingTest
      ensures var sent := !sensorsQuery.Threw? && !readingsQuery.Threw? && dispatch == EmailService.Delivered;
              toasts == old(toasts) + [if sent then TestSentToast(user) else TestFailedToast]
      ensures sensorsQuery.Threw? || readingsQuery.Threw? ==>
                store.notifications == old(store.notifications) && mailer.sent == old(mailer.sent)
      ensures !sensorsQuery.Threw? && !readingsQuery.Threw? ==>
                var input := NotificationService.WeeklyInputFor(store.sensors, store.readings, ReportId(user),
                                                                now, sensorsQuery, readingsQuery);
                var ok := dispatch == EmailService.Delivered;
                && mailer.sent == old(mailer.sent)
                     + [EmailService.WeeklyEmail(ReportEmail(user), ReportName(user), input, start, end)]
                && store.notifications == old(store.notifications)
                     + (if insert.Answered? then
                          [NotificationService.WeeklyNotice(ReportId(user), ReportEmail(user), ok)
                             .(id := old(store.nextId))]
                        else [])
    {
      isSendingTest := true;
      var success := NotificationService.SendWeeklyReportNotification(
        store, mailer, ReportId(user), ReportEmail(user), ReportName(user), now,
        sensorsQuery, readingsQuery, start, end, dispatch, insert);
      if success {
        toasts := toasts + [TestSentToast(user)];
      } else {
        toasts := toasts + [TestFailedToast];
      }
      isSendingTest := false;
    }
  }
}
