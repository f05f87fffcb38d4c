/** The hosted database as the dashboard sees it: an in-memory copy of the tables it writes
    (`notifications`, `email_settings`) and reads (`sensors`, `readings`). Whether a call
    answers, returns an error or throws is not decided here: every operation takes the
    `Outcome` as a parameter, and a table changes only when the call answered. Row-level
    security is not modelled: a query sees every row that matches its filters. */
module Backend {
  import opened Wrappers
  import opened Numbers
  import opened Records
  import opened Sequences

  /** A row of table `email_settings`. Each field holds whatever value the dashboard put in
      the settings object it was copied from (see module NotificationSettings). */
  datatype Value = Flag(b: bool) | Amount(x: Milli) | Text(s: string) | Undefined

  datatype SettingsRow = SettingsRow(
    userId: string,
    emailNotifications: Value,
    weeklyReports: Value,
    criticalAlerts: Value,
    maintenanceAlerts: Value,
    reportDay: Value,
    reportTime: Value,
    criticalThreshold: Value,
    updatedAt: int)

  /** `notifications` after `update({ read: true })` on the rows `pick` selects. */
  function SetRead(ns: seq<Notification>, pick: Notification -> bool): (r: seq<Notification>)
    ensures |r| == |ns|
    ensures forall i :: 0 <= i < |ns| ==>
      r[i] == if pick(ns[i]) then ns[i].(read := true) else ns[i]
  {
    seq(|ns|, i requires 0 <= i < |ns| => if pick(ns[i]) then ns[i].(read := true) else ns[i])
  }

  /** Marking only the unread rows (`.eq("read", false)`) leaves the same table as marking
      every row. */
  lemma SetReadUnreadIsAll(ns: seq<Notification>)
    ensures SetRead(ns, Unread) == SetRead(ns, AnyRow)
  {
    var a, b := SetRead(ns, Unread), SetRead(ns, AnyRow);
    forall i | 0 <= i < |ns| ensures a[i] == b[i] {
      if ns[i].read {
        assert ns[i].(read := true) == ns[i];
      }
    }
  }

  predicate Unread(n: Notification) { !n.read }

  predicate AnyRow(n: Notification) { true }

  /** `notifications` after `delete().eq("id", id)`. */
  function WithoutId(ns: seq<Notification>, id: nat): seq<Notification>
  {
    Filter(ns, (n: Notification) => n.id != id)
  }

  class Store {
    var notifications: seq<Notification>
    var nextId: nat
    var emailSettings: map<string, SettingsRow>
    var sensors: seq<Sensor>
    var readings: seq<Reading>

    /** Every notification id was handed out before `nextId`. */
    ghost predicate Valid()
      reads this
    {
      forall i :: 0 <= i < |notifications| ==> notifications[i].id < nextId
    }

    constructor (sensors: seq<Sensor>, readings: seq<Reading>)
      ensures Valid()
      ensures this.sensors == sensors && this.readings == readings
      ensures notifications == [] && emailSettings == map[]
    {
      this.sensors, this.readings := sensors, readings;
      notifications, nextId, emailSettings := [], 0, map[];
    }

    /** `insert` into `notifications`; the row gets a fresh id and `read: false`. */
    method InsertNotification(
      userId: string, title: string, message: string, kind: string, category: string,
      actionUrl: Option<string>, outcome: Outcome)
      requires Valid()
      modifies this`notifications, this`nextId
      ensures Valid()
      ensures notifications == old(notifications) + (if outcome.Answered? then
        [Notification(old(nextId), userId, title, message, kind, category, actionUrl, false)]
        else [])
    {
      if outcome.Answered? {
        notifications := notifications
          + [Notification(nextId, userId, title, message, kind, category, actionUrl, false)];
        nextId := nextId + 1;
      }
    }

    /** `update({ read: true })` on the rows `pick` selects. */
    method UpdateRead(pick: Notification -> bool, outcome: Outcome)
      requires Valid()
      modifies this`notifications
      ensures Valid()
      ensures notifications == if outcome.Answered? then SetRead(old(notifications), pick)
                               else old(notifications)
    {
      if outcome.Answered? {
        notifications := SetRead(notifications, pick);
      }
    }

    /** `delete().eq("id", id)`. */
    method DeleteNotification(id: nat, outcome: Outcome)
      requires Valid()
      modifies this`notifications
      ensures Valid()
      ensures notifications == if outcome.Answered? then WithoutId(old(notifications), id)
                               else old(notifications)
    {
      if outcome.Answered? {
        var kept := WithoutId(notifications, id);
        forall i | 0 <= i < |kept| ensures kept[i].id < nextId {
          FilterMembers(notifications, (n: Notification) => n.id != id, kept[i]);
          var j :| 0 <= j < |notifications| && notifications[j] == kept[i];
        }
        notifications := kept;
      }
    }

    /** `upsert(row, { onConflict: "user_id" })` into `email_settings`. */
    method UpsertSettings(row: SettingsRow, outcome: Outcome)
      modifies this`emailSettings
      ensures emailSettings == if outcome.Answered? then old(emailSettings)[row.userId := row]
                               else old(emailSettings)
    {
      if outcome.Answered? {
        emailSettings := emailSettings[row.userId := row];
      }
    }
  }
}
