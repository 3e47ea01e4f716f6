/**
 * The reminder policy of the notification manager: a reminder is requested
 * two days before a payment, under the identifier `subscription_<id>`, only
 * while notifications are enabled and only when that instant is still ahead.
 *
 * The platform notification centre is represented by the ghost map
 * `pending` from request identifier to reminder instant; adding a request
 * under an identifier already pending replaces it, as the platform does.
 */
module Notifications {
  import opened Wrappers
  import opened Models

  const RequestPrefix: string := "subscription_"

  /** How many days before the payment the reminder fires. */
  const ReminderLeadDays: int := 2

  /** The identifier of the reminder request for the subscription with `id`. */
  function RequestIdentifier(id: Uuid): (key: string)
    ensures |key| == |RequestPrefix| + |id|
    ensures key[..|RequestPrefix|] == RequestPrefix && key[|RequestPrefix|..] == id
  {
    RequestPrefix + id
  }

  /** Distinct subscriptions never share a request identifier. */
  lemma RequestIdentifierInjective(a: Uuid, b: Uuid)
    ensures RequestIdentifier(a) == RequestIdentifier(b) <==> a == b
  {
    if RequestIdentifier(a) == RequestIdentifier(b) {
      assert a == RequestIdentifier(a)[|RequestPrefix|..];
    }
  }

  /** The reminder instant: the payment date moved back by the lead time, when the calendar yields one. */
  function ReminderDate(s: Subscription, cal: Calendar): Option<Date>
  {
    cal(DateComponents(Day, -ReminderLeadDays), s.nextPaymentDate)
  }

  /** Whether `scheduleNotification` gets past both of its guards. */
  predicate WouldSchedule(enabled: bool, s: Subscription, now: Date, cal: Calendar)
  {
    enabled && ReminderDate(s, cal).Some? && ReminderDate(s, cal).value > now
  }

  /** The pending requests after scheduling a reminder for `s`. */
  function Scheduled(pending: map<string, Date>, enabled: bool, s: Subscription, now: Date, cal: Calendar)
    : (r: map<string, Date>)
    ensures r.Keys == pending.Keys + (if WouldSchedule(enabled, s, now, cal) then {RequestIdentifier(s.id)} else {})
    ensures WouldSchedule(enabled, s, now, cal) ==> r[RequestIdentifier(s.id)] == ReminderDate(s, cal).value
    ensures forall k :: k in pending && k != RequestIdentifier(s.id) ==> r[k] == pending[k]
    ensures !WouldSchedule(enabled, s, now, cal) ==> r == pending
  {
    if WouldSchedule(enabled, s, now, cal) then
      pending[RequestIdentifier(s.id) := ReminderDate(s, cal).value]
    else
      pending
  }

  /** The pending requests after scheduling each active subscription of `subs`, in order, from none. */
  function Rescheduled(enabled: bool, subs: seq<Subscription>, now: Date, cal: Calendar)
    : (r: map<string, Date>)
    ensures r.Keys == set s | s in subs && s.isActive && WouldSchedule(enabled, s, now, cal) :: RequestIdentifier(s.id)
    ensures forall k :: k in r ==>
      exists s :: s in subs && s.isActive && WouldSchedule(enabled, s, now, cal)
               && k == RequestIdentifier(s.id) && r[k] == ReminderDate(s, cal).value
  {
    if subs == [] then map[]
    else
      var prefix := subs[..|subs| - 1];
      var last := subs[|subs| - 1];
      var before := Rescheduled(enabled, prefix, now, cal);
      assert subs == prefix + [last];
      if last.isActive then Scheduled(before, enabled, last, now, cal) else before
  }

  /** Rescheduling one more record schedules it after the others, when it is active. */
  lemma RescheduledSnoc(enabled: bool, subs: seq<Subscription>, x: Subscription, now: Date, cal: Calendar)
    ensures Rescheduled(enabled, subs + [x], now, cal)
         == if x.isActive then Scheduled(Rescheduled(enabled, subs, now, cal), enabled, x, now, cal)
            else Rescheduled(enabled, subs, now, cal)
  {
    assert (subs + [x])[..|subs|] == subs;
  }

  /** With notifications disabled no reminder is ever pending after a reschedule. */
  lemma RescheduledDisabledIsEmpty(subs: seq<Subscription>, now: Date, cal: Calendar)
    ensures Rescheduled(false, subs, now, cal) == map[]
  {
    assert Rescheduled(false, subs, now, cal).Keys == {};
  }

  /** A reminder is only ever pending for a payment strictly after now. */
  lemma ScheduledOnlyForFuturePayments(enabled: bool, s: Subscription, now: Date, cal: Calendar)
    requires Advances(cal)
    requires WouldSchedule(enabled, s, now, cal)
    ensures enabled && s.nextPaymentDate > ReminderDate(s, cal).value > now
  {
  }

  class NotificationManager {
    var isNotificationEnabled: bool
    ghost var pending: map<string, Date>

    /** The manager as it stands once its settings are loaded; `initial` is what the platform already holds. */
    constructor (enabled: bool, ghost initial: map<string, Date>)
      ensures isNotificationEnabled == enabled && pending == initial
    {
      isNotificationEnabled := enabled;
      pending := initial;
    }

    method ScheduleNotification(s: Subscription, now: Date, cal: Calendar)
      modifies this`pending
      ensures pending == Scheduled(old(pending), isNotificationEnabled, s, now, cal)
    {
      if !isNotificationEnabled {
        return;
      }
      var notificationDate := cal(DateComponents(Day, -ReminderLeadDays), s.nextPaymentDate);
      if notificationDate.None? || notificationDate.value <= now {
        return;
      }
      var identifier := RequestIdentifier(s.id);
      pending := pending[identifier := notificationDate.value];
    }

    method CancelNotification(s: Subscription)
      modifies this`pending
      ensures pending == old(pending) - {RequestIdentifier(s.id)}
      ensures forall k :: k in old(pending) && k != RequestIdentifier(s.id) ==>
                k in pending && pending[k] == old(pending)[k]
    {
      var identifier := RequestIdentifier(s.id);
      pending := pending - {identifier};
    }

    method CancelAllNotifications()
      modifies this`pending
      ensures pending == map[]
    {
      pending := map[];
    }

    method RescheduleAllNotifications(subs: seq<Subscription>, now: Date, cal: Calendar)
      modifies this`pending
      ensures pending == Rescheduled(isNotificationEnabled, subs, now, cal)
    {
      CancelAllNotifications();
      for i := 0 to |subs|
        invariant pending == Rescheduled(isNotificationEnabled, subs[..i], now, cal)
      {
        assert subs[..i + 1][..i] == subs[..i];
        if subs[i].isActive {
          ScheduleNotification(subs[i], now, cal);
        }
      }
      assert subs[..|subs|] == subs;
    }
  }
}
