/**
 * Local-reminder reconciliation.
 *
 * The device keeps a store of pending notification requests keyed by
 * identifier; adding a request under an identifier that is already pending
 * replaces it. `NotificationManager` turns the user's notification
 * preferences, the configured reserve time of day and the current
 * reservation into a fixed sequence of add and remove commands on that store.
 */
module Notifications {
  import opened Clock
  import opened SeatModel

  /** The six fixed request identifiers. */
  datatype Identifier = Reserve | Upcoming | End | AwayStart | AwayEnd | Late {
    function Name(): string {
      match this
      case Reserve => "com.westonwu.ios.SeatReservation.notification.seat.reserve"
      case Upcoming => "com.westonwu.ios.SeatReservation.notification.seat.upcoming"
      case End => "com.westonwu.ios.SeatReservation.notification.seat.end"
      case AwayStart => "com.westonwu.ios.SeatReservation.notification.seat.awayStart"
      case AwayEnd => "com.westonwu.ios.SeatReservation.notification.seat.awayEnd"
      case Late => "com.westonwu.ios.SeatReservation.notification.seat.late"
    }
  }

  /** The identifiers that belong to a particular reservation. */
  const SeatIdentifiers: set<Identifier> := {Upcoming, End, AwayEnd, AwayStart}

  /** What a calendar trigger matches: a time of day every day, or one (day, hour, minute). */
  datatype DateMatch =
    | Daily(hour: int, minute: int)
    | OnDay(components: Components)

  /** The request payload; titles, badges, sounds and categories are left opaque. */
  datatype Content =
    | ReserveReminder
    | UpcomingReminder(reservation: SeatReservation, body: string)
    | CompleteReminder(reservation: SeatReservation)
    | ExpireReminder(reservation: SeatReservation)

  datatype Alert = Alert(trigger: DateMatch, repeats: bool, content: Content)

  datatype SeatNotificationSettings = SeatNotificationSettings(make: bool, upcoming: bool, end: bool, tempAway: bool)

  datatype NotificationSettings = NotificationSettings(enable: bool, seat: SeatNotificationSettings)

  /** The upcoming reminder fires this many minutes before the reservation starts. */
  const UpcomingLead: int := 10

  /** The away-expiry reminder fires this many minutes before the allowed away time runs out. */
  const ExpiryLead: int := 10

  /** The hours of the day in which a user may stay away from the seat 60 minutes instead of 30. */
  predicate IsPeakHour(hour: int) {
    hour == 11 || hour == 12 || hour == 17 || hour == 18
  }

  /** How long a user may be away from the seat when they left in the given hour. */
  function AllowedAway(hour: int): int {
    if IsPeakHour(hour) then 60 else 30
  }

  /** Minutes from leaving the seat until the away-expiry reminder. */
  function AwayBudget(hour: int): (budget: int)
    ensures budget == AllowedAway(hour) - ExpiryLead
    ensures budget == 50 || budget == 20
  {
    match hour
    case 11 => 50
    case 12 => 50
    case 17 => 50
    case 18 => 50
    case _ => 20
  }

  /** The body of the upcoming reminder: the location, then the advisory message on its own line. */
  function UpcomingBody(r: SeatReservation): string {
    match r.message
    case Some(m) => r.rawLocation + "\n" + m
    case None => r.rawLocation
  }

  function ReserveAlert(reserveTime: TimeOfDay): Alert {
    Alert(Daily(reserveTime.hour, reserveTime.minute), true, ReserveReminder)
  }

  function UpcomingAlert(r: SeatReservation): Alert {
    Alert(OnDay(ComponentsOf(r.start - UpcomingLead)), false, UpcomingReminder(r, UpcomingBody(r)))
  }

  function EndAlert(r: SeatReservation): Alert {
    Alert(OnDay(ComponentsOf(r.end)), false, CompleteReminder(r))
  }

  function AwayEndAlert(r: SeatReservation, leftDate: Instant): Alert {
    Alert(OnDay(ComponentsOf(leftDate + AwayBudget(HourOf(leftDate)))), false, ExpireReminder(r))
  }

  /** True when the away-expiry reminder applies: the user is away and the leaving time is known. */
  predicate AwayTracked(r: SeatReservation) {
    r.currentState.TempAway? && r.awayStart.Some?
  }

  // The pending store after each step, as pure functions of the store before it.

  function ReserveStep(p: map<Identifier, Alert>, make: bool, reserveTime: TimeOfDay): map<Identifier, Alert> {
    if make then p[Reserve := ReserveAlert(reserveTime)] else p - {Reserve}
  }

  function UpcomingStep(p: map<Identifier, Alert>, seat: SeatNotificationSettings, r: SeatReservation): map<Identifier, Alert> {
    if seat.upcoming && !r.isStarted then p[Upcoming := UpcomingAlert(r)]
    else if !seat.upcoming then p - {Upcoming}
    else p
  }

  function EndStep(p: map<Identifier, Alert>, seat: SeatNotificationSettings, r: SeatReservation): map<Identifier, Alert> {
    if seat.end then p[End := EndAlert(r)] else p - {End}
  }

  function AwayStep(p: map<Identifier, Alert>, seat: SeatNotificationSettings, r: SeatReservation): map<Identifier, Alert> {
    if seat.tempAway && AwayTracked(r) then p[AwayEnd := AwayEndAlert(r, r.awayStart.value)]
    else if !seat.tempAway then p - {AwayStart, AwayEnd}
    else p - {AwayEnd}
  }

  /** The store after `schedule(reservation:)`. */
  function Scheduled(p: map<Identifier, Alert>, seat: SeatNotificationSettings, r: Option<SeatReservation>): (q: map<Identifier, Alert>)
    ensures forall id | id !in SeatIdentifiers :: (id in q <==> id in p) && (id in p ==> q[id] == p[id])
    ensures r.None? ==> forall id | id in SeatIdentifiers :: id !in q
  {
    match r
    case None => p - SeatIdentifiers
    case Some(res) => AwayStep(EndStep(UpcomingStep(p, seat, res), seat, res), seat, res)
  }

  /** The store after `updateSeatNotification()`. */
  function SeatUpdated(p: map<Identifier, Alert>, settings: NotificationSettings, reserveTime: TimeOfDay, r: Option<SeatReservation>): (q: map<Identifier, Alert>)
    ensures Reserve in q <==> settings.seat.make
    ensures settings.seat.make ==> q[Reserve] == ReserveAlert(reserveTime)
    ensures Late in q <==> Late in p
    ensures Late in p ==> q[Late] == p[Late]
  {
    Scheduled(ReserveStep(p, settings.seat.make, reserveTime), settings.seat, r)
  }

  /** The store after `updateNotificationSettings(notification:)`. */
  function SettingsApplied(p: map<Identifier, Alert>, settings: NotificationSettings, reserveTime: TimeOfDay, r: Option<SeatReservation>): (q: map<Identifier, Alert>)
    ensures !settings.enable ==> |q| == 0
    ensures settings.enable ==> (Late in q <==> Late in p) && (Reserve in q <==> settings.seat.make)
  {
    if !settings.enable then map[] else SeatUpdated(p, settings, reserveTime, r)
  }

  /**
   * The manager together with the state it works on: `pending` is the
   * device's pending-request store, and `settings` and `reserveTime` are the
   * app-wide preference and configuration values it reads (written only by
   * the settings screens, never by this core).
   */
  class NotificationManager {
    var pending: map<Identifier, Alert>
    var settings: NotificationSettings
    var reserveTime: TimeOfDay

    constructor (pending: map<Identifier, Alert>, settings: NotificationSettings, reserveTime: TimeOfDay)
      ensures this.pending == pending && this.settings == settings && this.reserveTime == reserveTime
    {
      this.pending := pending;
      this.settings := settings;
      this.reserveTime := reserveTime;
    }

    /** `add(_:)`: a request under a pending identifier replaces the old one. */
    method Add(id: Identifier, alert: Alert)
      modifies this`pending
      ensures pending == old(pending)[id := alert]
    {
      pending := pending[id := alert];
    }

    /** `removePendingNotificationRequests(withIdentifiers:)`. */
    method Remove(ids: set<Identifier>)
      modifies this`pending
      ensures pending == old(pending) - ids
    {
      pending := pending - ids;
    }

    /** Reacts to a change of the notification preferences. */
    method UpdateNotificationSettings(current: Option<SeatReservation>)
      modifies this`pending
      ensures pending == SettingsApplied(old(pending), settings, reserveTime, current)
    {
      if !settings.enable {
        RemoveAllNotifications();
        return;
      }
      UpdateSeatNotification(current);
    }

    method RemoveAllNotifications()
      modifies this`pending
      ensures pending == map[]
    {
      pending := map[];
    }

    /** Re-derives the reserve reminder and every reminder of the current reservation. */
    method UpdateSeatNotification(current: Option<SeatReservation>)
      modifies this`pending
      ensures pending == SeatUpdated(old(pending), settings, reserveTime, current)
    {
      if settings.seat.make {
        Add(Reserve, ReserveAlert(reserveTime));
      } else {
        Remove({Reserve});
      }
      if current.None? {
        RemoveAllSeatNotifications();
        return;
      }
      Schedule(current);
    }

    /** Re-derives the reminders of one reservation, or clears them when there is none. */
    method Schedule(reservation: Option<SeatReservation>)
      modifies this`pending
      ensures pending == Scheduled(old(pending), settings.seat, reservation)
    {
      if reservation.None? {
        RemoveAllSeatNotifications();
        return;
      }
      var r := reservation.value;
      var seat := settings.seat;
      if seat.upcoming && !r.isStarted {
        Add(Upcoming, UpcomingAlert(r));
      } else if !seat.upcoming {
        Remove({Upcoming});
      }

      if seat.end {
        Add(End, EndAlert(r));
      } else {
        Remove({End});
      }

      if seat.tempAway && r.currentState.TempAway? && r.awayStart.Some? {
        var leftDate := r.awayStart.value;
        var hour := HourOf(leftDate);
        var awayTime := 30 - 10;
        if hour == 11 || hour == 12 || hour == 17 || hour == 18 {
          awayTime := 60 - 10;
        }
        Add(AwayEnd, Alert(OnDay(ComponentsOf(leftDate + awayTime)), false, ExpireReminder(r)));
      } else if !seat.tempAway {
        Remove({AwayStart, AwayEnd});
      } else {
        Remove({AwayEnd});
      }
    }

    method RemoveAllSeatNotifications()
      modifies this`pending
      ensures pending == old(pending) - SeatIdentifiers
    {
      Remove({Upcoming, End, AwayEnd, AwayStart});
    }
  }

  // ---------------------------------------------------------------------
  // Properties of the reconciliation.

  /** The six identifier strings are pairwise distinct, so keying by `Identifier` is keying by string. */
  lemma IdentifierNamesDistinct(a: Identifier, b: Identifier)
    ensures a.Name() == b.Name() <==> a == b
  {
  }

  /** With notifications disabled nothing stays pending, not even the reserve reminder or a stale `late` request. */
  lemma DisabledClearsEverything(p: map<Identifier, Alert>, settings: NotificationSettings, reserveTime: TimeOfDay, r: Option<SeatReservation>)
    requires !settings.enable
    ensures forall id: Identifier :: id !in SettingsApplied(p, settings, reserveTime, r)
  {
  }

  /** The reserve reminder is pending, repeating daily at the reserve time, exactly when `seat.make` is on. */
  lemma ReserveReminderFollowsPreference(p: map<Identifier, Alert>, settings: NotificationSettings, reserveTime: TimeOfDay, r: Option<SeatReservation>)
    requires settings.enable
    ensures var q := SeatUpdated(p, settings, reserveTime, r);
      && (Reserve in q <==> settings.seat.make)
      && (settings.seat.make ==> q[Reserve].trigger == Daily(reserveTime.hour, reserveTime.minute) && q[Reserve].repeats)
    ensures SettingsApplied(p, settings, reserveTime, r) == SeatUpdated(p, settings, reserveTime, r)
  {
  }

  /** With no reservation, every reservation reminder is removed and nothing else is touched. */
  lemma NoReservationClearsSeatReminders(p: map<Identifier, Alert>, seat: SeatNotificationSettings)
    ensures var q := Scheduled(p, seat, None);
      && q.Keys == p.Keys - {Upcoming, End, AwayStart, AwayEnd}
      && forall id :: id in q ==> q[id] == p[id]
  {
  }

  /** `schedule(reservation:)` never adds, removes or replaces the reserve or the `late` request. */
  lemma ScheduleKeepsReserveAndLate(p: map<Identifier, Alert>, seat: SeatNotificationSettings, r: Option<SeatReservation>, id: Identifier)
    requires id == Reserve || id == Late
    ensures id in Scheduled(p, seat, r) <==> id in p
    ensures id in p ==> Scheduled(p, seat, r)[id] == p[id]
  {
  }

  /** The three cases of the upcoming reminder. */
  lemma UpcomingReminderCases(p: map<Identifier, Alert>, seat: SeatNotificationSettings, r: SeatReservation)
    ensures var q := Scheduled(p, seat, Some(r));
      && (seat.upcoming && !r.isStarted ==>
            Upcoming in q && !q[Upcoming].repeats && q[Upcoming].trigger == OnDay(ComponentsOf(r.start - 10))
            && q[Upcoming].content == UpcomingReminder(r, UpcomingBody(r)))
      && (!seat.upcoming ==> Upcoming !in q)
      && (seat.upcoming && r.isStarted ==> (Upcoming in q <==> Upcoming in p) && (Upcoming in p ==> q[Upcoming] == p[Upcoming]))
  {
  }

  /** A scheduled upcoming reminder fires at the instant ten minutes before the start. */
  lemma UpcomingFiresTenMinutesEarly(r: SeatReservation)
    ensures UpcomingAlert(r).trigger.OnDay?
    ensures InstantOf(UpcomingAlert(r).trigger.components) == r.start - 10
  {
  }

  /** The end reminder is pending at the end instant exactly when `seat.end` is on. */
  lemma EndReminderCases(p: map<Identifier, Alert>, seat: SeatNotificationSettings, r: SeatReservation)
    ensures var q := Scheduled(p, seat, Some(r));
      && (End in q <==> seat.end)
      && (seat.end ==> !q[End].repeats && q[End].trigger.OnDay? && InstantOf(q[End].trigger.components) == r.end)
  {
  }

  /** The away-expiry reminder fires 50 minutes after leaving in a peak hour and 20 minutes otherwise. */
  lemma AwayReminderFireTime(r: SeatReservation, leftDate: Instant)
    ensures AwayEndAlert(r, leftDate).trigger.OnDay?
    ensures InstantOf(AwayEndAlert(r, leftDate).trigger.components)
      == leftDate + (if HourOf(leftDate) in {11, 12, 17, 18} then 50 else 20)
  {
  }

  /** The three cases of the away-expiry reminder, and the unused away-start identifier. */
  lemma AwayReminderCases(p: map<Identifier, Alert>, seat: SeatNotificationSettings, r: SeatReservation)
    ensures var q := Scheduled(p, seat, Some(r));
      && (seat.tempAway && AwayTracked(r) ==>
            AwayEnd in q && q[AwayEnd] == AwayEndAlert(r, r.awayStart.value) && !q[AwayEnd].repeats)
      && (!seat.tempAway ==> AwayEnd !in q && AwayStart !in q)
      && (seat.tempAway && !AwayTracked(r) ==> AwayEnd !in q)
      && (seat.tempAway ==> (AwayStart in q <==> AwayStart in p) && (AwayStart in p ==> q[AwayStart] == p[AwayStart]))
  {
  }

  /** Because every alert has a fixed identifier, scheduling twice leaves the store as scheduling once. */
  lemma ScheduleIdempotent(p: map<Identifier, Alert>, seat: SeatNotificationSettings, r: Option<SeatReservation>)
    ensures Scheduled(Scheduled(p, seat, r), seat, r) == Scheduled(p, seat, r)
  {
  }

  /** Reconciling twice with unchanged preferences, configuration and reservation changes nothing more. */
  lemma SettingsAppliedIdempotent(p: map<Identifier, Alert>, settings: NotificationSettings, reserveTime: TimeOfDay, r: Option<SeatReservation>)
    ensures var q := SettingsApplied(p, settings, reserveTime, r);
      SettingsApplied(q, settings, reserveTime, r) == q
  {
    if settings.enable {
      var before := ReserveStep(p, settings.seat.make, reserveTime);
      var q := Scheduled(before, settings.seat, r);
      assert ReserveStep(q, settings.seat.make, reserveTime) == q;
      ScheduleIdempotent(before, settings.seat, r);
    }
  }

  /**
   * `schedule(reservation:)` reads only the seat preferences, never `enable`:
   * after notifications were switched off and cleared, a new reservation
   * still gets its end reminder.
   */
  lemma ScheduleIgnoresGlobalSwitch(p: map<Identifier, Alert>, settings: NotificationSettings, reserveTime: TimeOfDay,
                                    r0: Option<SeatReservation>, r: SeatReservation)
    requires !settings.enable && settings.seat.end
    ensures |SettingsApplied(p, settings, reserveTime, r0)| == 0
    ensures End in Scheduled(SettingsApplied(p, settings, reserveTime, r0), settings.seat, Some(r))
  {
  }

  /**
   * A reservation on day `d` from 09:50 to 11:50, in the normal state, with
   * every seat preference on: the upcoming reminder is due at 09:40, the
   * end reminder at 11:50, and no away-expiry reminder is pending.
   */
  lemma ScenarioNormalReservation(p: map<Identifier, Alert>, d: int, r: SeatReservation)
    requires r.start == d * MinutesPerDay + 9 * 60 + 50 && r.end == d * MinutesPerDay + 11 * 60 + 50
    requires r.currentState == Normal && !r.isStarted
    ensures var q := Scheduled(p, SeatNotificationSettings(true, true, true, true), Some(r));
      && q[Upcoming].trigger == OnDay(Components(d, 9, 40))
      && q[End].trigger == OnDay(Components(d, 11, 50))
      && AwayEnd !in q
  {
    ComponentsRoundTrip(Components(d, 9, 40));
    ComponentsRoundTrip(Components(d, 11, 50));
  }

  /** The same reservation, away since 10:00 (not a peak hour): the away-expiry reminder is due at 10:20. */
  lemma ScenarioAwayOffPeak(p: map<Identifier, Alert>, d: int, r: SeatReservation)
    requires r.currentState.TempAway? && r.awayStart == Some(d * MinutesPerDay + 10 * 60)
    ensures var q := Scheduled(p, SeatNotificationSettings(true, true, true, true), Some(r));
      q[AwayEnd].trigger == OnDay(Components(d, 10, 20))
  {
    ComponentsRoundTrip(Components(d, 10, 0));
    ComponentsRoundTrip(Components(d, 10, 20));
  }
}
