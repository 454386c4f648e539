/**
 * What the bot reads from its surroundings while it handles one message: configuration,
 * the clock and the calendar as the JavaScript runtime renders them. Everything here is
 * an input of the model.
 */
module Runtime {
  import Conversation

  /** One of the coming days as `Date` shows it: its UTC ISO date and its local weekday, day and month. */
  datatype CalendarDay = CalendarDay(iso: string, weekday: nat, day: nat, month: nat)

  datatype Env = Env(
    /** `DEFAULT_BARBERSHOP_ID`, the tenant under which every conversation is stored. */
    shop: string,
    /** The reading of the clock used for ids and `updated_at`. */
    now: Conversation.Instant,
    /** The random suffix of a new conversation id. */
    random: string,
    /** UTC ISO dates: today, yesterday, seven days ago and the first of the month. */
    today: string,
    yesterday: string,
    weekAgo: string,
    monthStart: string,
    /** The bounds of the last seven days as timestamps comparable with appointment start times. */
    weekStart: string,
    weekEnd: string,
    /** The local hour of the clock. */
    currentHour: nat,
    /** The ISO date that `new Date(date).toDateString()` equates with today. */
    slotCutoffDate: string,
    /** Today and the days after it. */
    upcoming: seq<CalendarDay>,
    /** Whether `new Date(s)` is a valid date for the runtime. */
    validTimestamp: string -> bool)

  /** The calendar covers a week of real weekdays. */
  predicate ValidEnv(env: Env)
  {
    |env.upcoming| >= 7 && forall i :: 0 <= i < |env.upcoming| ==> env.upcoming[i].weekday < 7
  }
}
