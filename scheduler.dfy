/** The market-hours arithmetic of src/scanning/scheduler.ts. The wall clock
    (`new Date()`) is replaced by the hour, minute and second it would
    report, and the exchange lookup of formSchedule by its answer. */
module Scheduler {

  /** IDayTime. */
  datatype DayTime = DayTime(hour: int, minute: int)

  /** IOpenExchangeHours. */
  datatype ExchangeHours = ExchangeHours(exchange: string, open: DayTime, close: DayTime)

  const NyseTradingHours: ExchangeHours := ExchangeHours("NYSE", DayTime(15, 30), DayTime(22, 0))

  /** The placeholder London schedule, open for one minute from 08:00. */
  const LondonTradingHours: ExchangeHours := ExchangeHours("LONDON", DayTime(8, 0), DayTime(8, 1))

  /** A reading of the clock: `getHours()`, `getMinutes()`, `getSeconds()`. */
  predicate IsClock(hour: int, minute: int, second: int)
  {
    0 <= hour < 24 && 0 <= minute < 60 && 0 <= second < 60
  }

  /** formSchedule, given the exchange the symbol trades on. */
  function FormSchedule(stockExchange: string): (r: ExchangeHours)
  {
    if stockExchange == "NYSE" then NyseTradingHours else LondonTradingHours
  }

  /** NYSE hours exactly for the exchange 'NYSE', London hours for any other. */
  lemma {:induction false} FormScheduleCases(stockExchange: string)
    ensures FormSchedule(stockExchange) == NyseTradingHours <==> stockExchange == "NYSE"
    ensures FormSchedule(stockExchange) == LondonTradingHours <==> stockExchange != "NYSE"
  {
    assert NyseTradingHours.exchange[0] != LondonTradingHours.exchange[0];
  }

  /** isMarketOpen at the given hour and minute: at or after the opening time
      and before the closing hour; the closing minute plays no part. */
  predicate IsMarketOpen(exchHours: ExchangeHours, hour: int, minute: int)
  {
    (hour > exchHours.open.hour || (hour == exchHours.open.hour && minute >= exchHours.open.minute)) &&
    hour < exchHours.close.hour
  }

  /** Minutes since midnight. */
  function MinuteOfDay(hour: int, minute: int): int
  {
    hour * 60 + minute
  }

  /** Seconds since midnight. */
  function SecondOfDay(hour: int, minute: int, second: int): int
  {
    hour * 3600 + minute * 60 + second
  }

  /** For a clock reading and a schedule whose opening minute is a clock
      minute, the market is open exactly from the opening time up to, but not
      including, the closing hour; the closing minute is ignored. */
  lemma {:induction false} IsMarketOpenWindow(exchHours: ExchangeHours, hour: int, minute: int)
    requires 0 <= minute < 60 && 0 <= exchHours.open.minute < 60
    ensures IsMarketOpen(exchHours, hour, minute) <==>
            MinuteOfDay(exchHours.open.hour, exchHours.open.minute) <= MinuteOfDay(hour, minute) &&
            MinuteOfDay(hour, minute) < MinuteOfDay(exchHours.close.hour, 0)
  {
  }

  /** NYSE is open exactly from 15:30 up to, but not including, 22:00. */
  lemma {:induction false} NyseHours(hour: int, minute: int)
    requires 0 <= minute < 60
    ensures IsMarketOpen(NyseTradingHours, hour, minute) <==>
            MinuteOfDay(15, 30) <= MinuteOfDay(hour, minute) < MinuteOfDay(22, 0)
  {
    IsMarketOpenWindow(NyseTradingHours, hour, minute);
  }

  /** The London schedule opens and closes in the same hour, so it is never
      open. */
  lemma {:induction false} LondonNeverOpen(hour: int, minute: int)
    ensures !IsMarketOpen(LondonTradingHours, hour, minute)
  {
  }

  /** The delay, in seconds, delayMarketScanning sleeps for: to the next
      five-minute mark while the market is open, and otherwise the distance
      to the opening time plus the offset, by the source's formula. */
  function ScanDelay(exchHours: ExchangeHours, minuteOffset: int, hour: int, minute: int, second: int): (r: int)
    requires IsClock(hour, minute, second)
  {
    var hourDiff := exchHours.open.hour - hour;
    var minuteDiff := exchHours.open.minute - minute;
    if !IsMarketOpen(exchHours, hour, minute) then
      hourDiff * 3600 + minuteDiff * 60 + minuteOffset * 60 - second
    else
      (5 - minute % 5) * 60 - second
  }

  /** While open, the scan waits between one second and five minutes and
      wakes on a five-minute mark. */
  lemma {:induction false} OpenDelay(exchHours: ExchangeHours, minuteOffset: int, hour: int, minute: int, second: int)
    requires IsClock(hour, minute, second)
    requires IsMarketOpen(exchHours, hour, minute)
    ensures 1 <= ScanDelay(exchHours, minuteOffset, hour, minute, second) <= 300
    ensures (SecondOfDay(hour, minute, second) + ScanDelay(exchHours, minuteOffset, hour, minute, second)) % 300 == 0
  {
    var d := ScanDelay(exchHours, minuteOffset, hour, minute, second);
    assert SecondOfDay(hour, minute, second) + d == hour * 3600 + (minute - minute % 5 + 5) * 60;
    assert (minute - minute % 5) == 5 * (minute / 5);
    assert hour * 3600 + (minute - minute % 5 + 5) * 60 == 300 * (12 * hour + minute / 5 + 1);
  }

  /** Before the opening time, with no offset, the delay is exactly the
      number of seconds until the market opens. */
  lemma {:induction false} DelayUntilOpen(exchHours: ExchangeHours, hour: int, minute: int, second: int)
    requires IsClock(hour, minute, second)
    requires MinuteOfDay(hour, minute) < MinuteOfDay(exchHours.open.hour, exchHours.open.minute)
    requires 0 <= exchHours.open.minute < 60
    ensures !IsMarketOpen(exchHours, hour, minute)
    ensures ScanDelay(exchHours, 0, hour, minute, second) ==
            SecondOfDay(exchHours.open.hour, exchHours.open.minute, 0) - SecondOfDay(hour, minute, second)
    ensures ScanDelay(exchHours, 0, hour, minute, second) > 0
  {
  }

  /** After the NYSE close the closed-market formula is negative: the source
      measures the distance to today's opening time, which has passed. */
  lemma {:induction false} NyseDelayAfterClose(minuteOffset: int, hour: int, minute: int, second: int)
    requires IsClock(hour, minute, second)
    requires hour >= 22 && minuteOffset <= 60
    ensures ScanDelay(NyseTradingHours, minuteOffset, hour, minute, second) < 0
  {
  }
}
