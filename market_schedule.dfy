/**
 * Market phases of the Korean (KST) and US (ET) exchanges over half-open intervals of
 * the local day: pre-scan from 30 minutes before the open, open until the close,
 * closed otherwise and all weekend.
 *
 * The conversion of an instant to each exchange's local time is an input: a `LocalTime`
 * is the local weekday (Monday = 0) and the second of the local day. Dropping the
 * fraction of a second changes no comparison, since every bound is a whole minute.
 */
module MarketSchedule {
  import Clock

  datatype Phase = PreScan | Open | Closed

  /** The enum's string value. */
  function PhaseValue(p: Phase): string
  {
    match p
    case PreScan => "pre_scan"
    case Open => "open"
    case Closed => "closed"
  }

  function At(h: nat, m: nat): nat { h * 3600 + m * 60 }

  const KrPreScanStart := At(8, 30)
  const KrOpen := At(9, 0)
  const KrClose := At(15, 30)
  const UsPreScanStart := At(9, 0)
  const UsOpen := At(9, 30)
  const UsClose := At(16, 0)

  datatype LocalTime = LocalTime(weekday: nat, secondOfDay: nat)

  predicate ValidLocal(t: LocalTime)
  {
    t.weekday < 7 && t.secondOfDay < 86400
  }

  /** `_phase`: pre-scan on [pre, open), open on [open, close), closed otherwise. */
  function PhaseAt(t: int, pre: int, open: int, close: int): (p: Phase)
    ensures p == PreScan <==> pre <= t < open
    ensures p == Open <==> !(pre <= t < open) && open <= t < close
  {
    if pre <= t < open then PreScan
    else if open <= t < close then Open
    else Closed
  }

  /** With ordered bounds, the active phases cover exactly [pre, close). */
  lemma PhasesPartition(t: int, pre: int, open: int, close: int)
    requires pre <= open <= close
    ensures PhaseAt(t, pre, open, close) != Closed <==> pre <= t < close
    ensures PhaseAt(t, pre, open, close) == Open <==> open <= t < close
    ensures PhaseAt(close, pre, open, close) == Closed
    ensures t < pre ==> PhaseAt(t, pre, open, close) == Closed
  {
  }

  /** `get_kr_phase` at a KST reading. */
  function KrPhase(kst: LocalTime): Phase
  {
    if kst.weekday >= 5 then Closed else PhaseAt(kst.secondOfDay, KrPreScanStart, KrOpen, KrClose)
  }

  /** `get_us_phase` at an ET reading. */
  function UsPhase(et: LocalTime): Phase
  {
    if et.weekday >= 5 then Closed else PhaseAt(et.secondOfDay, UsPreScanStart, UsOpen, UsClose)
  }

  lemma ScheduleBoundsOrdered()
    ensures KrPreScanStart < KrOpen < KrClose && UsPreScanStart < UsOpen < UsClose
    ensures KrClose - KrOpen == At(6, 30) && UsClose - UsOpen == At(6, 30)
    ensures KrOpen - KrPreScanStart == At(0, 30) && UsOpen - UsPreScanStart == At(0, 30)
  {
  }

  /** The Korean market: pre-scan 08:30-09:00, open 09:00-15:30 on weekdays; 15:30 itself is closed. */
  lemma KrWindows(kst: LocalTime)
    ensures KrPhase(kst) == PreScan <==> kst.weekday < 5 && At(8, 30) <= kst.secondOfDay < At(9, 0)
    ensures KrPhase(kst) == Open <==> kst.weekday < 5 && At(9, 0) <= kst.secondOfDay < At(15, 30)
    ensures kst.weekday >= 5 ==> KrPhase(kst) == Closed
  {
  }

  /** The US market: pre-scan 09:00-09:30, open 09:30-16:00 on weekdays; 16:00 itself is closed. */
  lemma UsWindows(et: LocalTime)
    ensures UsPhase(et) == PreScan <==> et.weekday < 5 && At(9, 0) <= et.secondOfDay < At(9, 30)
    ensures UsPhase(et) == Open <==> et.weekday < 5 && At(9, 30) <= et.secondOfDay < At(16, 0)
    ensures et.weekday >= 5 ==> UsPhase(et) == Closed
  {
  }

  /** `is_any_market_active` for one instant, given its KST and ET readings. */
  function IsAnyMarketActive(kst: LocalTime, et: LocalTime): (active: bool)
    ensures active <==> ((kst.weekday < 5 && KrPreScanStart <= kst.secondOfDay < KrClose)
                      || (et.weekday < 5 && UsPreScanStart <= et.secondOfDay < UsClose))
  {
    KrPhase(kst) != Closed || UsPhase(et) != Closed
  }

  datatype MarketInfo = MarketInfo(phase: string, local_time: string, timezone: string, hours: string)

  datatype MarketStatus = MarketStatus(kr: MarketInfo, us: MarketInfo, any_active: bool)

  /** `get_market_status` for one instant. */
  function GetMarketStatus(kst: LocalTime, et: LocalTime): (s: MarketStatus)
    requires ValidLocal(kst) && ValidLocal(et)
    ensures s.any_active == IsAnyMarketActive(kst, et)
    ensures s.any_active <==> s.kr.phase != "closed" || s.us.phase != "closed"
  {
    MarketStatus(
      MarketInfo(PhaseValue(KrPhase(kst)), Clock.ClockReading(kst.secondOfDay), "KST", "08:30-15:30"),
      MarketInfo(PhaseValue(UsPhase(et)), Clock.ClockReading(et.secondOfDay), "ET", "09:00-16:00"),
      IsAnyMarketActive(kst, et))
  }

  /** A weekend in both time zones closes both markets, whatever the time of day. */
  lemma WeekendInactive(kst: LocalTime, et: LocalTime)
    requires kst.weekday >= 5 && et.weekday >= 5
    ensures !IsAnyMarketActive(kst, et)
    ensures ValidLocal(kst) && ValidLocal(et) ==>
      GetMarketStatus(kst, et).kr.phase == "closed" && GetMarketStatus(kst, et).us.phase == "closed"
  {
  }
}
