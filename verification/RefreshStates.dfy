/** What a zone maintainer records about the freshness of a secondary zone.  Instants count nanoseconds. */
module RefreshStates {
  import opened Options
  import Serials
  import opened RefreshZone

  type Instant = nat

  function Nanos(ttl: nat): nat {
    ttl * 1_000_000_000
  }

  datatype Cause =
    | ManualTrigger
    | NotifyFromPrimary(source: Addr)
    | SoaRefreshTimer
    | SoaRefreshTimerAfterZoneAdded
    | SoaRetryTimer

  datatype Status =
    | RefreshPending
    | RefreshInProgress(updatesApplied: nat)
    | RetryPending
    | RetryInProgress
    | NotifyInProgress

  datatype Metrics = Metrics(
    zoneCreatedAt: Instant,
    lastRefreshPhaseStartedAt: Option<Instant>,
    lastRefreshAttemptedAt: Option<Instant>,
    lastSoaSerialCheckSucceededAt: Option<Instant>,
    lastSoaSerialCheckSerial: Option<Serials.Serial>,
    lastRefreshedAt: Option<Instant>,
    lastRefreshSucceededSerial: Option<Serials.Serial>)

  /** Stored by value in the maintainer's table, so its setters give the new value. */
  datatype RefreshState = RefreshState(refresh: nat, retry: nat, expire: nat, status: Status, metrics: Metrics)
  {
    function SetStatus(s: Status): RefreshState {
      this.(status := s)
    }

    function RefreshSucceeded(soa: Soa, now: Instant): RefreshState {
      RefreshState(soa.refresh, soa.retry, soa.expire, RefreshPending,
                   metrics.(lastRefreshedAt := Some(now), lastRefreshSucceededSerial := Some(soa.serial)))
    }

    function SoaSerialCheckSucceeded(serial: Option<Serials.Serial>, now: Instant): RefreshState {
      this.(metrics := metrics.(
        lastSoaSerialCheckSucceededAt := Some(now),
        lastSoaSerialCheckSerial := if serial.Some? then serial else metrics.lastSoaSerialCheckSerial))
    }

    /** When the primaries last answered, or the zone was first tracked if they never did. */
    function LastContact(): Instant {
      metrics.lastSoaSerialCheckSucceededAt.UnwrapOr(metrics.zoneCreatedAt)
    }

    predicate IsExpired(now: Instant) {
      now >= LastContact() && now - LastContact() > Nanos(expire)
    }

    /** The start of a refresh. */
    function Started(cause: Cause, now: Instant): RefreshState {
      if cause.SoaRetryTimer? then
        this.(status := RetryInProgress, metrics := metrics.(lastRefreshAttemptedAt := Some(now)))
      else
        this.(status := RefreshInProgress(0),
              metrics := metrics.(lastRefreshAttemptedAt := Some(now), lastRefreshPhaseStartedAt := Some(now)))
    }

    /** A failing refresh expires the zone instead of asking for a retry. */
    predicate ExpiresOnFailure(now: Instant) {
      status == RetryInProgress && IsExpired(now)
    }

    /** After a failing refresh that asks for a retry. */
    function FailedToRetry(): RefreshState {
      if status == RetryInProgress then this else SetStatus(RetryPending)
    }

    /** After a refresh that went well, with or without a new version. */
    function Succeeded(soa: Option<Soa>, now: Instant): RefreshState {
      (if soa.Some? then RefreshSucceeded(soa.value, now) else this).SetStatus(RefreshPending)
    }
  }

  function NewMetrics(now: Instant): Metrics {
    Metrics(now, None, None, None, None, None, None)
  }

  function NewState(soa: Soa, now: Instant): RefreshState {
    RefreshState(soa.refresh, soa.retry, soa.expire, RefreshPending, NewMetrics(now))
  }

  /** For a zone that is still empty: refresh at once, retry every 5 minutes, expire after an hour. */
  function DefaultState(now: Instant): RefreshState {
    RefreshState(0, 5 * 60, 60 * 60, RefreshPending, NewMetrics(now))
  }
}
