/** The stall meter as an object updated in place. */
module StallMeter {
  import opened Options
  import opened Stalls

  class StallMeter {
    var event: Option<Time>
    var rx: Option<Time>
    var tx: Option<Time>
    var typical: int
    var intervals: int
    var inEpisode: bool
    var pending: Delta

    function View(): Meter
      reads this
    {
      Meter(event, rx, tx, typical, intervals, inEpisode, pending)
    }

    constructor ()
      ensures View() == NEW_METER
    {
      event, rx, tx := None, None, None;
      typical, intervals, inEpisode, pending := 0, 0, false, NOTHING;
    }

    method Observe(at: Time, receive: bool)
      modifies this
      ensures View() == Stalls.Observe(old(View()), at, receive)
    {
      hide Quotient;
      var now := at;
      if event.Some? && now < event.value {
        now := event.value;
      }
      var gap := Since(now, rx);
      Count(now);
      if receive {
        LearnGap(gap);
        rx, inEpisode := Some(now), false;
      } else {
        tx := Some(now);
      }
      event := Some(now);
    }

    /** The first half of an observation: a lapse clears the meter, otherwise time is charged. */
    method Count(now: Time)
      modifies `rx, `typical, `intervals, `inEpisode, `pending
      ensures View() == Counted(old(View()), now)
    {
      var threshold := 4 * typical;
      if threshold < LEAST_STALL {
        threshold := LEAST_STALL;
      }
      var limit := threshold;
      if intervals < 8 {
        limit := SECOND;
      }
      var continuous := tx.Some? && now - tx.value <= limit;
      if !continuous {
        rx, typical, intervals, inEpisode := None, 0, 0, false;
      } else if intervals >= 8 && rx.Some? {
        var active := pending.active + Since(now, event);
        if Since(now, rx) > threshold && tx.value > rx.value {
          var events := pending.events;
          if !inEpisode {
            events := events + 1;
            inEpisode := true;
          }
          var start := rx.value + threshold;
          if event.Some? && start < event.value {
            start := event.value;
          }
          pending := Delta(active, pending.excess + (now - start), events);
        } else {
          pending := pending.(active := active);
        }
      }
    }

    /** A receive teaches the usual gap, unless it ends an episode. */
    method LearnGap(gap: int)
      modifies `typical, `intervals
      ensures View() == Learn(old(View()), gap)
    {
      if intervals < 8 && gap > LONGEST_GAP {
        intervals, typical := 0, 0;
      }
      if rx.Some? && 0 < gap <= LONGEST_GAP && !inEpisode {
        if intervals == 0 {
          typical := gap;
        } else {
          typical := typical + Quotient(gap - typical, 8);
        }
        if intervals < 8 {
          intervals := intervals + 1;
        }
      }
    }
  }
}
