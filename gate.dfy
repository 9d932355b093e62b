/** The fetch gate both plugins run on every timer tick: a request goes out
    at most once per 15 seconds, and it asks for a full report only on a
    quarter-hour minute and at least 60 seconds after the previous full one.

    Time is a whole number of seconds; the minute of the hour is given beside
    it. None of this needs the clock to only move forward. */
module FetchGate {

  /** Minimum number of seconds between two requests. */
  const PollFloor: int := 15
  /** Minimum number of seconds between two full requests. */
  const FullInterval: int := 60
  /** Full requests are sent only on minutes divisible by this. */
  const FullPeriodMinutes: int := 15

  type Minute = m: int | 0 <= m < 60

  /** The two timestamps the plugin keeps. */
  datatype Clock = Clock(lastSent: int, lastFullSent: int)

  /** What one tick decides. */
  datatype Request = NoRequest | Send(full: bool)

  /** One timer tick: the time it reads, the minute of that time, and whether
      both the URL and the site key were configured at that moment. */
  datatype Tick = Tick(now: int, minute: Minute, configured: bool)

  datatype Gate = Gate(clock: Clock, request: Request)

  /** The decision of one tick and the timestamps it leaves behind. */
  function Step(c: Clock, t: Tick): Gate
  {
    if !t.configured || t.now - c.lastSent < PollFloor then Gate(c, NoRequest)
    else
      var full := t.minute % FullPeriodMinutes == 0 && t.now - c.lastFullSent >= FullInterval;
      Gate(Clock(t.now, if full then t.now else c.lastFullSent), Send(full))
  }

  /** A request that went out: when, on which minute, and whether full. */
  datatype Sent = Sent(at: int, minute: Minute, full: bool)

  datatype Trace = Trace(clock: Clock, sent: seq<Sent>)

  /** The requests a sequence of ticks sends, in order, and the final clock. */
  function Run(c: Clock, ticks: seq<Tick>): Trace
    decreases |ticks|
  {
    if ticks == [] then Trace(c, [])
    else
      var g := Step(c, ticks[0]);
      var rest := Run(g.clock, ticks[1..]);
      var now := if g.request.Send? then [Sent(ticks[0].now, ticks[0].minute, g.request.full)] else [];
      Trace(rest.clock, now + rest.sent)
  }

  function Times(sent: seq<Sent>): seq<int>
    decreases |sent|
  {
    if sent == [] then [] else [sent[0].at] + Times(sent[1..])
  }

  function FullTimes(sent: seq<Sent>): seq<int>
    decreases |sent|
  {
    if sent == [] then []
    else (if sent[0].full then [sent[0].at] else []) + FullTimes(sent[1..])
  }

  /** Each time is at least `gap` after the one before it, the first at least
      `gap` after `start`. */
  predicate Spaced(start: int, times: seq<int>, gap: int)
  {
    forall i :: 0 <= i < |times| ==> times[i] - (if i == 0 then start else times[i - 1]) >= gap
  }

  lemma SpacedCons(start: int, x: int, times: seq<int>, gap: int)
    requires x - start >= gap && Spaced(x, times, gap)
    ensures Spaced(start, [x] + times, gap)
  {
    var all := [x] + times;
    forall i | 0 <= i < |all|
      ensures all[i] - (if i == 0 then start else all[i - 1]) >= gap
    {
      if i > 0 {
        assert all[i] == times[i - 1];
        assert times[i - 1] - (if i - 1 == 0 then x else times[i - 2]) >= gap;
        assert i - 1 == 0 || all[i - 1] == times[i - 2];
      }
    }
  }

  /** Two requests are always at least 15 seconds apart, and the first one at
      least 15 seconds after `lastSent`; a tick sends at most one request. */
  lemma {:induction false} RequestsSpaced(c: Clock, ticks: seq<Tick>)
    ensures Spaced(c.lastSent, Times(Run(c, ticks).sent), PollFloor)
    ensures |Run(c, ticks).sent| <= |ticks|
    decreases |ticks|
  {
    if ticks != [] {
      var g := Step(c, ticks[0]);
      var rest := Run(g.clock, ticks[1..]);
      RequestsSpaced(g.clock, ticks[1..]);
      if g.request.Send? {
        var s := Sent(ticks[0].now, ticks[0].minute, g.request.full);
        assert Run(c, ticks).sent == [s] + rest.sent;
        assert ([s] + rest.sent)[1..] == rest.sent;
        SpacedCons(c.lastSent, ticks[0].now, Times(rest.sent), PollFloor);
      } else {
        assert Run(c, ticks).sent == rest.sent;
      }
    }
  }

  /** Two full requests are always at least 60 seconds apart, and the first
      one at least 60 seconds after `lastFullSent`. */
  lemma {:induction false} FullRequestsSpaced(c: Clock, ticks: seq<Tick>)
    ensures Spaced(c.lastFullSent, FullTimes(Run(c, ticks).sent), FullInterval)
    decreases |ticks|
  {
    if ticks != [] {
      var g := Step(c, ticks[0]);
      var rest := Run(g.clock, ticks[1..]);
      FullRequestsSpaced(g.clock, ticks[1..]);
      if g.request.Send? {
        var s := Sent(ticks[0].now, ticks[0].minute, g.request.full);
        assert Run(c, ticks).sent == [s] + rest.sent;
        assert ([s] + rest.sent)[1..] == rest.sent;
        if s.full {
          assert FullTimes([s] + rest.sent) == [s.at] + FullTimes(rest.sent);
          SpacedCons(c.lastFullSent, ticks[0].now, FullTimes(rest.sent), FullInterval);
        } else {
          assert FullTimes([s] + rest.sent) == FullTimes(rest.sent);
        }
      } else {
        assert Run(c, ticks).sent == rest.sent;
      }
    }
  }

  /** Every full request goes out on a minute divisible by 15. */
  lemma {:induction false} FullOnQuarterHour(c: Clock, ticks: seq<Tick>)
    ensures forall s :: s in Run(c, ticks).sent && s.full ==> s.minute % FullPeriodMinutes == 0
    decreases |ticks|
  {
    if ticks != [] {
      FullOnQuarterHour(Step(c, ticks[0]).clock, ticks[1..]);
    }
  }

  /** While the plugin is not configured no tick sends anything, and the
      timestamps do not move. */
  lemma {:induction false} UnconfiguredSilent(c: Clock, ticks: seq<Tick>)
    requires forall i :: 0 <= i < |ticks| ==> !ticks[i].configured
    ensures Run(c, ticks) == Trace(c, [])
    decreases |ticks|
  {
    if ticks != [] {
      UnconfiguredSilent(c, ticks[1..]);
    }
  }
}
