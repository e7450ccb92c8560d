/** The playback clock of a room, read against an explicit integer tick
    `now` instead of a wall clock. Only the fields the room touches are kept:
    whether it runs, when it was started, and the elapsed time it stores,
    which is the playback time it last reported. */
module Clocks {

  datatype Clock = Clock(running: bool, startTime: int, elapsedTime: int)

  /** A clock that was never started, and the state `stop` leaves behind. */
  const Idle: Clock := Clock(false, 0, 0)

  /** Playback time of a room: the time since `start` while the clock runs,
      and 0 whenever it does not (never a stale stored value). */
  function PlaybackTime(c: Clock, now: int): (t: int)
    ensures !c.running ==> t == 0
    ensures c.running && c.startTime <= now ==> 0 <= t <= now - c.startTime
  {
    if c.running then now - c.startTime else 0
  }

  /** `start`: a running clock is not restarted, and its playback time is
      reported (a resync); reading it stores that time as the clock's
      elapsed time. A stopped clock is started at `now` with elapsed time 0,
      and 0 is reported. The result is the new clock and the reported time;
      either way the clock runs and stores what was reported. */
  function Start(c: Clock, now: int): (r: (Clock, int))
    ensures c.running ==> r.0.startTime == c.startTime && r.1 == PlaybackTime(c, now)
    ensures !c.running ==> r.0.startTime == now && r.1 == 0
    ensures r.0.running && r.0.elapsedTime == r.1
  {
    if c.running then
      var t := PlaybackTime(c, now);
      (Clock(true, c.startTime, t), t)
    else (Clock(true, now, 0), 0)
  }

  /** `stop`: not running, elapsed time and start time both reset to 0. */
  function Stop(c: Clock): (r: Clock)
    ensures !r.running && r.elapsedTime == 0 && r.startTime == 0
  {
    Idle
  }

  /** Starting twice without a stop in between never restarts the clock:
      the second report is the time since the first start, never below the
      first report when time does not go backwards. */
  lemma StartTwiceResyncs(c: Clock, t1: int, t2: int)
    requires c.running ==> c.startTime <= t1
    requires t1 <= t2
    ensures var (c1, r1) := Start(c, t1);
            var (c2, r2) := Start(c1, t2);
            c2.startTime == c1.startTime && r1 <= r2 && r2 == t2 - c1.startTime && c2.elapsedTime == r2
  {
  }

  /** After `stop` the playback time is 0 whatever the tick. */
  lemma StopThenReadIsZero(c: Clock, now: int)
    ensures PlaybackTime(Stop(c), now) == 0
  {
  }

  /** Playback time never decreases while the clock keeps running. */
  lemma PlaybackTimeMonotone(c: Clock, t1: int, t2: int)
    requires t1 <= t2
    ensures PlaybackTime(c, t1) <= PlaybackTime(c, t2)
  {
  }
}
