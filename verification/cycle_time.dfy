/** Haul cycle time over the mine profile.

    The haul road has three segments (horizontal, uphill, downhill), each with
    a fixed loaded and empty speed. Every segment is charged a full loaded pass
    and a full empty pass over its own distance, and the cycle is the sum of
    the three segment times, in minutes. */
module CycleTime {

  datatype Segment = Horizontal | Uphill | Downhill

  /** Loaded speed on a segment, in km/h. */
  function LoadedSpeed(s: Segment): (v: real)
    ensures v > 0.0
  {
    match s
    case Horizontal => 25.0
    case Uphill => 20.0
    case Downhill => 15.0
  }

  /** Empty speed on a segment, in km/h. */
  function EmptySpeed(s: Segment): (v: real)
    ensures v > 0.0
  {
    match s
    case Horizontal => 30.0
    case Uphill => 25.0
    case Downhill => 30.0
  }

  /** Minutes charged per kilometre of a segment, the two passes together,
      written out from the speed table. */
  function MinutesPerKm(s: Segment): real
  {
    match s
    case Horizontal => 4.4
    case Uphill => 5.4
    case Downhill => 6.0
  }

  /** Minutes spent on one segment: a loaded pass plus an empty pass over
      distance `d` kilometres. */
  function SegmentMinutes(s: Segment, d: real): (t: real)
    ensures t == MinutesPerKm(s) * d
  {
    d / LoadedSpeed(s) * 60.0 + d / EmptySpeed(s) * 60.0
  }

  /** Total cycle time in minutes for the three segment distances (km). */
  function CycleMinutes(horizontal: real, uphill: real, downhill: real): (t: real)
    ensures t == 4.4 * horizontal + 5.4 * uphill + 6.0 * downhill
    ensures horizontal >= 0.0 && uphill >= 0.0 && downhill >= 0.0 ==> t >= 0.0
    ensures horizontal == 0.0 && uphill == 0.0 && downhill == 0.0 ==> t == 0.0
  {
    SegmentMinutes(Horizontal, horizontal)
      + SegmentMinutes(Uphill, uphill)
      + SegmentMinutes(Downhill, downhill)
  }

  /** The cycle time is linear in each distance on its own: adding `extra`
      kilometres to one segment adds that segment's time for `extra`, and
      scaling one distance scales that segment's share. */
  lemma CycleMinutesLinear(h: real, u: real, d: real, extra: real, c: real)
    ensures CycleMinutes(h + extra, u, d) == CycleMinutes(h, u, d) + SegmentMinutes(Horizontal, extra)
    ensures CycleMinutes(h, u + extra, d) == CycleMinutes(h, u, d) + SegmentMinutes(Uphill, extra)
    ensures CycleMinutes(h, u, d + extra) == CycleMinutes(h, u, d) + SegmentMinutes(Downhill, extra)
    ensures SegmentMinutes(Horizontal, c * h) == c * SegmentMinutes(Horizontal, h)
    ensures SegmentMinutes(Uphill, c * u) == c * SegmentMinutes(Uphill, u)
    ensures SegmentMinutes(Downhill, c * d) == c * SegmentMinutes(Downhill, d)
  {
  }

  /** Doubling one segment's distance adds exactly that segment's original time. */
  lemma DoublingOneSegment(h: real, u: real, d: real)
    ensures CycleMinutes(2.0 * h, u, d) == CycleMinutes(h, u, d) + SegmentMinutes(Horizontal, h)
    ensures CycleMinutes(h, 2.0 * u, d) == CycleMinutes(h, u, d) + SegmentMinutes(Uphill, u)
    ensures CycleMinutes(h, u, 2.0 * d) == CycleMinutes(h, u, d) + SegmentMinutes(Downhill, d)
  {
  }

  /** The form's starting distances (1.0, 3.0 and 0.8 km) take 4.4, 16.2 and
      4.8 minutes, 25.4 minutes in all. */
  lemma DefaultProfileScenario()
    ensures SegmentMinutes(Horizontal, 1.0) == 4.4
    ensures SegmentMinutes(Uphill, 3.0) == 16.2
    ensures SegmentMinutes(Downhill, 0.8) == 4.8
    ensures CycleMinutes(1.0, 3.0, 0.8) == 25.4
  {
  }
}
