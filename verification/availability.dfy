/** Physical availability of the haul-truck fleet.

    Each truck has a count of preventive services at four fixed service
    intervals (250 h, 500 h, 1000 h, 16000 h), each service stopping the truck
    for a fixed number of hours, and a corrective-maintenance rate in percent
    that is charged on top of the preventive downtime. Availability is the
    share of the scheduled year the truck is not stopped; the fleet figure is
    the plain mean over the trucks, and each truck is flagged against a fixed
    90 % target for the bar chart. */
module Availability {

  import opened Options
  import opened RealSeq

  /** Scheduled operation: every day of the year, around the clock. */
  const ScheduledDays: nat := 365
  const ScheduledHoursPerDay: nat := 24
  const ScheduledHoursPerYear: nat := ScheduledDays * ScheduledHoursPerDay

  /** Hours one preventive service stops a truck, per service interval. */
  const Stop250h: nat := 8
  const Stop500h: nat := 12
  const Stop1000h: nat := 16
  const Stop16000h: nat := 168

  /** The availability every truck is measured against, in percent. */
  const TargetPercent: real := 90.0

  /** The fixed roster of trucks the dashboard shows. */
  const Roster: seq<string> :=
    ["CM-001", "CM-002", "CM-003", "CM-004", "CM-005", "CM-006", "CM-007", "CM-008"]

  /** What is entered for one truck. Service counts are non-negative by type. */
  datatype TruckProfile = TruckProfile(
    truck: string,
    services250h: nat,
    services500h: nat,
    services1000h: nat,
    services16000h: nat,
    correctivePercent: nat)

  /** The input form accepts a corrective rate between 0 % and 100 %. */
  predicate ValidProfile(t: TruckProfile)
  {
    t.correctivePercent <= 100
  }

  /** The values the form starts with for every truck. */
  function DefaultProfile(truck: string): TruckProfile
  {
    TruckProfile(truck, 35, 18, 9, 0, 25)
  }

  /** Hours a truck stands still for preventive maintenance in a year. */
  function PreventiveHours(t: TruckProfile): (h: nat)
    ensures h == 0 <==>
      t.services250h == 0 && t.services500h == 0 && t.services1000h == 0 && t.services16000h == 0
    ensures h >= Stop250h * t.services250h && h >= Stop500h * t.services500h
    ensures h >= Stop1000h * t.services1000h && h >= Stop16000h * t.services16000h
  {
    t.services250h * Stop250h + t.services500h * Stop500h
      + t.services1000h * Stop1000h + t.services16000h * Stop16000h
  }

  /** Corrective downtime: the corrective rate applied to the preventive
      hours (not to the scheduled hours). */
  function CorrectiveHours(t: TruckProfile): (h: real)
    requires ValidProfile(t)
    ensures 0.0 <= h <= PreventiveHours(t) as real
    ensures h == 0.0 <==> t.correctivePercent == 0 || PreventiveHours(t) == 0
  {
    PercentOf(t.correctivePercent, PreventiveHours(t))
  }

  /** `percent` % of `hours`: for a percentage of at most 100, between none
      and all of the hours, and none exactly when either is zero. */
  function PercentOf(percent: nat, hours: nat): (share: real)
    requires percent <= 100
    ensures 0.0 <= share <= hours as real
    ensures share == 0.0 <==> percent == 0 || hours == 0
  {
    PercentShareBounds(percent, hours);
    (percent as real / 100.0) * hours as real
  }

  /** The arithmetic behind `PercentOf`'s contract. */
  lemma PercentShareBounds(percent: nat, hours: nat)
    requires percent <= 100
    ensures 0.0 <= (percent as real / 100.0) * hours as real <= hours as real
    ensures (percent as real / 100.0) * hours as real == 0.0 <==> percent == 0 || hours == 0
  {
    var rate, whole := percent as real / 100.0, hours as real;
    MulMonotone(0.0, rate, 0.0, whole);
    MulMonotone(rate, 1.0, whole, whole);
    if percent > 0 && hours > 0 {
      MulMonotone(0.01, rate, 1.0, whole);
    }
  }

  /** All hours a truck stands still in a year. */
  function TotalDowntime(t: TruckProfile): (h: real)
    requires ValidProfile(t)
    ensures h == PreventiveHours(t) as real * (1.0 + t.correctivePercent as real / 100.0)
    ensures PreventiveHours(t) as real <= h <= 2.0 * PreventiveHours(t) as real
  {
    var preventive := PreventiveHours(t) as real;
    preventive + CorrectiveHours(t)
  }

  /** Physical availability in percent. Nothing clamps it: a truck stopped
      longer than the scheduled year has a negative availability. */
  function PhysicalAvailability(t: TruckProfile): (a: real)
    requires ValidProfile(t)
    ensures a <= 100.0
    ensures a == 100.0 <==> PreventiveHours(t) == 0
    ensures a * ScheduledHoursPerYear as real == (ScheduledHoursPerYear as real - TotalDowntime(t)) * 100.0
  {
    var scheduled := ScheduledHoursPerYear as real;
    (scheduled - TotalDowntime(t)) / scheduled * 100.0
  }

  /** Downtime only goes up as any service count or the corrective rate goes up. */
  lemma DowntimeMonotone(t: TruckProfile, u: TruckProfile)
    requires ValidProfile(t) && ValidProfile(u)
    requires t.services250h <= u.services250h && t.services500h <= u.services500h
    requires t.services1000h <= u.services1000h && t.services16000h <= u.services16000h
    requires t.correctivePercent <= u.correctivePercent
    ensures TotalDowntime(t) <= TotalDowntime(u)
  {
    var pt, pu := PreventiveHours(t) as real, PreventiveHours(u) as real;
    var ft := 1.0 + t.correctivePercent as real / 100.0;
    var fu := 1.0 + u.correctivePercent as real / 100.0;
    MulMonotone(pt, pu, ft, fu);
  }

  /** Availability only goes down as any service count or the corrective rate goes up. */
  lemma AvailabilityMonotone(t: TruckProfile, u: TruckProfile)
    requires ValidProfile(t) && ValidProfile(u)
    requires t.services250h <= u.services250h && t.services500h <= u.services500h
    requires t.services1000h <= u.services1000h && t.services16000h <= u.services16000h
    requires t.correctivePercent <= u.correctivePercent
    ensures PhysicalAvailability(u) <= PhysicalAvailability(t)
  {
    DowntimeMonotone(t, u);
  }

  /** With no preventive service the availability is 100 % whatever the corrective rate. */
  lemma NoServiceMeansFullAvailability(truck: string, rate: nat)
    requires rate <= 100
    ensures PhysicalAvailability(TruckProfile(truck, 0, 0, 0, 0, rate)) == 100.0
  {
  }

  /** Availability is not clamped at zero: some valid input drives it negative. */
  lemma AvailabilityCanBeNegative()
    ensures exists t :: ValidProfile(t) && PhysicalAvailability(t) < 0.0
  {
    var t := TruckProfile("CM-001", 0, 0, 0, 53, 0);
    assert PreventiveHours(t) == 8904;
    assert PhysicalAvailability(t) < 0.0;
  }

  /** The form's starting values: 35, 18 and 9 services at 25 % give 640
      preventive and 160 corrective hours, 800 in all, and an availability of
      7960 / 8760 of the year, above the target. */
  lemma DefaultTruckScenario(truck: string)
    ensures PreventiveHours(DefaultProfile(truck)) == 640
    ensures CorrectiveHours(DefaultProfile(truck)) == 160.0
    ensures TotalDowntime(DefaultProfile(truck)) == 800.0
    ensures PhysicalAvailability(DefaultProfile(truck)) == 7960.0 / 8760.0 * 100.0
    ensures MeetsTarget(PhysicalAvailability(DefaultProfile(truck)))
  {
    var t := DefaultProfile(truck);
    assert PreventiveHours(t) == 640;
    assert TotalDowntime(t) == 800.0;
  }

  /** The fleet availability: the mean of the per-truck figures, or nothing
      when there is no truck. */
  function FleetAvailability(availabilities: seq<real>): (r: Option<real>)
    ensures r.None? <==> |availabilities| == 0
    ensures r.Some? ==> IsMean(r.value, availabilities)
    ensures r.Some? ==> Min(availabilities) <= r.value <= Max(availabilities)
  {
    if |availabilities| == 0 then None
    else
      var mean := Mean(availabilities);
      Some(mean)
  }

  /** The fleet figure does not depend on the order the trucks are listed in. */
  lemma FleetAvailabilityOrderInvariant(a: seq<real>, b: seq<real>)
    requires multiset(a) == multiset(b)
    ensures FleetAvailability(a) == FleetAvailability(b)
  {
    assert |a| == |multiset(a)| == |multiset(b)| == |b|;
    SumPermutation(a, b);
  }

  /** The dashboard pass over the trucks: one availability per truck, in
      roster order, then the fleet mean when there is at least one truck. */
  method EvaluateFleet(trucks: seq<TruckProfile>) returns (names: seq<string>, availabilities: seq<real>, fleet: Option<real>)
    requires forall i :: 0 <= i < |trucks| ==> ValidProfile(trucks[i])
    ensures |names| == |availabilities| == |trucks|
    ensures OnRoster(trucks) ==> names == Roster
    ensures forall i :: 0 <= i < |trucks| ==> names[i] == trucks[i].truck
    ensures forall i :: 0 <= i < |trucks| ==> availabilities[i] == PhysicalAvailability(trucks[i])
    ensures fleet == FleetAvailability(availabilities)
    ensures fleet.Some? <==> |trucks| > 0
  {
    names, availabilities := [], [];
    var i := 0;
    while i < |trucks|
      invariant 0 <= i <= |trucks|
      invariant |names| == |availabilities| == i
      invariant forall j :: 0 <= j < i ==> names[j] == trucks[j].truck
      invariant forall j :: 0 <= j < i ==> availabilities[j] == PhysicalAvailability(trucks[j])
    {
      names := names + [trucks[i].truck];
      availabilities := availabilities + [PhysicalAvailability(trucks[i])];
      i := i + 1;
    }
    if |availabilities| > 0 {
      fleet := Some(Mean(availabilities));
    } else {
      fleet := None;
    }
  }

  /** `trucks` holds one profile per roster truck, in roster order. */
  predicate OnRoster(trucks: seq<TruckProfile>)
  {
    |trucks| == |Roster| && forall i :: 0 <= i < |trucks| ==> trucks[i].truck == Roster[i]
  }

  /** The form as it opens: every roster truck with the starting values. */
  function DefaultFleet(): (trucks: seq<TruckProfile>)
    ensures OnRoster(trucks)
    ensures forall i :: 0 <= i < |trucks| ==> ValidProfile(trucks[i])
  {
    seq(|Roster|, i requires 0 <= i < |Roster| => DefaultProfile(Roster[i]))
  }

  /** The full roster always yields a fleet figure. */
  lemma RosterHasFleetFigure(trucks: seq<TruckProfile>)
    requires OnRoster(trucks)
    requires forall i :: 0 <= i < |trucks| ==> ValidProfile(trucks[i])
    ensures FleetAvailability(seq(|trucks|, i requires 0 <= i < |trucks| => PhysicalAvailability(trucks[i]))).Some?
  {
  }

  /** A truck meets the target when its availability is at least 90 %. */
  predicate MeetsTarget(availability: real)
  {
    availability >= TargetPercent
  }

  /** The legend entry of a truck's bar. */
  datatype Legend = ReachedTarget | MissedTarget

  function LegendOf(availability: real): (l: Legend)
    ensures l == ReachedTarget <==> availability >= TargetPercent
    ensures LegendText(l) == "Atingiu a Meta" <==> availability >= TargetPercent
  {
    if availability >= TargetPercent then ReachedTarget else MissedTarget
  }

  function LegendText(l: Legend): string
  {
    match l
    case ReachedTarget => "Atingiu a Meta"
    case MissedTarget => "Não Atingiu a Meta"
  }

  /** The colour the chart maps each legend entry to. */
  function LegendColour(l: Legend): string
  {
    match l
    case ReachedTarget => "green"
    case MissedTarget => "red"
  }

  /** The per-truck colour list computed from the target flags. */
  function BarColours(availabilities: seq<real>): (colours: seq<string>)
    ensures |colours| == |availabilities|
    ensures forall i :: 0 <= i < |colours| ==>
      (colours[i] == "green" <==> availabilities[i] >= TargetPercent) &&
      (colours[i] == "red" <==> availabilities[i] < TargetPercent)
  {
    seq(|availabilities|, i requires 0 <= i < |availabilities| =>
      if MeetsTarget(availabilities[i]) then "green" else "red")
  }

  /** The flag-based colour list and the legend-based colour map agree on every truck. */
  lemma ColoursAgreeWithLegend(availabilities: seq<real>)
    ensures forall i :: 0 <= i < |availabilities| ==>
      BarColours(availabilities)[i] == LegendColour(LegendOf(availabilities[i]))
  {
  }
}
