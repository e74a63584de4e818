# Mining fleet availability and haul productivity

A Dafny model of the three calculators behind the mine-sizing dashboard in
`Main.py`: truck physical availability, haul cycle time and hourly
productivity against load level. Each is lifted out of the page script as a
pure function over exact `int`/`real`; the input widgets become parameters
and their bounds become types or preconditions (service counts are `nat`,
the corrective rate is a whole percentage in 0..100, the productivity slider
takes 10, 20, ..., 100).

Modules:

- `Availability` (`availability.dfy`): the service-duration table, the
  scheduled year of 365 x 24 = 8760 hours, per-truck preventive, corrective
  and total downtime, physical availability, the fleet mean over the
  eight-truck roster, and the 90 % target flag with its legend and bar
  colours.
- `CycleTime` (`cycle_time.dfy`): the loaded/empty speed table of the three
  road segments and `calcular_tempo_ciclo`.
- `Productivity` (`productivity.dfy`): the load levels generated from the
  slider, tonnes per hour at each level, and the annotated last point.
- `RealSeq` (`real_seq.dfy`): sum (a left fold, as Python's `sum`), mean,
  least and greatest element of a sequence of reals, and the fact that the
  sum does not depend on order.
- `Options` (`options.dfy`): `Option`, used where the dashboard has nothing
  to show (no truck, no load level).

Two formulas are kept exactly as the program writes them: the corrective
rate is charged on the preventive hours, not on the scheduled hours, and each
road segment is charged a full loaded pass plus a full empty pass.

## Model

| member | source | states |
|---|---|---|
| Availability.PreventiveHours | Main.py:42-51 | Preventive downtime (8, 12, 16 and 168 h per service) is zero exactly when all four service counts are zero, and is at least each of the four tiers' own contribution |
| Availability.CorrectiveHours | Main.py:39-52 | Corrective downtime is the rate share of the preventive hours: between 0 and the preventive hours, zero exactly when the rate or the preventive hours are zero |
| Availability.PercentOf | Main.py:39-52 | A corrective rate of 0..100 % takes between none and all of the preventive hours, and none exactly when the rate or the hours are zero |
| Availability.TotalDowntime | Main.py:39-53 | Total downtime equals preventive hours x (1 + rate/100) and lies between the preventive hours and twice them |
| Availability.PhysicalAvailability | Main.py:10-55 | Availability times 8760 equals (8760 - downtime) x 100; it is never above 100 and equals 100 exactly when there is no preventive service |
| Availability.DowntimeMonotone | Main.py:42-53 | Raising any service count or the corrective rate never lowers total downtime |
| Availability.AvailabilityMonotone | Main.py:42-55 | Raising any service count or the corrective rate never raises availability |
| Availability.NoServiceMeansFullAvailability | Main.py:51-55 | With all four counts zero the availability is exactly 100 for every corrective rate |
| Availability.AvailabilityCanBeNegative | Main.py:55 | Availability is not clamped: some valid input gives a negative value |
| Availability.DefaultTruckScenario | Main.py:33-55 | The starting values (35, 18, 9, 0 at 25 %) give 640 preventive, 160 corrective and 800 total hours, availability 7960/8760 x 100, which meets the target |
| Availability.FleetAvailability | Main.py:63-64 | The fleet figure exists exactly when there is at least one truck; it is then the mean (as many copies of it as trucks add up to the sum) and lies between the lowest and highest truck |
| Availability.FleetAvailabilityOrderInvariant | Main.py:63-64 | Listing the trucks in another order gives the same fleet figure |
| Availability.EvaluateFleet | Main.py:24-77 | The pass over the trucks yields one name and one availability per truck in list order (the roster names when the list is on the roster, as the chart pairs them), and a fleet figure exactly when the list is non-empty |
| Availability.DefaultFleet | Main.py:24-39 | The opening form holds one valid profile per roster truck, in roster order |
| Availability.RosterHasFleetFigure | Main.py:24-64 | For the fixed eight-truck roster the fleet figure always exists |
| Availability.LegendOf | Main.py:71-84 | A truck's legend entry is the reached one, and its text (`LegendText`) reads "Atingiu a Meta", exactly when its availability is at least the fixed 90 % target |
| Availability.BarColours | Main.py:79-87 | One colour per truck, taken from the target flag `MeetsTarget` (the `Acima_da_Meta` column): green exactly when its availability is at least 90 and red exactly when below |
| Availability.ColoursAgreeWithLegend | Main.py:79-98 | The flag-based colour list and the legend's colour map (`LegendColour`) give every truck the same colour |
| RealSeq.Mean | Main.py:64 | As many copies of the mean as elements add up to the sum (`Sum`, a left fold like Python's `sum`), and lies between the least and greatest element |
| RealSeq.SumPermutation | Main.py:64 | Two sequences with the same elements have the same sum |
| RealSeq.Max | Main.py:264 | The maximum is an element of the list and no element exceeds it |
| CycleTime.LoadedSpeed | Main.py:165-169 | Every loaded speed in the table is positive, so no division by zero |
| CycleTime.EmptySpeed | Main.py:165-169 | Every empty speed in the table is positive, so no division by zero |
| CycleTime.SegmentMinutes | Main.py:172-177 | A segment costs 4.4, 5.4 or 6.0 minutes per km (horizontal, uphill, downhill): loaded plus empty pass |
| CycleTime.CycleMinutes | Main.py:163-181 | Cycle time is 4.4 h + 5.4 u + 6.0 d minutes; non-negative for non-negative distances and zero when all are zero |
| CycleTime.CycleMinutesLinear | Main.py:172-180 | Cycle time is additive and scales in each segment's distance independently |
| CycleTime.DoublingOneSegment | Main.py:172-180 | Doubling one distance adds exactly that segment's original time |
| CycleTime.DefaultProfileScenario | Main.py:122-181 | Distances 1.0, 3.0, 0.8 km take 4.4, 16.2 and 4.8 minutes, 25.4 in all |
| Productivity.LoadLevels | Main.py:235-241 | Slider p gives p/10 levels, starting at 0.1 and rising by 0.1 each step |
| Productivity.LoadLevelsShape | Main.py:235-241 | For every slider position the levels are non-empty, strictly ascending, inside (0, 1] and end at p/100 |
| Productivity.Hourly | Main.py:231-243 | Productivity is positive at a positive load and zero at zero load |
| Productivity.HourlyLinear | Main.py:231-245 | Productivity is 240 x level x 60 / 25.4, additive, scales with the level and is strictly increasing |
| Productivity.Curve | Main.py:242-245 | One value per load level, each the productivity at that level, strictly ascending |
| Productivity.Annotation | Main.py:252-264 | The annotated point exists exactly when p is at least 10; it is the last level, its productivity, and the curve's maximum |
| Productivity.AnnotationAtSlider | Main.py:235-253 | At every slider position the annotated point is (p/100, productivity at p/100) |
| Productivity.HalfLoadScenario | Main.py:231-253 | At 50 % the levels are 0.1..0.5, five points, ending at 240 x 0.5 x 60 / 25.4 |
| Productivity.FixedCycleMatchesProfile | Main.py:232 | The 25.4-minute cycle fixed for the chart equals the cycle time of the starting distances |

## Left out

- Streamlit page layout, inputs, expanders, columns and text output: they only collect the numbers modelled here and print them.
- Plotly, Matplotlib and pandas charting, including the cycle-time bar and the load gauge; the only chart facts kept are the per-truck legend and colours, the annotated last point and the maximum that sizes the y axis.
- The dashed reference line is drawn at the fleet mean while labelled "Meta 90%"; it is display only and is not modelled.
- The capacity and load-level inputs at Main.py:206-209 feed only the gauge; the capacity is then replaced by the constant 240 t.
- Floating-point rounding: levels are held as exact tenths (`round(x * 0.1, 1)` becomes k/10 and `int(p / 100 * 10)` becomes p div 10, exact at multiples of 10), and all divisions are exact reals.
- The program indexes the last load level directly; that is safe only because the slider starts at 10. `Productivity.Annotation` takes any whole percentage and returns `None` below 10, the "no data" case, and `Productivity.AnnotationAtSlider` shows the index is always valid at slider positions.
- With an empty truck list the program would skip the fleet figure and then fail when drawing the reference line; the roster is fixed at eight trucks, so `Availability.FleetAvailability` returns `None` for the empty list and `Availability.RosterHasFleetFigure` shows the roster always has a figure.
- The speed table shown at Main.py:136-140 holds the same values as the one inside `calcular_tempo_ciclo` and is used only for display.
