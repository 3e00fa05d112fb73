/** The pure helpers of components/dashboard.tsx: the moisture badge
    thresholds, the chart window, the per-sensor grouping of the chart and
    the three sensor counts. The sensor list is the JSON of GET /api/sensors
    (one getAll row per sensor); the readings are the JSON of
    GET /api/moisture-data. */
module Dashboard {
  import opened JsValues
  import Database

  const LowThreshold: real := 30.0
  const MediumThreshold: real := 60.0
  const OptimalLow: real := 60.0
  const OptimalHigh: real := 80.0
  const ChartWindow: nat := 100

  // ---------------------------------------------------------------------
  // Badge thresholds

  datatype BadgeVariant = Destructive | Secondary | Default
  datatype StatusLabel = Low | Medium | Optimal

  /** getStatusColor. */
  function StatusColor(value: real): (c: BadgeVariant)
    ensures c == Destructive <==> value < LowThreshold
    ensures c == Secondary <==> LowThreshold <= value < MediumThreshold
    ensures c == Default <==> MediumThreshold <= value
  {
    if value < 30.0 then Destructive
    else if value < 60.0 then Secondary
    else Default
  }

  /** getStatusText. */
  function StatusText(value: real): (t: StatusLabel)
  {
    if value < 30.0 then Low
    else if value < 60.0 then Medium
    else Optimal
  }

  /** The label and the badge colour use the same thresholds. */
  lemma LabelMatchesColor(value: real)
    ensures StatusText(value) == Low <==> StatusColor(value) == Destructive
    ensures StatusText(value) == Medium <==> StatusColor(value) == Secondary
    ensures StatusText(value) == Optimal <==> StatusColor(value) == Default
  {
  }

  // ---------------------------------------------------------------------
  // The chart

  /** A chart point; `time` is the reading's timestamp, which the code
      formats as a locale time string (the formatting is not modelled). */
  datatype ChartItem = ChartItem(time: int, moisture: real, temperature: Option<real>, sensor: string)

  function Item(x: Database.Reading): ChartItem
  {
    ChartItem(x.timestamp, x.moistureValue, x.temperature, x.sensorId)
  }

  function Reverse<T>(s: seq<T>): (r: seq<T>)
    ensures |r| == |s|
    ensures forall k :: 0 <= k < |s| ==> r[k] == s[|s| - 1 - k]
  {
    if |s| == 0 then [] else Reverse(s[1..]) + [s[0]]
  }

  function Items(rs: seq<Database.Reading>): (r: seq<ChartItem>)
    ensures |r| == |rs|
    ensures forall k :: 0 <= k < |rs| ==> r[k] == Item(rs[k])
  {
    if |rs| == 0 then [] else [Item(rs[0])] + Items(rs[1..])
  }

  /** `moistureData.slice(0, 100).reverse().map(…)`: the first 100 readings,
      last of them first. */
  function ChartData(rs: seq<Database.Reading>): (r: seq<ChartItem>)
    ensures |r| == if |rs| < ChartWindow then |rs| else ChartWindow
    ensures forall k :: 0 <= k < |r| ==> r[k] == Item(rs[|r| - 1 - k])
  {
    var window := if |rs| < ChartWindow then rs else rs[..ChartWindow];
    Items(Reverse(window))
  }

  /** The readings API returns ascending timestamps, so the chart runs from
      the newest of the first hundred readings back to the oldest. */
  lemma ChartNewestFirst(rs: seq<Database.Reading>)
    requires forall i, j :: 0 <= i < j < |rs| ==> rs[i].timestamp <= rs[j].timestamp
    ensures var c := ChartData(rs);
      forall i, j :: 0 <= i < j < |c| ==> c[i].time >= c[j].time
  {
  }

  /** With more than a hundred ascending readings, the newest one (later
      than all others) is not on the chart at all. */
  lemma ChartDropsNewest(rs: seq<Database.Reading>)
    requires |rs| > ChartWindow
    requires forall i :: 0 <= i < |rs| - 1 ==> rs[i].timestamp < rs[|rs| - 1].timestamp
    ensures var c := ChartData(rs);
      forall k :: 0 <= k < |c| ==> c[k].time < rs[|rs| - 1].timestamp
  {
  }

  /** The chart the dashboard evidently intends: the latest hundred
      readings of the ascending list, oldest first. */
  function IntendedChartData(rs: seq<Database.Reading>): (r: seq<ChartItem>)
    ensures |r| == if |rs| < ChartWindow then |rs| else ChartWindow
    ensures forall k :: 0 <= k < |r| ==> r[k] == Item(rs[|rs| - |r| + k])
  {
    if |rs| < ChartWindow then Items(rs)
    else
      var window := rs[|rs| - ChartWindow..];
      Items(window)
  }

  /** The intended chart runs forward in time and ends with the newest
      reading. */
  lemma IntendedChartInOrder(rs: seq<Database.Reading>)
    requires forall i, j :: 0 <= i < j < |rs| ==> rs[i].timestamp <= rs[j].timestamp
    ensures var c := IntendedChartData(rs);
      && (forall i, j :: 0 <= i < j < |c| ==> c[i].time <= c[j].time)
      && (|rs| > 0 ==> c[|c| - 1] == Item(rs[|rs| - 1]))
  {
  }

  // ---------------------------------------------------------------------
  // Grouping the chart by sensor

  /** The items of sensor `k`, in chart order. */
  function Group(items: seq<ChartItem>, k: string): (g: seq<ChartItem>)
    ensures |g| <= |items|
  {
    if |items| == 0 then []
    else
      var init, last := items[..|items| - 1], items[|items| - 1];
      assert items == init + [last];
      Group(init, k) + (if last.sensor == k then [last] else [])
  }

  function SensorSet(items: seq<ChartItem>): set<string>
  {
    if |items| == 0 then {}
    else
      var init, last := items[..|items| - 1], items[|items| - 1];
      assert items == init + [last];
      SensorSet(init) + {last.sensor}
  }

  /** A group holds exactly the chart items of its sensor. */
  lemma {:induction false} GroupMembers(items: seq<ChartItem>, k: string)
    ensures forall x :: x in Group(items, k) <==> x in items && x.sensor == k
  {
    if |items| > 0 {
      var init, last := items[..|items| - 1], items[|items| - 1];
      assert items == init + [last];
      GroupMembers(init, k);
    }
  }

  /** The grouped object has a key for every sensor of the chart and no
      other. */
  lemma {:induction false} SensorSetMembers(items: seq<ChartItem>)
    ensures forall k :: k in SensorSet(items) <==> exists x :: x in items && x.sensor == k
  {
    if |items| > 0 {
      var init, last := items[..|items| - 1], items[|items| - 1];
      assert items == init + [last];
      SensorSetMembers(init);
    }
  }

  /** The grouped object as a value: each sensor of the chart with its
      items. */
  ghost function Groups(items: seq<ChartItem>): map<string, seq<ChartItem>>
  {
    map k | k in SensorSet(items) :: Group(items, k)
  }

  /** The `reduce` that pushes every chart item onto its sensor's array. */
  method GroupBySensor(items: seq<ChartItem>) returns (groups: map<string, seq<ChartItem>>)
    ensures groups.Keys == SensorSet(items)
    ensures forall k :: k in groups ==> groups[k] == Group(items, k)
  {
    groups := map[];
    for i := 0 to |items|
      invariant groups == Groups(items[..i])
    {
      var item := items[i];
      var pushed := (if item.sensor in groups then groups[item.sensor] else []) + [item];
      GroupsPush(items, i);
      groups := groups[item.sensor := pushed];
    }
    assert items[..|items|] == items;
  }

  /** One more chart item extends its own sensor's group, which starts
      empty, and nothing else. */
  lemma GroupsPush(items: seq<ChartItem>, i: nat)
    requires i < |items|
    ensures var g, x := Groups(items[..i]), items[i];
      Groups(items[..i + 1]) == g[x.sensor := (if x.sensor in g then g[x.sensor] else []) + [x]]
  {
    var s, x := items[..i], items[i];
    var t := items[..i + 1];
    assert t[..|t| - 1] == s && t[|t| - 1] == x;
    if x.sensor !in SensorSet(s) {
      GroupEmpty(s, x.sensor);
    }
    var g := Groups(s);
    var h := g[x.sensor := (if x.sensor in g then g[x.sensor] else []) + [x]];
    assert Groups(t).Keys == h.Keys;
    forall k | k in h
      ensures Groups(t)[k] == h[k]
    {
    }
  }

  /** The sensors in order of first appearance: the key order of the
      grouped object. */
  function FirstSeen(items: seq<ChartItem>): (ks: seq<string>)
    ensures forall k :: k in ks <==> k in SensorSet(items)
    ensures forall i, j :: 0 <= i < j < |ks| ==> ks[i] != ks[j]
  {
    if |items| == 0 then []
    else
      var init, last := items[..|items| - 1], items[|items| - 1];
      assert items == init + [last];
      if last.sensor in FirstSeen(init) then FirstSeen(init) else FirstSeen(init) + [last.sensor]
  }

  /** The groups of a longer chart extend those of a shorter one: a group
      keeps its items' chart order and holds each of them once. */
  lemma {:induction false} GroupAppend(a: seq<ChartItem>, b: seq<ChartItem>, k: string)
    ensures Group(a + b, k) == Group(a, k) + Group(b, k)
    decreases |b|
  {
    if |b| == 0 {
      assert a + b == a;
    } else {
      var init, y := b[..|b| - 1], b[|b| - 1];
      assert (a + b)[..|a + b| - 1] == a + init && (a + b)[|a + b| - 1] == y;
      GroupAppend(a, init, k);
    }
  }

  /** A one-item chart has one group of one item. */
  lemma GroupSingle(x: ChartItem, k: string)
    ensures Group([x], k) == if x.sensor == k then [x] else []
  {
    assert [x][..0] == [];
  }

  /** The position of the first chart item of sensor `k` (|items| when
      there is none). */
  function FirstPos(items: seq<ChartItem>, k: string): (p: nat)
    ensures p <= |items|
    ensures p < |items| ==> items[p].sensor == k
  {
    if |items| == 0 then 0
    else if items[0].sensor == k then 0
    else 1 + FirstPos(items[1..], k)
  }

  /** No item before the first one of sensor `k` belongs to it. */
  lemma {:induction false} FirstPosIsFirst(items: seq<ChartItem>, k: string, m: int)
    requires 0 <= m < FirstPos(items, k)
    ensures items[m].sensor != k
  {
    if m > 0 {
      FirstPosIsFirst(items[1..], k, m - 1);
    }
  }

  lemma {:induction false} FirstPosAppend(a: seq<ChartItem>, b: seq<ChartItem>, k: string)
    ensures FirstPos(a + b, k) == if FirstPos(a, k) < |a| then FirstPos(a, k) else |a| + FirstPos(b, k)
  {
    if |a| == 0 {
      assert a + b == b;
    } else {
      assert (a + b)[0] == a[0] && (a + b)[1..] == a[1..] + b;
      FirstPosAppend(a[1..], b, k);
    }
  }

  /** A sensor has a first item exactly when it is on the chart. */
  lemma {:induction false} FirstPosFound(items: seq<ChartItem>, k: string)
    ensures FirstPos(items, k) < |items| <==> k in SensorSet(items)
  {
    if |items| > 0 {
      var init, last := items[..|items| - 1], items[|items| - 1];
      assert items == init + [last];
      FirstPosFound(init, k);
      FirstPosAppend(init, [last], k);
      assert [last][1..] == [];
    }
  }

  /** The keys come in order of first appearance on the chart. */
  lemma {:induction false} FirstSeenOrder(items: seq<ChartItem>)
    ensures forall i, j :: 0 <= i < j < |FirstSeen(items)| ==>
      FirstPos(items, FirstSeen(items)[i]) < FirstPos(items, FirstSeen(items)[j]) < |items|
  {
    if |items| > 0 {
      var init, last := items[..|items| - 1], items[|items| - 1];
      assert items == init + [last];
      FirstSeenOrder(init);
      var ks0, ks := FirstSeen(init), FirstSeen(items);
      assert ks == if last.sensor in ks0 then ks0 else ks0 + [last.sensor];
      forall i, j | 0 <= i < j < |ks| ensures FirstPos(items, ks[i]) < FirstPos(items, ks[j]) < |items| {
        FirstSeenOrderStep(init, last, ks0, i, j);
      }
    }
  }

  /** One pair of keys after one more chart item `last`, given the order
      of the keys `ks0` before it. */
  lemma FirstSeenOrderStep(init: seq<ChartItem>, last: ChartItem, ks0: seq<string>, i: int, j: int)
    requires forall i, j :: 0 <= i < j < |ks0| ==> FirstPos(init, ks0[i]) < FirstPos(init, ks0[j])
    requires forall k :: k in ks0 <==> k in SensorSet(init)
    requires 0 <= i < j < |ks0| + (if last.sensor in ks0 then 0 else 1)
    ensures var ks := if last.sensor in ks0 then ks0 else ks0 + [last.sensor];
      FirstPos(init + [last], ks[i]) < FirstPos(init + [last], ks[j]) < |init| + 1
  {
    var ks := if last.sensor in ks0 then ks0 else ks0 + [last.sensor];
    assert ks[i] == ks0[i] && ks0[i] in ks0;
    FirstPosKept(init, last, ks0[i]);
    if j < |ks0| {
      assert ks[j] == ks0[j] && ks0[j] in ks0;
      FirstPosKept(init, last, ks0[j]);
    } else {
      assert ks[j] == last.sensor;
      FirstPosNew(init, last);
    }
  }

  /** A sensor already on the chart keeps its first position. */
  lemma FirstPosKept(init: seq<ChartItem>, last: ChartItem, k: string)
    requires k in SensorSet(init)
    ensures FirstPos(init + [last], k) == FirstPos(init, k) < |init|
  {
    FirstPosFound(init, k);
    FirstPosAppend(init, [last], k);
  }

  /** A sensor new to the chart is first seen at its one item. */
  lemma FirstPosNew(init: seq<ChartItem>, last: ChartItem)
    requires last.sensor !in SensorSet(init)
    ensures FirstPos(init + [last], last.sensor) == |init|
  {
    FirstPosFound(init, last.sensor);
    FirstPosAppend(init, [last], last.sensor);
  }

  function SizeSum(items: seq<ChartItem>, ks: seq<string>): nat
  {
    if |ks| == 0 then 0 else |Group(items, ks[0])| + SizeSum(items, ks[1..])
  }

  /** Adding one item adds one to the size sum over any list of distinct
      sensors that holds its sensor, and nothing otherwise. */
  lemma {:induction false} SizeSumSnoc(items: seq<ChartItem>, x: ChartItem, ks: seq<string>)
    requires forall i, j :: 0 <= i < j < |ks| ==> ks[i] != ks[j]
    ensures SizeSum(items + [x], ks) == SizeSum(items, ks) + (if x.sensor in ks then 1 else 0)
  {
    if |ks| > 0 {
      SizeSumSnoc(items, x, ks[1..]);
      assert (items + [x])[..|items + [x]| - 1] == items;
      assert x.sensor in ks[1..] ==> x.sensor != ks[0];
    }
  }

  lemma {:induction false} SizeSumAppend(items: seq<ChartItem>, ks: seq<string>, k: string)
    ensures SizeSum(items, ks + [k]) == SizeSum(items, ks) + |Group(items, k)|
  {
    if |ks| > 0 {
      assert (ks + [k])[1..] == ks[1..] + [k];
      SizeSumAppend(items, ks[1..], k);
    } else {
      assert [k][1..] == [];
    }
  }

  lemma {:induction false} GroupEmpty(items: seq<ChartItem>, k: string)
    requires k !in SensorSet(items)
    ensures Group(items, k) == []
  {
    if |items| > 0 {
      var init := items[..|items| - 1];
      assert items == init + [items[|items| - 1]];
      GroupEmpty(init, k);
    }
  }

  /** Every chart item lands in exactly one group: the group sizes add up
      to the chart length. */
  lemma {:induction false} GroupSizesSum(items: seq<ChartItem>)
    ensures SizeSum(items, FirstSeen(items)) == |items|
  {
    if |items| > 0 {
      var init, last := items[..|items| - 1], items[|items| - 1];
      assert items == init + [last];
      GroupSizesSum(init);
      var ks := FirstSeen(init);
      SizeSumSnoc(init, last, ks);
      if last.sensor !in ks {
        SizeSumAppend(items, ks, last.sensor);
        GroupEmpty(init, last.sensor);
        assert Group(items, last.sensor) == [last];
      }
    }
  }

  // ---------------------------------------------------------------------
  // Sensor counts

  /** What the dashboard reads of a sensor: `s.status` and
      `s.latest_reading?.moisture_value`. */
  datatype SensorView = SensorView(status: Option<string>, latestMoisture: Option<real>)

  /** `s.latest_reading?.moisture_value || 0`. */
  function ShownMoisture(v: SensorView): real
  {
    OrNum(v.latestMoisture, 0.0)
  }

  predicate IsActive(v: SensorView)
  {
    v.status == Some("active")
  }

  predicate IsLow(v: SensorView)
  {
    ShownMoisture(v) < LowThreshold
  }

  predicate IsOptimal(v: SensorView)
  {
    OptimalLow <= ShownMoisture(v) <= OptimalHigh
  }

  /** `views.filter(p).length`. */
  function Count(views: seq<SensorView>, p: SensorView -> bool): (n: nat)
    ensures n <= |views|
    ensures n == 0 <==> forall v :: v in views ==> !p(v)
    ensures n == |views| <==> forall v :: v in views ==> p(v)
  {
    if |views| == 0 then 0
    else
      assert views == [views[0]] + views[1..];
      (if p(views[0]) then 1 else 0) + Count(views[1..], p)
  }

  /** `filter(p).length` over a concatenation is the sum of the lengths. */
  lemma {:induction false} CountAppend(a: seq<SensorView>, b: seq<SensorView>, p: SensorView -> bool)
    ensures Count(a + b, p) == Count(a, p) + Count(b, p)
  {
    if |a| == 0 {
      assert a + b == b;
    } else {
      assert (a + b)[0] == a[0] && (a + b)[1..] == a[1..] + b;
      CountAppend(a[1..], b, p);
    }
  }

  /** Each dashboard count adds up over the sensor list and counts one
      sensor exactly when it meets its test, so it is the number of sensors
      that meet the test. */
  lemma DashboardCounts(a: seq<SensorView>, b: seq<SensorView>, v: SensorView)
    ensures ActiveSensors(a + b) == ActiveSensors(a) + ActiveSensors(b)
    ensures LowMoistureAlerts(a + b) == LowMoistureAlerts(a) + LowMoistureAlerts(b)
    ensures OptimalCount(a + b) == OptimalCount(a) + OptimalCount(b)
    ensures ActiveSensors([v]) == if v.status == Some("active") then 1 else 0
    ensures LowMoistureAlerts([v]) == if ShownMoisture(v) < LowThreshold then 1 else 0
    ensures OptimalCount([v]) == if OptimalLow <= ShownMoisture(v) <= OptimalHigh then 1 else 0
  {
    CountAppend(a, b, IsActive);
    CountAppend(a, b, IsLow);
    CountAppend(a, b, IsOptimal);
    assert [v][1..] == [];
  }

  function ActiveSensors(views: seq<SensorView>): (n: nat)
    ensures n <= |views|
    ensures n == |views| <==> forall v :: v in views ==> v.status == Some("active")
  {
    Count(views, IsActive)
  }

  function LowMoistureAlerts(views: seq<SensorView>): (n: nat)
    ensures n <= |views|
    ensures n == 0 <==> forall v :: v in views ==> ShownMoisture(v) >= LowThreshold
  {
    Count(views, IsLow)
  }

  function OptimalCount(views: seq<SensorView>): (n: nat)
    ensures n <= |views|
    ensures n == 0 <==> forall v :: v in views ==> ShownMoisture(v) < OptimalLow || OptimalHigh < ShownMoisture(v)
  {
    Count(views, IsOptimal)
  }

  /** A sensor without a reading shows 0 and raises a low-moisture alert;
      both ends of 60..80 are optimal. */
  lemma ThresholdEdges(status: Option<string>)
    ensures IsLow(SensorView(status, None))
    ensures !IsOptimal(SensorView(status, None))
    ensures IsOptimal(SensorView(status, Some(60.0))) && IsOptimal(SensorView(status, Some(80.0)))
    ensures !IsOptimal(SensorView(status, Some(80.5)))
  {
  }

  // ---------------------------------------------------------------------
  // How the sensor list reaches the dashboard

  /** The view of a getAll row as the code reads it: the row carries
      latest_moisture, latest_temperature, … but no `latest_reading`
      object, so `latest_reading?.moisture_value` is always undefined. */
  function ViewAsWritten(row: Database.SensorRow): (v: SensorView)
    ensures v.latestMoisture.None?
    ensures v.status == row.sensor.status
  {
    SensorView(row.sensor.status, None)
  }

  function ViewsAsWritten(rows: seq<Database.SensorRow>): (vs: seq<SensorView>)
    ensures |vs| == |rows|
    ensures forall k :: 0 <= k < |rows| ==> vs[k] == ViewAsWritten(rows[k])
  {
    if |rows| == 0 then [] else [ViewAsWritten(rows[0])] + ViewsAsWritten(rows[1..])
  }

  /** As written, every sensor is a low-moisture alert and none is in the
      optimal range, whatever its readings. */
  lemma AsWrittenEverySensorIsLow(rows: seq<Database.SensorRow>)
    ensures LowMoistureAlerts(ViewsAsWritten(rows)) == |rows|
    ensures OptimalCount(ViewsAsWritten(rows)) == 0
  {
    var vs := ViewsAsWritten(rows);
    assert forall v :: v in vs ==> v.latestMoisture.None?;
  }

  /** The view the dashboard evidently intends: the latest reading's
      moisture, which getAll reports as latest_moisture. */
  function View(row: Database.SensorRow): (v: SensorView)
    ensures v.status == row.sensor.status
    ensures v.latestMoisture == row.latestMoisture
  {
    SensorView(row.sensor.status, row.latestMoisture)
  }

  function Views(rows: seq<Database.SensorRow>): (vs: seq<SensorView>)
    ensures |vs| == |rows|
    ensures forall k :: 0 <= k < |rows| ==> vs[k] == View(rows[k])
  {
    if |rows| == 0 then [] else [View(rows[0])] + Views(rows[1..])
  }

  /** With the intended view a sensor raises an alert exactly when its
      latest moisture is below 30 or it has no reading at all, and is
      optimal exactly when its latest moisture lies in 60..80. */
  lemma ViewFollowsLatestReading(s: Database.Sensor, rs: seq<Database.Reading>)
    ensures var row := Database.RowAsWritten(s, rs);
      var v := View(row);
      && (IsLow(v) <==> Database.CountFor(rs, s.sensorId) == 0 || row.latestMoisture.value < LowThreshold)
      && (IsOptimal(v) <==>
            Database.CountFor(rs, s.sensorId) > 0 && OptimalLow <= row.latestMoisture.value <= OptimalHigh)
      && (row.latestMoisture.Some? ==>
            exists x :: x in rs && x.sensorId == s.sensorId && x.moistureValue == row.latestMoisture.value
              && forall y :: y in rs && y.sensorId == s.sensorId ==> y.timestamp <= x.timestamp)
  {
    Database.RowAsWrittenVersusRow(s, rs);
    assert Database.RowAsWritten(s, rs).latestMoisture == Database.Row(s, rs).latestMoisture;
  }
}
