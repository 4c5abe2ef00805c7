/**
 * The data handling of the SpaceX launch records dashboard
 * (spacex_dash_app.py): the payload bounds computed once at start-up, the
 * outcome label, and the tables that the two callbacks hand to the chart
 * library, together with the chart parameters they pass along.
 *
 * The launch table is read once and never changed, so every operation is a
 * function of the table and of the control values.
 */
module SpaceXDash {
  import opened Wrappers
  import opened Seqs
  import opened Order

  /** The `class` column: 1 for a successful launch, 0 for a failed one. */
  type Bit = b: int | b == 0 || b == 1

  /** One row of the launch table: launch site, payload mass in kg, booster version category, class. */
  datatype Record = Record(site: string, payload: real, booster: string, cls: Bit)

  type Table = seq<Record>

  /** The dropdown value that stands for every launch site. */
  const AllSites := "ALL"

  /** `map_success`: the label the charts show for a class value. */
  function MapSuccess(value: Bit): (outcome: string)
    ensures outcome in {"Success", "Failure"}
    ensures outcome == "Success" <==> value == 1
  {
    if value == 1 then "Success" else "Failure"
  }

  // Reference counts, defined directly by recursion over the table.

  /** Number of successful launches. */
  function Successes(t: Table): nat
  {
    if t == [] then 0 else (if t[0].cls == 1 then 1 else 0) + Successes(t[1..])
  }

  /** Number of successful launches from `site`. */
  function SuccessesAt(t: Table, site: string): nat
  {
    if t == [] then 0 else (if t[0].cls == 1 && t[0].site == site then 1 else 0) + SuccessesAt(t[1..], site)
  }

  /** Number of launches from `site`. */
  function LaunchesAt(t: Table, site: string): nat
  {
    if t == [] then 0 else (if t[0].site == site then 1 else 0) + LaunchesAt(t[1..], site)
  }

  /** Number of launches from `site` whose class is `c`. */
  function OutcomesAt(t: Table, site: string, c: Bit): nat
  {
    if t == [] then 0 else (if t[0].site == site && t[0].cls == c then 1 else 0) + OutcomesAt(t[1..], site, c)
  }

  /** Every launch from a site is either a success or a failure. */
  lemma {:induction false} OutcomesSplit(t: Table, site: string)
    ensures OutcomesAt(t, site, 1) + OutcomesAt(t, site, 0) == LaunchesAt(t, site)
  {
    if t != [] {
      OutcomesSplit(t[1..], site);
    }
  }

  // Start-up: the payload bounds (the slider's limits and default value).

  /** `spacex_df['Payload Mass (kg)'].min()`; None (pandas' NaN) for an empty table. */
  function MinPayload(t: Table): (m: Option<real>)
    ensures m.None? <==> t == []
    ensures m.Some? ==> forall r :: r in t ==> m.value <= r.payload
    ensures m.Some? ==> exists r :: r in t && r.payload == m.value
  {
    if t == [] then None
    else match MinPayload(t[1..])
      case None => Some(t[0].payload)
      case Some(m) => Some(if t[0].payload <= m then t[0].payload else m)
  }

  /** `spacex_df['Payload Mass (kg)'].max()`; None (pandas' NaN) for an empty table. */
  function MaxPayload(t: Table): (m: Option<real>)
    ensures m.None? <==> t == []
    ensures m.Some? ==> forall r :: r in t ==> r.payload <= m.value
    ensures m.Some? ==> exists r :: r in t && r.payload == m.value
  {
    if t == [] then None
    else match MaxPayload(t[1..])
      case None => Some(t[0].payload)
      case Some(m) => Some(if m <= t[0].payload then t[0].payload else m)
  }

  /** The slider value `[min_payload, max_payload]` (a payload range, both ends inclusive). */
  datatype PayloadRange = PayloadRange(lo: real, hi: real)

  function DefaultRange(t: Table): (d: Option<PayloadRange>)
    ensures d.Some? <==> t != []
    ensures d.Some? ==> d.value == PayloadRange(MinPayload(t).value, MaxPayload(t).value)
    ensures d.Some? ==> d.value.lo <= d.value.hi
    ensures d.Some? ==> forall r :: r in t ==> d.value.lo <= r.payload <= d.value.hi
  {
    match (MinPayload(t), MaxPayload(t))
    case (Some(lo), Some(hi)) =>
      assert t[0] in t;
      Some(PayloadRange(lo, hi))
    case _ => None
  }

  // Row selections and columns used by both callbacks.

  /** `spacex_df[spacex_df["class"] == 1]` */
  function SuccessRows(t: Table): Table
  {
    Filter(t, (r: Record) => r.cls == 1)
  }

  /** `spacex_df[spacex_df["Launch Site"] == site]` */
  function SiteRows(t: Table, site: string): Table
  {
    Filter(t, (r: Record) => r.site == site)
  }

  /** The "Launch Site" column. */
  function SitesOf(rows: Table): seq<string>
  {
    Map(rows, (r: Record) => r.site)
  }

  /** The "class" column. */
  function ClassesOf(rows: Table): seq<Bit>
  {
    Map(rows, (r: Record) => r.cls)
  }

  lemma {:induction false} SuccessRowsCount(t: Table)
    ensures |SuccessRows(t)| == Successes(t)
  {
    if t != [] {
      SuccessRowsCount(t[1..]);
      assert SuccessRows(t) == (if t[0].cls == 1 then [t[0]] else []) + SuccessRows(t[1..]);
    }
  }

  lemma {:induction false} SuccessSiteCount(t: Table, site: string)
    ensures multiset(SitesOf(SuccessRows(t)))[site] == SuccessesAt(t, site)
  {
    if t != [] {
      SuccessSiteCount(t[1..], site);
      var head := if t[0].cls == 1 then [t[0]] else [];
      assert SuccessRows(t) == head + SuccessRows(t[1..]);
      MapConcat(head, SuccessRows(t[1..]), (r: Record) => r.site);
    }
  }

  lemma {:induction false} SiteRowsCount(t: Table, site: string)
    ensures |SiteRows(t, site)| == LaunchesAt(t, site)
  {
    if t != [] {
      SiteRowsCount(t[1..], site);
      assert SiteRows(t, site) == (if t[0].site == site then [t[0]] else []) + SiteRows(t[1..], site);
    }
  }

  lemma {:induction false} SiteClassCount(t: Table, site: string, c: Bit)
    ensures multiset(ClassesOf(SiteRows(t, site)))[c] == OutcomesAt(t, site, c)
  {
    if t != [] {
      SiteClassCount(t[1..], site, c);
      var head := if t[0].site == site then [t[0]] else [];
      assert SiteRows(t, site) == head + SiteRows(t[1..], site);
      MapConcat(head, SiteRows(t[1..], site), (r: Record) => r.cls);
    }
  }

  // The pie chart (`update_success_pie_chart`).

  /** A row of the single-site pie table: a class value, its count and its outcome label. */
  datatype OutcomeCount = OutcomeCount(cls: Bit, count: nat, outcome: string)

  /** The table behind the pie: successes per site for "ALL", launches per outcome for one site. */
  datatype PieData = BySite(sites: seq<Bucket<string>>) | ByOutcome(outcomes: seq<OutcomeCount>)

  /** The keyword arguments given to `px.pie` besides the table. */
  datatype PieParams = PieParams(
    values: string,
    names: string,
    color: Option<string>,
    colorMap: seq<(string, string)>,
    orderColumn: string,
    categoryOrder: seq<string>,
    title: string)

  datatype PieFigure = PieFigure(data: PieData, params: PieParams)

  /** For "ALL": the successful launches counted per launch site. */
  function PieBySite(t: Table): (bs: seq<Bucket<string>>)
    ensures DistinctKeys(bs)
    ensures forall i :: 0 <= i < |bs| ==> bs[i].count == SuccessesAt(t, bs[i].key) > 0
    ensures Total(bs) == Successes(t)
  {
    var sites := SitesOf(SuccessRows(t));
    ValueCountsCorrect(sites);
    assert forall i :: 0 <= i < |ValueCounts(sites)| ==>
      ValueCounts(sites)[i].count == SuccessesAt(t, ValueCounts(sites)[i].key) by {
      forall i | 0 <= i < |ValueCounts(sites)| {
        SuccessSiteCount(t, ValueCounts(sites)[i].key);
      }
    }
    SuccessRowsCount(t);
    ValueCounts(sites)
  }

  /** Adds the "Outcome" column to a class-count table. */
  function Relabel(bs: seq<Bucket<Bit>>): seq<OutcomeCount>
  {
    Map(bs, (b: Bucket<Bit>) => OutcomeCount(b.key, b.count, MapSuccess(b.key)))
  }

  /** For one site: that site's launches counted per class, each labelled with its outcome. */
  function PieByOutcome(t: Table, site: string): (slices: seq<OutcomeCount>)
    ensures forall i :: 0 <= i < |slices| ==>
      && slices[i].outcome == MapSuccess(slices[i].cls)
      && slices[i].count == OutcomesAt(t, site, slices[i].cls) > 0
    ensures forall i, j :: 0 <= i < j < |slices| ==> slices[i].cls != slices[j].cls
    ensures SliceTotal(slices) == LaunchesAt(t, site)
  {
    var classes := ClassesOf(SiteRows(t, site));
    var bs := ValueCounts(classes);
    ValueCountsCorrect(classes);
    assert forall i :: 0 <= i < |bs| ==> bs[i].count == OutcomesAt(t, site, bs[i].key) by {
      forall i | 0 <= i < |bs| {
        SiteClassCount(t, site, bs[i].key);
      }
    }
    RelabelTotal(bs);
    SiteRowsCount(t, site);
    Relabel(bs)
  }

  /** The sum of the counts of a single-site pie table. */
  function SliceTotal(slices: seq<OutcomeCount>): nat
  {
    if slices == [] then 0 else slices[0].count + SliceTotal(slices[1..])
  }

  /** The sum of the counts of the slices labelled `name`: the size of that slice of the pie. */
  function LabelTotal(slices: seq<OutcomeCount>, name: string): nat
  {
    if slices == [] then 0
    else (if slices[0].outcome == name then slices[0].count else 0) + LabelTotal(slices[1..], name)
  }

  const SuccessColors: seq<(string, string)> := [("Success", "green"), ("Failure", "tomato")]

  /** The data half of `update_success_pie_chart(selected)`. */
  function UpdateSuccessPieChart(t: Table, selected: string): (fig: PieFigure)
    ensures selected == AllSites ==>
      && fig.data == BySite(PieBySite(t))
      && fig.params.values == "count" && fig.params.names == "Launch Site"
      && fig.params.color == None && fig.params.colorMap == []
      && fig.params.title == "Total Successful Launches by Launch Site"
      && fig.params.orderColumn == "Launch Site"
      && StrictlySorted(fig.params.categoryOrder)
      && (forall s :: s in fig.params.categoryOrder <==> s in SitesOf(t))
    ensures selected != AllSites ==>
      && fig.data == ByOutcome(PieByOutcome(t, selected))
      && fig.params.values == "count" && fig.params.names == "Outcome"
      && fig.params.color == Some("Outcome")
      && fig.params.colorMap == SuccessColors
      && fig.params.orderColumn == "Outcome"
      && fig.params.categoryOrder == ["Success", "Failure"]
      && fig.params.title == "Success/Failure for Launch Site: " + selected
  {
    if selected == AllSites then
      PieFigure(
        BySite(PieBySite(t)),
        PieParams("count", "Launch Site", None, [], "Launch Site", SortedUnique(SitesOf(t)),
                  "Total Successful Launches by Launch Site"))
    else
      PieFigure(
        ByOutcome(PieByOutcome(t, selected)),
        PieParams("count", "Outcome", Some("Outcome"), SuccessColors, "Outcome", ["Success", "Failure"],
                  "Success/Failure for Launch Site: " + selected))
  }

  /**
   * For "ALL": a site is listed exactly when it has at least one success
   * (the counts themselves are stated by `PieBySite`).
   */
  lemma PieBySiteCounts(t: Table)
    ensures forall s :: s in Keys(PieBySite(t)) <==> SuccessesAt(t, s) > 0
  {
    var sites := SitesOf(SuccessRows(t));
    var bs := PieBySite(t);
    ValueCountsCorrect(sites);
    forall s ensures s in Keys(bs) <==> SuccessesAt(t, s) > 0 {
      SuccessSiteCount(t, s);
    }
  }

  /** Every site listed in the "ALL" pie table occurs in the launch table. */
  lemma PieBySiteFromSource(t: Table)
    ensures forall s :: s in Keys(PieBySite(t)) ==> s in SitesOf(t)
  {
    PieBySiteCounts(t);
    forall s | s in Keys(PieBySite(t)) ensures s in SitesOf(t) {
      SuccessesAtListed(t, s);
    }
  }

  lemma {:induction false} SuccessesAtListed(t: Table, s: string)
    requires SuccessesAt(t, s) > 0
    ensures s in SitesOf(t)
  {
    assert SitesOf(t) == [t[0].site] + SitesOf(t[1..]);
    if !(t[0].cls == 1 && t[0].site == s) {
      SuccessesAtListed(t[1..], s);
    }
  }

  /**
   * For "ALL" the legend lists every site of the table, sites without a
   * success included, while the pie table leaves such a site out.
   */
  lemma ZeroSuccessSiteInLegend(t: Table, s: string)
    requires s in SitesOf(t) && SuccessesAt(t, s) == 0
    ensures var fig := UpdateSuccessPieChart(t, AllSites);
      s in fig.params.categoryOrder && s !in Keys(fig.data.sites)
  {
    PieBySiteCounts(t);
  }

  /** The "ALL" legend order is the only ascending, repeat-free listing of the table's sites. */
  lemma CategoryOrderCanonical(t: Table, order: seq<string>)
    requires StrictlySorted(order)
    requires forall s :: s in order <==> s in SitesOf(t)
    ensures UpdateSuccessPieChart(t, AllSites).params.categoryOrder == order
  {
    StrictlySortedUnique(order, UpdateSuccessPieChart(t, AllSites).params.categoryOrder);
  }

  lemma {:induction false} RelabelTotal(bs: seq<Bucket<Bit>>)
    ensures SliceTotal(Relabel(bs)) == Total(bs)
  {
    if bs != [] {
      RelabelTotal(bs[1..]);
      assert Relabel(bs) == [Relabel(bs)[0]] + Relabel(bs[1..]);
    }
  }

  lemma {:induction false} RelabelLabelTotal(bs: seq<Bucket<Bit>>, c: Bit)
    requires DistinctKeys(bs)
    ensures LabelTotal(Relabel(bs), MapSuccess(c)) == Lookup(bs, c)
  {
    if bs != [] {
      RelabelLabelTotal(bs[1..], c);
      assert Relabel(bs) == [Relabel(bs)[0]] + Relabel(bs[1..]);
      if bs[0].key == c {
        LookupAbsent(bs[1..], c);
      }
    }
  }

  /**
   * For one site: the Success and Failure slices are the site's successes
   * and failures and add up to its launches; a site with no launches (one
   * absent from the data) gives an empty table. The per-slice counts are
   * stated by `PieByOutcome`.
   */
  lemma PieByOutcomeCounts(t: Table, site: string)
    ensures var slices := PieByOutcome(t, site);
      && LabelTotal(slices, "Success") == OutcomesAt(t, site, 1)
      && LabelTotal(slices, "Failure") == OutcomesAt(t, site, 0)
      && LabelTotal(slices, "Success") + LabelTotal(slices, "Failure") == LaunchesAt(t, site)
      && (slices == [] <==> LaunchesAt(t, site) == 0)
  {
    var classes := ClassesOf(SiteRows(t, site));
    var bs := ValueCounts(classes);
    ValueCountsCorrect(classes);
    RelabelLabelTotal(bs, 1);
    RelabelLabelTotal(bs, 0);
    SiteClassCount(t, site, 1);
    SiteClassCount(t, site, 0);
    OutcomesSplit(t, site);
    RelabelTotal(bs);
    SiteRowsCount(t, site);
    if bs != [] {
      assert Total(bs) >= bs[0].count > 0;
    }
  }

  /** A single-site pie gets the same labels, order, colours and title whatever the data. */
  lemma PieParamsIndependentOfData(t1: Table, t2: Table, site: string)
    requires site != AllSites
    ensures UpdateSuccessPieChart(t1, site).params == UpdateSuccessPieChart(t2, site).params
  {
  }

  // The scatter chart (`update_payload_scatter_chart`).

  /** A row of the scatter table: the launch and its outcome label. */
  datatype ScatterPoint = ScatterPoint(rec: Record, outcome: string)

  /** The arguments given to `px.scatter` and `update_traces` besides the table. */
  datatype ScatterParams = ScatterParams(x: string, y: string, color: string, markerSize: nat)

  datatype ScatterFigure = ScatterFigure(data: seq<ScatterPoint>, params: ScatterParams)

  /** A row from `site` is shown under the dropdown value `selected`. */
  predicate Selects(selected: string, site: string)
  {
    selected == AllSites || site == selected
  }

  /** All rows for "ALL", the site's rows otherwise. */
  function SelectSite(t: Table, selected: string): Table
  {
    if selected == AllSites then t else SiteRows(t, selected)
  }

  /** The rows whose payload lies in the range, both ends included. */
  function InPayloadRange(rows: Table, range: PayloadRange): Table
  {
    Filter(rows, (r: Record) => range.lo <= r.payload <= range.hi)
  }

  /** Adds the "Outcome" column. */
  function Labelled(rows: Table): seq<ScatterPoint>
  {
    Map(rows, (r: Record) => ScatterPoint(r, MapSuccess(r.cls)))
  }

  /** The launches the scatter points stand for. */
  function PointRecords(points: seq<ScatterPoint>): Table
  {
    Map(points, (p: ScatterPoint) => p.rec)
  }

  /**
   * The scatter table under the intended filter: the selected site, then the
   * payload range. Every point is a launch of the table from the selected
   * site (any site for "ALL") with its payload in the range, labelled with the
   * label of its class.
   */
  function ScatterData(t: Table, selected: string, range: PayloadRange): (points: seq<ScatterPoint>)
    ensures |points| <= |t|
    ensures forall i :: 0 <= i < |points| ==>
      && points[i].rec in t
      && Selects(selected, points[i].rec.site)
      && range.lo <= points[i].rec.payload <= range.hi
      && points[i].outcome == MapSuccess(points[i].rec.cls)
  {
    var sel := SelectSite(t, selected);
    var kept := InPayloadRange(sel, range);
    var points := Labelled(kept);
    assert forall i :: 0 <= i < |points| ==>
      && points[i].rec == kept[i] && points[i].outcome == MapSuccess(kept[i].cls)
      && kept[i] in t && Selects(selected, kept[i].site)
      && range.lo <= kept[i].payload <= range.hi
    by {
      forall i | 0 <= i < |points|
        ensures points[i].rec == kept[i] && points[i].outcome == MapSuccess(kept[i].cls)
        ensures kept[i] in t && Selects(selected, kept[i].site) && range.lo <= kept[i].payload <= range.hi
      {
        assert kept[i] in kept;
      }
    }
    points
  }

  /** The data half of `update_payload_scatter_chart(selected, payload)`. */
  function UpdatePayloadScatterChart(t: Table, selected: string, range: PayloadRange): (fig: ScatterFigure)
    ensures fig.data == ScatterData(t, selected, range)
    ensures forall i :: 0 <= i < |fig.data| ==> fig.data[i].outcome in {"Success", "Failure"}
    ensures fig.params == ScatterParams("Payload Mass (kg)", "Outcome", "Booster Version Category", 15)
  {
    ScatterFigure(ScatterData(t, selected, range),
                  ScatterParams("Payload Mass (kg)", "Outcome", "Booster Version Category", 15))
  }

  lemma PointsOfLabelled(rows: Table)
    ensures PointRecords(Labelled(rows)) == rows
  {
  }

  lemma SelectSiteMultiplicity(t: Table, selected: string, r: Record)
    ensures multiset(SelectSite(t, selected))[r] == if Selects(selected, r.site) then multiset(t)[r] else 0
  {
    if selected != AllSites {
      FilterMultiplicity(t, (r: Record) => r.site == selected, r);
    }
  }

  /**
   * Completeness, counted with multiplicity: a launch of the selected site in
   * the range appears as often as in the table, any other launch not at all.
   */
  lemma ScatterComplete(t: Table, selected: string, range: PayloadRange, r: Record)
    ensures multiset(PointRecords(ScatterData(t, selected, range)))[r] ==
      if Selects(selected, r.site) && range.lo <= r.payload <= range.hi then multiset(t)[r] else 0
  {
    var sel := SelectSite(t, selected);
    PointsOfLabelled(InPayloadRange(sel, range));
    FilterMultiplicity(sel, (r: Record) => range.lo <= r.payload <= range.hi, r);
    SelectSiteMultiplicity(t, selected, r);
  }

  /** The points keep the order the launches have in the table. */
  lemma ScatterOrderPreserving(t: Table, selected: string, range: PayloadRange)
    ensures IsSubsequence(PointRecords(ScatterData(t, selected, range)), t)
  {
    var sel := SelectSite(t, selected);
    PointsOfLabelled(InPayloadRange(sel, range));
    FilterIsSubsequence(sel, (r: Record) => range.lo <= r.payload <= range.hi);
    if selected == AllSites {
      SubsequenceReflexive(t);
    } else {
      FilterIsSubsequence(t, (r: Record) => r.site == selected);
    }
    SubsequenceTransitive(InPayloadRange(sel, range), sel, t);
  }

  /** An inverted range selects nothing. */
  lemma ScatterInvertedRangeEmpty(t: Table, selected: string, range: PayloadRange)
    requires range.lo > range.hi
    ensures ScatterData(t, selected, range) == []
  {
  }

  /** The slider's default range keeps every launch of the selected site. */
  lemma ScatterDefaultRangeKeepsAll(t: Table, selected: string)
    requires t != []
    ensures PointRecords(ScatterData(t, selected, DefaultRange(t).value)) == SelectSite(t, selected)
  {
    var range := DefaultRange(t).value;
    var sel := SelectSite(t, selected);
    assert forall r :: r in sel ==> r in t;
    FilterKeepsAll(sel, (r: Record) => range.lo <= r.payload <= range.hi);
    PointsOfLabelled(InPayloadRange(sel, range));
  }

  /** A range starting above the heaviest payload selects nothing. */
  lemma ScatterAboveMaxEmpty(t: Table, selected: string, range: PayloadRange)
    requires t != [] && range.lo > MaxPayload(t).value
    ensures ScatterData(t, selected, range) == []
  {
  }
}
