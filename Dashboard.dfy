/**
 * `getDrugSummaries` of the dashboard page: one summary per distinct
 * lower-cased drug name found in the adverse-event reports, with its
 * number of events, the number of those that are serious, the routes it was
 * given by, its pharmacological class and a slug, largest totals first.
 *
 * The specification walks the reports in scan order and turns every drug
 * entry with a name into an occurrence; the counts, routes and class of a
 * name are then read off the list of occurrences.
 */
module Dashboard {

  import opened Wrappers
  import opened Text
  import opened Tally
  import opened Sorting
  import opened Api
  import opened SearchDrugs

  // ===== The occurrences a scan visits =====

  /** A report is serious when its `serious` flag or any of the three narrower flags is "1". */
  predicate IsSerious(r: AdverseEventReport)
  {
    r.serious == "1"
    || r.seriousnessDeath == Some("1")
    || r.seriousnessHospitalization == Some("1")
    || r.seriousnessLifeThreatening == Some("1")
  }

  /** Only drug entries with a non-empty `medicinalproduct` are counted. */
  predicate IsNamed(d: Drug) { IsTruthy(d.medicinalProduct) }

  /** One counted drug entry: its lower-cased name, whether its report is serious, and the entry. */
  datatype Occurrence = Occurrence(key: string, serious: bool, drug: Drug)

  function OccurrenceOf(r: AdverseEventReport, d: Drug): Occurrence
    requires IsNamed(d)
  {
    Occurrence(ToLower(d.medicinalProduct.value), IsSerious(r), d)
  }

  /** The occurrences of the drug entries ds of report r, in order. */
  function DrugOccurrences(r: AdverseEventReport, ds: seq<Drug>): seq<Occurrence>
  {
    if ds == [] then []
    else
      var d := ds[|ds| - 1];
      DrugOccurrences(r, ds[..|ds| - 1]) + NamedOccurrence(r, d)
  }

  /** The occurrence of drug entry d, if it has a name. */
  function NamedOccurrence(r: AdverseEventReport, d: Drug): seq<Occurrence>
  {
    if IsNamed(d) then [OccurrenceOf(r, d)] else []
  }

  lemma DrugOccurrencesStep(r: AdverseEventReport, ds: seq<Drug>, j: nat)
    requires j < |ds|
    ensures DrugOccurrences(r, ds[..j + 1]) == DrugOccurrences(r, ds[..j]) + NamedOccurrence(r, ds[j])
  {
    assert ds[..j + 1][..j] == ds[..j];
  }

  /** The occurrences of all reports, in the order the `forEach` scans visit them. */
  function Occurrences(reports: seq<AdverseEventReport>): seq<Occurrence>
  {
    if reports == [] then []
    else
      var r := reports[|reports| - 1];
      Occurrences(reports[..|reports| - 1]) + DrugOccurrences(r, r.patient.drug)
  }

  /** The key of every occurrence. */
  function Keys(occ: seq<Occurrence>): seq<string>
  {
    if occ == [] then [] else Keys(occ[..|occ| - 1]) + [occ[|occ| - 1].key]
  }

  /** The key of every occurrence from a serious report. */
  function SeriousKeys(occ: seq<Occurrence>): seq<string>
  {
    if occ == [] then []
    else SeriousKeys(occ[..|occ| - 1]) + (if occ[|occ| - 1].serious then [occ[|occ| - 1].key] else [])
  }

  /** The non-empty `drugadministrationroute` values of the occurrences of key k, repeats included. */
  function RoutesOf(occ: seq<Occurrence>, k: string): seq<string>
  {
    if occ == [] then []
    else
      var o := occ[|occ| - 1];
      RoutesOf(occ[..|occ| - 1], k)
      + (if o.key == k && IsTruthy(o.drug.drugAdministrationRoute) then [o.drug.drugAdministrationRoute.value] else [])
  }

  /** `drug.openfda?.pharm_class_epc && drug.openfda.pharm_class_epc.length > 0` */
  predicate HasPharmClass(d: Drug)
  {
    d.openfda.Some? && d.openfda.value.pharmClassEpc.Some? && |d.openfda.value.pharmClassEpc.value| > 0
  }

  function FirstPharmClass(d: Drug): string
    requires HasPharmClass(d)
  {
    d.openfda.value.pharmClassEpc.value[0]
  }

  /** The first class of the last occurrence of k that has one: each such entry overwrites the previous. */
  function ClassOf(occ: seq<Occurrence>, k: string): Option<string>
  {
    if occ == [] then None
    else
      var o := occ[|occ| - 1];
      if o.key == k && HasPharmClass(o.drug) then Some(FirstPharmClass(o.drug)) else ClassOf(occ[..|occ| - 1], k)
  }

  /** `drugClasses[drugName] || 'Unknown'`: a missing or empty class reads as "Unknown". */
  function ClassLabel(c: Option<string>): (shown: string)
    ensures shown != ""
    ensures c.Some? && c.value != "" ==> shown == c.value
    ensures !(c.Some? && c.value != "") ==> shown == "Unknown"
  {
    if c.Some? && c.value != "" then c.value else "Unknown"
  }

  // ===== Summaries =====

  datatype DrugSummary = DrugSummary(
    drugName: string,
    totalEvents: nat,
    seriousEvents: nat,
    administrationRoutes: seq<string>,
    pharmacologicalClass: string,
    drugSlug: string)

  function SlugOf(s: DrugSummary): string { s.drugSlug }

  function TotalOf(s: DrugSummary): int { s.totalEvents }

  /** `b.totalEvents - a.totalEvents` as a comparator: larger totals first. */
  predicate MoreEvents(a: DrugSummary, b: DrugSummary) { a.totalEvents >= b.totalEvents }

  /** The summary of key k, read off the occurrences. */
  function SummaryFor(occ: seq<Occurrence>, k: string): DrugSummary
  {
    DrugSummary(
      Capitalize(k),
      Occ(Keys(occ), k),
      Occ(SeriousKeys(occ), k),
      Dedup(RoutesOf(occ, k)),
      ClassLabel(ClassOf(occ, k)),
      k)
  }

  /** A name is serious in at most as many events as it occurs in. */
  lemma {:induction false} SeriousAtMostTotal(occ: seq<Occurrence>, k: string)
    ensures Occ(SeriousKeys(occ), k) <= Occ(Keys(occ), k)
  {
    if occ != [] {
      var prefix := occ[..|occ| - 1];
      var o := occ[|occ| - 1];
      SeriousAtMostTotal(prefix, k);
      assert Keys(occ) == Keys(prefix) + [o.key];
      OccAppend(Keys(prefix), o.key, k);
      if o.serious {
        assert SeriousKeys(occ) == SeriousKeys(prefix) + [o.key];
        OccAppend(SeriousKeys(prefix), o.key, k);
      } else {
        assert SeriousKeys(occ) == SeriousKeys(prefix);
      }
    }
  }

  // ===== The first pass: event counts =====

  datatype EventCounts = EventCounts(total: nat, serious: nat)

  /** `drugEventCounts` and its key order after the first pass has visited occ. */
  ghost predicate Counted(counts: map<string, EventCounts>, order: seq<string>, occ: seq<Occurrence>)
  {
    && order == Dedup(Keys(occ))
    && (forall k :: k in counts <==> k in Keys(occ))
    && (forall k :: k in counts ==> counts[k].total == Occ(Keys(occ), k))
    && (forall k :: k in counts ==> counts[k].serious == Occ(SeriousKeys(occ), k))
  }

  /** The counts after one more event of drugName. */
  function CountOne(counts: map<string, EventCounts>, drugName: string, serious: bool): map<string, EventCounts>
  {
    var c := if drugName in counts then counts[drugName] else EventCounts(0, 0);
    counts[drugName := EventCounts(c.total + 1, c.serious + if serious then 1 else 0)]
  }

  lemma CountedStep(counts: map<string, EventCounts>, order: seq<string>, occ: seq<Occurrence>, o: Occurrence)
    requires Counted(counts, order, occ)
    ensures Counted(CountOne(counts, o.key, o.serious), if o.key in counts then order else order + [o.key], occ + [o])
  {
    var occ' := occ + [o];
    var counts' := CountOne(counts, o.key, o.serious);
    var ks := Keys(occ);
    assert occ'[..|occ|] == occ;
    assert Keys(occ') == ks + [o.key];
    assert (ks + [o.key])[..|ks|] == ks;
    DedupMember(ks, o.key);
    assert Dedup(Keys(occ')) == if o.key in counts then order else order + [o.key];
    forall k ensures k in counts' <==> k in Keys(occ') {
    }
    forall k | k in counts' ensures counts'[k].total == Occ(Keys(occ'), k) {
      OccAppend(ks, o.key, k);
      OccPositive(ks, k);
    }
    forall k | k in counts' ensures counts'[k].serious == Occ(SeriousKeys(occ'), k) {
      OccPositive(ks, k);
      SeriousAtMostTotal(occ, k);
      if o.serious {
        assert SeriousKeys(occ') == SeriousKeys(occ) + [o.key];
        OccAppend(SeriousKeys(occ), o.key, k);
      } else {
        assert SeriousKeys(occ') == SeriousKeys(occ);
      }
    }
  }

  /** The body of the first pass for one named drug entry. */
  method CountEvent(counts: map<string, EventCounts>, order: seq<string>, drugName: string, serious: bool)
    returns (counts': map<string, EventCounts>, order': seq<string>)
    ensures counts' == CountOne(counts, drugName, serious)
    ensures order' == if drugName in counts then order else order + [drugName]
  {
    counts', order' := counts, order;
    if drugName !in counts' {
      counts' := counts'[drugName := EventCounts(0, 0)];
      order' := order' + [drugName];
    }
    counts' := counts'[drugName := counts'[drugName].(total := counts'[drugName].total + 1)];
    if serious {
      counts' := counts'[drugName := counts'[drugName].(serious := counts'[drugName].serious + 1)];
    }
  }

  /** The inner `forEach` of the first pass, over the drug entries of one report. */
  method CountReport(counts: map<string, EventCounts>, order: seq<string>, ghost seen: seq<Occurrence>, report: AdverseEventReport)
    returns (counts': map<string, EventCounts>, order': seq<string>)
    requires Counted(counts, order, seen)
    ensures Counted(counts', order', seen + DrugOccurrences(report, report.patient.drug))
  {
    var drugs := report.patient.drug;
    counts', order' := counts, order;
    var j := 0;
    assert seen + DrugOccurrences(report, drugs[..0]) == seen;
    while j < |drugs|
      invariant 0 <= j <= |drugs|
      invariant Counted(counts', order', seen + DrugOccurrences(report, drugs[..j]))
    {
      var drug := drugs[j];
      ghost var before := seen + DrugOccurrences(report, drugs[..j]);
      DrugOccurrencesStep(report, drugs, j);
      assert seen + DrugOccurrences(report, drugs[..j + 1]) == before + NamedOccurrence(report, drug);
      if IsTruthy(drug.medicinalProduct) {
        var drugName := ToLower(drug.medicinalProduct.value);
        CountedStep(counts', order', before, OccurrenceOf(report, drug));
        counts', order' := CountEvent(counts', order', drugName, IsSerious(report));
      } else {
        assert before + NamedOccurrence(report, drug) == before;
      }
      j := j + 1;
    }
    assert drugs[..j] == drugs;
  }

  // ===== The second pass: routes and classes =====

  /** `drugRoutes`, each `Set` as its insertion-ordered elements, after the second pass has visited occ. */
  ghost predicate RoutesCollected(routes: map<string, seq<string>>, occ: seq<Occurrence>)
  {
    && (forall k :: k in routes <==> k in Keys(occ))
    && (forall k :: k in routes ==> routes[k] == Dedup(RoutesOf(occ, k)))
  }

  /** `drugClasses` after the second pass has visited occ. */
  ghost predicate ClassesCollected(classes: map<string, string>, occ: seq<Occurrence>)
  {
    forall k :: (k in classes <==> ClassOf(occ, k).Some?) && (k in classes ==> classes[k] == ClassOf(occ, k).value)
  }

  ghost predicate Collected(routes: map<string, seq<string>>, classes: map<string, string>, occ: seq<Occurrence>)
  {
    RoutesCollected(routes, occ) && ClassesCollected(classes, occ)
  }

  /** `drugRoutes[drugName]`, created empty if missing, with the entry's route added. */
  function RouteOne(routes: map<string, seq<string>>, drugName: string, drug: Drug): map<string, seq<string>>
  {
    var seen := if drugName in routes then routes[drugName] else [];
    var route := drug.drugAdministrationRoute;
    routes[drugName := if IsTruthy(route) && route.value !in seen then seen + [route.value] else seen]
  }

  /** `drugClasses[drugName]` overwritten by the entry's first class when it has one. */
  function ClassOne(classes: map<string, string>, drugName: string, drug: Drug): map<string, string>
  {
    if HasPharmClass(drug) then classes[drugName := FirstPharmClass(drug)] else classes
  }

  lemma DedupAppend(s: seq<string>, x: string)
    ensures Dedup(s + [x]) == if x in Dedup(s) then Dedup(s) else Dedup(s) + [x]
  {
    assert (s + [x])[..|s|] == s;
  }

  lemma RoutesStep(routes: map<string, seq<string>>, occ: seq<Occurrence>, o: Occurrence)
    requires RoutesCollected(routes, occ)
    ensures RoutesCollected(RouteOne(routes, o.key, o.drug), occ + [o])
  {
    forall k
      ensures k in RouteOne(routes, o.key, o.drug) <==> k in Keys(occ + [o])
      ensures k in RouteOne(routes, o.key, o.drug) ==> RouteOne(routes, o.key, o.drug)[k] == Dedup(RoutesOf(occ + [o], k))
    {
      RouteStepAt(routes, occ, o, k);
    }
  }

  /** RoutesStep for a single name k. */
  lemma RouteStepAt(routes: map<string, seq<string>>, occ: seq<Occurrence>, o: Occurrence, k: string)
    requires k in routes <==> k in Keys(occ)
    requires k in routes ==> routes[k] == Dedup(RoutesOf(occ, k))
    ensures k in RouteOne(routes, o.key, o.drug) <==> k in Keys(occ + [o])
    ensures k in RouteOne(routes, o.key, o.drug) ==> RouteOne(routes, o.key, o.drug)[k] == Dedup(RoutesOf(occ + [o], k))
  {
    var occ' := occ + [o];
    assert occ'[..|occ|] == occ;
    assert Keys(occ') == Keys(occ) + [o.key];
    var route := o.drug.drugAdministrationRoute;
    if k == o.key {
      if k !in routes {
        RoutesOfKeys(occ, k);
      }
      if IsTruthy(route) {
        assert RoutesOf(occ', k) == RoutesOf(occ, k) + [route.value];
        DedupAppend(RoutesOf(occ, k), route.value);
      } else {
        assert RoutesOf(occ', k) == RoutesOf(occ, k);
      }
    } else {
      assert RoutesOf(occ', k) == RoutesOf(occ, k);
    }
  }

  lemma ClassesStep(classes: map<string, string>, occ: seq<Occurrence>, o: Occurrence)
    requires ClassesCollected(classes, occ)
    ensures ClassesCollected(ClassOne(classes, o.key, o.drug), occ + [o])
  {
    assert (occ + [o])[..|occ|] == occ;
  }

  lemma CollectedStep(routes: map<string, seq<string>>, classes: map<string, string>, occ: seq<Occurrence>, o: Occurrence)
    requires Collected(routes, classes, occ)
    ensures Collected(RouteOne(routes, o.key, o.drug), ClassOne(classes, o.key, o.drug), occ + [o])
  {
    RoutesStep(routes, occ, o);
    ClassesStep(classes, occ, o);
  }

  /** Only a name that occurs has routes. */
  lemma {:induction false} RoutesOfKeys(occ: seq<Occurrence>, k: string)
    requires k !in Keys(occ)
    ensures RoutesOf(occ, k) == []
  {
    if occ != [] {
      var prefix := occ[..|occ| - 1];
      assert Keys(occ) == Keys(prefix) + [occ[|occ| - 1].key];
      RoutesOfKeys(prefix, k);
    }
  }

  /** The body of the second pass for one named drug entry. */
  method CollectDrug(routes: map<string, seq<string>>, classes: map<string, string>, drugName: string, drug: Drug)
    returns (routes': map<string, seq<string>>, classes': map<string, string>)
    ensures routes' == RouteOne(routes, drugName, drug)
    ensures classes' == ClassOne(classes, drugName, drug)
  {
    routes', classes' := routes, classes;
    if drugName !in routes' {
      routes' := routes'[drugName := []];
    }
    if IsTruthy(drug.drugAdministrationRoute) {
      var route := drug.drugAdministrationRoute.value;
      if route !in routes'[drugName] {
        routes' := routes'[drugName := routes'[drugName] + [route]];
      }
    }
    if HasPharmClass(drug) {
      classes' := classes'[drugName := drug.openfda.value.pharmClassEpc.value[0]];
    }
  }

  /** The inner `forEach` of the second pass, over the drug entries of one report. */
  method CollectReport(routes: map<string, seq<string>>, classes: map<string, string>, ghost seen: seq<Occurrence>, report: AdverseEventReport)
    returns (routes': map<string, seq<string>>, classes': map<string, string>)
    requires Collected(routes, classes, seen)
    ensures Collected(routes', classes', seen + DrugOccurrences(report, report.patient.drug))
  {
    var drugs := report.patient.drug;
    routes', classes' := routes, classes;
    var j := 0;
    assert seen + DrugOccurrences(report, drugs[..0]) == seen;
    while j < |drugs|
      invariant 0 <= j <= |drugs|
      invariant Collected(routes', classes', seen + DrugOccurrences(report, drugs[..j]))
    {
      var drug := drugs[j];
      ghost var before := seen + DrugOccurrences(report, drugs[..j]);
      DrugOccurrencesStep(report, drugs, j);
      assert seen + DrugOccurrences(report, drugs[..j + 1]) == before + NamedOccurrence(report, drug);
      if IsTruthy(drug.medicinalProduct) {
        var drugName := ToLower(drug.medicinalProduct.value);
        CollectedStep(routes', classes', before, OccurrenceOf(report, drug));
        routes', classes' := CollectDrug(routes', classes', drugName, drug);
      } else {
        assert before + NamedOccurrence(report, drug) == before;
      }
      j := j + 1;
    }
    assert drugs[..j] == drugs;
  }

  // ===== Combining =====

  /** `Object.entries(drugEventCounts).map(...)`: one summary per counted name, in key order. */
  function Combine(order: seq<string>, counts: map<string, EventCounts>, routes: map<string, seq<string>>, classes: map<string, string>)
    : seq<DrugSummary>
    requires forall k :: k in order ==> k in counts
  {
    seq(|order|, i requires 0 <= i < |order| =>
      var k := order[i];
      DrugSummary(
        Capitalize(k),
        counts[k].total,
        counts[k].serious,
        if k in routes then routes[k] else [],
        ClassLabel(if k in classes then Some(classes[k]) else None),
        k))
  }

  /** The first pass over all reports. */
  method CountEvents(reports: seq<AdverseEventReport>) returns (counts: map<string, EventCounts>, order: seq<string>)
    ensures Counted(counts, order, Occurrences(reports))
  {
    counts, order := map[], [];
    var i := 0;
    while i < |reports|
      invariant 0 <= i <= |reports|
      invariant Counted(counts, order, Occurrences(reports[..i]))
    {
      assert reports[..i + 1][..i] == reports[..i];
      counts, order := CountReport(counts, order, Occurrences(reports[..i]), reports[i]);
      i := i + 1;
    }
    assert reports[..i] == reports;
  }

  /** The second pass over all reports. */
  method CollectRoutes(reports: seq<AdverseEventReport>) returns (routes: map<string, seq<string>>, classes: map<string, string>)
    ensures Collected(routes, classes, Occurrences(reports))
  {
    routes, classes := map[], map[];
    var i := 0;
    while i < |reports|
      invariant 0 <= i <= |reports|
      invariant Collected(routes, classes, Occurrences(reports[..i]))
    {
      assert reports[..i + 1][..i] == reports[..i];
      routes, classes := CollectReport(routes, classes, Occurrences(reports[..i]), reports[i]);
      i := i + 1;
    }
    assert reports[..i] == reports;
  }

  /**
   * `getDrugSummaries`: nothing without results; otherwise one summary per
   * distinct lower-cased drug name, each equal to the summary read off the
   * occurrences, with totals that add up to the number of named drug
   * entries, largest totals first.
   */
  method DrugSummaries(results: Option<seq<AdverseEventReport>>) returns (summaries: seq<DrugSummary>)
    ensures results.None? ==> summaries == []
    ensures results.Some? ==> DistinctBy(summaries, SlugOf)
    ensures results.Some? ==> forall k :: k in KeysBy(summaries, SlugOf) <==> k in Keys(Occurrences(results.value))
    ensures results.Some? ==> forall e :: e in summaries ==> e == SummaryFor(Occurrences(results.value), e.drugSlug)
    ensures results.Some? ==> SumBy(summaries, TotalOf) == |Occurrences(results.value)|
    ensures Sorted(summaries, MoreEvents)
  {
    if results.None? {
      return [];
    }
    var reports := results.value;
    var counts, order := CountEvents(reports);
    var routes, classes := CollectRoutes(reports);
    ghost var occ := Occurrences(reports);
    DedupSpec(Keys(occ));
    var entries := Combine(order, counts, routes, classes);
    summaries := SortBy(entries, MoreEvents);
    EntriesAreSummaries(order, counts, routes, classes, occ);
    assert KeysBy(entries, SlugOf) == order;
    KeysLength(occ);
    SortedTally(entries, MoreEvents, SlugOf, TotalOf, Keys(occ));
    SortBySorted(entries, MoreEvents);
    forall e | e in summaries ensures e == SummaryFor(occ, e.drugSlug) {
      assert e in multiset(entries);
    }
  }

  lemma EntriesAreSummaries(order: seq<string>, counts: map<string, EventCounts>, routes: map<string, seq<string>>,
                            classes: map<string, string>, occ: seq<Occurrence>)
    requires Counted(counts, order, occ) && Collected(routes, classes, occ)
    ensures forall k :: k in order ==> k in counts
    ensures forall i :: 0 <= i < |order| ==> Combine(order, counts, routes, classes)[i] == SummaryFor(occ, order[i])
  {
    DedupSpec(Keys(occ));
  }

  lemma {:induction false} KeysLength(occ: seq<Occurrence>)
    ensures |Keys(occ)| == |occ|
  {
    if occ != [] {
      KeysLength(occ[..|occ| - 1]);
    }
  }

  // ===== Properties of the summaries =====

  /** A counted name has at least one event, and no more serious events than events. */
  lemma SummaryCounts(occ: seq<Occurrence>, k: string)
    requires k in Keys(occ)
    ensures 1 <= SummaryFor(occ, k).totalEvents
    ensures SummaryFor(occ, k).seriousEvents <= SummaryFor(occ, k).totalEvents
  {
    OccPositive(Keys(occ), k);
    SeriousAtMostTotal(occ, k);
  }

  /** The reports flagged serious, in order. */
  function SeriousReports(reports: seq<AdverseEventReport>): seq<AdverseEventReport>
  {
    if reports == [] then []
    else
      var r := reports[|reports| - 1];
      SeriousReports(reports[..|reports| - 1]) + if IsSerious(r) then [r] else []
  }

  lemma {:induction false} KeysConcat(a: seq<Occurrence>, b: seq<Occurrence>)
    ensures Keys(a + b) == Keys(a) + Keys(b)
  {
    if b == [] {
      assert a + b == a;
    } else {
      var b' := b[..|b| - 1];
      assert (a + b)[..|a + b| - 1] == a + b';
      KeysConcat(a, b');
    }
  }

  lemma {:induction false} SeriousKeysConcat(a: seq<Occurrence>, b: seq<Occurrence>)
    ensures SeriousKeys(a + b) == SeriousKeys(a) + SeriousKeys(b)
  {
    if b == [] {
      assert a + b == a;
    } else {
      var b' := b[..|b| - 1];
      assert (a + b)[..|a + b| - 1] == a + b';
      SeriousKeysConcat(a, b');
    }
  }

  /** Every occurrence of a report carries the report's seriousness. */
  lemma {:induction false} DrugSeriousKeys(r: AdverseEventReport, ds: seq<Drug>)
    ensures SeriousKeys(DrugOccurrences(r, ds)) == if IsSerious(r) then Keys(DrugOccurrences(r, ds)) else []
  {
    if ds != [] {
      var d := ds[|ds| - 1];
      var prefix := DrugOccurrences(r, ds[..|ds| - 1]);
      DrugSeriousKeys(r, ds[..|ds| - 1]);
      KeysConcat(prefix, NamedOccurrence(r, d));
      SeriousKeysConcat(prefix, NamedOccurrence(r, d));
      if IsNamed(d) {
        assert [OccurrenceOf(r, d)][..0] == [];
      }
    }
  }

  /**
   * `seriousEvents` counts a name's events in the serious reports only: the
   * serious keys of all reports are the keys of the serious reports.
   */
  lemma {:induction false} SeriousFromReports(reports: seq<AdverseEventReport>)
    ensures SeriousKeys(Occurrences(reports)) == Keys(Occurrences(SeriousReports(reports)))
  {
    if reports != [] {
      var prefix := reports[..|reports| - 1];
      var r := reports[|reports| - 1];
      SeriousFromReports(prefix);
      SeriousKeysConcat(Occurrences(prefix), DrugOccurrences(r, r.patient.drug));
      DrugSeriousKeys(r, r.patient.drug);
      if IsSerious(r) {
        var sr := SeriousReports(prefix) + [r];
        assert sr[..|sr| - 1] == SeriousReports(prefix);
        KeysConcat(Occurrences(SeriousReports(prefix)), DrugOccurrences(r, r.patient.drug));
      } else {
        assert SeriousReports(reports) == SeriousReports(prefix);
      }
    }
  }

  /** Drug entry d has a name that lower-cases to k. */
  predicate NamedAs(d: Drug, k: string)
  {
    IsNamed(d) && ToLower(d.medicinalProduct.value) == k
  }

  lemma NamedKeys(r: AdverseEventReport, d: Drug)
    ensures Keys(NamedOccurrence(r, d)) == if IsNamed(d) then [ToLower(d.medicinalProduct.value)] else []
  {
    if IsNamed(d) {
      assert [OccurrenceOf(r, d)][..0] == [];
    }
  }

  /** Some entry of ds has a name that lower-cases to k. */
  predicate NamedIn(ds: seq<Drug>, k: string)
  {
    exists j :: 0 <= j < |ds| && NamedAs(ds[j], k)
  }

  lemma NamedInStep(ds: seq<Drug>, k: string)
    requires ds != []
    ensures NamedIn(ds, k) <==> NamedIn(ds[..|ds| - 1], k) || NamedAs(ds[|ds| - 1], k)
  {
    var ds' := ds[..|ds| - 1];
    if NamedIn(ds', k) {
      var j :| 0 <= j < |ds'| && NamedAs(ds'[j], k);
      assert ds[j] == ds'[j];
    }
    if NamedIn(ds, k) {
      var j :| 0 <= j < |ds| && NamedAs(ds[j], k);
      if j < |ds'| {
        assert ds'[j] == ds[j];
      }
    }
  }

  lemma {:induction false} KeysOfDrugs(r: AdverseEventReport, ds: seq<Drug>, k: string)
    ensures k in Keys(DrugOccurrences(r, ds)) <==> NamedIn(ds, k)
  {
    if ds != [] {
      var ds' := ds[..|ds| - 1];
      var d := ds[|ds| - 1];
      KeysOfDrugs(r, ds', k);
      KeysConcat(DrugOccurrences(r, ds'), NamedOccurrence(r, d));
      NamedKeys(r, d);
      NamedInStep(ds, k);
    }
  }

  /** Some drug entry of report r has a name that lower-cases to k. */
  predicate InReport(r: AdverseEventReport, k: string)
  {
    NamedIn(r.patient.drug, k)
  }

  /** A name is counted exactly when some drug entry of some report lower-cases to it. */
  lemma {:induction false} KeysOfReports(reports: seq<AdverseEventReport>, k: string)
    ensures k in Keys(Occurrences(reports)) <==> exists i :: 0 <= i < |reports| && InReport(reports[i], k)
  {
    if reports != [] {
      var prefix := reports[..|reports| - 1];
      var r := reports[|reports| - 1];
      KeysOfReports(prefix, k);
      KeysConcat(Occurrences(prefix), DrugOccurrences(r, r.patient.drug));
      KeysOfDrugs(r, r.patient.drug, k);
      if exists i :: 0 <= i < |prefix| && InReport(prefix[i], k) {
        var i :| 0 <= i < |prefix| && InReport(prefix[i], k);
        assert reports[i] == prefix[i];
      }
      if exists i :: 0 <= i < |reports| && InReport(reports[i], k) {
        var i :| 0 <= i < |reports| && InReport(reports[i], k);
        if i < |prefix| {
          assert prefix[i] == reports[i];
        }
      }
    }
  }

  /**
   * The displayed name is the key with its first letter upper-cased, so
   * lower-casing it gives the slug back.
   */
  lemma SummaryName(reports: seq<AdverseEventReport>, k: string)
    requires k in Keys(Occurrences(reports))
    ensures var name := SummaryFor(Occurrences(reports), k).drugName;
      && |name| == |k| > 0
      && name[0] == UpperChar(k[0]) && name[1..] == k[1..]
      && ToLower(name) == SummaryFor(Occurrences(reports), k).drugSlug
  {
    KeysOfReports(reports, k);
    var i :| 0 <= i < |reports| && InReport(reports[i], k);
    var j :| 0 <= j < |reports[i].patient.drug| && NamedAs(reports[i].patient.drug[j], k);
    CapitalizeInverse(k);
  }

  /** Occurrence o is of name k and carries route x. */
  predicate GivesRoute(o: Occurrence, k: string, x: string)
  {
    o.key == k && IsTruthy(o.drug.drugAdministrationRoute) && o.drug.drugAdministrationRoute.value == x
  }

  lemma {:induction false} RoutesOfMember(occ: seq<Occurrence>, k: string, x: string)
    ensures x in RoutesOf(occ, k) <==> exists i :: 0 <= i < |occ| && GivesRoute(occ[i], k, x)
  {
    if occ != [] {
      var prefix := occ[..|occ| - 1];
      RoutesOfMember(prefix, k, x);
      if exists i :: 0 <= i < |prefix| && GivesRoute(prefix[i], k, x) {
        var i :| 0 <= i < |prefix| && GivesRoute(prefix[i], k, x);
        assert occ[i] == prefix[i];
      }
      if exists i :: 0 <= i < |occ| && GivesRoute(occ[i], k, x) {
        var i :| 0 <= i < |occ| && GivesRoute(occ[i], k, x);
        if i < |prefix| {
          assert prefix[i] == occ[i];
        }
      }
    }
  }

  /** The routes of a summary are distinct, and are exactly the routes given with the name. */
  lemma SummaryRoutes(occ: seq<Occurrence>, k: string)
    ensures NoDup(SummaryFor(occ, k).administrationRoutes)
    ensures forall x :: x in SummaryFor(occ, k).administrationRoutes <==> exists i :: 0 <= i < |occ| && GivesRoute(occ[i], k, x)
  {
    DedupSpec(RoutesOf(occ, k));
    forall x ensures x in RoutesOf(occ, k) <==> exists i :: 0 <= i < |occ| && GivesRoute(occ[i], k, x) {
      RoutesOfMember(occ, k, x);
    }
  }

  /** Occurrence o is of name k and lists a pharmacological class. */
  predicate ClassAt(o: Occurrence, k: string)
  {
    o.key == k && HasPharmClass(o.drug)
  }

  /**
   * The class of a name comes from the last of its occurrences that lists
   * one, and there is none exactly when no occurrence lists one.
   */
  lemma {:induction false} ClassOfLast(occ: seq<Occurrence>, k: string)
    ensures ClassOf(occ, k).None? <==> forall i :: 0 <= i < |occ| ==> !ClassAt(occ[i], k)
    ensures ClassOf(occ, k).Some? ==> exists i :: (0 <= i < |occ| && ClassAt(occ[i], k)
      && ClassOf(occ, k).value == FirstPharmClass(occ[i].drug)
      && forall j :: i < j < |occ| ==> !ClassAt(occ[j], k))
  {
    if occ != [] {
      var prefix := occ[..|occ| - 1];
      var last := |occ| - 1;
      ClassOfLast(prefix, k);
      if !ClassAt(occ[last], k) {
        assert forall i :: 0 <= i < |prefix| ==> prefix[i] == occ[i];
        if ClassOf(prefix, k).Some? {
          var i :| 0 <= i < |prefix| && ClassAt(prefix[i], k)
            && ClassOf(prefix, k).value == FirstPharmClass(prefix[i].drug)
            && forall j :: i < j < |prefix| ==> !ClassAt(prefix[j], k);
          assert forall j :: i < j < |occ| ==> !ClassAt(occ[j], k);
        }
      }
    }
  }

  // ===== The query the dashboard sends =====

  /** The `fetchAdverseEvents` arguments built from the submitted filters: an empty name or list is left out. */
  function EventsQueryFor(filters: SearchFilters): EventQuery
  {
    EventQuery(
      if filters.drugName != "" then Some(filters.drugName) else None,
      if |filters.seriousness| > 0 then Some(filters.seriousness) else None,
      Some(100),
      None,
      None)
  }

  /** Ticking a seriousness box makes the next query send its parameter; unticking it stops that. */
  lemma TickSendsFlag(filters: SearchFilters, i: nat)
    requires i < |SERIOUSNESS_OPTIONS|
    ensures var ticked := HandleSeriousnessChange(filters, SERIOUSNESS_OPTIONS[i].value);
      ValuesOf(EventParams(EventsQueryFor(ticked)), SERIOUSNESS_PARAMS[i].1)
        == if SERIOUSNESS_OPTIONS[i].value in filters.seriousness then [] else ["1"]
  {
    var v := SERIOUSNESS_OPTIONS[i].value;
    var ticked := HandleSeriousnessChange(filters, v);
    OptionSelectsFlag(EventsQueryFor(ticked), i);
    ToggleMembership(filters.seriousness, v, v);
  }

  /** Without a drug name the dashboard's query carries `limit=100` twice, otherwise once. */
  lemma DashboardLimit(filters: SearchFilters)
    ensures ValuesOf(EventParams(EventsQueryFor(filters)), Limit)
      == if filters.drugName == "" then ["100", "100"] else ["100"]
  {
    EventLimitParams(EventsQueryFor(filters));
    assert IntString(100) == "100" by {
      assert NatString(100) == NatString(10) + [DigitChar(0)];
      assert NatString(10) == NatString(1) + [DigitChar(0)];
    }
  }
}
