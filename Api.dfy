/**
 * The client of the FDA adverse-event and Drugs@FDA endpoints: the record
 * shapes of their responses, the query parameters each fetch builds, the
 * fallback of a failed fetch to an empty response, and the manufacturer and
 * monthly counts computed from a list of reports.
 */
module Api {

  import opened Wrappers
  import opened Text
  import opened Tally
  import opened Sorting

  // ===== Data model =====

  datatype OpenFda = OpenFda(
    manufacturerName: Option<seq<string>>,
    brandName: Option<seq<string>>,
    genericName: Option<seq<string>>,
    route: Option<seq<string>>,
    pharmClassEpc: Option<seq<string>>)

  /** A drug entry of a report; a missing `medicinalproduct` is None. */
  datatype Drug = Drug(
    drugCharacterization: string,
    medicinalProduct: Option<string>,
    drugAdministrationRoute: Option<string>,
    drugIndication: Option<string>,
    actionDrug: Option<string>,
    openfda: Option<OpenFda>)

  datatype Reaction = Reaction(reactionMeddraPt: string, reactionOutcome: string)

  datatype Patient = Patient(drug: seq<Drug>, reaction: Option<seq<Reaction>>)

  datatype AdverseEventReport = AdverseEventReport(
    safetyReportId: string,
    receiveDate: string,
    serious: string,
    seriousnessDeath: Option<string>,
    seriousnessHospitalization: Option<string>,
    seriousnessLifeThreatening: Option<string>,
    patient: Patient)

  datatype Submission = Submission(
    submissionType: string,
    submissionNumber: string,
    submissionStatus: string,
    submissionStatusDate: string,
    submissionClassCode: Option<string>,
    submissionClassCodeDescription: Option<string>,
    reviewPriority: Option<string>)

  datatype ActiveIngredient = ActiveIngredient(name: string, strength: string)

  datatype Product = Product(
    productNumber: string,
    referenceDrug: string,
    brandName: string,
    activeIngredients: seq<ActiveIngredient>,
    referenceStandard: string,
    dosageForm: string,
    route: string,
    marketingStatus: string,
    teCode: string)

  datatype DrugInfo = DrugInfo(
    submissions: seq<Submission>,
    applicationNumber: string,
    sponsorName: string,
    products: seq<Product>)

  datatype Meta = Meta(total: int, limit: int, skip: int)

  /** The body of either endpoint: `AdverseEventsResponse` or `DrugInfoResponse`. */
  datatype Response<T> = Response(meta: Meta, results: seq<T>)

  /** JavaScript truthiness of an optional string or number. */
  predicate IsTruthy(s: Option<string>) { s.Some? && s.value != "" }

  predicate IsNonZero(n: Option<int>) { n.Some? && n.value != 0 }

  // ===== Query parameters =====

  /** The parameter names the two fetches use. */
  datatype ParamName =
    | Search | Limit | Skip | ReceiveDate
    | SeriousnessDeath | SeriousnessHospitalization | SeriousnessLifeThreatening
  {
    /** The name as it appears in the query string. */
    function Text(): string
    {
      match this
      case Search => "search"
      case Limit => "limit"
      case Skip => "skip"
      case ReceiveDate => "receivedate"
      case SeriousnessDeath => "seriousnessdeath"
      case SeriousnessHospitalization => "seriousnesshospitalization"
      case SeriousnessLifeThreatening => "seriousnesslifethreatening"
    }
  }

  type Param = (ParamName, string)

  /** `URLSearchParams`: an ordered list of name/value pairs; names may repeat. */
  class SearchParams {
    var entries: seq<Param>

    constructor ()
      ensures entries == []
    {
      entries := [];
    }

    method Append(name: ParamName, value: string)
      modifies this
      ensures entries == old(entries) + [(name, value)]
    {
      entries := entries + [(name, value)];
    }
  }

  /** `URLSearchParams.getAll(name)`: the values given for name, in order. */
  function ValuesOf(params: seq<Param>, name: ParamName): seq<string>
  {
    if params == [] then []
    else (if params[0].0 == name then [params[0].1] else []) + ValuesOf(params[1..], name)
  }

  lemma {:induction false} ValuesOfConcat(a: seq<Param>, b: seq<Param>, name: ParamName)
    ensures ValuesOf(a + b, name) == ValuesOf(a, name) + ValuesOf(b, name)
  {
    if a != [] {
      assert (a + b)[1..] == a[1..] + b;
      ValuesOfConcat(a[1..], b, name);
    } else {
      assert a + b == b;
    }
  }

  lemma ValuesOfSingle(p: Param, name: ParamName)
    ensures ValuesOf([p], name) == if p.0 == name then [p.1] else []
  {
    assert [p][1..] == [];
  }

  lemma ValuesOfOptional(c: bool, p: Param, name: ParamName)
    ensures ValuesOf(if c then [p] else [], name) == if c && p.0 == name then [p.1] else []
  {
    if c {
      ValuesOfSingle(p, name);
    }
  }

  /** The input of `fetchAdverseEvents`. */
  datatype EventQuery = EventQuery(
    drugName: Option<string>,
    seriousness: Option<seq<string>>,
    limit: Option<int>,
    skip: Option<int>,
    receiveDate: Option<string>)

  const SEARCH_FIELD := "patient.drug.medicinalproduct:"
  const DEFAULT_LIMIT := "100"

  /** `params.seriousness?.includes(value)` */
  predicate Includes(list: Option<seq<string>>, value: string)
  {
    list.Some? && value in list.value
  }

  /** The seriousness filter values and the parameter each one turns on, in the order tested. */
  const SERIOUSNESS_PARAMS: seq<(string, ParamName)> := [
    ("death", SeriousnessDeath),
    ("hospitalization", SeriousnessHospitalization),
    ("life-threatening", SeriousnessLifeThreatening)]

  function NameParams(drugName: Option<string>): seq<Param>
  {
    if !IsTruthy(drugName) then [(Limit, DEFAULT_LIMIT)]
    else if Trim(drugName.value) != "" then [(Search, SEARCH_FIELD + Trim(drugName.value))]
    else []
  }

  function Flag(list: Option<seq<string>>, value: string, name: ParamName): seq<Param>
  {
    if Includes(list, value) then [(name, "1")] else []
  }

  function NumberParam(name: ParamName, n: Option<int>): seq<Param>
  {
    if IsNonZero(n) then [(name, IntString(n.value))] else []
  }

  function TextParam(name: ParamName, s: Option<string>): seq<Param>
  {
    if IsTruthy(s) then [(name, s.value)] else []
  }

  lemma NameValues(drugName: Option<string>, name: ParamName)
    ensures ValuesOf(NameParams(drugName), name)
      == if !IsTruthy(drugName) then (if name == Limit then [DEFAULT_LIMIT] else [])
         else if Trim(drugName.value) != "" && name == Search then [SEARCH_FIELD + Trim(drugName.value)]
         else []
  {
    if !IsTruthy(drugName) {
      ValuesOfSingle((Limit, DEFAULT_LIMIT), name);
    } else if Trim(drugName.value) != "" {
      ValuesOfSingle((Search, SEARCH_FIELD + Trim(drugName.value)), name);
    }
  }

  lemma FlagValues(list: Option<seq<string>>, value: string, flag: ParamName, name: ParamName)
    ensures ValuesOf(Flag(list, value, flag), name) == if Includes(list, value) && flag == name then ["1"] else []
  {
    ValuesOfOptional(Includes(list, value), (flag, "1"), name);
  }

  lemma NumberValues(param: ParamName, n: Option<int>, name: ParamName)
    ensures ValuesOf(NumberParam(param, n), name) == if IsNonZero(n) && param == name then [IntString(n.value)] else []
  {
    if IsNonZero(n) {
      ValuesOfSingle((param, IntString(n.value)), name);
    }
  }

  lemma TextValues(param: ParamName, t: Option<string>, name: ParamName)
    ensures ValuesOf(TextParam(param, t), name) == if IsTruthy(t) && param == name then [t.value] else []
  {
    if IsTruthy(t) {
      ValuesOfSingle((param, t.value), name);
    }
  }

  /** The values the adverse-event query gives a name, piece by piece. */
  lemma EventValuesByName(q: EventQuery, name: ParamName)
    ensures ValuesOf(EventParams(q), name)
      == ValuesOf(NameParams(q.drugName), name)
       + (if Includes(q.seriousness, "death") && name == SeriousnessDeath then ["1"] else [])
       + (if Includes(q.seriousness, "hospitalization") && name == SeriousnessHospitalization then ["1"] else [])
       + (if Includes(q.seriousness, "life-threatening") && name == SeriousnessLifeThreatening then ["1"] else [])
       + (if IsNonZero(q.limit) && name == Limit then [IntString(q.limit.value)] else [])
       + (if IsNonZero(q.skip) && name == Skip then [IntString(q.skip.value)] else [])
       + (if IsTruthy(q.receiveDate) && name == ReceiveDate then [q.receiveDate.value] else [])
  {
    EventValues(q, name);
    FlagValues(q.seriousness, "death", SeriousnessDeath, name);
    FlagValues(q.seriousness, "hospitalization", SeriousnessHospitalization, name);
    FlagValues(q.seriousness, "life-threatening", SeriousnessLifeThreatening, name);
    NumberValues(Limit, q.limit, name);
    NumberValues(Skip, q.skip, name);
    TextValues(ReceiveDate, q.receiveDate, name);
  }

  /** The parameters `fetchAdverseEvents` sends, in the order it appends them. */
  function EventParams(q: EventQuery): seq<Param>
  {
    NameParams(q.drugName)
    + Flag(q.seriousness, "death", SeriousnessDeath)
    + Flag(q.seriousness, "hospitalization", SeriousnessHospitalization)
    + Flag(q.seriousness, "life-threatening", SeriousnessLifeThreatening)
    + NumberParam(Limit, q.limit)
    + NumberParam(Skip, q.skip)
    + TextParam(ReceiveDate, q.receiveDate)
  }

  /** The drug-name branch: a trimmed search term, or the default limit when there is no name. */
  method AppendName(query: SearchParams, drugName: Option<string>)
    modifies query
    ensures query.entries == old(query.entries) + NameParams(drugName)
  {
    if IsTruthy(drugName) {
      var searchTerm := Trim(drugName.value);
      if searchTerm != "" {
        query.Append(Search, SEARCH_FIELD + searchTerm);
      }
    } else {
      query.Append(Limit, DEFAULT_LIMIT);
    }
  }

  /** One `if (params.seriousness?.includes(value))` check. */
  method AppendFlag(query: SearchParams, list: Option<seq<string>>, value: string, name: ParamName)
    modifies query
    ensures query.entries == old(query.entries) + Flag(list, value, name)
  {
    if Includes(list, value) {
      query.Append(name, "1");
    }
  }

  /** `if (n) searchParams.append(name, n.toString())` */
  method AppendNumber(query: SearchParams, name: ParamName, n: Option<int>)
    modifies query
    ensures query.entries == old(query.entries) + NumberParam(name, n)
  {
    if IsNonZero(n) {
      query.Append(name, IntString(n.value));
    }
  }

  /** `if (s) searchParams.append(name, s)` */
  method AppendText(query: SearchParams, name: ParamName, s: Option<string>)
    modifies query
    ensures query.entries == old(query.entries) + TextParam(name, s)
  {
    if IsTruthy(s) {
      query.Append(name, s.value);
    }
  }

  /** The parameter-building part of `fetchAdverseEvents`. */
  method AdverseEventParams(q: EventQuery) returns (params: seq<Param>)
    ensures params == EventParams(q)
  {
    var query := new SearchParams();
    AppendName(query, q.drugName);
    assert query.entries == NameParams(q.drugName);
    AppendFlag(query, q.seriousness, "death", SeriousnessDeath);
    AppendFlag(query, q.seriousness, "hospitalization", SeriousnessHospitalization);
    AppendFlag(query, q.seriousness, "life-threatening", SeriousnessLifeThreatening);
    AppendNumber(query, Limit, q.limit);
    AppendNumber(query, Skip, q.skip);
    AppendText(query, ReceiveDate, q.receiveDate);
    params := query.entries;
  }

  lemma EventValues(q: EventQuery, name: ParamName)
    ensures ValuesOf(EventParams(q), name)
      == ValuesOf(NameParams(q.drugName), name)
       + ValuesOf(Flag(q.seriousness, "death", SeriousnessDeath), name)
       + ValuesOf(Flag(q.seriousness, "hospitalization", SeriousnessHospitalization), name)
       + ValuesOf(Flag(q.seriousness, "life-threatening", SeriousnessLifeThreatening), name)
       + ValuesOf(NumberParam(Limit, q.limit), name)
       + ValuesOf(NumberParam(Skip, q.skip), name)
       + ValuesOf(TextParam(ReceiveDate, q.receiveDate), name)
  {
    var a := NameParams(q.drugName);
    var d := Flag(q.seriousness, "death", SeriousnessDeath);
    var h := Flag(q.seriousness, "hospitalization", SeriousnessHospitalization);
    var l := Flag(q.seriousness, "life-threatening", SeriousnessLifeThreatening);
    var lim := NumberParam(Limit, q.limit);
    var sk := NumberParam(Skip, q.skip);
    var rd := TextParam(ReceiveDate, q.receiveDate);
    ValuesOfConcat(a, d, name);
    ValuesOfConcat(a + d, h, name);
    ValuesOfConcat(a + d + h, l, name);
    ValuesOfConcat(a + d + h + l, lim, name);
    ValuesOfConcat(a + d + h + l + lim, sk, name);
    ValuesOfConcat(a + d + h + l + lim + sk, rd, name);
  }

  /**
   * A name that is non-empty after trimming is searched for, trimmed, once; a
   * missing, empty or whitespace-only name sends no search.
   */
  lemma EventSearchParam(q: EventQuery)
    ensures ValuesOf(EventParams(q), Search)
      == if IsTruthy(q.drugName) && Trim(q.drugName.value) != ""
         then [SEARCH_FIELD + Trim(q.drugName.value)] else []
    ensures IsTruthy(q.drugName) && (forall i :: 0 <= i < |q.drugName.value| ==> IsWhitespace(q.drugName.value[i]))
      ==> ValuesOf(EventParams(q), Search) == []
  {
    EventValuesByName(q, Search);
    NameValues(q.drugName, Search);
    if IsTruthy(q.drugName) {
      TrimEmptyIff(q.drugName.value);
    }
  }

  /**
   * Without a name, a `limit=100` comes first; an explicit non-zero limit is
   * appended as well, so `limit` can appear twice.
   */
  lemma EventLimitParams(q: EventQuery)
    ensures ValuesOf(EventParams(q), Limit)
      == (if IsTruthy(q.drugName) then [] else [DEFAULT_LIMIT])
       + (if IsNonZero(q.limit) then [IntString(q.limit.value)] else [])
    ensures q.drugName.None? && q.limit == Some(100) ==> ValuesOf(EventParams(q), Limit) == ["100", "100"]
  {
    EventValuesByName(q, Limit);
    NameValues(q.drugName, Limit);
    if q.limit == Some(100) {
      assert NatString(100) == NatString(10) + [DigitChar(0)];
      assert NatString(10) == NatString(1) + [DigitChar(0)];
      assert IntString(100) == "100";
    }
  }

  /** `skip` is sent only when non-zero. */
  lemma EventSkipParam(q: EventQuery)
    ensures ValuesOf(EventParams(q), Skip) == if IsNonZero(q.skip) then [IntString(q.skip.value)] else []
    ensures q.skip == Some(0) ==> ValuesOf(EventParams(q), Skip) == []
  {
    EventValuesByName(q, Skip);
    NameValues(q.drugName, Skip);
  }

  /** Each seriousness value in the list turns on its own parameter, once, with value 1. */
  lemma EventSeriousnessParams(q: EventQuery, value: string, flag: ParamName)
    requires (value, flag) in SERIOUSNESS_PARAMS
    ensures ValuesOf(EventParams(q), flag) == if Includes(q.seriousness, value) then ["1"] else []
  {
    EventValuesByName(q, flag);
    NameValues(q.drugName, flag);
  }

  function SeriousnessRank(name: ParamName): int
  {
    match name
    case SeriousnessDeath => 0
    case SeriousnessHospitalization => 1
    case SeriousnessLifeThreatening => 2
    case _ => -1
  }

  /** Among its seriousness parameters, p lists them in the order death, hospitalization, life-threatening. */
  predicate SeriousnessInOrder(p: seq<Param>)
  {
    forall i, j :: 0 <= i < j < |p| && SeriousnessRank(p[i].0) >= 0 && SeriousnessRank(p[j].0) >= 0
      ==> SeriousnessRank(p[i].0) < SeriousnessRank(p[j].0)
  }

  /** The seriousness parameters appear in the fixed order death, hospitalization, life-threatening. */
  lemma EventSeriousnessOrder(q: EventQuery)
    ensures SeriousnessInOrder(EventParams(q))
  {
    var a := NameParams(q.drugName);
    var l1 := a + Flag(q.seriousness, "death", SeriousnessDeath);
    var l2 := l1 + Flag(q.seriousness, "hospitalization", SeriousnessHospitalization);
    var l3 := l2 + Flag(q.seriousness, "life-threatening", SeriousnessLifeThreatening);
    var l4 := l3 + NumberParam(Limit, q.limit);
    var l5 := l4 + NumberParam(Skip, q.skip);
    var p := l5 + TextParam(ReceiveDate, q.receiveDate);
    assert p == EventParams(q);
    forall i | 0 <= i < |p|
      ensures SeriousnessRank(p[i].0)
        == if i < |a| then -1 else if i < |l1| then 0 else if i < |l2| then 1 else if i < |l3| then 2 else -1
    {
      if i < |l3| {
        assert p[i] == l3[i];
        if i < |l2| {
          assert l3[i] == l2[i];
          if i < |l1| {
            assert l2[i] == l1[i];
          }
        }
      }
    }
  }

  /** The input of `fetchDrugInfo`. */
  datatype DrugInfoQuery = DrugInfoQuery(drugName: Option<string>, route: Option<string>, limit: Option<int>, skip: Option<int>)

  function IngredientSearch(name: string): string { "products.active_ingredients.name:\"" + name + "\"" }

  function RouteSearch(route: string): string { "products.route:\"" + route + "\"" }

  /** The parameters `fetchDrugInfo` sends, in the order it appends them. */
  function DrugInfoParams(q: DrugInfoQuery): seq<Param>
  {
    (if IsTruthy(q.drugName) then [(Search, IngredientSearch(q.drugName.value))] else [])
    + (if IsTruthy(q.route) then [(Search, RouteSearch(q.route.value))] else [])
    + NumberParam(Limit, q.limit)
    + NumberParam(Skip, q.skip)
  }

  /** The parameter-building part of `fetchDrugInfo`. */
  method DrugInfoQueryParams(q: DrugInfoQuery) returns (params: seq<Param>)
    ensures params == DrugInfoParams(q)
  {
    var query := new SearchParams();
    if IsTruthy(q.drugName) {
      query.Append(Search, IngredientSearch(q.drugName.value));
    }
    if IsTruthy(q.route) {
      query.Append(Search, RouteSearch(q.route.value));
    }
    if IsNonZero(q.limit) {
      query.Append(Limit, IntString(q.limit.value));
    }
    if IsNonZero(q.skip) {
      query.Append(Skip, IntString(q.skip.value));
    }
    params := query.entries;
  }

  /** The ingredient and the route each add a `search` parameter of their own, ingredient first. */
  lemma DrugInfoSearchParams(q: DrugInfoQuery)
    ensures ValuesOf(DrugInfoParams(q), Search)
      == (if IsTruthy(q.drugName) then [IngredientSearch(q.drugName.value)] else [])
       + (if IsTruthy(q.route) then [RouteSearch(q.route.value)] else [])
    ensures ValuesOf(DrugInfoParams(q), Limit) == if IsNonZero(q.limit) then [IntString(q.limit.value)] else []
    ensures ValuesOf(DrugInfoParams(q), Skip) == if IsNonZero(q.skip) then [IntString(q.skip.value)] else []
  {
    DrugInfoValues(q, Search);
    DrugInfoValues(q, Limit);
    DrugInfoValues(q, Skip);
  }

  lemma DrugInfoValues(q: DrugInfoQuery, name: ParamName)
    ensures ValuesOf(DrugInfoParams(q), name)
      == (if IsTruthy(q.drugName) && name == Search then [IngredientSearch(q.drugName.value)] else [])
       + (if IsTruthy(q.route) && name == Search then [RouteSearch(q.route.value)] else [])
       + (if IsNonZero(q.limit) && name == Limit then [IntString(q.limit.value)] else [])
       + (if IsNonZero(q.skip) && name == Skip then [IntString(q.skip.value)] else [])
  {
    var a: seq<Param> := if IsTruthy(q.drugName) then [(Search, IngredientSearch(q.drugName.value))] else [];
    var b: seq<Param> := if IsTruthy(q.route) then [(Search, RouteSearch(q.route.value))] else [];
    var c := NumberParam(Limit, q.limit);
    var d := NumberParam(Skip, q.skip);
    ValuesOfConcat(a, b, name);
    ValuesOfConcat(a + b, c, name);
    ValuesOfConcat(a + b + c, d, name);
    if IsTruthy(q.drugName) {
      ValuesOfSingle((Search, IngredientSearch(q.drugName.value)), name);
    }
    if IsTruthy(q.route) {
      ValuesOfSingle((Search, RouteSearch(q.route.value)), name);
    }
    NumberValues(Limit, q.limit, name);
    NumberValues(Skip, q.skip, name);
  }

  // ===== Error fallback =====

  /** What a failed `axios.get` throws: an axios error, with the HTTP status if a response came back, or any other error. */
  datatype FetchError = AxiosError(status: Option<int>) | OtherError

  function EmptyResponse<T>(): Response<T>
  {
    Response(Meta(0, 0, 0), [])
  }

  /** The catch clause of both fetches: 400 and 404 become the empty response, anything else is re-thrown. */
  function Recover<T>(e: FetchError): (r: Result<Response<T>, FetchError>)
    ensures r.Success? <==> e.AxiosError? && (e.status == Some(400) || e.status == Some(404))
    ensures r.Success? ==> r.value.meta == Meta(0, 0, 0) && r.value.results == []
    ensures r.Failure? ==> r.error == e
  {
    if e.AxiosError? && (e.status == Some(404) || e.status == Some(400)) then Success(EmptyResponse())
    else Failure(e)
  }

  /** A fetch as a whole: a response passes through, an error goes to the catch clause. */
  function Settle<T>(outcome: Result<Response<T>, FetchError>): (r: Result<Response<T>, FetchError>)
    ensures outcome.Success? ==> r == outcome
    ensures r.Failure? ==> r == outcome && !(outcome.error.AxiosError? && outcome.error.status in {Some(400), Some(404)})
    ensures outcome.Failure? ==> (r.Success? <==> outcome.error.AxiosError? && outcome.error.status in {Some(400), Some(404)})
    ensures outcome.Failure? && r.Success? ==> r.value == EmptyResponse()
  {
    match outcome
    case Success(_) => outcome
    case Failure(e) => Recover(e)
  }

  // ===== getManufacturerData =====

  datatype ManufacturerCount = ManufacturerCount(manufacturer: string, count: nat)

  function ManufacturerOf(e: ManufacturerCount): string { e.manufacturer }

  function ManufacturerTally(e: ManufacturerCount): int { e.count }

  /** `b.count - a.count` as a comparator: larger counts first. */
  predicate MoreFrequent(a: ManufacturerCount, b: ManufacturerCount) { a.count >= b.count }

  /** `drug.openfda?.manufacturer_name`, or nothing. */
  function ListedManufacturers(d: Drug): seq<string>
  {
    if d.openfda.Some? && d.openfda.value.manufacturerName.Some? then d.openfda.value.manufacturerName.value else []
  }

  function DrugsManufacturers(drugs: seq<Drug>): seq<string>
  {
    if drugs == [] then [] else DrugsManufacturers(drugs[..|drugs| - 1]) + ListedManufacturers(drugs[|drugs| - 1])
  }

  /** Every manufacturer name of every drug entry of every report, repeats included, in scan order. */
  function ManufacturerNames(reports: seq<AdverseEventReport>): seq<string>
  {
    if reports == [] then []
    else ManufacturerNames(reports[..|reports| - 1]) + DrugsManufacturers(reports[|reports| - 1].patient.drug)
  }

  function ManufacturerEntries(order: seq<string>, counts: map<string, nat>): seq<ManufacturerCount>
    requires forall k :: k in order ==> k in counts
  {
    seq(|order|, i requires 0 <= i < |order| => ManufacturerCount(order[i], counts[order[i]]))
  }

  /** The innermost `forEach`: one increment per listed manufacturer name. */
  method CountManufacturers(counts: map<string, nat>, order: seq<string>, ghost seen: seq<string>, names: seq<string>)
    returns (counts': map<string, nat>, order': seq<string>)
    requires Tallied(counts, order, seen)
    ensures Tallied(counts', order', seen + names)
  {
    counts', order' := counts, order;
    var k := 0;
    assert seen + names[..0] == seen;
    while k < |names|
      invariant 0 <= k <= |names|
      invariant Tallied(counts', order', seen + names[..k])
    {
      var manufacturer := names[k];
      TalliedPush(counts', order', seen, names, k);
      if manufacturer !in counts' {
        order' := order' + [manufacturer];
      }
      counts' := counts'[manufacturer := (if manufacturer in counts' then counts'[manufacturer] else 0) + 1];
      k := k + 1;
    }
    assert names[..k] == names;
  }

  lemma DrugsManufacturersStep(seen: seq<string>, drugs: seq<Drug>, j: nat)
    requires j < |drugs|
    ensures seen + DrugsManufacturers(drugs[..j + 1]) == seen + DrugsManufacturers(drugs[..j]) + ListedManufacturers(drugs[j])
    ensures ListedManufacturers(drugs[j]) == [] ==> seen + DrugsManufacturers(drugs[..j + 1]) == seen + DrugsManufacturers(drugs[..j])
  {
    assert drugs[..j + 1][..j] == drugs[..j];
    assert seen + DrugsManufacturers(drugs[..j]) + [] == seen + DrugsManufacturers(drugs[..j]);
  }

  /** The middle `forEach`: the drug entries of one report, skipping those without manufacturer names. */
  method CountDrugs(counts: map<string, nat>, order: seq<string>, ghost seen: seq<string>, drugs: seq<Drug>)
    returns (counts': map<string, nat>, order': seq<string>)
    requires Tallied(counts, order, seen)
    ensures Tallied(counts', order', seen + DrugsManufacturers(drugs))
  {
    counts', order' := counts, order;
    var j := 0;
    assert seen + DrugsManufacturers(drugs[..0]) == seen;
    while j < |drugs|
      invariant 0 <= j <= |drugs|
      invariant Tallied(counts', order', seen + DrugsManufacturers(drugs[..j]))
    {
      var drug := drugs[j];
      ghost var before := seen + DrugsManufacturers(drugs[..j]);
      DrugsManufacturersStep(seen, drugs, j);
      if drug.openfda.Some? && drug.openfda.value.manufacturerName.Some? {
        counts', order' := CountManufacturers(counts', order', before, drug.openfda.value.manufacturerName.value);
      }
      j := j + 1;
    }
    assert drugs[..j] == drugs;
  }

  /**
   * `getManufacturerData`: one entry per distinct manufacturer name, carrying
   * the number of times it is listed, largest counts first.
   */
  method GetManufacturerData(reports: seq<AdverseEventReport>) returns (ranking: seq<ManufacturerCount>)
    ensures DistinctBy(ranking, ManufacturerOf)
    ensures forall m :: m in KeysBy(ranking, ManufacturerOf) <==> m in ManufacturerNames(reports)
    ensures forall e :: e in ranking ==> e.count == Occ(ManufacturerNames(reports), e.manufacturer) >= 1
    ensures SumBy(ranking, ManufacturerTally) == |ManufacturerNames(reports)|
    ensures Sorted(ranking, MoreFrequent)
  {
    var counts: map<string, nat> := map[];
    var order: seq<string> := [];
    var i := 0;
    while i < |reports|
      invariant 0 <= i <= |reports|
      invariant Tallied(counts, order, ManufacturerNames(reports[..i]))
    {
      assert reports[..i + 1][..i] == reports[..i];
      counts, order := CountDrugs(counts, order, ManufacturerNames(reports[..i]), reports[i].patient.drug);
      i := i + 1;
    }
    assert reports[..i] == reports;
    ghost var seen := ManufacturerNames(reports);
    DedupSpec(seen);
    var entries := ManufacturerEntries(order, counts);
    ranking := SortBy(entries, MoreFrequent);
    assert KeysBy(entries, ManufacturerOf) == order;
    SortedTally(entries, MoreFrequent, ManufacturerOf, ManufacturerTally, seen);
    SortBySorted(entries, MoreFrequent);
  }

  // ===== getTimeSeriesData =====

  type MonthIndex = m: int | 0 <= m < 12

  /** What `new Date(receivedate)` gives through `getFullYear()` and `getMonth()`. */
  datatype CalendarMonth = CalendarMonth(year: int, month: MonthIndex)

  /**
   * `${date.getFullYear()}-${String(date.getMonth() + 1).padStart(2, '0')}`;
   * an invalid date (None) renders both numbers as NaN.
   */
  function MonthKey(date: Option<CalendarMonth>): string
  {
    match date
    case None => "NaN-NaN"
    case Some(cm) => IntString(cm.year) + "-" + PadStart(NatString(cm.month + 1), 2, '0')
  }

  /** Reads a month key back; the inverse of MonthKey. */
  function ParseMonthKey(key: string): Option<CalendarMonth>
  {
    if |key| < 3 || key == "NaN-NaN" then None
    else
      var m := DigitsValue(key[|key| - 2..]) - 1;
      if 0 <= m < 12 then Some(CalendarMonth(ParseInt(key[..|key| - 3]), m)) else None
  }

  lemma MonthDigits(m: MonthIndex)
    ensures var p := PadStart(NatString(m + 1), 2, '0');
      |p| == 2 && IsDigit(p[0]) && IsDigit(p[1]) && DigitsValue(p) == m + 1
  {
    var p := PadStart(NatString(m + 1), 2, '0');
    if m + 1 < 10 {
      assert NatString(m + 1) == [DigitChar(m + 1)];
      assert PadStart(NatString(m + 1), 2, '0') == PadStart(['0', DigitChar(m + 1)], 2, '0');
      assert p == ['0', DigitChar(m + 1)];
    } else {
      assert NatString(m + 1) == [DigitChar(1), DigitChar((m + 1) % 10)];
      assert p == NatString(m + 1);
    }
    assert p[..1] == [p[0]];
    assert [p[0]][..0] == [];
    assert DigitsValue(p[..1]) == DigitValue(p[0]);
    assert DigitsValue(p) == DigitValue(p[0]) * 10 + DigitValue(p[1]);
  }

  /** Distinct calendar months, and an invalid date, get distinct keys. */
  lemma MonthKeyRoundTrip(date: Option<CalendarMonth>)
    ensures ParseMonthKey(MonthKey(date)) == date
  {
    if date.Some? {
      var cm := date.value;
      var key := MonthKey(date);
      var p := PadStart(NatString(cm.month + 1), 2, '0');
      MonthDigits(cm.month);
      assert key == IntString(cm.year) + "-" + p;
      assert key[|key| - 2..] == p;
      assert key[..|key| - 3] == IntString(cm.year);
      assert key != "NaN-NaN" by {
        assert IsDigit(key[|key| - 1]);
      }
      ParseIntString(cm.year);
    }
  }

  lemma FourDigits(n: int)
    requires 1000 <= n < 10000
    ensures |NatString(n)| == 4
  {
    var a := n / 10;
    var b := a / 10;
    assert 100 <= a < 1000 && 10 <= b < 100 && 1 <= b / 10 < 10;
    assert NatString(n) == NatString(a) + [DigitChar(n % 10)];
    assert NatString(a) == NatString(b) + [DigitChar(a % 10)];
    assert NatString(b) == NatString(b / 10) + [DigitChar(b % 10)];
  }

  /** A valid month key is the year, a hyphen and a zero-padded month 01..12; a four-digit year gives YYYY-MM. */
  lemma MonthKeyShape(cm: CalendarMonth)
    ensures var key := MonthKey(Some(cm));
      |key| >= 4 && key[..|key| - 3] == IntString(cm.year) && key[|key| - 3] == '-'
      && IsDigit(key[|key| - 2]) && IsDigit(key[|key| - 1])
      && 1 <= DigitsValue(key[|key| - 2..]) <= 12
    ensures 1000 <= cm.year <= 9999 ==> var key := MonthKey(Some(cm));
      |key| == 7 && key[4] == '-' && forall i :: 0 <= i < 7 && i != 4 ==> IsDigit(key[i])
  {
    var key := MonthKey(Some(cm));
    var p := PadStart(NatString(cm.month + 1), 2, '0');
    MonthDigits(cm.month);
    assert key == IntString(cm.year) + "-" + p;
    assert key[|key| - 2..] == p;
    if 1000 <= cm.year <= 9999 {
      FourDigits(cm.year);
    }
  }

  lemma YearOrder(a: int, b: int)
    requires 1000 <= a <= 9999 && 1000 <= b <= 9999
    ensures |NatString(a)| == |NatString(b)|
    ensures NatString(a) == NatString(b) <==> a == b
    ensures LexLe(NatString(a), NatString(b)) <==> a <= b
  {
    FourDigits(a);
    FourDigits(b);
    DigitsValueOfNatString(a);
    DigitsValueOfNatString(b);
    LexLeDigits(NatString(a), NatString(b));
  }

  lemma MonthPartOrder(m1: MonthIndex, m2: MonthIndex)
    ensures var p1, p2 := PadStart(NatString(m1 + 1), 2, '0'), PadStart(NatString(m2 + 1), 2, '0');
      LexLe("-" + p1, "-" + p2) <==> m1 <= m2
  {
    var p1, p2 := PadStart(NatString(m1 + 1), 2, '0'), PadStart(NatString(m2 + 1), 2, '0');
    MonthDigits(m1);
    MonthDigits(m2);
    assert ("-" + p1)[1..] == p1 && ("-" + p2)[1..] == p2;
    LexLeDigits(p1, p2);
  }

  /**
   * For years of four digits, comparing month keys as strings is comparing
   * the months on the calendar.
   */
  lemma MonthKeyOrder(a: CalendarMonth, b: CalendarMonth)
    requires 1000 <= a.year <= 9999 && 1000 <= b.year <= 9999
    ensures LexLe(MonthKey(Some(a)), MonthKey(Some(b))) <==> a.year < b.year || (a.year == b.year && a.month <= b.month)
  {
    var pa, pb := PadStart(NatString(a.month + 1), 2, '0'), PadStart(NatString(b.month + 1), 2, '0');
    assert MonthKey(Some(a)) == NatString(a.year) + ("-" + pa);
    assert MonthKey(Some(b)) == NatString(b.year) + ("-" + pb);
    YearOrder(a.year, b.year);
    MonthPartOrder(a.month, b.month);
    LexLeConcat(NatString(a.year), "-" + pa, NatString(b.year), "-" + pb);
  }

  datatype MonthCount = MonthCount(month: string, count: nat)

  function MonthOf(e: MonthCount): string { e.month }

  function MonthTally(e: MonthCount): int { e.count }

  /** `a.month.localeCompare(b.month)` as a comparator, taken as lexicographic order. */
  predicate EarlierMonth(a: MonthCount, b: MonthCount) { LexLe(a.month, b.month) }

  /** The month key of every report, in order. */
  function MonthKeys(reports: seq<AdverseEventReport>, parse: string -> Option<CalendarMonth>): (keys: seq<string>)
    ensures |keys| == |reports|
  {
    if reports == [] then []
    else MonthKeys(reports[..|reports| - 1], parse) + [MonthKey(parse(reports[|reports| - 1].receiveDate))]
  }

  function MonthEntries(order: seq<string>, counts: map<string, nat>): seq<MonthCount>
    requires forall k :: k in order ==> k in counts
  {
    seq(|order|, i requires 0 <= i < |order| => MonthCount(order[i], counts[order[i]]))
  }

  lemma EarlierMonthIsTotalPreorder()
    ensures TotalPreorder(EarlierMonth)
  {
    forall a, b ensures EarlierMonth(a, b) || EarlierMonth(b, a) {
      LexLeTotal(a.month, b.month);
    }
    forall a, b, c | EarlierMonth(a, b) && EarlierMonth(b, c) ensures EarlierMonth(a, c) {
      LexLeTransitive(a.month, b.month, c.month);
    }
  }

  /**
   * `getTimeSeriesData`: one entry per distinct month key, carrying the number
   * of reports received that month, months strictly ascending. `parse` stands
   * for `new Date(...)` read through `getFullYear()` and `getMonth()`.
   */
  method GetTimeSeriesData(reports: seq<AdverseEventReport>, parse: string -> Option<CalendarMonth>)
    returns (series: seq<MonthCount>)
    ensures DistinctBy(series, MonthOf)
    ensures forall m :: m in KeysBy(series, MonthOf) <==> m in MonthKeys(reports, parse)
    ensures forall e :: e in series ==> e.count == Occ(MonthKeys(reports, parse), e.month) >= 1
    ensures SumBy(series, MonthTally) == |reports|
    ensures forall i, j :: 0 <= i < j < |series| ==> LexLe(series[i].month, series[j].month) && series[i].month != series[j].month
  {
    var counts: map<string, nat> := map[];
    var order: seq<string> := [];
    var i := 0;
    while i < |reports|
      invariant 0 <= i <= |reports|
      invariant Tallied(counts, order, MonthKeys(reports[..i], parse))
    {
      var monthYear := MonthKey(parse(reports[i].receiveDate));
      TalliedStep(counts, order, MonthKeys(reports[..i], parse), monthYear);
      if monthYear !in counts {
        order := order + [monthYear];
      }
      counts := counts[monthYear := (if monthYear in counts then counts[monthYear] else 0) + 1];
      assert reports[..i + 1][..i] == reports[..i];
      i := i + 1;
    }
    assert reports[..i] == reports;
    DedupSpec(MonthKeys(reports, parse));
    var entries := MonthEntries(order, counts);
    series := SortBy(entries, EarlierMonth);
    assert KeysBy(entries, MonthOf) == order;
    SortedTally(entries, EarlierMonth, MonthOf, MonthTally, MonthKeys(reports, parse));
    EarlierMonthIsTotalPreorder();
    SortBySorted(entries, EarlierMonth);
    forall i, j | 0 <= i < j < |series| ensures series[i].month != series[j].month {
      assert MonthOf(series[i]) != MonthOf(series[j]);
    }
  }
}
