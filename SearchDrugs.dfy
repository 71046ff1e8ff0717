/**
 * The search form's filter state and its seriousness checkboxes: ticking a
 * box adds its value to the list, unticking removes it.
 */
module SearchDrugs {

  import opened Tally
  import opened Api

  datatype SearchFilters = SearchFilters(
    drugName: string,
    pharmacologicalClass: string,
    administrationRoute: string,
    seriousness: seq<string>)

  /** A checkbox: its `value` and its `label` (a reserved word in Dafny). */
  datatype SeriousnessOption = SeriousnessOption(value: string, labelText: string)

  /** The three checkboxes, in display order. */
  const SERIOUSNESS_OPTIONS: seq<SeriousnessOption> := [
    SeriousnessOption("death", "Death"),
    SeriousnessOption("hospitalization", "Hospitalization"),
    SeriousnessOption("life-threatening", "Life-threatening")]

  /** `list.filter(s => s !== value)` */
  function Without(list: seq<string>, value: string): (r: seq<string>)
    ensures |r| <= |list|
    ensures forall x :: x in r <==> x in list && x != value
  {
    if list == [] then []
    else Without(list[..|list| - 1], value) + if list[|list| - 1] == value then [] else [list[|list| - 1]]
  }

  /** Removes the value everywhere when present, else appends it. */
  function Toggle(list: seq<string>, value: string): seq<string>
  {
    if value in list then Without(list, value) else list + [value]
  }

  /** `handleSeriousnessChange`: toggles one seriousness value and leaves the other fields alone. */
  function HandleSeriousnessChange(filters: SearchFilters, value: string): (r: SearchFilters)
    ensures r.drugName == filters.drugName
    ensures r.pharmacologicalClass == filters.pharmacologicalClass
    ensures r.administrationRoute == filters.administrationRoute
    ensures value in filters.seriousness ==> r.seriousness == Without(filters.seriousness, value)
    ensures value !in filters.seriousness ==> r.seriousness == filters.seriousness + [value]
  {
    filters.(seriousness := Toggle(filters.seriousness, value))
  }

  // ===== Removal keeps the other elements, in order =====

  lemma {:induction false} WithoutConcat(a: seq<string>, b: seq<string>, value: string)
    ensures Without(a + b, value) == Without(a, value) + Without(b, value)
  {
    if b == [] {
      assert a + b == a;
    } else {
      var b' := b[..|b| - 1];
      assert (a + b)[..|a + b| - 1] == a + b';
      WithoutConcat(a, b', value);
    }
  }

  lemma WithoutSingle(x: string, value: string)
    ensures Without([x], value) == if x == value then [] else [x]
  {
    assert [x][..0] == [];
  }

  /** Removing a value that is absent changes nothing. */
  lemma {:induction false} WithoutAbsent(list: seq<string>, value: string)
    requires value !in list
    ensures Without(list, value) == list
  {
    if list != [] {
      WithoutAbsent(list[..|list| - 1], value);
      assert list == list[..|list| - 1] + [list[|list| - 1]];
    }
  }

  /** Every other value keeps its number of occurrences; the removed one has none left. */
  lemma {:induction false} WithoutCounts(list: seq<string>, value: string, x: string)
    ensures Occ(Without(list, value), x) == if x == value then 0 else Occ(list, x)
  {
    if list != [] {
      var prefix := list[..|list| - 1];
      var last := list[|list| - 1];
      WithoutCounts(prefix, value, x);
      if last == value {
        assert Without(list, value) == Without(prefix, value);
      } else {
        OccAppend(Without(prefix, value), last, x);
      }
    }
  }

  // ===== The toggle =====

  /** The toggled value changes membership; every other value keeps it. */
  lemma ToggleMembership(list: seq<string>, value: string, x: string)
    ensures x in Toggle(list, value) <==> if x == value then value !in list else x in list
  {
  }

  /** Ticking an unticked box and unticking it again restores the list. */
  lemma ToggleTwice(list: seq<string>, value: string)
    requires value !in list
    ensures Toggle(Toggle(list, value), value) == list
  {
    WithoutConcat(list, [value], value);
    WithoutSingle(value, value);
    WithoutAbsent(list, value);
  }

  /** Unticking and ticking again moves the value to the end. */
  lemma ToggleTwicePresent(list: seq<string>, value: string)
    requires value in list
    ensures Toggle(Toggle(list, value), value) == Without(list, value) + [value]
  {
  }

  /** A list without repeats stays without repeats. */
  lemma ToggleNoDup(list: seq<string>, value: string)
    requires NoDup(list)
    ensures NoDup(Toggle(list, value))
  {
    if value in list {
      WithoutNoDup(list, value);
    }
  }

  lemma {:induction false} WithoutNoDup(list: seq<string>, value: string)
    requires NoDup(list)
    ensures NoDup(Without(list, value))
  {
    if list != [] {
      var prefix := list[..|list| - 1];
      var last := list[|list| - 1];
      assert NoDup(prefix);
      WithoutNoDup(prefix, value);
      if last != value {
        var w := Without(prefix, value);
        assert last !in prefix;
        assert last !in w;
        assert Without(list, value) == w + [last];
      }
    }
  }

  // ===== The options and the query =====

  /** The checkbox values are the seriousness values the event query looks for, in the same order. */
  lemma OptionsMatchQuery()
    ensures |SERIOUSNESS_OPTIONS| == |SERIOUSNESS_PARAMS| == 3
    ensures forall i :: 0 <= i < |SERIOUSNESS_OPTIONS| ==> SERIOUSNESS_OPTIONS[i].value == SERIOUSNESS_PARAMS[i].0
  {
  }

  /** Each checkbox value, when in the list, turns on its own query parameter, and only then. */
  lemma OptionSelectsFlag(q: EventQuery, i: nat)
    requires i < |SERIOUSNESS_OPTIONS|
    ensures ValuesOf(EventParams(q), SERIOUSNESS_PARAMS[i].1)
      == if Includes(q.seriousness, SERIOUSNESS_OPTIONS[i].value) then ["1"] else []
  {
    assert SERIOUSNESS_PARAMS[i] in SERIOUSNESS_PARAMS;
    EventSeriousnessParams(q, SERIOUSNESS_PARAMS[i].0, SERIOUSNESS_PARAMS[i].1);
  }
}
