/**
 * The Iowa Flex filter panel kept in the user's session: the decision in
 * GetFiltersAsync to build or rebuild it, the bookkeeping of UpdateFiltersAsync
 * and GoToRootNodeAsync, and the two KTo1 flags shown with the filters.
 *
 * The panel is a value: each operation takes the stored panel and returns the
 * panel to store. The code that selects items, rebuilds the filters from an API
 * response and renders a root breadcrumb is not part of this model; it is
 * supplied as the functions of a `Collaborators` value.
 */
module FilterPanel {
  import opened Wrappers
  import opened TextFormat

  /** The filter kinds the provider names, in declaration order. */
  datatype FilterType = InternalFirst | ParentLocations | ChildLocations | Grade | TestEvent

  /** The enum's underlying value; `filterType <= ParentLocations` compares these. */
  function Ordinal(ft: FilterType): nat {
    match ft
    case InternalFirst => 0
    case ParentLocations => 1
    case ChildLocations => 2
    case Grade => 3
    case TestEvent => 4
  }

  datatype LocationNode = LocationNode(nodeId: int, nodeType: string)

  datatype FilterItem = FilterItem(text: string, value: string, isSelected: bool)

  datatype Filter = Filter(filterType: FilterType, items: seq<FilterItem>)

  datatype Panel = Panel(
    rootNodes: seq<LocationNode>, filters: seq<Filter>, breadCrumbs: seq<LocationNode>,
    lastUpdatedFilterType: FilterType, isCogat: bool, graphqlQuery: string)

  /** The collaborators whose code is not part of this model. */
  datatype Collaborators = Collaborators(
    // ChangeFiltersSelection
    changeSelection: (Panel, FilterType, seq<string>) -> Panel,
    // RecreateFiltersAsync (the user id is fixed for a session)
    recreate: (Panel, FilterType) -> Panel,
    // BuildFiltersQueryString
    filtersQuery: (Panel, FilterType) -> string,
    // MakeUserCallAsync on the query, then BuildFilters on its response
    buildFilters: (Panel, string, FilterType) -> Panel,
    // MakeRootBreadCrumb
    rootCrumb: Option<Filter> -> LocationNode,
    // GetSelectedValuesStringOf
    selectedValues: (Panel, FilterType) -> string)

  /** `GetFilterByType`: the first filter of the given type, if any. */
  function FilterOfType(filters: seq<Filter>, ft: FilterType): (r: Option<Filter>)
    ensures r.None? <==> forall i :: 0 <= i < |filters| ==> filters[i].filterType != ft
    ensures r.Some? ==> exists k :: 0 <= k < |filters| && filters[k] == r.value && r.value.filterType == ft
                          && forall i :: 0 <= i < k ==> filters[i].filterType != ft
  {
    if filters == [] then None
    else if filters[0].filterType == ft then Some(filters[0])
    else
      var r := FilterOfType(filters[1..], ft);
      assert r.Some? ==> exists k :: 1 <= k < |filters| && filters[k] == r.value && r.value.filterType == ft
                           && forall i :: 0 <= i < k ==> filters[i].filterType != ft by {
        if r.Some? {
          var k' :| 0 <= k' < |filters[1..]| && filters[1..][k'] == r.value
                    && forall i :: 0 <= i < k' ==> filters[1..][i].filterType != ft;
          forall i | 1 <= i < k' + 1 ensures filters[i].filterType != ft { assert filters[i] == filters[1..][i - 1]; }
        }
      }
      r
  }

  /** The single root breadcrumb, made from the panel's parent-locations filter. */
  function RootCrumbs(p: Panel, co: Collaborators): seq<LocationNode> {
    [co.rootCrumb(FilterOfType(p.filters, ParentLocations))]
  }

  // ===========================================================================
  // UpdateFiltersAsync

  /** `Enum.TryParse` leaves the default value, the first member, when the token does not parse. */
  function FilterTypeOrDefault(parsed: Option<FilterType>): (ft: FilterType)
    ensures parsed.Some? ==> ft == parsed.value
    ensures parsed.None? ==> Ordinal(ft) == 0
  {
    if parsed.Some? then parsed.value else InternalFirst
  }

  /** The panel handed to RecreateFiltersAsync: the new selection, with cogat switched off for a test-event change. */
  function HandedToRecreate(stored: Panel, ft: FilterType, values: seq<string>, co: Collaborators): (p: Panel)
    ensures ft == TestEvent ==> !p.isCogat
    ensures ft != TestEvent ==> p.isCogat == co.changeSelection(stored, ft, values).isCogat
    ensures p.(isCogat := true) == co.changeSelection(stored, ft, values).(isCogat := true)
  {
    var changed := co.changeSelection(stored, ft, values);
    if ft == TestEvent then changed.(isCogat := false) else changed
  }

  /**
   * The panel UpdateFiltersAsync stores: the recreated panel remembering the
   * changed filter type, with the breadcrumbs reset to the root crumb when the
   * change is at or above the parent-locations filter.
   */
  function UpdatedPanel(stored: Panel, ft: FilterType, values: seq<string>, co: Collaborators): (p: Panel)
    ensures p.lastUpdatedFilterType == ft
    ensures Ordinal(ft) <= Ordinal(ParentLocations) ==> p.breadCrumbs == RootCrumbs(p, co)
    ensures Ordinal(ft) > Ordinal(ParentLocations) ==>
              p.breadCrumbs == co.recreate(HandedToRecreate(stored, ft, values, co), ft).breadCrumbs
    ensures var recreated := co.recreate(HandedToRecreate(stored, ft, values, co), ft);
            p.rootNodes == recreated.rootNodes && p.filters == recreated.filters
            && p.isCogat == recreated.isCogat && p.graphqlQuery == recreated.graphqlQuery
  {
    var recreated := co.recreate(HandedToRecreate(stored, ft, values, co), ft);
    var p := recreated.(lastUpdatedFilterType := ft);
    if Ordinal(ft) <= Ordinal(ParentLocations) then p.(breadCrumbs := RootCrumbs(p, co)) else p
  }

  /** UpdateFiltersAsync on the stored panel and the raw filter-type token. */
  method UpdateFilters(stored: Panel, token: Option<FilterType>, values: seq<string>, co: Collaborators)
    returns (newPanel: Panel)
    ensures newPanel == UpdatedPanel(stored, FilterTypeOrDefault(token), values, co)
  {
    var filterType := if token.Some? then token.value else InternalFirst;
    var currentPanel := co.changeSelection(stored, filterType, values);
    if filterType == TestEvent {
      currentPanel := currentPanel.(isCogat := false);
    }
    newPanel := co.recreate(currentPanel, filterType);
    newPanel := newPanel.(lastUpdatedFilterType := filterType);
    if Ordinal(filterType) <= Ordinal(ParentLocations) {
      newPanel := newPanel.(breadCrumbs := [co.rootCrumb(FilterOfType(newPanel.filters, ParentLocations))]);
    }
  }

  /** A token that does not parse is taken as the first filter type, so it resets the breadcrumbs. */
  lemma UnparsableTokenResetsBreadCrumbs(stored: Panel, values: seq<string>, co: Collaborators)
    ensures var p := UpdatedPanel(stored, FilterTypeOrDefault(None), values, co);
            p.breadCrumbs == RootCrumbs(p, co) && p.lastUpdatedFilterType == InternalFirst
  {
    var ft := FilterTypeOrDefault(None);
    assert Ordinal(ft) == 0;
  }

  // ===========================================================================
  // GoToRootNodeAsync

  /** The panel GoToRootNodeAsync stores: filters recreated from the grade filter, breadcrumbs back at the root. */
  function PanelAtRoot(stored: Panel, co: Collaborators): (p: Panel)
    ensures p.breadCrumbs == RootCrumbs(p, co) && |p.breadCrumbs| == 1
    ensures var recreated := co.recreate(stored.(breadCrumbs := []), Grade);
            p == recreated.(breadCrumbs := p.breadCrumbs)
  {
    var recreated := co.recreate(stored.(breadCrumbs := []), Grade);
    recreated.(breadCrumbs := RootCrumbs(recreated, co))
  }

  method GoToRootNode(stored: Panel, co: Collaborators) returns (newPanel: Panel)
    ensures newPanel == PanelAtRoot(stored, co)
  {
    var filterPanel := stored.(breadCrumbs := []);
    newPanel := co.recreate(filterPanel, Grade);
    newPanel := newPanel.(breadCrumbs := [co.rootCrumb(FilterOfType(newPanel.filters, ParentLocations))]);
  }

  // ===========================================================================
  // GetFiltersAsync

  /** The `isCogat` request parameter: set when present and non-empty. */
  predicate RequestsCogat(isCogat: Option<string>) {
    isCogat.Some? && |isCogat.value| > 0
  }

  /** A panel made from the customer's root locations, every other field at its default. */
  function NewPanel(roots: seq<LocationNode>): Panel {
    Panel(roots, [], [], InternalFirst, false, "")
  }

  /** The query text the panel keeps: none in production. */
  function ShownQuery(query: string, isProd: bool): string {
    if isProd then "" else query
  }

  /**
   * The panel GetFiltersAsync leaves in the session: the stored one when its
   * cogat mode matches the request; rebuilt from its last updated filter type,
   * in the requested mode, when it does not; built from the root locations, with
   * a root breadcrumb, when there is none.
   */
  function RefreshedPanel(stored: Option<Panel>, isCogat: Option<string>, roots: seq<LocationNode>, isProd: bool, co: Collaborators): (p: Panel)
    ensures stored.Some? && stored.value.isCogat == RequestsCogat(isCogat) ==> p == stored.value
    ensures stored.Some? && stored.value.isCogat != RequestsCogat(isCogat) ==>
              var asked := stored.value.(isCogat := RequestsCogat(isCogat));
              var query := co.filtersQuery(asked, stored.value.lastUpdatedFilterType);
              p.isCogat == RequestsCogat(isCogat) && p.graphqlQuery == ShownQuery(query, isProd)
              && p == co.buildFilters(asked, query, stored.value.lastUpdatedFilterType)
                        .(isCogat := p.isCogat, graphqlQuery := p.graphqlQuery)
    ensures stored.None? ==>
              var query := co.filtersQuery(NewPanel(roots), InternalFirst);
              p.breadCrumbs == RootCrumbs(p, co) && p.graphqlQuery == ShownQuery(query, isProd)
              && p == co.buildFilters(NewPanel(roots), query, InternalFirst)
                        .(breadCrumbs := p.breadCrumbs, graphqlQuery := p.graphqlQuery)
  {
    match stored
    case None =>
      var query := co.filtersQuery(NewPanel(roots), InternalFirst);
      var built := co.buildFilters(NewPanel(roots), query, InternalFirst);
      built.(breadCrumbs := RootCrumbs(built, co), graphqlQuery := ShownQuery(query, isProd))
    case Some(panel) =>
      if panel.isCogat == RequestsCogat(isCogat) then panel
      else
        var asked := panel.(isCogat := RequestsCogat(isCogat));
        var query := co.filtersQuery(asked, panel.lastUpdatedFilterType);
        var built := co.buildFilters(asked, query, panel.lastUpdatedFilterType);
        built.(isCogat := RequestsCogat(isCogat), graphqlQuery := ShownQuery(query, isProd))
  }

  /** A stored panel, once refreshed for a request, is left alone by the same request. */
  lemma RefreshIsStable(stored: Panel, isCogat: Option<string>, roots: seq<LocationNode>, isProd: bool, co: Collaborators)
    ensures var p := RefreshedPanel(Some(stored), isCogat, roots, isProd, co);
            RefreshedPanel(Some(p), isCogat, roots, isProd, co) == p
  {
    var p := RefreshedPanel(Some(stored), isCogat, roots, isProd, co);
    assert p.isCogat == RequestsCogat(isCogat);
  }

  /**
   * A first load ignores the cogat request: with a filter builder that keeps the
   * mode it is given, the new panel is not in cogat mode, and the same request
   * made again rebuilds it in cogat mode.
   */
  lemma FirstLoadIgnoresCogatRequest(roots: seq<LocationNode>, isProd: bool, co: Collaborators)
    requires forall p, q, ft :: co.buildFilters(p, q, ft).isCogat == p.isCogat
    ensures var first := RefreshedPanel(None, Some("1"), roots, isProd, co);
            !first.isCogat && RefreshedPanel(Some(first), Some("1"), roots, isProd, co).isCogat
  {
    var first := RefreshedPanel(None, Some("1"), roots, isProd, co);
    assert !NewPanel(roots).isCogat;
    assert RequestsCogat(Some("1"));
  }

  /** The two KTo1 flags shown with the filters. */
  datatype Kto1Flags = Kto1Flags(isKto1: bool, hasDifferentiatedKto1Report: bool)

  const Kto1Grades: seq<string> := ["0", "K", "k", "1"]

  /**
   * KTo1 when the selected grade text is one of the four KTo1 grade codes; the
   * differentiated report is offered when, in addition, the first root location
   * is a building or a class.
   */
  function Kto1FlagsOf(selectedGrade: string, rootNodeType: string): (f: Kto1Flags)
    ensures f.isKto1 <==> selectedGrade == "0" || selectedGrade == "K" || selectedGrade == "k" || selectedGrade == "1"
    ensures f.hasDifferentiatedKto1Report <==>
              f.isKto1 && (ToLower(rootNodeType) == "building" || ToLower(rootNodeType) == "class")
  {
    var isKto1 := selectedGrade in Kto1Grades;
    var rootLevel := ToLower(rootNodeType);
    Kto1Flags(isKto1, isKto1 && (rootLevel == "building" || rootLevel == "class"))
  }

  /** The differentiated report implies KTo1; the root type is compared without regard to case. */
  lemma Kto1FlagExamples()
    ensures Kto1FlagsOf("K", "Building").hasDifferentiatedKto1Report
    ensures Kto1FlagsOf("1", "CLASS").hasDifferentiatedKto1Report
    ensures Kto1FlagsOf("0", "District").isKto1 && !Kto1FlagsOf("0", "District").hasDifferentiatedKto1Report
    ensures !Kto1FlagsOf("2", "building").isKto1 && !Kto1FlagsOf("2", "building").hasDifferentiatedKto1Report
    ensures !Kto1FlagsOf("K,1", "building").isKto1
  {
    assert ToLower("Building") == "building";
    assert ToLower("CLASS") == "class";
    assert ToLower("District") == "district";
  }

  /** What GetFiltersAsync returns (breadcrumbs as stored, not yet rendered to links). */
  datatype FiltersView = FiltersView(
    filters: seq<Filter>, breadCrumbs: seq<LocationNode>, rootLocationLevel: string,
    isKto1: bool, hasDifferentiatedKto1Report: bool, graphqlQuery: string)

  /** The view of a panel; a panel without root locations fails, as `First()` throws. */
  function ViewOf(p: Panel, co: Collaborators): (r: Result<FiltersView, string>)
    ensures r.Failure? <==> p.rootNodes == []
    ensures r.Success? ==>
              var flags := Kto1FlagsOf(co.selectedValues(p, Grade), p.rootNodes[0].nodeType);
              r.value.rootLocationLevel == p.rootNodes[0].nodeType
              && r.value.isKto1 == flags.isKto1
              && r.value.hasDifferentiatedKto1Report == flags.hasDifferentiatedKto1Report
              && r.value.filters == p.filters && r.value.graphqlQuery == p.graphqlQuery
  {
    if p.rootNodes == [] then Failure("Sequence contains no elements")
    else
      var flags := Kto1FlagsOf(co.selectedValues(p, Grade), p.rootNodes[0].nodeType);
      Success(FiltersView(p.filters, p.breadCrumbs, p.rootNodes[0].nodeType,
                          flags.isKto1, flags.hasDifferentiatedKto1Report, p.graphqlQuery))
  }

  /**
   * GetFiltersAsync: the panel to store and the view. The panel is stored even
   * when the view then fails.
   */
  method GetFilters(stored: Option<Panel>, isCogat: Option<string>, roots: seq<LocationNode>, isProd: bool, co: Collaborators)
    returns (filterPanel: Panel, view: Result<FiltersView, string>)
    ensures filterPanel == RefreshedPanel(stored, isCogat, roots, isProd, co)
    ensures view == ViewOf(filterPanel, co)
  {
    var requested := isCogat.Some? && |isCogat.value| > 0;
    var isRecreateFilters := false;
    var current := stored;
    if current.Some? && current.value.isCogat != requested {
      current := Some(current.value.(isCogat := requested));
      isRecreateFilters := true;
    }
    if current.None? || isRecreateFilters {
      var filterType := InternalFirst;
      var panel: Panel;
      if current.None? {
        panel := NewPanel(roots);
      } else {
        panel := current.value;
        filterType := panel.lastUpdatedFilterType;
      }
      var query := co.filtersQuery(panel, filterType);
      panel := co.buildFilters(panel, query, filterType);
      if isRecreateFilters {
        panel := panel.(isCogat := requested);
      } else {
        panel := panel.(breadCrumbs := [co.rootCrumb(FilterOfType(panel.filters, ParentLocations))]);
      }
      panel := panel.(graphqlQuery := if isProd then "" else query);
      filterPanel := panel;
    } else {
      filterPanel := current.value;
    }
    if filterPanel.rootNodes == [] {
      view := Failure("Sequence contains no elements");
      return;
    }
    var rootNodeLevel := filterPanel.rootNodes[0].nodeType;
    var flags := Kto1FlagsOf(co.selectedValues(filterPanel, Grade), rootNodeLevel);
    view := Success(FiltersView(filterPanel.filters, filterPanel.breadCrumbs, rootNodeLevel,
                                flags.isKto1, flags.hasDifferentiatedKto1Report, filterPanel.graphqlQuery));
  }
}
