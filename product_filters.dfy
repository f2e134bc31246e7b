/**
 * The filter panel of `src/components/products/ProductFilters.jsx`: a
 * record of five text fields read from the URL once, written back to the
 * URL after every change, and edited one field at a time.
 */
module ProductFilters {
  import opened Catalog
  import opened ProductList

  datatype Filters = Filters(
    category: string,
    color: string,
    minPrice: string,
    maxPrice: string,
    sort: string)

  /** The names `handleFilterChange` is called with. */
  datatype Field = Category | Color | MinPrice | MaxPrice | Sort

  /** The URL parameter each field is stored under. */
  function ParamName(field: Field): string
  {
    match field
    case Category => "category"
    case Color => "color"
    case MinPrice => "minPrice"
    case MaxPrice => "maxPrice"
    case Sort => "sort"
  }

  const ParamNames: set<string> := {"category", "color", "minPrice", "maxPrice", "sort"}

  function Get(f: Filters, field: Field): string
  {
    match field
    case Category => f.category
    case Color => f.color
    case MinPrice => f.minPrice
    case MaxPrice => f.maxPrice
    case Sort => f.sort
  }

  /** The value a field takes when its parameter is absent or empty. */
  function Fallback(field: Field): string
  {
    if field == Sort then "featured" else ""
  }

  /** The record `clearFilters` installs. */
  const Defaults: Filters := Filters("", "", "", "", "featured")

  /** The initial `useState` value: each parameter, or its fallback. */
  function InitialFilters(params: Params): (f: Filters)
    ensures forall field :: Get(f, field) == ParamOr(params, ParamName(field), Fallback(field))
    ensures f.sort != ""
  {
    Filters(
      ParamOr(params, "category", ""),
      ParamOr(params, "color", ""),
      ParamOr(params, "minPrice", ""),
      ParamOr(params, "maxPrice", ""),
      ParamOr(params, "sort", "featured"))
  }

  /** Whether the effect writes a field to the URL. */
  predicate Written(f: Filters, field: Field)
  {
    if field == Sort then f.sort != "featured" else Get(f, field) != ""
  }

  function ParamValue(f: Filters, key: string): string
  {
    if key == "category" then f.category
    else if key == "color" then f.color
    else if key == "minPrice" then f.minPrice
    else if key == "maxPrice" then f.maxPrice
    else f.sort
  }

  predicate WrittenKey(f: Filters, key: string)
  {
    if key == "sort" then f.sort != "featured" else ParamValue(f, key) != ""
  }

  /**
   * The parameters the effect hands to `setSearchParams`: a field's
   * parameter is present exactly when the field is written, holding the
   * field's value, and no other parameter survives.
   */
  function ParamsOf(f: Filters): (p: Params)
    ensures p.Keys <= ParamNames
    ensures forall field :: ParamName(field) in p <==> Written(f, field)
    ensures forall field :: Written(f, field) ==> p[ParamName(field)] == Get(f, field)
  {
    map key | key in ParamNames && WrittenKey(f, key) :: ParamValue(f, key)
  }

  /**
   * The effect body: an empty object gains one property per written field,
   * in the order the source tests them.
   */
  method BuildParams(filters: Filters) returns (params: Params)
    ensures params == ParamsOf(filters)
  {
    params := map[];
    if filters.category != "" {
      params := params["category" := filters.category];
    }
    if filters.color != "" {
      params := params["color" := filters.color];
    }
    if filters.minPrice != "" {
      params := params["minPrice" := filters.minPrice];
    }
    if filters.maxPrice != "" {
      params := params["maxPrice" := filters.maxPrice];
    }
    if filters.sort != "featured" {
      params := params["sort" := filters.sort];
    }
    forall field ensures (ParamName(field) in params <==> Written(filters, field)) {
    }
    forall field | Written(filters, field) ensures params[ParamName(field)] == Get(filters, field) {
    }
    SameParams(filters, params);
  }

  /** Two parameter maps that agree on the five names and hold no others are equal. */
  lemma SameParams(f: Filters, params: Params)
    requires params.Keys <= ParamNames
    requires forall field :: ParamName(field) in params <==> Written(f, field)
    requires forall field :: Written(f, field) ==> params[ParamName(field)] == Get(f, field)
    ensures params == ParamsOf(f)
  {
    var expected := ParamsOf(f);
    forall key | key in ParamNames ensures (key in params <==> key in expected) && (key in params ==> params[key] == expected[key]) {
      var field := if key == "category" then Category else if key == "color" then Color
        else if key == "minPrice" then MinPrice else if key == "maxPrice" then MaxPrice else Sort;
      assert ParamName(field) == key;
    }
  }

  /** `handleFilterChange(name, value)`: `{...prev, [name]: value}`. */
  function WithField(f: Filters, field: Field, value: string): (r: Filters)
    ensures Get(r, field) == value
    ensures forall other :: other != field ==> Get(r, other) == Get(f, other)
  {
    match field
    case Category => f.(category := value)
    case Color => f.(color := value)
    case MinPrice => f.(minPrice := value)
    case MaxPrice => f.(maxPrice := value)
    case Sort => f.(sort := value)
  }

  /**
   * Writing the filters to the URL and reading them back gives the same
   * record, unless the sort field is empty: an empty sort is written as
   * `sort=` and read back as the fallback `featured`.
   */
  lemma ParamsRoundTrip(f: Filters)
    requires f.sort != ""
    ensures InitialFilters(ParamsOf(f)) == f
  {
    var g := InitialFilters(ParamsOf(f));
    forall field ensures Get(g, field) == Get(f, field) {
      assert Get(g, field) == ParamOr(ParamsOf(f), ParamName(field), Fallback(field));
    }
    assert Get(g, Category) == f.category && Get(g, Color) == f.color;
    assert Get(g, MinPrice) == f.minPrice && Get(g, MaxPrice) == f.maxPrice;
    assert Get(g, Sort) == f.sort;
  }

  lemma EmptySortIsNotKept(f: Filters)
    requires f.sort == ""
    ensures InitialFilters(ParamsOf(f)).sort == "featured"
  {
    assert ParamName(Sort) in ParamsOf(f);
  }

  /**
   * Reading the URL once and writing it back normalises it; a second
   * read-and-write changes nothing.
   */
  lemma NormalisedParamsAreStable(params: Params)
    ensures ParamsOf(InitialFilters(ParamsOf(InitialFilters(params)))) == ParamsOf(InitialFilters(params))
  {
    ParamsRoundTrip(InitialFilters(params));
  }

  /** The defaults write nothing to the URL. */
  lemma DefaultsWriteNoParams()
    ensures ParamsOf(Defaults) == map[]
  {
    forall field ensures !Written(Defaults, field) {
    }
    SameParams(Defaults, map[]);
  }

  /**
   * What the product list reads from the URL the panel writes: the same
   * category, colour and price bounds, and no sort at all when `featured`
   * is chosen, because that choice removes the parameter.
   */
  lemma QueryFromFilters(f: Filters)
    ensures ListQueryOf(ParamsOf(f)).category == f.category
    ensures ListQueryOf(ParamsOf(f)).color == f.color
    ensures ListQueryOf(ParamsOf(f)).minPrice == ParsePrice(f.minPrice)
    ensures ListQueryOf(ParamsOf(f)).maxPrice == ParsePrice(f.maxPrice)
    ensures f.sort == "featured" ==> SortOrderOf(ListQueryOf(ParamsOf(f)).sort) == NoSort
    ensures f.sort != "featured" ==> ListQueryOf(ParamsOf(f)).sort == f.sort
  {
    var p := ParamsOf(f);
    assert ParamName(Category) in p <==> Written(f, Category);
    assert ParamName(Color) in p <==> Written(f, Color);
    assert ParamName(MinPrice) in p <==> Written(f, MinPrice);
    assert ParamName(MaxPrice) in p <==> Written(f, MaxPrice);
    assert ParamName(Sort) in p <==> Written(f, Sort);
  }

  /** The panel's filter state and the URL parameters it keeps in step. */
  class FilterPanel {
    var filters: Filters
    var searchParams: Params

    ghost predicate Valid()
      reads this
    {
      searchParams == ParamsOf(filters)
    }

    /** Mounting: the filters are read from the URL, then the effect writes them back. */
    constructor (params: Params)
      ensures Valid()
      ensures filters == InitialFilters(params)
    {
      var initial := InitialFilters(params);
      var written := BuildParams(initial);
      filters := initial;
      searchParams := written;
    }

    /** `handleFilterChange`, followed by the effect it triggers. */
    method HandleFilterChange(field: Field, value: string)
      modifies this
      ensures Valid()
      ensures filters == WithField(old(filters), field, value)
    {
      filters := WithField(filters, field, value);
      searchParams := BuildParams(filters);
    }

    /** `clearFilters`, followed by the effect: the URL loses every filter parameter. */
    method ClearFilters()
      modifies this
      ensures Valid()
      ensures filters == Defaults
      ensures searchParams == map[]
    {
      filters := Defaults;
      searchParams := BuildParams(filters);
      DefaultsWriteNoParams();
    }
  }

  /** The price inputs of `PriceFilter`, which hold text until applied. */
  class PriceFilter {
    var localMin: string
    var localMax: string

    constructor (minPrice: string, maxPrice: string)
      ensures localMin == minPrice && localMax == maxPrice
    {
      localMin := minPrice;
      localMax := maxPrice;
    }

    method SetLocalMin(value: string)
      modifies this
      ensures localMin == value && localMax == old(localMax)
    {
      localMin := value;
    }

    method SetLocalMax(value: string)
      modifies this
      ensures localMax == value && localMin == old(localMin)
    {
      localMax := value;
    }

    /** `handleApply`: both bounds are passed on; the other fields stay. */
    method HandleApply(panel: FilterPanel)
      modifies panel
      ensures panel.Valid()
      ensures panel.filters == old(panel.filters).(minPrice := localMin, maxPrice := localMax)
    {
      panel.HandleFilterChange(MinPrice, localMin);
      panel.HandleFilterChange(MaxPrice, localMax);
    }
  }
}
