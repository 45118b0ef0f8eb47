/**
 * The URLs the expense service requests (src/Services/ExpenseService.ts).
 * The HTTP calls themselves are not modelled; what is modelled is how each
 * query string is assembled in a `URLSearchParams` object and serialized.
 */
module ExpenseService {

  import opened Wrappers
  import opened FormUrlEncoding
  import Text
  import Sequences

  /** `API_ENDPOINTS.EXPENSES.BASE` and `API_ENDPOINTS.EXPENSES.DASHBOARD`. */
  datatype Endpoints = Endpoints(expensesBase: string, dashboard: string)

  /** The optional argument of `getExpenses`: `{ dateTo?: string }`. */
  datatype GetExpensesFilters = GetExpensesFilters(dateTo: Option<string>)

  /** The query parameter names the service appends. */
  datatype ParamName = Month | Year | DateTo {
    function Name(): string
    {
      match this
      case Month => "month"
      case Year => "year"
      case DateTo => "dateTo"
    }
  }

  /** Every parameter name is made of unreserved characters, so it serializes as it is. */
  lemma ParamNameSerialization(name: ParamName)
    ensures FormEncode(name.Name()) == name.Name()
  {
    FormEncodeUnreserved(name.Name());
  }

  /** `name=value`, both halves serialized. */
  function SerializePair(pair: (ParamName, string)): (r: string)
  {
    FormEncode(pair.0.Name()) + "=" + FormEncode(pair.1)
  }

  /** `URLSearchParams.toString()`: the serialized pairs in order, joined by `&`. */
  function SerializeQuery(pairs: seq<(ParamName, string)>): (r: string)
    ensures r == "" <==> pairs == []
  {
    if pairs == [] then ""
    else if |pairs| == 1 then SerializePair(pairs[0])
    else SerializeQuery(pairs[..|pairs| - 1]) + "&" + SerializePair(pairs[|pairs| - 1])
  }

  /** Appending a pair adds `&name=value` to a non-empty query string. */
  lemma SerializeAppend(pairs: seq<(ParamName, string)>, pair: (ParamName, string))
    ensures SerializeQuery(pairs + [pair])
            == if pairs == [] then SerializePair(pair) else SerializeQuery(pairs) + "&" + SerializePair(pair)
  {
    assert (pairs + [pair])[..|pairs|] == pairs;
  }

  /** A pair with a name of this service: the name goes out as it is. */
  lemma SerializeNamedPair(name: ParamName, value: string)
    ensures SerializePair((name, value)) == name.Name() + "=" + FormEncode(value)
  {
    ParamNameSerialization(name);
  }

  /** A `URLSearchParams` object: an ordered list of name/value pairs. */
  class SearchParams {
    var pairs: seq<(ParamName, string)>

    constructor ()
      ensures pairs == []
    {
      pairs := [];
    }

    /** `params.append(name, value)`: adds a pair at the end, keeping the others. */
    method Append(name: ParamName, value: string)
      modifies this
      ensures pairs == old(pairs) + [(name, value)]
    {
      pairs := pairs + [(name, value)];
    }

    function ToString(): (r: string)
      reads this
      ensures r == "" <==> pairs == []
    {
      SerializeQuery(pairs)
    }
  }

  /** `filters?.dateTo` is truthy. */
  function HasDateTo(filters: Option<GetExpensesFilters>): (r: bool)
    ensures r <==> filters.Some? && filters.value.dateTo.Some? && |filters.value.dateTo.value| > 0
  {
    filters.Some? && Text.Truthy(filters.value.dateTo)
  }

  /**
   * The URL `getExpenses` requests: the bare base path unless a non-empty
   * `dateTo` is given, and then exactly that one parameter.
   */
  method GetExpensesUrl(endpoints: Endpoints, filters: Option<GetExpensesFilters>) returns (url: string)
    ensures HasDateTo(filters) ==> url == endpoints.expensesBase + "?dateTo=" + FormEncode(filters.value.dateTo.value)
    ensures !HasDateTo(filters) ==> url == endpoints.expensesBase
  {
    var params := new SearchParams();
    if HasDateTo(filters) {
      params.Append(DateTo, filters.value.dateTo.value);
    }
    var queryString := params.ToString();
    url := if queryString != "" then endpoints.expensesBase + "?" + queryString else endpoints.expensesBase;
    if HasDateTo(filters) {
      SerializeAppend([], (DateTo, filters.value.dateTo.value));
      SerializeNamedPair(DateTo, filters.value.dateTo.value);
      Sequences.Assoc(endpoints.expensesBase + "?", "dateTo=", FormEncode(filters.value.dateTo.value));
    }
  }

  /** The decimal text of a number serializes as it is. */
  lemma NumberSerialization(n: int)
    ensures FormEncode(NumberToString(n)) == NumberToString(n)
  {
    FormEncodeUnreserved(NumberToString(n));
  }

  /** Two pairs serialize as `name=value&name=value`. */
  lemma TwoPairQuery(n1: ParamName, v1: string, n2: ParamName, v2: string)
    ensures SerializeQuery([(n1, v1), (n2, v2)])
            == n1.Name() + "=" + FormEncode(v1) + "&" + (n2.Name() + "=" + FormEncode(v2))
  {
    SerializeNamedPair(n1, v1);
    SerializeNamedPair(n2, v2);
    SerializeAppend([(n1, v1)], (n2, v2));
    assert [(n1, v1)] + [(n2, v2)] == [(n1, v1), (n2, v2)];
  }

  /** Three pairs serialize as the first two, `&`, and the third. */
  lemma ThreePairQuery(n1: ParamName, v1: string, n2: ParamName, v2: string, n3: ParamName, v3: string)
    ensures SerializeQuery([(n1, v1), (n2, v2), (n3, v3)])
            == SerializeQuery([(n1, v1), (n2, v2)]) + "&" + (n3.Name() + "=" + FormEncode(v3))
  {
    SerializeNamedPair(n3, v3);
    SerializeAppend([(n1, v1), (n2, v2)], (n3, v3));
    assert [(n1, v1), (n2, v2)] + [(n3, v3)] == [(n1, v1), (n2, v2), (n3, v3)];
  }

  lemma MonthYearQuery(m: string, y: string)
    requires FormEncode(m) == m && FormEncode(y) == y
    ensures SerializeQuery([(Month, m), (Year, y)]) == "month=" + m + "&" + ("year=" + y)
  {
    TwoPairQuery(Month, m, Year, y);
  }

  lemma MonthYearDateToQuery(m: string, y: string, dateTo: string)
    requires FormEncode(m) == m && FormEncode(y) == y
    ensures SerializeQuery([(Month, m), (Year, y), (DateTo, dateTo)])
            == "month=" + m + "&" + ("year=" + y) + ("&dateTo=" + FormEncode(dateTo))
  {
    MonthYearQuery(m, y);
    ThreePairQuery(Month, m, Year, y, DateTo, dateTo);
    DateToTail("month=" + m + "&" + ("year=" + y), FormEncode(dateTo));
  }

  lemma DateToTail(q: string, e: string)
    ensures q + "&" + ("dateTo=" + e) == q + ("&dateTo=" + e)
  {
  }

  /** Moves the `?` and the month pair into one literal prefix. */
  lemma DashboardShape(base: string, m: string, y: string, tail: string)
    ensures base + "?" + ("month=" + m + "&" + ("year=" + y) + tail) == base + "?month=" + m + "&year=" + y + tail
  {
  }

  lemma DashboardUrlWithDateTo(base: string, month: int, year: int, dateTo: string)
    ensures var m, y := NumberToString(month), NumberToString(year);
            base + "?" + SerializeQuery([(Month, m), (Year, y), (DateTo, dateTo)])
            == base + "?month=" + m + "&year=" + y + ("&dateTo=" + FormEncode(dateTo))
  {
    var m, y := NumberToString(month), NumberToString(year);
    NumberSerialization(month);
    NumberSerialization(year);
    MonthYearDateToQuery(m, y, dateTo);
    DashboardShape(base, m, y, "&dateTo=" + FormEncode(dateTo));
  }

  lemma DashboardUrlWithoutDateTo(base: string, month: int, year: int)
    ensures var m, y := NumberToString(month), NumberToString(year);
            base + "?" + SerializeQuery([(Month, m), (Year, y)]) == base + "?month=" + m + "&year=" + y
  {
    var m, y := NumberToString(month), NumberToString(year);
    NumberSerialization(month);
    NumberSerialization(year);
    MonthYearQuery(m, y);
    var q := "month=" + m + "&" + ("year=" + y);
    assert q + "" == q;
    DashboardShape(base, m, y, "");
  }

  /**
   * The URL `getDashboardData` requests: month, then year, then `dateTo`
   * only when it is a non-empty string, and nothing after it.
   */
  method GetDashboardDataUrl(endpoints: Endpoints, month: int, year: int, dateTo: Option<string>)
    returns (url: string)
    ensures url == endpoints.dashboard + "?month=" + NumberToString(month) + "&year=" + NumberToString(year)
                   + (if Text.Truthy(dateTo) then "&dateTo=" + FormEncode(dateTo.value) else "")
  {
    var m, y := NumberToString(month), NumberToString(year);
    var params := new SearchParams();
    params.Append(Month, m);
    params.Append(Year, y);
    if Text.Truthy(dateTo) {
      params.Append(DateTo, dateTo.value);
    }
    var queryString := params.ToString();
    url := endpoints.dashboard + "?" + queryString;

    if Text.Truthy(dateTo) {
      assert params.pairs == [(Month, m), (Year, y), (DateTo, dateTo.value)];
      DashboardUrlWithDateTo(endpoints.dashboard, month, year, dateTo.value);
    } else {
      assert params.pairs == [(Month, m), (Year, y)];
      DashboardUrlWithoutDateTo(endpoints.dashboard, month, year);
    }
  }

}
