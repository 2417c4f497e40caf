/**
 * The FlatQube REST client: the sort options, `SortBy.__call__`, name-to-address resolution,
 * the request bodies and URLs, and what the client makes of the server's reply. The HTTP
 * exchange itself is a `Transport` whose answer to each request is given from outside.
 */
module Client {
  import opened Wrappers
  import opened Decimals
  import Text
  import opened Models
  import Sorting

  /** The exceptions the client lets through to its caller. */
  datatype Error =
    | FlatQubeClientError(message: string)
    | ValueError(value: string)
    | TypeError(message: string)
    | AttributeError(name: string)

  // ---------------------------------------------------------------------------------------------
  // The two string enums.

  datatype SortOrder = Ascend | Descend {
    function Value(): string {
      match this
      case Ascend => "ascend"
      case Descend => "descend"
    }
  }

  /** `SortOrder(s)`: the member whose value is `s`, or a ValueError. */
  function SortOrderOf(s: string): (r: Result<SortOrder, Error>)
    ensures r.Success? <==> s == "ascend" || s == "descend"
    ensures r.Success? ==> r.value.Value() == s
    ensures r.Failure? ==> r.error == ValueError(s)
  {
    if s == "ascend" then Success(Ascend)
    else if s == "descend" then Success(Descend)
    else Failure(ValueError(s))
  }

  datatype CurrencySortBy =
    | Price | PriceChange | Tvl | TvlChange | Volume24h | Volume24hChange | Volume7d | TransactionCount24h
  {
    /** The member's value, which is what the command line and `currencies` accept. */
    function Value(): string {
      match this
      case Price => "price"
      case PriceChange => "price-ch"
      case Tvl => "tvl"
      case TvlChange => "tvl-ch"
      case Volume24h => "vol24h"
      case Volume24hChange => "vol24h-ch"
      case Volume7d => "vol7d"
      case TransactionCount24h => "trans24h"
    }

    /** The member's Python name, which `SortBy.__call__` uses as the attribute to sort on. */
    function Name(): string {
      match this
      case Price => "price"
      case PriceChange => "price_change"
      case Tvl => "tvl"
      case TvlChange => "tvl_change"
      case Volume24h => "volume_24h"
      case Volume24hChange => "volume_24h_change"
      case Volume7d => "volume_7d"
      case TransactionCount24h => "transaction_count_24h"
    }
  }

  const AllSortBy: seq<CurrencySortBy> :=
    [Price, PriceChange, Tvl, TvlChange, Volume24h, Volume24hChange, Volume7d, TransactionCount24h]

  /** `CurrencySortBy(s)`: the member whose value is `s`, or a ValueError. */
  function SortByOf(s: string): (r: Result<CurrencySortBy, Error>)
    ensures r.Success? ==> r.value.Value() == s
    ensures r.Failure? ==> r.error == ValueError(s) && forall b :: b in AllSortBy ==> b.Value() != s
  {
    if s == "price" then Success(Price)
    else if s == "price-ch" then Success(PriceChange)
    else if s == "tvl" then Success(Tvl)
    else if s == "tvl-ch" then Success(TvlChange)
    else if s == "vol24h" then Success(Volume24h)
    else if s == "vol24h-ch" then Success(Volume24hChange)
    else if s == "vol7d" then Success(Volume7d)
    else if s == "trans24h" then Success(TransactionCount24h)
    else Failure(ValueError(s))
  }

  /** Every member is found again from its value. */
  lemma SortByValueRoundTrip(b: CurrencySortBy)
    ensures SortByOf(b.Value()) == Success(b)
  {
  }

  // ---------------------------------------------------------------------------------------------
  // `attrgetter(name)` on a `CurrencyInfo`, and the sort key it gives.

  /** The numeric attribute of a currency record called `field` (None if there is none). */
  function NumericField(c: CurrencyInfo, field: string): Option<real> {
    if field == "price" then Some(Value(c.price))
    else if field == "price_change" then Some(Value(c.priceChange))
    else if field == "tvl" then Some(Value(c.tvl))
    else if field == "tvl_change" then Some(Value(c.tvlChange))
    else if field == "volume_24h" then Some(Value(c.volume24h))
    else if field == "volume_change_24h" then Some(Value(c.volumeChange24h))
    else if field == "volume_7d" then Some(Value(c.volume7d))
    else if field == "fee_24h" then Some(Value(c.fee24h))
    else if field == "transaction_count_24h" then Some(c.transactionCount24h as real)
    else None
  }

  /** The key `SortBy.__call__` sorts on, when the record has the attribute it names. */
  function SortKey(option: CurrencySortBy): Option<CurrencyInfo -> real> {
    match option
    case Price => Some((c: CurrencyInfo) => Value(c.price))
    case PriceChange => Some((c: CurrencyInfo) => Value(c.priceChange))
    case Tvl => Some((c: CurrencyInfo) => Value(c.tvl))
    case TvlChange => Some((c: CurrencyInfo) => Value(c.tvlChange))
    case Volume24h => Some((c: CurrencyInfo) => Value(c.volume24h))
    case Volume24hChange => None
    case Volume7d => Some((c: CurrencyInfo) => Value(c.volume7d))
    case TransactionCount24h => Some((c: CurrencyInfo) => c.transactionCount24h as real)
  }

  /**
   * The key is the attribute named after the member; `volume_24h_change` names no attribute
   * of the record (the field is `volume_change_24h`), so it is the one member without a key.
   */
  lemma SortKeyIsNamedAttribute(option: CurrencySortBy, c: CurrencyInfo)
    ensures SortKey(option).Some? <==> NumericField(c, option.Name()).Some?
    ensures SortKey(option).Some? ==> SortKey(option).value(c) == NumericField(c, option.Name()).value
    ensures SortKey(option).None? <==> option == Volume24hChange
  {
  }

  /**
   * `sorted(xs, key=attrgetter(option.name), reverse=order == descend)`: the attribute lookup fails
   * on the first element, so an empty list sorts even when the attribute does not exist.
   */
  function SortedBy(option: CurrencySortBy, order: SortOrder, xs: seq<CurrencyInfo>): Result<seq<CurrencyInfo>, Error> {
    match SortKey(option)
    case None => if xs == [] then Success([]) else Failure(AttributeError(option.Name()))
    case Some(key) => Success(Sorting.Sort(key, order == Descend, xs))
  }

  /**
   * What the sort promises: a permutation, ordered by the key's value ascending or descending,
   * with elements of equal key in their original order; it fails exactly when the key is
   * missing and there is something to sort.
   */
  lemma SortedByMeets(option: CurrencySortBy, order: SortOrder, xs: seq<CurrencyInfo>)
    ensures SortedBy(option, order, xs).Failure? <==> option == Volume24hChange && xs != []
    ensures SortedBy(option, order, xs).Success? && option != Volume24hChange ==>
      var key, r := SortKey(option).value, SortedBy(option, order, xs).value;
      && multiset(r) == multiset(xs)
      && Sorting.Ordered(key, order == Descend, r)
      && forall v: real :: Sorting.WithKey(key, v, r) == Sorting.WithKey(key, v, xs)
  {
    if option != Volume24hChange {
      var key := SortKey(option).value;
      Sorting.SortPermutes(key, order == Descend, xs);
      Sorting.SortOrdered(key, order == Descend, xs);
      forall v: real
        ensures Sorting.WithKey(key, v, Sorting.Sort(key, order == Descend, xs)) == Sorting.WithKey(key, v, xs)
      {
        Sorting.SortStable(key, order == Descend, xs, v);
      }
    }
  }

  // ---------------------------------------------------------------------------------------------
  // `SortBy.__call__` on a Python list or on another iterable.

  /** A Python list of currency records, which `list.sort` reorders in place. */
  class PyList {
    var items: seq<CurrencyInfo>

    constructor(items: seq<CurrencyInfo>)
      ensures this.items == items
    {
      this.items := items;
    }

    /**
     * `list.sort(key=..., reverse=...)`. When the key cannot be computed the list is left as
     * it was and the error is raised.
     */
    method SortBy(option: CurrencySortBy, order: SortOrder) returns (r: Result<(), Error>)
      modifies this
      ensures SortedBy(option, order, old(items)).Success? ==>
        r == Success(()) && items == SortedBy(option, order, old(items)).value
      ensures SortedBy(option, order, old(items)).Failure? ==>
        r == Failure(SortedBy(option, order, old(items)).error) && items == old(items)
    {
      var sorted := SortedBy(option, order, items);
      if sorted.Success? {
        items := sorted.value;
        r := Success(());
      } else {
        r := Failure(sorted.error);
      }
    }
  }

  /** The argument of `SortBy.__call__`: a list, or any other iterable (a tuple, a generator). */
  datatype Iterable = ListArg(list: PyList) | OtherArg(elements: seq<CurrencyInfo>)

  /**
   * `SortBy.__call__(iterable, order=order, inplace=inplace)`. In place, a list is reordered
   * and None returned, and anything else is a TypeError; otherwise a new sorted list is
   * returned and the argument is left alone.
   */
  method SortByCall(option: CurrencySortBy, it: Iterable, order: SortOrder, inplace: bool)
    returns (r: Result<Option<seq<CurrencyInfo>>, Error>)
    modifies if it.ListArg? && inplace then {it.list} else {}
    ensures inplace && it.OtherArg? ==>
      r == Failure(TypeError("The argument must be a list for sorting inplace."))
    ensures inplace && it.ListArg? ==>
      (r.Success? <==> SortedBy(option, order, old(it.list.items)).Success?)
      && (r.Success? ==> r.value == None && it.list.items == SortedBy(option, order, old(it.list.items)).value)
      && (r.Failure? ==> r.error == SortedBy(option, order, old(it.list.items)).error && it.list.items == old(it.list.items))
    ensures !inplace ==>
      var xs := if it.ListArg? then it.list.items else it.elements;
      && (r.Success? <==> SortedBy(option, order, xs).Success?)
      && (r.Success? ==> r.value == Some(SortedBy(option, order, xs).value))
      && (r.Failure? ==> r.error == SortedBy(option, order, xs).error)
  {
    if inplace {
      if it.ListArg? {
        var done := it.list.SortBy(option, order);
        if done.Success? {
          r := Success(None);
        } else {
          r := Failure(done.error);
        }
      } else {
        r := Failure(TypeError("The argument must be a list for sorting inplace."));
      }
    } else {
      var xs := if it.ListArg? then it.list.items else it.elements;
      var sorted := SortedBy(option, order, xs);
      if sorted.Success? {
        r := Success(Some(sorted.value));
      } else {
        r := Failure(sorted.error);
      }
    }
  }

  // ---------------------------------------------------------------------------------------------
  // The HTTP exchange.

  /** A POST with a JSON body; a request that `requests` sends without one carries `JNull` here. */
  datatype Request = Post(url: string, body: Json)

  /**
   * The server, seen from the client: each request is logged, and the answer (the decoded JSON,
   * or the text of the failure: a connection error, an HTTP error status, a body that is not
   * JSON) comes from `reply`.
   */
  class Transport {
    var sent: seq<Request>
    const reply: Request -> Result<Json, string>

    constructor(reply: Request -> Result<Json, string>)
      ensures sent == [] && this.reply == reply
    {
      sent := [];
      this.reply := reply;
    }

    method Send(req: Request) returns (r: Result<Json, string>)
      modifies this
      ensures sent == old(sent) + [req] && r == reply(req)
    {
      sent := sent + [req];
      r := reply(req);
    }
  }

  // ---------------------------------------------------------------------------------------------
  // Resolving currency names through the configured name-to-address map.

  function UnknownCurrency(name: string): Error {
    FlatQubeClientError("'" + name + "' currency address is unknown. The currency does not exist in the config.")
  }

  /** `config.currencies.get(name)` is missing or empty. */
  predicate Unknown(known: map<string, string>, name: string) {
    name !in known || known[name] == ""
  }

  /** The addresses of the upper-cased names, or the error for the first name that has none. */
  function Resolve(names: seq<string>, known: map<string, string>): Result<seq<string>, Error> {
    if names == [] then Success([])
    else if Unknown(known, Text.Upper(names[0])) then Failure(UnknownCurrency(Text.Upper(names[0])))
    else
      var rest :- Resolve(names[1..], known);
      Success([known[Text.Upper(names[0])]] + rest)
  }

  /** When every name is known, the addresses follow the names one for one and in order. */
  lemma {:induction false} ResolveKnown(names: seq<string>, known: map<string, string>)
    requires forall i :: 0 <= i < |names| ==> !Unknown(known, Text.Upper(names[i]))
    ensures Resolve(names, known).Success?
    ensures var a := Resolve(names, known).value;
      |a| == |names| && forall i :: 0 <= i < |names| ==> Text.Upper(names[i]) in known && a[i] == known[Text.Upper(names[i])]
  {
    if names != [] {
      ResolveKnown(names[1..], known);
      var rest := Resolve(names[1..], known).value;
      assert forall i :: 1 <= i < |names| ==> names[i] == names[1..][i - 1];
    }
  }

  /** The first unknown name decides the error. */
  lemma {:induction false} ResolveFirstUnknown(names: seq<string>, known: map<string, string>, i: nat)
    requires i < |names| && Unknown(known, Text.Upper(names[i]))
    requires forall j :: 0 <= j < i ==> !Unknown(known, Text.Upper(names[j]))
    ensures Resolve(names, known) == Failure(UnknownCurrency(Text.Upper(names[i])))
  {
    if i > 0 {
      assert forall j :: 0 <= j < i - 1 ==> names[1..][j] == names[j + 1];
      ResolveFirstUnknown(names[1..], known, i - 1);
    }
  }

  /** The body of the `/currencies` request. */
  function CurrenciesBody(addresses: seq<string>): Json {
    JObj(map[
      "currencyAddresses" := JArr(seq(|addresses|, i requires 0 <= i < |addresses| => JStr(addresses[i]))),
      "limit" := JInt(|addresses|),
      "offset" := JInt(0)])
  }

  /** Each element of the payload's `currencies` entry parsed as a currency record. */
  function ParseCurrencyItems(items: seq<Json>): (r: Result<seq<CurrencyInfo>, Error>)
    ensures r.Success? ==>
      |r.value| == |items| && forall i :: 0 <= i < |items| ==> ParseCurrencyInfo(items[i]) == Success(r.value[i])
  {
    if items == [] then Success([])
    else match ParseCurrencyInfo(items[0])
      case Failure(_) => Failure(FlatQubeClientError("Cannot parse currency info"))
      case Success(c) =>
        var rest :- ParseCurrencyItems(items[1..]);
        assert forall i :: 1 <= i < |items| ==> items[i] == items[1..][i - 1];
        Success([c] + rest)
  }

  /**
   * `info.get('currencies', [])` and the list comprehension over it: a payload that is not an
   * object has no `get`; iterating a string or an object yields strings, which are not
   * currency records; a number, a boolean or null cannot be iterated.
   */
  function CurrencyList(info: Json): Result<seq<CurrencyInfo>, Error> {
    if !info.JObj? then Failure(AttributeError("get"))
    else if "currencies" !in info.fields then Success([])
    else match info.fields["currencies"]
      case JArr(items) => ParseCurrencyItems(items)
      case JObj(m) => if m == map[] then Success([]) else Failure(FlatQubeClientError("Cannot parse currency info"))
      case JStr(s) => if s == "" then Success([]) else Failure(FlatQubeClientError("Cannot parse currency info"))
      case _ => Failure(TypeError("object is not iterable"))
  }

  /** What `currencies` returns for the server's answer. */
  function CurrenciesOutcome(reply: Result<Json, string>, option: CurrencySortBy, order: SortOrder): Result<seq<CurrencyInfo>, Error> {
    match reply
    case Failure(e) => Failure(FlatQubeClientError(e))
    case Success(info) =>
      var list :- CurrencyList(info);
      SortedBy(option, order, list)
  }

  /** What `currency_by_address` returns for the server's answer. */
  function CurrencyOutcome(reply: Result<Json, string>): (r: Result<CurrencyInfo, Error>)
    ensures reply.Failure? ==> r == Failure(FlatQubeClientError(reply.error))
    ensures reply.Success? ==> (r.Success? <==> ParseCurrencyInfo(reply.value).Success?)
    ensures r.Success? ==> reply.Success? && ParseCurrencyInfo(reply.value) == Success(r.value)
  {
    match reply
    case Failure(e) => Failure(FlatQubeClientError(e))
    case Success(j) =>
      if ParseCurrencyInfo(j).Success? then Success(ParseCurrencyInfo(j).value)
      else Failure(FlatQubeClientError("Cannot parse currency info"))
  }

  /** An answer that carries the record `c` under its wire keys gives `c`. */
  lemma CurrencyOutcomeOnWire(m: Fields, c: CurrencyInfo)
    requires CurrencyOnWire(m, c)
    ensures CurrencyOutcome(Success(JObj(m))) == Success(c)
  {
    CurrencyRoundTrip(m, c);
  }

  /** A payload without `currencies` gives the empty list, whatever the sort. */
  lemma MissingCurrenciesIsEmpty(fields: map<string, Json>, option: CurrencySortBy, order: SortOrder)
    requires "currencies" !in fields
    ensures CurrenciesOutcome(Success(JObj(fields)), option, order) == Success([])
  {
  }

  /** A successful answer lists the parsed records of the payload, sorted as asked. */
  lemma CurrenciesOutcomeSorted(items: seq<Json>, fields: map<string, Json>, option: CurrencySortBy, order: SortOrder)
    requires "currencies" in fields && fields["currencies"] == JArr(items)
    requires CurrenciesOutcome(Success(JObj(fields)), option, order).Success?
    ensures var r := CurrenciesOutcome(Success(JObj(fields)), option, order).value;
      && |r| == |items|
      && ParseCurrencyItems(items).Success?
      && multiset(r) == multiset(ParseCurrencyItems(items).value)
      && (option != Volume24hChange ==> Sorting.Ordered(SortKey(option).value, order == Descend, r))
  {
    var xs := ParseCurrencyItems(items).value;
    SortedByMeets(option, order, xs);
    var r := SortedBy(option, order, xs).value;
    assert |multiset(r)| == |multiset(xs)|;
  }

  // ---------------------------------------------------------------------------------------------
  // The client.

  class FlatQubeClient {
    const swapApiUrl: string
    const farmingApiUrl: string
    const transport: Transport
    /** `_session`: created on first use, dropped by `__exit__`. */
    var hasSession: bool

    /** The base URLs lose their trailing slashes, so that paths can be appended with one `/`. */
    constructor(swapIndexer: string, farmingIndexer: string, transport: Transport)
      ensures swapApiUrl == Text.RStrip(swapIndexer, '/')
      ensures farmingApiUrl == Text.RStrip(farmingIndexer, '/')
      ensures this.transport == transport && !hasSession
    {
      swapApiUrl := Text.RStrip(swapIndexer, '/');
      farmingApiUrl := Text.RStrip(farmingIndexer, '/');
      this.transport := transport;
      hasSession := false;
    }

    /** `__exit__`: the session is closed and forgotten. */
    method Close()
      modifies this
      ensures !hasSession
    {
      hasSession := false;
    }

    /** `_request(self.session.post, url, data)`: any failure becomes a FlatQubeClientError. */
    method Request(url: string, data: Json) returns (r: Result<Json, Error>)
      modifies this, transport
      ensures hasSession
      ensures transport.sent == old(transport.sent) + [Post(url, data)]
      ensures r == (match transport.reply(Post(url, data))
                    case Success(j) => Success(j)
                    case Failure(e) => Failure(FlatQubeClientError(e)))
    {
      hasSession := true;
      var reply := transport.Send(Post(url, data));
      match reply
      case Success(j) => r := Success(j);
      case Failure(e) => r := Failure(FlatQubeClientError(e));
    }

    method CurrencyByAddress(address: string) returns (r: Result<CurrencyInfo, Error>)
      modifies this, transport
      ensures var req := Post(swapApiUrl + "/currencies/" + address, JNull);
        && transport.sent == old(transport.sent) + [req]
        && r == CurrencyOutcome(transport.reply(req))
    {
      var reply := Request(swapApiUrl + "/currencies/" + address, JNull);
      if reply.Failure? {
        return Failure(reply.error);
      }
      var parsed := ParseCurrencyInfo(reply.value);
      if parsed.Success? {
        r := Success(parsed.value);
      } else {
        r := Failure(FlatQubeClientError("Cannot parse currency info"));
      }
    }

    /** The upper-cased name must have a non-empty configured address; otherwise nothing is sent. */
    method CurrencyByName(name: string, known: map<string, string>) returns (r: Result<CurrencyInfo, Error>)
      modifies this, transport
      ensures var n := Text.Upper(name);
        && (Unknown(known, n) ==> r == Failure(UnknownCurrency(n)) && transport.sent == old(transport.sent))
        && (!Unknown(known, n) ==>
              var req := Post(swapApiUrl + "/currencies/" + known[n], JNull);
              && transport.sent == old(transport.sent) + [req]
              && r == CurrencyOutcome(transport.reply(req)))
    {
      var n := Text.Upper(name);
      if Unknown(known, n) {
        return Failure(UnknownCurrency(n));
      }
      r := CurrencyByAddress(known[n]);
    }

    /**
     * `currencies(names, sort_by, sort_order)`: the options are checked, every name is resolved
     * before anything is sent, one request asks for exactly the resolved addresses, and the
     * parsed records are sorted in place.
     */
    method Currencies(names: seq<string>, sortBy: string, sortOrder: string, known: map<string, string>)
      returns (r: Result<seq<CurrencyInfo>, Error>)
      modifies this, transport
      ensures SortByOf(sortBy).Failure? ==> r == Failure(ValueError(sortBy)) && transport.sent == old(transport.sent)
      ensures SortByOf(sortBy).Success? && SortOrderOf(sortOrder).Failure? ==>
        r == Failure(ValueError(sortOrder)) && transport.sent == old(transport.sent)
      ensures SortByOf(sortBy).Success? && SortOrderOf(sortOrder).Success? && Resolve(names, known).Failure? ==>
        r == Failure(Resolve(names, known).error) && transport.sent == old(transport.sent)
      ensures SortByOf(sortBy).Success? && SortOrderOf(sortOrder).Success? && Resolve(names, known).Success? ==>
        var req := Post(swapApiUrl + "/currencies", CurrenciesBody(Resolve(names, known).value));
        && transport.sent == old(transport.sent) + [req]
        && r == CurrenciesOutcome(transport.reply(req), SortByOf(sortBy).value, SortOrderOf(sortOrder).value)
    {
      var option :- SortByOf(sortBy);
      var order :- SortOrderOf(sortOrder);
      var addresses :- ResolveNames(names, known);
      r := FetchCurrencies(addresses, option, order);
    }

    /** The loop of `currencies` that looks every upper-cased name up, stopping at the first unknown one. */
    static method ResolveNames(names: seq<string>, known: map<string, string>) returns (r: Result<seq<string>, Error>)
      ensures r == Resolve(names, known)
    {
      var addresses: seq<string> := [];
      var i := 0;
      while i < |names|
        invariant 0 <= i <= |names| && |addresses| == i
        invariant forall j :: 0 <= j < i ==> !Unknown(known, Text.Upper(names[j]))
        invariant forall j :: 0 <= j < i ==> addresses[j] == known[Text.Upper(names[j])]
      {
        var n := Text.Upper(names[i]);
        if Unknown(known, n) {
          ResolveFirstUnknown(names, known, i);
          return Failure(UnknownCurrency(n));
        }
        addresses := addresses + [known[n]];
        i := i + 1;
      }
      ResolveKnown(names, known);
      assert addresses == Resolve(names, known).value;
      r := Success(addresses);
    }

    /** The request for the resolved addresses, and the parsed reply sorted in place. */
    method FetchCurrencies(addresses: seq<string>, option: CurrencySortBy, order: SortOrder)
      returns (r: Result<seq<CurrencyInfo>, Error>)
      modifies this, transport
      ensures var req := Post(swapApiUrl + "/currencies", CurrenciesBody(addresses));
        && transport.sent == old(transport.sent) + [req]
        && r == CurrenciesOutcome(transport.reply(req), option, order)
    {
      var info := Request(swapApiUrl + "/currencies", CurrenciesBody(addresses));
      if info.Failure? {
        return Failure(info.error);
      }
      var parsed := CurrencyList(info.value);
      if parsed.Failure? {
        return Failure(parsed.error);
      }
      var list := new PyList(parsed.value);
      var done := SortByCall(option, ListArg(list), order, true);
      if done.Failure? {
        return Failure(done.error);
      }
      r := Success(list.items);
    }

    /** `farmin_pool`: one request with the zero-balance flag and the optional user address. */
    method FarminPool(poolAddress: string, userAddress: Option<string>, afterZeroBalance: bool)
      returns (r: Result<FarmingPoolInfo, Error>)
      modifies this, transport
      ensures var body := JObj(map[
                "afterZeroBalance" := JBool(afterZeroBalance),
                "userAddress" := if userAddress.Some? then JStr(userAddress.value) else JNull]);
        var req := Post(farmingApiUrl + "/farming_pools/" + poolAddress, body);
        && transport.sent == old(transport.sent) + [req]
        && r == (match transport.reply(req)
                 case Failure(e) => Failure(FlatQubeClientError(e))
                 case Success(j) =>
                   if ParseFarmingPoolInfo(j).Success? then Success(ParseFarmingPoolInfo(j).value)
                   else Failure(FlatQubeClientError("Cannot parse farming pool info")))
    {
      var body := JObj(map[
        "afterZeroBalance" := JBool(afterZeroBalance),
        "userAddress" := if userAddress.Some? then JStr(userAddress.value) else JNull]);
      var reply := Request(farmingApiUrl + "/farming_pools/" + poolAddress, body);
      if reply.Failure? {
        return Failure(reply.error);
      }
      var parsed := ParseFarmingPoolInfo(reply.value);
      if parsed.Success? {
        r := Success(parsed.value);
      } else {
        r := Failure(FlatQubeClientError("Cannot parse farming pool info"));
      }
    }
  }

  /** The request body lists the addresses in order, asks for exactly that many, from offset 0. */
  lemma CurrenciesBodyFields(names: seq<string>, known: map<string, string>)
    requires forall i :: 0 <= i < |names| ==> !Unknown(known, Text.Upper(names[i]))
    ensures Resolve(names, known).Success?
    ensures var body := CurrenciesBody(Resolve(names, known).value).fields;
      && body.Keys == {"currencyAddresses", "limit", "offset"}
      && body["limit"] == JInt(|names|) && body["offset"] == JInt(0)
      && |body["currencyAddresses"].items| == |names|
      && forall i :: 0 <= i < |names| ==>
           Text.Upper(names[i]) in known && body["currencyAddresses"].items[i] == JStr(known[Text.Upper(names[i])])
  {
    ResolveKnown(names, known);
  }
}
