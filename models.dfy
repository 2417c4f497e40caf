/**
 * The records the FlatQube REST API returns, and how they are read from a decoded JSON
 * payload. Each field is looked up under its wire name (the field's alias where it has one),
 * a missing required field or a value of the wrong kind is a validation error, and keys the
 * record does not name are ignored.
 */
module Models {
  import opened Wrappers
  import opened Decimals

  /** A decoded JSON value: integers and non-integral numbers are told apart, as Python's `json` does. */
  datatype Json =
    | JNull
    | JBool(b: bool)
    | JInt(i: int)
    | JNum(d: Dec)
    | JStr(s: string)
    | JArr(items: seq<Json>)
    | JObj(fields: map<string, Json>)

  /** A validation error names the wire key that was missing or held a value of the wrong kind. */
  datatype ValidationError = Missing(key: string) | Invalid(key: string) | NotAnObject

  // ---------------------------------------------------------------------------------------------
  // The records.

  datatype CurrencyInfo = CurrencyInfo(
    name: string,
    address: string,
    price: Dec,
    priceChange: Dec,
    tvl: Dec,
    tvlChange: Dec,
    volume24h: Dec,
    volumeChange24h: Dec,
    volume7d: Dec,
    fee24h: Dec,
    transactionCount24h: int)

  datatype PairMetaInfo = PairMetaInfo(
    leftName: string,
    leftAddress: string,
    rightName: string,
    rightAddress: string,
    poolAddress: string,
    fee: Dec)

  datatype PairInfo = PairInfo(
    fee24h: Dec,
    fee7d: Dec,
    feeAllTime: Dec,
    leftLocked: Dec,
    rightLocked: Dec,
    leftPrice: Dec,
    rightPrice: Dec,
    tvl: Dec,
    tvlChange: Dec,
    volume24h: Dec,
    volumeChange24h: Dec,
    volume7d: Dec,
    meta: PairMetaInfo)
  {
    /** `PairInfo.name`: the two currency names joined by `/`. */
    function Name(): string {
      meta.leftName + "/" + meta.rightName
    }

    /** `PairInfo.address`: the pool's address. */
    function Address(): string {
      meta.poolAddress
    }
  }

  datatype RewardTokenInfo = RewardTokenInfo(currencyAddress: string, currencyName: string, rewardPerSecond: Dec)

  /** The same reward record as the farming rounds spell it on the wire. */
  datatype RewardTokenInfo1 = RewardTokenInfo1(currencyAddress: string, currencyName: string, rewardPerSecond: Dec)

  datatype RoundInfo = RoundInfo(startTime: int, endTime: Option<int>, rewardInfo: seq<RewardTokenInfo1>)

  datatype PoolInfo = PoolInfo(vestingPeriod: int, vestingRatio: int, roundInfo: seq<RoundInfo>)

  datatype HistoryInfo = HistoryInfo(leftAmount: Dec, rightAmount: Dec, usdtAmount: Dec)

  datatype FarmingPoolInfo = FarmingPoolInfo(
    poolAddress: string,
    leftCurrencyAddress: string,
    rightCurrencyAddress: string,
    leftCurrencyName: string,
    rightCurrencyName: string,
    poolBalance: Dec,
    leftBalance: Dec,
    rightBalance: Dec,
    tvl: Dec,
    tvlChange: Dec,
    apr: Dec,
    aprChange: Dec,
    userShare: Dec,
    userShareChange: Dec,
    userTokenBalance: Dec,
    userUsdtBalance: Dec,
    lpTokenAddress: string,
    lpTokenName: string,
    farmStartTime: int,
    farmEndTime: Option<int>,
    isActive: bool,
    isLowBalance: bool,
    rewardInfo: seq<RewardTokenInfo>,
    poolInfo: PoolInfo,
    historyInfo: HistoryInfo)

  // ---------------------------------------------------------------------------------------------
  // Reading one field.

  type Fields = map<string, Json>

  function GetStr(m: Fields, key: string): Result<string, ValidationError> {
    if key !in m then Failure(Missing(key))
    else if m[key].JStr? then Success(m[key].s)
    else Failure(Invalid(key))
  }

  /** `Decimal(n)` for a Python int. */
  function DecOfInt(i: int): Dec {
    Dec(i < 0, if i < 0 then -i else i, 0)
  }

  /** A decimal field takes a JSON number or a string in plain decimal notation. */
  function GetDec(m: Fields, key: string): Result<Dec, ValidationError> {
    if key !in m then Failure(Missing(key))
    else match m[key]
      case JNum(d) => Success(d)
      case JInt(i) => Success(DecOfInt(i))
      case JStr(s) => (match ParsePlain(s) case Some(d) => Success(d) case None => Failure(Invalid(key)))
      case _ => Failure(Invalid(key))
  }

  function GetInt(m: Fields, key: string): Result<int, ValidationError> {
    if key !in m then Failure(Missing(key))
    else if m[key].JInt? then Success(m[key].i)
    else Failure(Invalid(key))
  }

  function GetBool(m: Fields, key: string): Result<bool, ValidationError> {
    if key !in m then Failure(Missing(key))
    else if m[key].JBool? then Success(m[key].b)
    else Failure(Invalid(key))
  }

  /** An `Optional[int]` field: absent and `null` both read as None. */
  function GetOptInt(m: Fields, key: string): Result<Option<int>, ValidationError> {
    if key !in m || m[key].JNull? then Success(None)
    else if m[key].JInt? then Success(Some(m[key].i))
    else Failure(Invalid(key))
  }

  function GetObj(m: Fields, key: string): Result<Fields, ValidationError> {
    if key !in m then Failure(Missing(key))
    else if m[key].JObj? then Success(m[key].fields)
    else Failure(Invalid(key))
  }

  function GetArr(m: Fields, key: string): Result<seq<Json>, ValidationError> {
    if key !in m then Failure(Missing(key))
    else if m[key].JArr? then Success(m[key].items)
    else Failure(Invalid(key))
  }

  // ---------------------------------------------------------------------------------------------
  // `parse_obj` for each record.

  /** The wire keys of `CurrencyInfo`. */
  const CurrencyKeys: set<string> := {
    "currency", "address", "price", "priceChange", "tvl", "tvlChange", "volume24h",
    "volumeChange24h", "volume7d", "fee24h", "transactionsCount24h"
  }

  function ParseCurrencyInfo(j: Json): Result<CurrencyInfo, ValidationError> {
    if !j.JObj? then Failure(NotAnObject) else
    var m := j.fields;
    var name :- GetStr(m, "currency");
    var address :- GetStr(m, "address");
    var price :- GetDec(m, "price");
    var priceChange :- GetDec(m, "priceChange");
    var tvl :- GetDec(m, "tvl");
    var tvlChange :- GetDec(m, "tvlChange");
    var volume24h :- GetDec(m, "volume24h");
    var volumeChange24h :- GetDec(m, "volumeChange24h");
    var volume7d :- GetDec(m, "volume7d");
    var fee24h :- GetDec(m, "fee24h");
    var count :- GetInt(m, "transactionsCount24h");
    Success(CurrencyInfo(name, address, price, priceChange, tvl, tvlChange, volume24h,
                         volumeChange24h, volume7d, fee24h, count))
  }

  /** `m` carries the record `c`, every field under its wire key (other keys may be present too). */
  predicate CurrencyOnWire(m: Fields, c: CurrencyInfo) {
    && "currency" in m && m["currency"] == JStr(c.name)
    && "address" in m && m["address"] == JStr(c.address)
    && "price" in m && m["price"] == JNum(c.price)
    && "priceChange" in m && m["priceChange"] == JNum(c.priceChange)
    && "tvl" in m && m["tvl"] == JNum(c.tvl)
    && "tvlChange" in m && m["tvlChange"] == JNum(c.tvlChange)
    && "volume24h" in m && m["volume24h"] == JNum(c.volume24h)
    && "volumeChange24h" in m && m["volumeChange24h"] == JNum(c.volumeChange24h)
    && "volume7d" in m && m["volume7d"] == JNum(c.volume7d)
    && "fee24h" in m && m["fee24h"] == JNum(c.fee24h)
    && "transactionsCount24h" in m && m["transactionsCount24h"] == JInt(c.transactionCount24h)
  }

  function ParsePairMetaInfo(j: Json): Result<PairMetaInfo, ValidationError> {
    if !j.JObj? then Failure(NotAnObject) else
    var m := j.fields;
    var leftName :- GetStr(m, "base");
    var leftAddress :- GetStr(m, "baseAddress");
    var rightName :- GetStr(m, "counter");
    var rightAddress :- GetStr(m, "counterAddress");
    var poolAddress :- GetStr(m, "poolAddress");
    var fee :- GetDec(m, "fee");
    Success(PairMetaInfo(leftName, leftAddress, rightName, rightAddress, poolAddress, fee))
  }

  predicate PairMetaOnWire(m: Fields, p: PairMetaInfo) {
    && "base" in m && m["base"] == JStr(p.leftName)
    && "baseAddress" in m && m["baseAddress"] == JStr(p.leftAddress)
    && "counter" in m && m["counter"] == JStr(p.rightName)
    && "counterAddress" in m && m["counterAddress"] == JStr(p.rightAddress)
    && "poolAddress" in m && m["poolAddress"] == JStr(p.poolAddress)
    && "fee" in m && m["fee"] == JNum(p.fee)
  }

  predicate PairOnWire(m: Fields, p: PairInfo) {
    && "fee24h" in m && m["fee24h"] == JNum(p.fee24h)
    && "fee7d" in m && m["fee7d"] == JNum(p.fee7d)
    && "feeAllTime" in m && m["feeAllTime"] == JNum(p.feeAllTime)
    && "leftLocked" in m && m["leftLocked"] == JNum(p.leftLocked)
    && "rightLocked" in m && m["rightLocked"] == JNum(p.rightLocked)
    && "leftPrice" in m && m["leftPrice"] == JNum(p.leftPrice)
    && "rightPrice" in m && m["rightPrice"] == JNum(p.rightPrice)
    && "tvl" in m && m["tvl"] == JNum(p.tvl)
    && "tvlChange" in m && m["tvlChange"] == JNum(p.tvlChange)
    && "volume24h" in m && m["volume24h"] == JNum(p.volume24h)
    && "volumeChange24h" in m && m["volumeChange24h"] == JNum(p.volumeChange24h)
    && "volume7d" in m && m["volume7d"] == JNum(p.volume7d)
    && "meta" in m && m["meta"].JObj? && PairMetaOnWire(m["meta"].fields, p.meta)
  }

  function ParsePairInfo(j: Json): Result<PairInfo, ValidationError> {
    if !j.JObj? then Failure(NotAnObject) else
    var m := j.fields;
    var fee24h :- GetDec(m, "fee24h");
    var fee7d :- GetDec(m, "fee7d");
    var feeAllTime :- GetDec(m, "feeAllTime");
    var leftLocked :- GetDec(m, "leftLocked");
    var rightLocked :- GetDec(m, "rightLocked");
    var leftPrice :- GetDec(m, "leftPrice");
    var rightPrice :- GetDec(m, "rightPrice");
    var tvl :- GetDec(m, "tvl");
    var tvlChange :- GetDec(m, "tvlChange");
    var volume24h :- GetDec(m, "volume24h");
    var volumeChange24h :- GetDec(m, "volumeChange24h");
    var volume7d :- GetDec(m, "volume7d");
    var metaFields :- GetObj(m, "meta");
    var meta :- ParsePairMetaInfo(JObj(metaFields));
    Success(PairInfo(fee24h, fee7d, feeAllTime, leftLocked, rightLocked, leftPrice, rightPrice,
                     tvl, tvlChange, volume24h, volumeChange24h, volume7d, meta))
  }

  function ParseRewardTokenInfo(j: Json): Result<RewardTokenInfo, ValidationError> {
    if !j.JObj? then Failure(NotAnObject) else
    var m := j.fields;
    var address :- GetStr(m, "reward_root_address");
    var name :- GetStr(m, "reward_currency");
    var perSecond :- GetDec(m, "reward_per_second");
    Success(RewardTokenInfo(address, name, perSecond))
  }

  function ParseRewardTokenInfo1(j: Json): Result<RewardTokenInfo1, ValidationError> {
    if !j.JObj? then Failure(NotAnObject) else
    var m := j.fields;
    var address :- GetStr(m, "rewardTokenRootAddress");
    var name :- GetStr(m, "rewardTokenCurrency");
    var perSecond :- GetDec(m, "rewardPerSec");
    Success(RewardTokenInfo1(address, name, perSecond))
  }

  /** `list[RewardTokenInfo]`: every element must parse. */
  function ParseRewardList(items: seq<Json>): (r: Result<seq<RewardTokenInfo>, ValidationError>)
    ensures r.Success? ==> |r.value| == |items|
  {
    if items == [] then Success([]) else
    var first :- ParseRewardTokenInfo(items[0]);
    var rest :- ParseRewardList(items[1..]);
    Success([first] + rest)
  }

  function ParseRewardList1(items: seq<Json>): (r: Result<seq<RewardTokenInfo1>, ValidationError>)
    ensures r.Success? ==> |r.value| == |items|
  {
    if items == [] then Success([]) else
    var first :- ParseRewardTokenInfo1(items[0]);
    var rest :- ParseRewardList1(items[1..]);
    Success([first] + rest)
  }

  function ParseRoundInfo(j: Json): Result<RoundInfo, ValidationError> {
    if !j.JObj? then Failure(NotAnObject) else
    var m := j.fields;
    var startTime :- GetInt(m, "start_time");
    var endTime :- GetOptInt(m, "end_time");
    var rewards :- GetArr(m, "reward_info");
    var rewardInfo :- ParseRewardList1(rewards);
    Success(RoundInfo(startTime, endTime, rewardInfo))
  }

  function ParseRoundList(items: seq<Json>): (r: Result<seq<RoundInfo>, ValidationError>)
    ensures r.Success? ==> |r.value| == |items|
  {
    if items == [] then Success([]) else
    var first :- ParseRoundInfo(items[0]);
    var rest :- ParseRoundList(items[1..]);
    Success([first] + rest)
  }

  function ParsePoolInfo(j: Json): Result<PoolInfo, ValidationError> {
    if !j.JObj? then Failure(NotAnObject) else
    var m := j.fields;
    var vestingPeriod :- GetInt(m, "vesting_period");
    var vestingRatio :- GetInt(m, "vesting_ratio");
    var rounds :- GetArr(m, "rounds_info");
    var roundInfo :- ParseRoundList(rounds);
    Success(PoolInfo(vestingPeriod, vestingRatio, roundInfo))
  }

  function ParseHistoryInfo(j: Json): Result<HistoryInfo, ValidationError> {
    if !j.JObj? then Failure(NotAnObject) else
    var m := j.fields;
    var left :- GetDec(m, "left_amount");
    var right :- GetDec(m, "right_amount");
    var usdt :- GetDec(m, "usdt_amount");
    Success(HistoryInfo(left, right, usdt))
  }

  function ParseFarmingPoolInfo(j: Json): Result<FarmingPoolInfo, ValidationError> {
    if !j.JObj? then Failure(NotAnObject) else
    var m := j.fields;
    var poolAddress :- GetStr(m, "pool_address");
    var leftAddress :- GetStr(m, "left_address");
    var rightAddress :- GetStr(m, "right_address");
    var leftName :- GetStr(m, "left_currency");
    var rightName :- GetStr(m, "right_currency");
    var poolBalance :- GetDec(m, "pool_balance");
    var leftBalance :- GetDec(m, "left_balance");
    var rightBalance :- GetDec(m, "right_balance");
    var tvl :- GetDec(m, "tvl");
    var tvlChange :- GetDec(m, "tvl_change");
    var apr :- GetDec(m, "apr");
    var aprChange :- GetDec(m, "apr_change");
    var share :- GetDec(m, "share");
    var shareChange :- GetDec(m, "share_change");
    var tokenBalance :- GetDec(m, "user_token_balance");
    var usdtBalance :- GetDec(m, "user_usdt_balance");
    var lpAddress :- GetStr(m, "token_root_address");
    var lpName :- GetStr(m, "token_root_currency");
    var startTime :- GetInt(m, "farm_start_time");
    var endTime :- GetOptInt(m, "farm_end_time");
    var isActive :- GetBool(m, "is_active");
    var isLowBalance :- GetBool(m, "is_low_balance");
    var rewards :- GetArr(m, "reward_token_root_info");
    var rewardInfo :- ParseRewardList(rewards);
    var poolFields :- GetObj(m, "pool_info");
    var poolInfo :- ParsePoolInfo(JObj(poolFields));
    var historyFields :- GetObj(m, "history_info");
    var historyInfo :- ParseHistoryInfo(JObj(historyFields));
    Success(FarmingPoolInfo(poolAddress, leftAddress, rightAddress, leftName, rightName,
                            poolBalance, leftBalance, rightBalance, tvl, tvlChange, apr, aprChange,
                            share, shareChange, tokenBalance, usdtBalance, lpAddress, lpName,
                            startTime, endTime, isActive, isLowBalance, rewardInfo, poolInfo,
                            historyInfo))
  }

  /** The wire keys `FarmingPoolInfo` requires: all but the optional `farm_end_time`. */
  const FarmingPoolKeys: set<string> := {
    "pool_address", "left_address", "right_address", "left_currency", "right_currency",
    "pool_balance", "left_balance", "right_balance", "tvl", "tvl_change", "apr", "apr_change",
    "share", "share_change", "user_token_balance", "user_usdt_balance", "token_root_address",
    "token_root_currency", "farm_start_time", "is_active", "is_low_balance",
    "reward_token_root_info", "pool_info", "history_info"
  }

  // ---------------------------------------------------------------------------------------------
  // The farming-pool records on the wire (other keys may be present too).

  /** An `Optional[int]` on the wire: absent or `null` for None, the integer otherwise. */
  predicate OptIntOnWire(m: Fields, key: string, v: Option<int>) {
    match v
    case None => key !in m || m[key] == JNull
    case Some(x) => key in m && m[key] == JInt(x)
  }

  predicate RewardOnWire(j: Json, r: RewardTokenInfo) {
    && j.JObj?
    && "reward_root_address" in j.fields && j.fields["reward_root_address"] == JStr(r.currencyAddress)
    && "reward_currency" in j.fields && j.fields["reward_currency"] == JStr(r.currencyName)
    && "reward_per_second" in j.fields && j.fields["reward_per_second"] == JNum(r.rewardPerSecond)
  }

  predicate Reward1OnWire(j: Json, r: RewardTokenInfo1) {
    && j.JObj?
    && "rewardTokenRootAddress" in j.fields && j.fields["rewardTokenRootAddress"] == JStr(r.currencyAddress)
    && "rewardTokenCurrency" in j.fields && j.fields["rewardTokenCurrency"] == JStr(r.currencyName)
    && "rewardPerSec" in j.fields && j.fields["rewardPerSec"] == JNum(r.rewardPerSecond)
  }

  predicate RewardsOnWire(items: seq<Json>, rs: seq<RewardTokenInfo>) {
    |items| == |rs| && forall i :: 0 <= i < |items| ==> RewardOnWire(items[i], rs[i])
  }

  predicate Rewards1OnWire(items: seq<Json>, rs: seq<RewardTokenInfo1>) {
    |items| == |rs| && forall i :: 0 <= i < |items| ==> Reward1OnWire(items[i], rs[i])
  }

  predicate RoundOnWire(j: Json, r: RoundInfo) {
    && j.JObj?
    && "start_time" in j.fields && j.fields["start_time"] == JInt(r.startTime)
    && OptIntOnWire(j.fields, "end_time", r.endTime)
    && "reward_info" in j.fields && j.fields["reward_info"].JArr?
    && Rewards1OnWire(j.fields["reward_info"].items, r.rewardInfo)
  }

  predicate RoundsOnWire(items: seq<Json>, rs: seq<RoundInfo>) {
    |items| == |rs| && forall i :: 0 <= i < |items| ==> RoundOnWire(items[i], rs[i])
  }

  predicate PoolOnWire(m: Fields, p: PoolInfo) {
    && "vesting_period" in m && m["vesting_period"] == JInt(p.vestingPeriod)
    && "vesting_ratio" in m && m["vesting_ratio"] == JInt(p.vestingRatio)
    && "rounds_info" in m && m["rounds_info"].JArr? && RoundsOnWire(m["rounds_info"].items, p.roundInfo)
  }

  predicate HistoryOnWire(m: Fields, h: HistoryInfo) {
    && "left_amount" in m && m["left_amount"] == JNum(h.leftAmount)
    && "right_amount" in m && m["right_amount"] == JNum(h.rightAmount)
    && "usdt_amount" in m && m["usdt_amount"] == JNum(h.usdtAmount)
  }

  /** The scalar fields of a farming pool, each under its wire key. */
  predicate FarmingScalarsOnWire(m: Fields, f: FarmingPoolInfo) {
    && "pool_address" in m && m["pool_address"] == JStr(f.poolAddress)
    && "left_address" in m && m["left_address"] == JStr(f.leftCurrencyAddress)
    && "right_address" in m && m["right_address"] == JStr(f.rightCurrencyAddress)
    && "left_currency" in m && m["left_currency"] == JStr(f.leftCurrencyName)
    && "right_currency" in m && m["right_currency"] == JStr(f.rightCurrencyName)
    && "pool_balance" in m && m["pool_balance"] == JNum(f.poolBalance)
    && "left_balance" in m && m["left_balance"] == JNum(f.leftBalance)
    && "right_balance" in m && m["right_balance"] == JNum(f.rightBalance)
    && "tvl" in m && m["tvl"] == JNum(f.tvl)
    && "tvl_change" in m && m["tvl_change"] == JNum(f.tvlChange)
    && "apr" in m && m["apr"] == JNum(f.apr)
    && "apr_change" in m && m["apr_change"] == JNum(f.aprChange)
    && "share" in m && m["share"] == JNum(f.userShare)
    && "share_change" in m && m["share_change"] == JNum(f.userShareChange)
    && "user_token_balance" in m && m["user_token_balance"] == JNum(f.userTokenBalance)
    && "user_usdt_balance" in m && m["user_usdt_balance"] == JNum(f.userUsdtBalance)
    && "token_root_address" in m && m["token_root_address"] == JStr(f.lpTokenAddress)
    && "token_root_currency" in m && m["token_root_currency"] == JStr(f.lpTokenName)
    && "farm_start_time" in m && m["farm_start_time"] == JInt(f.farmStartTime)
    && OptIntOnWire(m, "farm_end_time", f.farmEndTime)
    && "is_active" in m && m["is_active"] == JBool(f.isActive)
    && "is_low_balance" in m && m["is_low_balance"] == JBool(f.isLowBalance)
  }

  /** `m` carries the farming pool `f`, with its reward list and its two nested objects. */
  predicate FarmingPoolOnWire(m: Fields, f: FarmingPoolInfo) {
    && FarmingScalarsOnWire(m, f)
    && "reward_token_root_info" in m && m["reward_token_root_info"].JArr?
    && RewardsOnWire(m["reward_token_root_info"].items, f.rewardInfo)
    && "pool_info" in m && m["pool_info"].JObj? && PoolOnWire(m["pool_info"].fields, f.poolInfo)
    && "history_info" in m && m["history_info"].JObj? && HistoryOnWire(m["history_info"].fields, f.historyInfo)
  }

  // ---------------------------------------------------------------------------------------------
  // Properties.

  /** A currency payload with its fields under their wire keys reads back as the same record. */
  lemma CurrencyRoundTrip(m: Fields, c: CurrencyInfo)
    requires CurrencyOnWire(m, c)
    ensures ParseCurrencyInfo(JObj(m)) == Success(c)
  {
  }

  /** A pair payload, with its `meta` object, reads back as the same record. */
  lemma PairRoundTrip(m: Fields, p: PairInfo)
    requires PairOnWire(m, p)
    ensures ParsePairInfo(JObj(m)) == Success(p)
  {
    PairMetaRoundTrip(m["meta"].fields, p.meta);
    assert JObj(m["meta"].fields) == m["meta"];
  }

  /** A pair's `meta` object with its fields under their wire keys reads back as the same record. */
  lemma PairMetaRoundTrip(m: Fields, p: PairMetaInfo)
    requires PairMetaOnWire(m, p)
    ensures ParsePairMetaInfo(JObj(m)) == Success(p)
  {
  }

  /** The two objects hold the same thing (or nothing) under `k`. */
  predicate AgreeOn(m1: Fields, m2: Fields, k: string) {
    (k in m1 <==> k in m2) && (k in m1 ==> m1[k] == m2[k])
  }

  lemma SameField(m1: Fields, m2: Fields, k: string)
    requires AgreeOn(m1, m2, k)
    ensures GetStr(m1, k) == GetStr(m2, k) && GetDec(m1, k) == GetDec(m2, k)
    ensures GetInt(m1, k) == GetInt(m2, k)
  {
  }

  /**
   * Only the wire keys matter: two objects that agree on every key of `CurrencyKeys` read
   * the same, whatever else they hold.
   */
  lemma CurrencyIgnoresExtraKeys(m1: Fields, m2: Fields)
    requires forall k :: k in CurrencyKeys ==> AgreeOn(m1, m2, k)
    ensures ParseCurrencyInfo(JObj(m1)) == ParseCurrencyInfo(JObj(m2))
  {
    forall k | k in CurrencyKeys
      ensures GetStr(m1, k) == GetStr(m2, k) && GetDec(m1, k) == GetDec(m2, k)
      ensures GetInt(m1, k) == GetInt(m2, k)
    {
      SameField(m1, m2, k);
    }
  }

  /** Every field of `CurrencyInfo` is required: without any one of its wire keys there is no record. */
  lemma CurrencyFieldsRequired(m: Fields, k: string)
    requires k in CurrencyKeys && k !in m
    ensures ParseCurrencyInfo(JObj(m)).Failure?
  {
  }

  /** A decimal sent as a plain-notation string reads as the decimal it spells. */
  lemma DecimalFromPlainString(m: Fields, key: string, d: Dec)
    requires key in m && m[key] == JStr(PlainString(d)) && d.exp <= 0
    ensures GetDec(m, key) == Success(d)
  {
    ParsePlainString(d);
  }

  /** `PairInfo.name` and `PairInfo.address` follow the `meta` object of the payload. */
  lemma PairNameAndAddress(j: Json, p: PairInfo)
    requires ParsePairInfo(j) == Success(p)
    ensures j.JObj? && "meta" in j.fields && j.fields["meta"].JObj?
    ensures var meta := j.fields["meta"].fields;
      && "base" in meta && "counter" in meta && "poolAddress" in meta
      && p.Name() == meta["base"].s + "/" + meta["counter"].s
      && meta["poolAddress"] == JStr(p.Address())
  {
  }

  /** The name splits back into the two currency names when the left one has no `/`. */
  lemma PairNameSplits(p: PairInfo)
    requires '/' !in p.meta.leftName
    ensures var n, k := p.Name(), |p.meta.leftName|;
      && k < |n| && n[k] == '/' && (forall i :: 0 <= i < k ==> n[i] != '/')
      && n[..k] == p.meta.leftName && n[k + 1..] == p.meta.rightName
  {
    var n, l, r := p.Name(), p.meta.leftName, p.meta.rightName;
    assert n == l + "/" + r;
    assert forall i :: 0 <= i < |l| ==> n[i] == l[i];
  }

  /** `RoundInfo.end_time` is optional: an absent or null key gives None. */
  lemma RoundEndTimeOptional(m: Fields)
    requires "end_time" !in m || m["end_time"] == JNull
    ensures ParseRoundInfo(JObj(m)).Success? ==> ParseRoundInfo(JObj(m)).value.endTime == None
    ensures ParseRoundInfo(JObj(m)).Success? <==>
      && GetInt(m, "start_time").Success?
      && GetArr(m, "reward_info").Success?
      && ParseRewardList1(m["reward_info"].items).Success?
  {
  }

  /** A reward list whose elements carry `rs` reads back as `rs`, in order. */
  lemma {:induction false} RewardListRoundTrip(items: seq<Json>, rs: seq<RewardTokenInfo>)
    requires RewardsOnWire(items, rs)
    ensures ParseRewardList(items) == Success(rs)
    decreases |items|
  {
    if items != [] {
      assert RewardsOnWire(items[1..], rs[1..]) by {
        forall i | 0 <= i < |items[1..]| ensures RewardOnWire(items[1..][i], rs[1..][i]) {
          assert RewardOnWire(items[i + 1], rs[i + 1]);
        }
      }
      RewardListRoundTrip(items[1..], rs[1..]);
      assert RewardOnWire(items[0], rs[0]);
      assert [rs[0]] + rs[1..] == rs;
    }
  }

  lemma {:induction false} RewardList1RoundTrip(items: seq<Json>, rs: seq<RewardTokenInfo1>)
    requires Rewards1OnWire(items, rs)
    ensures ParseRewardList1(items) == Success(rs)
    decreases |items|
  {
    if items != [] {
      assert Rewards1OnWire(items[1..], rs[1..]) by {
        forall i | 0 <= i < |items[1..]| ensures Reward1OnWire(items[1..][i], rs[1..][i]) {
          assert Reward1OnWire(items[i + 1], rs[i + 1]);
        }
      }
      RewardList1RoundTrip(items[1..], rs[1..]);
      assert Reward1OnWire(items[0], rs[0]);
      assert [rs[0]] + rs[1..] == rs;
    }
  }

  /** A round, with its end time absent, null or an integer, reads back as the same record. */
  lemma RoundRoundTrip(j: Json, r: RoundInfo)
    requires RoundOnWire(j, r)
    ensures ParseRoundInfo(j) == Success(r)
  {
    RewardList1RoundTrip(j.fields["reward_info"].items, r.rewardInfo);
  }

  lemma {:induction false} RoundListRoundTrip(items: seq<Json>, rs: seq<RoundInfo>)
    requires RoundsOnWire(items, rs)
    ensures ParseRoundList(items) == Success(rs)
    decreases |items|
  {
    if items != [] {
      assert RoundsOnWire(items[1..], rs[1..]) by {
        forall i | 0 <= i < |items[1..]| ensures RoundOnWire(items[1..][i], rs[1..][i]) {
          assert RoundOnWire(items[i + 1], rs[i + 1]);
        }
      }
      RoundListRoundTrip(items[1..], rs[1..]);
      RoundRoundTrip(items[0], rs[0]);
      assert [rs[0]] + rs[1..] == rs;
    }
  }

  lemma PoolRoundTrip(m: Fields, p: PoolInfo)
    requires PoolOnWire(m, p)
    ensures ParsePoolInfo(JObj(m)) == Success(p)
  {
    RoundListRoundTrip(m["rounds_info"].items, p.roundInfo);
  }

  lemma HistoryRoundTrip(m: Fields, h: HistoryInfo)
    requires HistoryOnWire(m, h)
    ensures ParseHistoryInfo(JObj(m)) == Success(h)
  {
  }

  /**
   * A farming-pool payload with every field under its wire key reads back as the same record;
   * `farm_end_time` may be absent or null when the record has no end time.
   */
  lemma FarmingPoolRoundTrip(m: Fields, f: FarmingPoolInfo)
    requires FarmingPoolOnWire(m, f)
    ensures ParseFarmingPoolInfo(JObj(m)) == Success(f)
  {
    FarmingScalarsRead(m, f);
    RewardListRoundTrip(m["reward_token_root_info"].items, f.rewardInfo);
    PoolRoundTrip(m["pool_info"].fields, f.poolInfo);
    HistoryRoundTrip(m["history_info"].fields, f.historyInfo);
    assert JObj(m["pool_info"].fields) == m["pool_info"];
    assert JObj(m["history_info"].fields) == m["history_info"];
  }

  /** Each scalar field of a farming pool on the wire reads back as the record's value. */
  lemma FarmingScalarsRead(m: Fields, f: FarmingPoolInfo)
    requires FarmingScalarsOnWire(m, f)
    ensures && GetStr(m, "pool_address") == Success(f.poolAddress)
            && GetStr(m, "left_address") == Success(f.leftCurrencyAddress)
            && GetStr(m, "right_address") == Success(f.rightCurrencyAddress)
            && GetStr(m, "left_currency") == Success(f.leftCurrencyName)
            && GetStr(m, "right_currency") == Success(f.rightCurrencyName)
            && GetDec(m, "pool_balance") == Success(f.poolBalance)
            && GetDec(m, "left_balance") == Success(f.leftBalance)
            && GetDec(m, "right_balance") == Success(f.rightBalance)
            && GetDec(m, "tvl") == Success(f.tvl)
            && GetDec(m, "tvl_change") == Success(f.tvlChange)
            && GetDec(m, "apr") == Success(f.apr)
            && GetDec(m, "apr_change") == Success(f.aprChange)
            && GetDec(m, "share") == Success(f.userShare)
            && GetDec(m, "share_change") == Success(f.userShareChange)
            && GetDec(m, "user_token_balance") == Success(f.userTokenBalance)
            && GetDec(m, "user_usdt_balance") == Success(f.userUsdtBalance)
            && GetStr(m, "token_root_address") == Success(f.lpTokenAddress)
            && GetStr(m, "token_root_currency") == Success(f.lpTokenName)
            && GetInt(m, "farm_start_time") == Success(f.farmStartTime)
            && GetOptInt(m, "farm_end_time") == Success(f.farmEndTime)
            && GetBool(m, "is_active") == Success(f.isActive)
            && GetBool(m, "is_low_balance") == Success(f.isLowBalance)
  {
  }

  /** Every field of `FarmingPoolInfo` but the end time is required: without its key there is no record. */
  lemma FarmingPoolFieldsRequired(m: Fields, k: string)
    requires k in FarmingPoolKeys && k !in m
    ensures ParseFarmingPoolInfo(JObj(m)).Failure?
  {
  }

  /** `farm_end_time` is optional: when it is absent or null, a record that parses has no end time. */
  lemma FarmEndTimeOptional(m: Fields)
    requires "farm_end_time" !in m || m["farm_end_time"] == JNull
    ensures ParseFarmingPoolInfo(JObj(m)).Success? ==> ParseFarmingPoolInfo(JObj(m)).value.farmEndTime == None
  {
  }
}
