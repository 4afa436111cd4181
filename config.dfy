/**
  The trading engine's configuration record (`TradingConfig` in config.py): its
  defaults, the environment overrides applied after construction, and the
  load-time validation that either raises `ValueError` or logs a warning.
*/
module Config {
  import opened Wrappers
  import opened Builtins

  /** The value of every dataclass field, in declaration order. */
  datatype Fields = Fields(
    dataSources: Option<map<string, string>>,
    updateInterval: int,
    historicalDays: int,
    rlEpisodes: int,
    rlLearningRate: real,
    rlDiscountFactor: real,
    rlExplorationRate: real,
    maxPositionSize: real,
    stopLossPercent: real,
    maxDrawdown: real,
    paperTrading: bool,
    orderTimeout: int,
    minLiquidity: real,
    firebaseProjectId: string,
    firebaseCredentialsPath: string)

  /** The `ValueError`s that validation raises. */
  datatype ConfigError = PositionSizeOutOfRange | StopLossNotPositive {
    function Message(): string {
      match this
      case PositionSizeOutOfRange => "MAX_POSITION_SIZE must be between 0 and 1"
      case StopLossNotPositive => "STOP_LOSS_PERCENT must be positive"
    }
  }

  /** A configuration that survived construction, and whether the warning was logged. */
  datatype Loaded = Loaded(fields: Fields, warned: bool)

  /** The field values of `TradingConfig()` called without arguments; they pass validation without a warning. */
  function Defaults(): (d: Fields)
    ensures Validate(d) == Success(false)
  {
    Fields(
      dataSources := None,
      updateInterval := 60,
      historicalDays := 365,
      rlEpisodes := 1000,
      rlLearningRate := 0.001,
      rlDiscountFactor := 0.95,
      rlExplorationRate := 0.1,
      maxPositionSize := 0.1,
      stopLossPercent := 0.02,
      maxDrawdown := 0.15,
      paperTrading := true,
      orderTimeout := 30,
      minLiquidity := 10000.0,
      firebaseProjectId := "",
      firebaseCredentialsPath := "firebase_credentials.json")
  }

  /** The fields that `__post_init__` leaves as they were given. */
  predicate KeepsUnmanagedFields(before: Fields, after: Fields) {
    && after.updateInterval == before.updateInterval
    && after.historicalDays == before.historicalDays
    && after.rlEpisodes == before.rlEpisodes
    && after.rlLearningRate == before.rlLearningRate
    && after.rlDiscountFactor == before.rlDiscountFactor
    && after.rlExplorationRate == before.rlExplorationRate
    && after.maxPositionSize == before.maxPositionSize
    && after.stopLossPercent == before.stopLossPercent
    && after.maxDrawdown == before.maxDrawdown
    && after.orderTimeout == before.orderTimeout
    && after.minLiquidity == before.minLiquidity
    && after.firebaseCredentialsPath == before.firebaseCredentialsPath
  }

  /**
    The overrides of `__post_init__`: the data sources become exactly crypto, stocks
    and news, each from its variable or its default; paper trading is on exactly when
    `PAPER_TRADING` is unset or spells "true" in any case; the Firebase project comes
    from its variable. Every other field is kept.
  */
  function ApplyEnvironment(f: Fields, env: Environment): (g: Fields)
    ensures g.dataSources.Some?
    ensures g.dataSources.value.Keys == {"crypto", "stocks", "news"}
    ensures g.dataSources.value["crypto"] == GetEnv(env, "CRYPTO_EXCHANGE", "binance")
    ensures g.dataSources.value["stocks"] == GetEnv(env, "STOCKS_API", "yfinance")
    ensures g.dataSources.value["news"] == GetEnv(env, "NEWS_API", "newsapi.org")
    ensures g.paperTrading <==> "PAPER_TRADING" !in env || SpellsTrue(env["PAPER_TRADING"])
    ensures g.firebaseProjectId == GetEnv(env, "FIREBASE_PROJECT_ID", "")
    ensures KeepsUnmanagedFields(f, g)
  {
    LowerIsTrue(GetEnv(env, "PAPER_TRADING", "True"));
    f.(dataSources := Some(map[
         "crypto" := GetEnv(env, "CRYPTO_EXCHANGE", "binance"),
         "stocks" := GetEnv(env, "STOCKS_API", "yfinance"),
         "news" := GetEnv(env, "NEWS_API", "newsapi.org")]),
       paperTrading := Lower(GetEnv(env, "PAPER_TRADING", "True")) == "true",
       firebaseProjectId := GetEnv(env, "FIREBASE_PROJECT_ID", ""))
  }

  /** Position size is a fraction of the portfolio in (0, 1]. */
  predicate PositionSizeInRange(x: real) {
    0.0 < x <= 1.0
  }

  /**
    `_validate_config`: the position-size check first, then the stop-loss check;
    on success, whether the Firebase warning is logged. Nothing else is checked.
  */
  function Validate(f: Fields): (r: Result<bool, ConfigError>)
    ensures r == Failure(PositionSizeOutOfRange) <==> !PositionSizeInRange(f.maxPositionSize)
    ensures r == Failure(StopLossNotPositive)
      <==> PositionSizeInRange(f.maxPositionSize) && f.stopLossPercent <= 0.0
    ensures r.Success? <==> PositionSizeInRange(f.maxPositionSize) && f.stopLossPercent > 0.0
    ensures r.Success? ==> (r.value <==> f.firebaseProjectId == "" && !f.paperTrading)
  {
    if f.maxPositionSize <= 0.0 || f.maxPositionSize > 1.0 then
      Failure(PositionSizeOutOfRange)
    else if f.stopLossPercent <= 0.0 then
      Failure(StopLossNotPositive)
    else
      Success(f.firebaseProjectId == "" && !f.paperTrading)
  }

  /**
    `TradingConfig(...)` as a whole: the given field values, overwritten from the
    environment, then validated. The outcome of validation never depends on the
    environment, because the environment only reaches fields that are not checked
    for failure.
  */
  function Construct(f: Fields, env: Environment): (r: Result<Loaded, ConfigError>)
    ensures r.Failure? <==> !PositionSizeInRange(f.maxPositionSize) || f.stopLossPercent <= 0.0
    ensures r.Failure? ==> r.error == Validate(f).error
    ensures r.Success? ==> r.value.fields == ApplyEnvironment(f, env)
    ensures r.Success? ==>
      (r.value.warned <==> !("FIREBASE_PROJECT_ID" in env && env["FIREBASE_PROJECT_ID"] != "")
                           && "PAPER_TRADING" in env && !SpellsTrue(env["PAPER_TRADING"]))
  {
    var g := ApplyEnvironment(f, env);
    match Validate(g)
    case Failure(e) => Failure(e)
    case Success(warned) => Success(Loaded(g, warned))
  }

  /** The dataclass instance, whose fields are updated in place by `__post_init__`. */
  class TradingConfig {
    var dataSources: Option<map<string, string>>
    var updateInterval: int
    var historicalDays: int
    var rlEpisodes: int
    var rlLearningRate: real
    var rlDiscountFactor: real
    var rlExplorationRate: real
    var maxPositionSize: real
    var stopLossPercent: real
    var maxDrawdown: real
    var paperTrading: bool
    var orderTimeout: int
    var minLiquidity: real
    var firebaseProjectId: string
    var firebaseCredentialsPath: string

    /** The current value of every field. */
    function Snapshot(): Fields
      reads this
    {
      Fields(dataSources, updateInterval, historicalDays, rlEpisodes, rlLearningRate,
             rlDiscountFactor, rlExplorationRate, maxPositionSize, stopLossPercent,
             maxDrawdown, paperTrading, orderTimeout, minLiquidity, firebaseProjectId,
             firebaseCredentialsPath)
    }

    /** The dataclass-generated `__init__`: stores each given value. */
    constructor (f: Fields)
      ensures Snapshot() == f
    {
      dataSources := f.dataSources;
      updateInterval := f.updateInterval;
      historicalDays := f.historicalDays;
      rlEpisodes := f.rlEpisodes;
      rlLearningRate := f.rlLearningRate;
      rlDiscountFactor := f.rlDiscountFactor;
      rlExplorationRate := f.rlExplorationRate;
      maxPositionSize := f.maxPositionSize;
      stopLossPercent := f.stopLossPercent;
      maxDrawdown := f.maxDrawdown;
      paperTrading := f.paperTrading;
      orderTimeout := f.orderTimeout;
      minLiquidity := f.minLiquidity;
      firebaseProjectId := f.firebaseProjectId;
      firebaseCredentialsPath := f.firebaseCredentialsPath;
    }

    /**
      `__post_init__`: overwrites the data sources, the paper-trading flag and the
      Firebase project from the environment, then validates. Every other field
      keeps the value it was given.
    */
    method PostInit(env: Environment) returns (r: Result<bool, ConfigError>)
      modifies this
      ensures Snapshot() == ApplyEnvironment(old(Snapshot()), env)
      ensures r == Validate(Snapshot())
      ensures r.Failure? <==> Construct(old(Snapshot()), env).Failure?
      ensures r.Success? ==> Construct(old(Snapshot()), env) == Success(Loaded(Snapshot(), r.value))
    {
      dataSources := Some(map[
        "crypto" := GetEnv(env, "CRYPTO_EXCHANGE", "binance"),
        "stocks" := GetEnv(env, "STOCKS_API", "yfinance"),
        "news" := GetEnv(env, "NEWS_API", "newsapi.org")]);
      paperTrading := Lower(GetEnv(env, "PAPER_TRADING", "True")) == "true";
      firebaseProjectId := GetEnv(env, "FIREBASE_PROJECT_ID", "");
      r := Validate(Snapshot());
    }
  }

  /**
    `TradingConfig(...)`: allocates the instance and runs `__post_init__`. A raised
    `ValueError` leaves no instance behind; `warned` says whether the warning was logged.
  */
  method Create(f: Fields, env: Environment) returns (r: Result<TradingConfig, ConfigError>, warned: bool)
    ensures r.Failure? <==> Construct(f, env).Failure?
    ensures r.Failure? ==> r.error == Construct(f, env).error && !warned
    ensures r.Success? ==> fresh(r.value) && Construct(f, env) == Success(Loaded(r.value.Snapshot(), warned))
  {
    var c := new TradingConfig(f);
    var v := c.PostInit(env);
    match v
    case Failure(e) =>
      r, warned := Failure(e), false;
    case Success(w) =>
      r, warned := Success(c), w;
  }

  /** The module-level `config = TradingConfig()`: construction from the defaults never raises. */
  method LoadGlobalConfig(env: Environment) returns (c: TradingConfig, warned: bool)
    ensures fresh(c)
    ensures Construct(Defaults(), env) == Success(Loaded(c.Snapshot(), warned))
  {
    c := new TradingConfig(Defaults());
    var v := c.PostInit(env);
    assert v.Success?;
    warned := v.value;
  }
}
