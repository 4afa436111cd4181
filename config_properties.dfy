/** What construction of a `TradingConfig` guarantees, stated over `Config.Construct`. */
module ConfigProperties {
  import opened Wrappers
  import opened Builtins
  import opened Config

  /** Construction raises exactly when the position size lies outside (0, 1]; 1.0 is accepted, 0 is not. */
  lemma PositionSizeBounds(f: Fields, env: Environment)
    ensures Construct(f, env) == Failure(PositionSizeOutOfRange)
      <==> f.maxPositionSize <= 0.0 || f.maxPositionSize > 1.0
    ensures Construct(f.(maxPositionSize := 0.0), env) == Failure(PositionSizeOutOfRange)
    ensures f.stopLossPercent > 0.0 ==> Construct(f.(maxPositionSize := 1.0), env).Success?
  {
  }

  /** Construction raises on a non-positive stop-loss; any positive stop-loss passes that check. */
  lemma StopLossBounds(f: Fields, env: Environment)
    requires PositionSizeInRange(f.maxPositionSize)
    ensures Construct(f, env) == Failure(StopLossNotPositive) <==> f.stopLossPercent <= 0.0
    ensures f.stopLossPercent > 0.0 ==> Construct(f, env).Success?
  {
  }

  /** With both fractions invalid, the position-size error is the one reported. */
  lemma PositionSizeCheckedFirst(f: Fields, env: Environment)
    requires !PositionSizeInRange(f.maxPositionSize) && f.stopLossPercent <= 0.0
    ensures Construct(f, env) == Failure(PositionSizeOutOfRange)
    ensures Construct(f, env).error.Message() == "MAX_POSITION_SIZE must be between 0 and 1"
  {
  }

  /**
    A missing Firebase project in live trading only warns: whether construction
    fails does not depend on the environment at all, and there is no warning when
    paper trading is on or a project is set.
  */
  lemma FirebaseOnlyWarns(f: Fields, env: Environment, other: Environment)
    ensures Construct(f, env).Failure? == Construct(f, other).Failure?
    ensures Construct(f, env).Success? && Construct(f, env).value.warned
      ==> Construct(f, env).value.fields.firebaseProjectId == ""
          && !Construct(f, env).value.fields.paperTrading
    ensures Construct(f, env).Success? && !Construct(f, env).value.warned
      ==> Construct(f, env).value.fields.firebaseProjectId != ""
          || Construct(f, env).value.fields.paperTrading
  {
  }

  /** A few spellings: "TRUE" and "tRuE" enable paper trading; "1", "yes" and "" do not. */
  lemma PaperTradingSpellings(f: Fields)
    ensures ApplyEnvironment(f, map["PAPER_TRADING" := "TRUE"]).paperTrading
    ensures ApplyEnvironment(f, map["PAPER_TRADING" := "tRuE"]).paperTrading
    ensures !ApplyEnvironment(f, map["PAPER_TRADING" := "1"]).paperTrading
    ensures !ApplyEnvironment(f, map["PAPER_TRADING" := "yes"]).paperTrading
    ensures !ApplyEnvironment(f, map["PAPER_TRADING" := ""]).paperTrading
    ensures !ApplyEnvironment(f.(paperTrading := true), map["PAPER_TRADING" := "false"]).paperTrading
    ensures ApplyEnvironment(f.(paperTrading := false), map[]).paperTrading
  {
  }

  /** The values passed for the three overwritten fields never matter. */
  lemma OverwrittenInputsIgnored(f: Fields, d: Option<map<string, string>>, p: bool, id: string, env: Environment)
    ensures ApplyEnvironment(f.(dataSources := d, paperTrading := p, firebaseProjectId := id), env)
      == ApplyEnvironment(f, env)
    ensures Construct(f.(dataSources := d, paperTrading := p, firebaseProjectId := id), env)
      == Construct(f, env)
  {
  }

  /** In a loaded configuration, every field other than the three overwritten ones keeps the value it was given. */
  lemma UnmanagedFieldsKept(f: Fields, env: Environment)
    ensures Construct(f, env).Success? ==> KeepsUnmanagedFields(f, Construct(f, env).value.fields)
  {
  }

  /** `MAX_DRAWDOWN` is never validated: any value, even outside (0, 1], is accepted unchanged. */
  lemma MaxDrawdownUnchecked(f: Fields, d: real, env: Environment)
    ensures Construct(f.(maxDrawdown := d), env).Failure? == Construct(f, env).Failure?
    ensures Construct(f.(maxDrawdown := d), env).Success? ==>
      Construct(f.(maxDrawdown := d), env).value.fields.maxDrawdown == d
    ensures Construct(f.(maxDrawdown := d), env).Success? ==>
      Construct(f.(maxDrawdown := d), env).value.warned == Construct(f, env).value.warned
  {
  }

  /**
    Constructing again from a loaded configuration, in the same environment,
    yields the same configuration and the same warning.
  */
  lemma ReconstructionStable(f: Fields, env: Environment)
    requires Construct(f, env).Success?
    ensures Construct(Construct(f, env).value.fields, env) == Construct(f, env)
  {
  }

  /**
    The all-defaults configuration (the module-level instance) always loads;
    it warns only when the environment turns paper trading off and sets no
    Firebase project.
  */
  lemma DefaultsLoad(env: Environment)
    ensures Construct(Defaults(), env).Success?
    ensures Construct(Defaults(), env).value.fields.maxPositionSize == 0.1
    ensures Construct(Defaults(), env).value.fields.stopLossPercent == 0.02
    ensures "PAPER_TRADING" !in env ==> !Construct(Defaults(), env).value.warned
    ensures Construct(Defaults(), map["PAPER_TRADING" := "False"]).value.warned
  {
  }
}
