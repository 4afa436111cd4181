# TradingConfig: configuration defaults, environment overrides and load-time validation

This project models `config.py` of the autonomous self-optimizing trading engine.
That file holds the only executable logic in the repository: the `TradingConfig`
dataclass. Construction of a `TradingConfig` runs in three steps:

1. Each field is set to the value it was given, or to its default. `Config.Defaults`
   holds the defaults: a position size of 0.1, a stop-loss of 0.02, a drawdown of
   0.15, paper trading on, and so on.
2. `__post_init__` overwrites three fields from the environment:
   - the data-source map gets its three keys, `crypto`, `stocks` and `news`;
   - the paper-trading flag is true when `PAPER_TRADING` (default `'True'`) equals
     `'true'` after lower-casing;
   - the Firebase project ID is read from `FIREBASE_PROJECT_ID`, default `""`.
3. `_validate_config` checks the result:
   - it raises `ValueError` when the position-size fraction is outside (0, 1];
   - otherwise it raises when the stop-loss fraction is not positive;
   - otherwise it only logs a warning when live trading has no Firebase project.

Layout:

- `wrappers.dfy`: `Option` (Python's `None`) and `Result` (a value or a raised error).
- `builtins.dfy`: the two Python built-ins the file uses.
  - `os.getenv` reads from an explicit environment map.
  - `str.lower()` folds ASCII case only.
  - It also proves that `s.lower() == 'true'` holds exactly for the sixteen case variants of "true".
- `config.dfy`: the model of `config.py`.
  - `Fields` is the record of all fifteen fields.
  - `ApplyEnvironment` gives the overrides of `__post_init__`.
  - `Validate` is `_validate_config`.
  - `Construct` is the whole construction as one pure function, returning either a `ConfigError` or the loaded fields with a `warned` flag.
  - The class `TradingConfig` has the dataclass's fields, updated in place: its constructor is the generated `__init__`, and `PostInit` is `__post_init__`.
  - `Create` and `LoadGlobalConfig` are the calls `TradingConfig(...)` and `config = TradingConfig()`.
- `config_properties.dfy`: lemmas about `Construct`. They cover the range checks and their order, warnings that never fail, concrete spellings of the paper-trading flag, the irrelevance of the overwritten inputs, and the fields that are kept.

config.py:57-60 checks only the position size and the stop-loss; `MAX_DRAWDOWN` is accepted with any value (`ConfigProperties.MaxDrawdownUnchecked`). No trading loop, risk governor, strategy agent or performance tracker exists in the code, and none is modelled.

## Model

| member | source | states |
|---|---|---|
| `Builtins.GetEnv` | config.py:45-50 | `os.getenv(name, default)` gives the variable's value when it is set, including the empty string. Otherwise it gives the default. |
| `Builtins.LowerChar` | config.py:49 | An ASCII upper-case letter becomes the same letter in lower case. Every other character is unchanged. The result is never an upper-case letter. |
| `Builtins.Lower` | config.py:49 | `str.lower()` keeps the length and lower-cases each character in its position. |
| `Builtins.LowerIsTrue` | config.py:49 | `s.lower() == 'true'` holds if and only if `s` is "true" spelled with any mix of cases. |
| `Config.Defaults` | config.py:18-40 | The field defaults pass validation without a warning: position size 0.1 is in (0, 1], stop-loss 0.02 is positive, paper trading is on. |
| `Config.ApplyEnvironment` | config.py:44-50 | The data sources become exactly the keys crypto, stocks and news, each taking its variable's value or `binance`, `yfinance` or `newsapi.org`. Paper trading is on exactly when `PAPER_TRADING` is unset or spells "true" in any case. The Firebase project ID is `FIREBASE_PROJECT_ID` or `""`. The twelve other fields keep their given values. |
| `Config.Validate` | config.py:55-62 | Fails with the position-size error exactly when the size is outside (0, 1]. Fails with the stop-loss error exactly when the size is in range and the stop-loss is ≤ 0, so the size check wins. Succeeds otherwise. On success it warns exactly when the project ID is empty and paper trading is off. |
| `Config.Construct` | config.py:42-62 | Construction fails exactly when the size is outside (0, 1] or the stop-loss is ≤ 0, and the environment plays no part in that. On success the fields are the environment-overridden ones. It warns exactly when `FIREBASE_PROJECT_ID` is unset or empty and `PAPER_TRADING` is set to something other than a spelling of "true". |
| `Config.TradingConfig.constructor` | config.py:13-40 | The generated `__init__` stores every given field value unchanged. |
| `Config.TradingConfig.PostInit` | config.py:42-53 | `__post_init__` sets the instance's fields to the environment-overridden values of its old fields, then returns the outcome of validating them. That outcome agrees with `Construct` on the old fields. |
| `Config.Create` | config.py:13-62 | `TradingConfig(...)` raises exactly when `Construct` fails, with the same error, and leaves no instance. Otherwise it returns a fresh instance whose fields and warning are those of `Construct`. |
| `Config.LoadGlobalConfig` | config.py:64-65 | The module-level `TradingConfig()` never raises, in any environment. Its fields are the defaults with the environment overrides applied. |
| `ConfigProperties.PositionSizeBounds` | config.py:57-58 | Construction raises the position-size error exactly when the size is ≤ 0 or > 1. A size of 0 is rejected. A size of 1.0 with a positive stop-loss is accepted. |
| `ConfigProperties.StopLossBounds` | config.py:59-60 | With the size in range, construction raises the stop-loss error exactly when the stop-loss is ≤ 0. Any positive stop-loss loads. |
| `ConfigProperties.PositionSizeCheckedFirst` | config.py:57-60 | When both fractions are invalid, the error reported is the position-size one, with its message. |
| `ConfigProperties.FirebaseOnlyWarns` | config.py:61-62 | Whether construction fails is the same in every environment, so a missing Firebase project never causes failure. A warning implies an empty project ID and live trading. No warning implies a project ID is set or paper trading is on. |
| `ConfigProperties.PaperTradingSpellings` | config.py:49 | Concrete cases. "TRUE" and "tRuE" turn paper trading on. "1", "yes", "" and "false" turn it off, even over a passed-in `True`. An unset variable turns it on, even over a passed-in `False`. |
| `ConfigProperties.OverwrittenInputsIgnored` | config.py:44-50 | The values passed for the data sources, paper trading and the project ID never affect the overridden fields or the construction outcome. |
| `ConfigProperties.UnmanagedFieldsKept` | config.py:19-40 | In a successfully loaded configuration, all twelve fields other than the three overwritten ones keep the values they were given. |
| `ConfigProperties.MaxDrawdownUnchecked` | config.py:55-62 | Changing `MAX_DRAWDOWN` to any value, inside (0, 1] or not, changes neither whether construction fails nor the warning. The value is kept as given. |
| `ConfigProperties.ReconstructionStable` | config.py:42-62 | Constructing again from a loaded configuration, in the same environment, gives the same configuration and the same warning. |
| `ConfigProperties.DefaultsLoad` | config.py:18-40 | The all-defaults configuration loads in every environment, with size 0.1 and stop-loss 0.02. It does not warn when `PAPER_TRADING` is unset. It warns when `PAPER_TRADING` is "False" and no project is set. |

## Left out

- `firebase_manager.py` is not part of this model. It holds a singleton Firestore client, credential loading and network persistence, all built on libraries that are not visible here, and the file ends mid-statement.
- `load_dotenv()` and the process environment: the environment is an explicit `map<string, string>` input, already holding whatever `.env` would have added.
- `logging.warning`: the side effect is replaced by the `warned` flag. The text of the logged message is not modelled.
- Floating point: the fractions are `real`. NaN, which passes both Python range checks, is not modelled.
- `str.lower()` is modelled for ASCII only. Unicode case mappings (for example characters whose lower case changes length) are not modelled.
- Run-time types: the model gives each field the type it is declared with. Values of other types (for example a string position size, for which Python's comparison would raise `TypeError`) are not modelled. The `DATA_SOURCES` values, typed `Any` in the source, are modelled as strings.
- The risk governor, strategy agent, learning loop and performance tracker that the documentation describes are not in the source and are not modelled.
