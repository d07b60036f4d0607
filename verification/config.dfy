/** Configuration read from the process environment, and its validation.

    Every setting is read with a default; boolean settings are true exactly
    when the lower-cased value is "true"; numeric settings are parsed as
    Python's `int(...)` and `float(...)` would, and a value that does not parse
    makes loading fail. The environment is a map parameter. */
module Config {
  import opened Wrappers
  import opened Numeric

  datatype BybitConfig = BybitConfig(apiKey: string, apiSecret: string, demoMode: bool)

  datatype TradingConfig = TradingConfig(symbol: string, leverage: int, initialCapital: real)

  datatype GridConfig = GridConfig(
    lowerPrice: real, upperPrice: real, levels: int, orderSize: real, rangePercent: real)

  datatype DcaConfig = DcaConfig(enabled: bool, triggerPercent: real, orderSize: real, maxOrders: int)

  datatype RiskConfig = RiskConfig(
    killSwitchEnabled: bool,
    maxDrawdownPercent: real,
    breakevenEnabled: bool,
    partialProfitEnabled: bool,
    partialProfitPercent: real)

  datatype LoggingConfig = LoggingConfig(level: string, file: string, retentionDays: int)

  datatype DatabaseConfig = DatabaseConfig(url: string)

  datatype AlertConfig = AlertConfig(
    enabled: bool, telegramBotToken: Option<string>, telegramChatId: Option<string>)

  datatype BacktestConfig = BacktestConfig(startDate: string, endDate: string, initialCapital: real)

  datatype BotConfig = BotConfig(
    bybit: BybitConfig,
    trading: TradingConfig,
    grid: GridConfig,
    dca: DcaConfig,
    risk: RiskConfig,
    logging: LoggingConfig,
    database: DatabaseConfig,
    alert: AlertConfig,
    backtest: BacktestConfig)

  type Env = map<string, string>

  /** `os.getenv(key, default)` */
  function GetEnv(env: Env, key: string, default: string): (v: string)
    ensures key !in env ==> v == default
    ensures key in env ==> v == env[key]
  {
    if key in env then env[key] else default
  }

  /** `os.getenv(key)` with no default. */
  function LookupEnv(env: Env, key: string): (v: Option<string>)
    ensures v.Some? <==> key in env
  {
    if key in env then Some(env[key]) else None
  }

  function LowerChar(c: char): char
  {
    if 'A' <= c <= 'Z' then (c as int - 'A' as int + 'a' as int) as char else c
  }

  /** `s.lower()` on the ASCII letters. */
  function Lower(s: string): (t: string)
    ensures |t| == |s|
    ensures forall i :: 0 <= i < |s| ==> t[i] == LowerChar(s[i])
  {
    if |s| == 0 then [] else [LowerChar(s[0])] + Lower(s[1..])
  }

  /** `os.getenv(key, 'true').lower() == 'true'` */
  function Flag(env: Env, key: string): bool
  {
    Lower(GetEnv(env, key, "true")) == "true"
  }

  // ---------------------------------------------------------------------------
  // Number parsing, as `int(...)` and `float(...)` read a decimal string

  /** Python's white space (`str.isspace`): the ASCII controls 9-13 and
      28-31, the space, and the Unicode separators. */
  predicate IsSpace(c: char)
  {
    || '\U{9}' <= c <= '\U{D}'
    || '\U{1C}' <= c <= '\U{20}'
    || c == '\U{85}' || c == '\U{A0}' || c == '\U{1680}'
    || '\U{2000}' <= c <= '\U{200A}'
    || c == '\U{2028}' || c == '\U{2029}' || c == '\U{202F}' || c == '\U{205F}' || c == '\U{3000}'
  }

  /** The first code point of the block of ten decimal digits (Unicode
      category Nd) that holds `c`, or -1 when `c` is no decimal digit.
      `int` and `float` read every such digit, not only '0' to '9'; the
      blocks are those of Unicode 15.0. */
  function DigitZero(c: char): (z: int)
    ensures z == -1 || 0x30 <= z <= c as int < z + 10
    ensures '0' <= c <= '9' ==> z == '0' as int
    ensures z != -1 ==> !IsSpace(c)
  {
    var n := c as int;
    if n < 0x3A then (if n < 0x30 then -1 else 0x30)
    else if n < 0x66A then (if n < 0x660 then -1 else 0x660)
    else if n < 0x6FA then (if n < 0x6F0 then -1 else 0x6F0)
    else if n < 0x7CA then (if n < 0x7C0 then -1 else 0x7C0)
    else if n < 0x970 then (if n < 0x966 then -1 else 0x966)
    else if n < 0x9F0 then (if n < 0x9E6 then -1 else 0x9E6)
    else if n < 0xA70 then (if n < 0xA66 then -1 else 0xA66)
    else if n < 0xAF0 then (if n < 0xAE6 then -1 else 0xAE6)
    else if n < 0xB70 then (if n < 0xB66 then -1 else 0xB66)
    else if n < 0xBF0 then (if n < 0xBE6 then -1 else 0xBE6)
    else if n < 0xC70 then (if n < 0xC66 then -1 else 0xC66)
    else if n < 0xCF0 then (if n < 0xCE6 then -1 else 0xCE6)
    else if n < 0xD70 then (if n < 0xD66 then -1 else 0xD66)
    else if n < 0xDF0 then (if n < 0xDE6 then -1 else 0xDE6)
    else if n < 0xE5A then (if n < 0xE50 then -1 else 0xE50)
    else if n < 0xEDA then (if n < 0xED0 then -1 else 0xED0)
    else if n < 0xF2A then (if n < 0xF20 then -1 else 0xF20)
    else if n < 0x104A then (if n < 0x1040 then -1 else 0x1040)
    else if n < 0x109A then (if n < 0x1090 then -1 else 0x1090)
    else if n < 0x17EA then (if n < 0x17E0 then -1 else 0x17E0)
    else if n < 0x181A then (if n < 0x1810 then -1 else 0x1810)
    else if n < 0x1950 then (if n < 0x1946 then -1 else 0x1946)
    else if n < 0x19DA then (if n < 0x19D0 then -1 else 0x19D0)
    else if n < 0x1A8A then (if n < 0x1A80 then -1 else 0x1A80)
    else if n < 0x1A9A then (if n < 0x1A90 then -1 else 0x1A90)
    else if n < 0x1B5A then (if n < 0x1B50 then -1 else 0x1B50)
    else if n < 0x1BBA then (if n < 0x1BB0 then -1 else 0x1BB0)
    else if n < 0x1C4A then (if n < 0x1C40 then -1 else 0x1C40)
    else if n < 0x1C5A then (if n < 0x1C50 then -1 else 0x1C50)
    else if n < 0xA62A then (if n < 0xA620 then -1 else 0xA620)
    else if n < 0xA8DA then (if n < 0xA8D0 then -1 else 0xA8D0)
    else if n < 0xA90A then (if n < 0xA900 then -1 else 0xA900)
    else if n < 0xA9DA then (if n < 0xA9D0 then -1 else 0xA9D0)
    else if n < 0xA9FA then (if n < 0xA9F0 then -1 else 0xA9F0)
    else if n < 0xAA5A then (if n < 0xAA50 then -1 else 0xAA50)
    else if n < 0xABFA then (if n < 0xABF0 then -1 else 0xABF0)
    else if n < 0xFF1A then (if n < 0xFF10 then -1 else 0xFF10)
    else if n < 0x104AA then (if n < 0x104A0 then -1 else 0x104A0)
    else if n < 0x10D3A then (if n < 0x10D30 then -1 else 0x10D30)
    else if n < 0x11070 then (if n < 0x11066 then -1 else 0x11066)
    else if n < 0x110FA then (if n < 0x110F0 then -1 else 0x110F0)
    else if n < 0x11140 then (if n < 0x11136 then -1 else 0x11136)
    else if n < 0x111DA then (if n < 0x111D0 then -1 else 0x111D0)
    else if n < 0x112FA then (if n < 0x112F0 then -1 else 0x112F0)
    else if n < 0x1145A then (if n < 0x11450 then -1 else 0x11450)
    else if n < 0x114DA then (if n < 0x114D0 then -1 else 0x114D0)
    else if n < 0x1165A then (if n < 0x11650 then -1 else 0x11650)
    else if n < 0x116CA then (if n < 0x116C0 then -1 else 0x116C0)
    else if n < 0x1173A then (if n < 0x11730 then -1 else 0x11730)
    else if n < 0x118EA then (if n < 0x118E0 then -1 else 0x118E0)
    else if n < 0x1195A then (if n < 0x11950 then -1 else 0x11950)
    else if n < 0x11C5A then (if n < 0x11C50 then -1 else 0x11C50)
    else if n < 0x11D5A then (if n < 0x11D50 then -1 else 0x11D50)
    else if n < 0x11DAA then (if n < 0x11DA0 then -1 else 0x11DA0)
    else if n < 0x11F5A then (if n < 0x11F50 then -1 else 0x11F50)
    else if n < 0x16A6A then (if n < 0x16A60 then -1 else 0x16A60)
    else if n < 0x16ACA then (if n < 0x16AC0 then -1 else 0x16AC0)
    else if n < 0x16B5A then (if n < 0x16B50 then -1 else 0x16B50)
    else if n < 0x1D7D8 then (if n < 0x1D7CE then -1 else 0x1D7CE)
    else if n < 0x1D7E2 then (if n < 0x1D7D8 then -1 else 0x1D7D8)
    else if n < 0x1D7EC then (if n < 0x1D7E2 then -1 else 0x1D7E2)
    else if n < 0x1D7F6 then (if n < 0x1D7EC then -1 else 0x1D7EC)
    else if n < 0x1D800 then (if n < 0x1D7F6 then -1 else 0x1D7F6)
    else if n < 0x1E14A then (if n < 0x1E140 then -1 else 0x1E140)
    else if n < 0x1E2FA then (if n < 0x1E2F0 then -1 else 0x1E2F0)
    else if n < 0x1E4FA then (if n < 0x1E4F0 then -1 else 0x1E4F0)
    else if n < 0x1E95A then (if n < 0x1E950 then -1 else 0x1E950)
    else if n < 0x1FBFA then (if n < 0x1FBF0 then -1 else 0x1FBF0)
    else -1
  }

  predicate IsDigit(c: char) { DigitZero(c) != -1 }

  function DigitValue(c: char): (d: nat)
    requires IsDigit(c)
    ensures d < 10
  {
    c as int - DigitZero(c)
  }

  /** `s` with leading and trailing white space removed, as `int` and `float` do. */
  function Strip(s: string): (t: string)
    ensures |t| <= |s|
    decreases |s|
  {
    if |s| > 0 && IsSpace(s[0]) then Strip(s[1..])
    else if |s| > 0 && IsSpace(s[|s| - 1]) then Strip(s[..|s| - 1])
    else s
  }

  predicate AllDigits(s: string) { forall i :: 0 <= i < |s| ==> IsDigit(s[i]) }

  /** The value of a string of decimal digits, most significant first. */
  function DigitsValue(s: string): (n: nat)
    requires AllDigits(s)
  {
    if |s| == 0 then 0 else 10 * DigitsValue(s[..|s| - 1]) + DigitValue(s[|s| - 1])
  }

  /** Splits off an optional sign: whether it is a minus, and the rest. */
  function SignOf(t: string): (r: (bool, string))
    ensures |r.1| <= |t|
    ensures r.0 ==> |t| > 0 && t[0] == '-' && r.1 == t[1..]
  {
    if |t| > 0 && t[0] == '-' then (true, t[1..])
    else if |t| > 0 && t[0] == '+' then (false, t[1..])
    else (false, t)
  }

  /** `int(s)` on an optionally signed string of decimal digits. */
  function ParseInt(s: string): (r: Option<int>)
  {
    var (negative, digits) := SignOf(Strip(s));
    if |digits| > 0 && AllDigits(digits) then
      Some(if negative then -(DigitsValue(digits) as int) else DigitsValue(digits))
    else None
  }

  /** Position of the first '.' in `s`, or |s| if there is none. */
  function DotIndex(s: string): (k: nat)
    ensures k <= |s|
    ensures forall i :: 0 <= i < k ==> s[i] != '.'
    ensures k < |s| ==> s[k] == '.'
  {
    if |s| == 0 then 0 else if s[0] == '.' then 0 else 1 + DotIndex(s[1..])
  }

  /** The value of the digits after a decimal point. */
  function FractionValue(frac: string): real
    requires AllDigits(frac)
  {
    DigitsValue(frac) as real / Pow10(|frac|)
  }

  /** The value of the digits `whole.frac`, if both are digit strings and not
      both empty. */
  function DecimalValue(whole: string, frac: string): (r: Option<real>)
  {
    if |whole| + |frac| > 0 && AllDigits(whole) && AllDigits(frac) then
      Some(DigitsValue(whole) as real + FractionValue(frac))
    else None
  }

  /** An unsigned decimal: digits, optionally a '.' and more digits. */
  function ParseUnsigned(body: string): (r: Option<real>)
  {
    var k := DotIndex(body);
    DecimalValue(body[..k], if k < |body| then body[k + 1..] else "")
  }

  /** `float(s)` on an optionally signed decimal with an optional fraction. */
  function ParseFloat(s: string): (r: Option<real>)
  {
    var (negative, body) := SignOf(Strip(s));
    var v := ParseUnsigned(body);
    if v.Some? then Some(if negative then -v.value else v.value) else None
  }

  function DigitChar(d: nat): (c: char)
    requires d < 10
    ensures IsDigit(c) && DigitValue(c) == d
  {
    ('0' as int + d) as char
  }

  /** The decimal digits of `n`, as `str(n)` writes them. */
  function NatToString(n: nat): (s: string)
    ensures |s| > 0 && AllDigits(s)
  {
    if n < 10 then [DigitChar(n)] else NatToString(n / 10) + [DigitChar(n % 10)]
  }

  function IntToString(n: int): string
  {
    if n < 0 then "-" + NatToString(-n) else NatToString(n)
  }

  lemma {:induction false} DigitsOfNat(n: nat)
    ensures DigitsValue(NatToString(n)) == n
  {
    var s := NatToString(n);
    if n >= 10 {
      DigitsOfNat(n / 10);
      assert s[..|s| - 1] == NatToString(n / 10);
    }
  }

  lemma StripDigits(s: string)
    requires |s| > 0 && AllDigits(s)
    ensures Strip(s) == s
  {
  }

  /** Parsing what `str` writes gives the number back. */
  lemma IntRoundTrip(n: int)
    ensures ParseInt(IntToString(n)) == Some(n)
  {
    var s := IntToString(n);
    if n < 0 {
      var d := NatToString(-n);
      assert s == "-" + d;
      assert Strip(s) == s by {
        assert !IsSpace(s[0]) && s[|s| - 1] == d[|d| - 1];
      }
      assert SignOf(s) == (true, d) by { assert s[1..] == d; }
      DigitsOfNat(-n);
    } else {
      StripDigits(s);
      DigitsOfNat(n);
    }
  }

  // ---------------------------------------------------------------------------
  // The sections of the configuration, each `from_env`

  function BybitFromEnv(env: Env): BybitConfig
  {
    BybitConfig(
      GetEnv(env, "BYBIT_API_KEY", ""),
      GetEnv(env, "BYBIT_API_SECRET", ""),
      Flag(env, "BYBIT_DEMO_MODE"))
  }

  function TradingFromEnv(env: Env): Option<TradingConfig>
  {
    var leverage := ParseInt(GetEnv(env, "LEVERAGE", "10"));
    var capital := ParseFloat(GetEnv(env, "INITIAL_CAPITAL", "1000"));
    if leverage.None? || capital.None? then None
    else Some(TradingConfig(GetEnv(env, "SYMBOL", "BTCUSDT"), leverage.value, capital.value))
  }

  function GridFromEnv(env: Env): Option<GridConfig>
  {
    var lower := ParseFloat(GetEnv(env, "GRID_LOWER_PRICE", "50000"));
    var upper := ParseFloat(GetEnv(env, "GRID_UPPER_PRICE", "70000"));
    var levels := ParseInt(GetEnv(env, "GRID_LEVELS", "20"));
    var size := ParseFloat(GetEnv(env, "GRID_ORDER_SIZE", "0.01"));
    var range := ParseFloat(GetEnv(env, "GRID_RANGE_PERCENT", "3.0"));
    if lower.None? || upper.None? || levels.None? || size.None? || range.None? then None
    else Some(GridConfig(lower.value, upper.value, levels.value, size.value, range.value))
  }

  function DcaFromEnv(env: Env): Option<DcaConfig>
  {
    var trigger := ParseFloat(GetEnv(env, "DCA_TRIGGER_PERCENT", "2.0"));
    var size := ParseFloat(GetEnv(env, "DCA_ORDER_SIZE", "0.02"));
    var maxOrders := ParseInt(GetEnv(env, "DCA_MAX_ORDERS", "5"));
    if trigger.None? || size.None? || maxOrders.None? then None
    else Some(DcaConfig(Flag(env, "DCA_ENABLED"), trigger.value, size.value, maxOrders.value))
  }

  function RiskFromEnv(env: Env): Option<RiskConfig>
  {
    var maxDrawdown := ParseFloat(GetEnv(env, "MAX_DRAWDOWN_PERCENT", "20.0"));
    var partial := ParseFloat(GetEnv(env, "PARTIAL_PROFIT_PERCENT", "50.0"));
    if maxDrawdown.None? || partial.None? then None
    else Some(RiskConfig(
      Flag(env, "KILL_SWITCH_ENABLED"),
      maxDrawdown.value,
      Flag(env, "BREAKEVEN_ENABLED"),
      Flag(env, "PARTIAL_PROFIT_ENABLED"),
      partial.value))
  }

  function LoggingFromEnv(env: Env): Option<LoggingConfig>
  {
    var retention := ParseInt(GetEnv(env, "LOG_RETENTION_DAYS", "30"));
    if retention.None? then None
    else Some(LoggingConfig(GetEnv(env, "LOG_LEVEL", "INFO"), GetEnv(env, "LOG_FILE", "logs/trading_bot.log"), retention.value))
  }

  function DatabaseFromEnv(env: Env): DatabaseConfig
  {
    DatabaseConfig(GetEnv(env, "DATABASE_URL", "sqlite:///trading_bot.db"))
  }

  function AlertFromEnv(env: Env): AlertConfig
  {
    AlertConfig(Flag(env, "ALERTS_ENABLED"), LookupEnv(env, "TELEGRAM_BOT_TOKEN"), LookupEnv(env, "TELEGRAM_CHAT_ID"))
  }

  function BacktestFromEnv(env: Env): Option<BacktestConfig>
  {
    var capital := ParseFloat(GetEnv(env, "BACKTEST_INITIAL_CAPITAL", "1000"));
    if capital.None? then None
    else Some(BacktestConfig(
      GetEnv(env, "BACKTEST_START_DATE", "2024-01-01"),
      GetEnv(env, "BACKTEST_END_DATE", "2024-12-31"),
      capital.value))
  }

  /** `Config.load()`: every section from the environment; a numeric setting
      that does not parse makes loading fail. */
  function Load(env: Env): (r: Result<BotConfig, string>)
  {
    var trading := TradingFromEnv(env);
    var grid := GridFromEnv(env);
    var dca := DcaFromEnv(env);
    var risk := RiskFromEnv(env);
    var logging := LoggingFromEnv(env);
    var backtest := BacktestFromEnv(env);
    if trading.None? || grid.None? || dca.None? || risk.None? || logging.None? || backtest.None? then
      Failure("invalid numeric setting")
    else
      Success(BotConfig(
        BybitFromEnv(env), trading.value, grid.value, dca.value, risk.value,
        logging.value, DatabaseFromEnv(env), AlertFromEnv(env), backtest.value))
  }

  /** `Config.validate()`: credentials present and leverage within 1..100; the
      grid prices are not checked. */
  function Validate(c: BotConfig): bool
  {
    if c.bybit.apiKey == "" || c.bybit.apiSecret == "" then false
    else if c.trading.leverage < 1 || c.trading.leverage > 100 then false
    else true
  }

  // ---------------------------------------------------------------------------
  // Properties of loading and validation

  /** A boolean setting is true exactly when it is unset or spells "true" in
      any mix of upper and lower case. */
  lemma FlagMeaning(env: Env, key: string)
    ensures Flag(env, key) <==> key !in env || Lower(env[key]) == "true"
    ensures key in env && env[key] == "TRUE" ==> Flag(env, key)
    ensures key in env && env[key] == "false" ==> !Flag(env, key)
    ensures key in env && env[key] == "1" ==> !Flag(env, key)
  {
    assert Lower("true") == "true";
    if key in env && env[key] == "TRUE" {
      assert Lower("TRUE") == "true";
    }
    if key in env && env[key] == "false" {
      assert |Lower("false")| == 5;
    }
    if key in env && env[key] == "1" {
      assert |Lower("1")| == 1;
    }
  }

  lemma ParseIntLiteral(n: nat)
    ensures ParseInt(NatToString(n)) == Some(n)
  {
    IntRoundTrip(n);
  }

  lemma DotIndexAfter(w: string, f: string)
    requires forall i :: 0 <= i < |w| ==> w[i] != '.'
    ensures DotIndex(w + f) == |w| + DotIndex(f)
  {
    if |w| > 0 {
      assert (w + f)[0] == w[0] && w[0] != '.';
      assert (w + f)[1..] == w[1..] + f;
      DotIndexAfter(w[1..], f);
    } else {
      assert w + f == f;
    }
  }

  lemma StripPlain(s: string)
    requires |s| > 0 && !IsSpace(s[0]) && !IsSpace(s[|s| - 1])
    ensures Strip(s) == s
  {
  }

  lemma SignOfUnsigned(s: string)
    requires |s| > 0 && IsDigit(s[0])
    ensures SignOf(s) == (false, s)
  {
  }

  lemma ParseFloatUnsigned(s: string)
    requires |s| > 0 && IsDigit(s[0]) && IsDigit(s[|s| - 1])
    ensures ParseFloat(s) == ParseUnsigned(s)
  {
    StripPlain(s);
    SignOfUnsigned(s);
  }

  lemma ParseUnsignedSplit(w: string, frac: string)
    requires forall i :: 0 <= i < |w| ==> w[i] != '.'
    ensures ParseUnsigned(w + "." + frac) == DecimalValue(w, frac)
  {
    var s := w + "." + frac;
    assert w + "." + frac == w + ("." + frac);
    DotIndexAfter(w, "." + frac);
    assert s[..|w|] == w;
    assert s[|w| + 1..] == frac;
  }

  lemma DecimalOfNat(whole: nat, frac: string)
    requires AllDigits(frac)
    ensures DecimalValue(NatToString(whole), frac) == Some(whole as real + FractionValue(frac))
  {
    DigitsOfNat(whole);
  }

  /** The value `float` reads from an unsigned decimal `whole.frac`. */
  lemma ParseFloatDecimal(whole: nat, frac: string)
    requires |frac| > 0 && AllDigits(frac)
    ensures ParseFloat(NatToString(whole) + "." + frac) == Some(whole as real + FractionValue(frac))
  {
    var w := NatToString(whole);
    var s := w + "." + frac;
    assert IsDigit(s[0]) && IsDigit(s[|s| - 1]);
    ParseFloatUnsigned(s);
    DigitsOfNat(whole);
    assert forall i :: 0 <= i < |w| ==> w[i] != '.';
    ParseUnsignedSplit(w, frac);
    DecimalOfNat(whole, frac);
  }

  /** The value `float` reads from an unsigned whole number. */
  lemma ParseFloatWhole(whole: nat)
    ensures ParseFloat(NatToString(whole)) == Some(whole as real)
  {
    var w := NatToString(whole);
    StripPlain(w);
    SignOfUnsigned(w);
    DotIndexAfter(w, "");
    assert w + "" == w;
    assert w[..|w|] == w;
    DigitsOfNat(whole);
    assert ParseUnsigned(w) == DecimalValue(w, "");
  }

  lemma WholeLiteral(n: nat, lit: string)
    requires lit == NatToString(n)
    ensures ParseFloat(lit) == Some(n as real) && ParseInt(lit) == Some(n)
  {
    ParseFloatWhole(n);
    ParseIntLiteral(n);
  }

  lemma PointZeroLiteral(n: nat, lit: string)
    requires lit == NatToString(n) + "." + "0"
    ensures ParseFloat(lit) == Some(n as real)
  {
    assert FractionValue("0") == 0.0;
    ParseFloatDecimal(n, "0");
  }

  // Each default string on its own, so that no proof evaluates more than one.

  lemma Parses5() ensures ParseInt("5") == Some(5) { WholeLiteral(5, "5"); }
  lemma Parses10() ensures ParseInt("10") == Some(10) { WholeLiteral(10, "10"); }
  lemma Parses20() ensures ParseInt("20") == Some(20) { WholeLiteral(20, "20"); }
  lemma Parses30() ensures ParseInt("30") == Some(30) { WholeLiteral(30, "30"); }
  lemma Parses1000() ensures ParseFloat("1000") == Some(1000.0) { WholeLiteral(1000, "1000"); }
  lemma Parses50000() ensures ParseFloat("50000") == Some(50000.0) { WholeLiteral(50000, "50000"); }
  lemma Parses70000() ensures ParseFloat("70000") == Some(70000.0) { WholeLiteral(70000, "70000"); }
  lemma Parses2Point0() ensures ParseFloat("2.0") == Some(2.0) { PointZeroLiteral(2, "2.0"); }
  lemma Parses3Point0() ensures ParseFloat("3.0") == Some(3.0) { PointZeroLiteral(3, "3.0"); }
  lemma Parses20Point0() ensures ParseFloat("20.0") == Some(20.0) { PointZeroLiteral(20, "20.0"); }
  lemma Parses50Point0() ensures ParseFloat("50.0") == Some(50.0) { PointZeroLiteral(50, "50.0"); }

  lemma ParsesCents()
    ensures ParseFloat("0.01").Some? && ParseFloat("0.02").Some?
  {
    ParseFloatDecimal(0, "01"); assert NatToString(0) + "." + "01" == "0.01";
    ParseFloatDecimal(0, "02"); assert NatToString(0) + "." + "02" == "0.02";
  }

  lemma TradingDefaults()
    ensures TradingFromEnv(map[]) == Some(TradingConfig("BTCUSDT", 10, 1000.0))
  {
    Parses10(); Parses1000();
  }

  lemma GridDefaults()
    ensures var g := GridFromEnv(map[]);
      g.Some? && g.value.levels == 20 && g.value.lowerPrice == 50000.0 && g.value.upperPrice == 70000.0
  {
    Parses20(); Parses50000(); Parses70000(); ParsesCents(); Parses3Point0();
  }

  lemma DcaDefaults()
    ensures var d := DcaFromEnv(map[]);
      d.Some? && d.value.enabled && d.value.maxOrders == 5 && d.value.triggerPercent == 2.0
  {
    assert Lower("true") == "true";
    Parses5(); Parses2Point0(); ParsesCents();
  }

  lemma RiskDefaults()
    ensures RiskFromEnv(map[]) == Some(RiskConfig(true, 20.0, true, true, 50.0))
  {
    assert Lower("true") == "true";
    Parses20Point0(); Parses50Point0();
  }

  lemma OtherDefaults()
    ensures LoggingFromEnv(map[]) == Some(LoggingConfig("INFO", "logs/trading_bot.log", 30))
    ensures BacktestFromEnv(map[]) == Some(BacktestConfig("2024-01-01", "2024-12-31", 1000.0))
    ensures BybitFromEnv(map[]) == BybitConfig("", "", true)
  {
    assert Lower("true") == "true";
    Parses30(); Parses1000();
  }

  /** With nothing set, every section loads with its defaults (stated section
      by section above), so loading succeeds; validation then fails for want
      of credentials. */
  lemma {:induction false} Defaults()
    ensures Load(map[]).Success?
  {
    TradingDefaults();
    GridDefaults();
    DcaDefaults();
    RiskDefaults();
    OtherDefaults();
  }

  /** The configuration loaded from an empty environment is rejected. */
  lemma DefaultsInvalid()
    ensures Load(map[]).Success? && !Validate(Load(map[]).value)
  {
    Defaults();
    var c := Load(map[]).value;
    assert c.bybit == BybitFromEnv(map[]);
    OtherDefaults();
  }

  /** A leverage setting that `int` cannot read makes loading fail. */
  lemma LoadBadNumber(env: Env)
    requires "LEVERAGE" in env && ParseInt(env["LEVERAGE"]).None?
    ensures Load(env).Failure?
  {
    assert TradingFromEnv(env).None?;
  }

  /** `int` reads decimal digits of any script: full-width "１０" and
      Arabic-Indic "١٠" are both ten, like "10". */
  lemma ParseIntOtherDigits()
    ensures ParseInt("\U{FF11}\U{FF10}") == Some(10)
    ensures ParseInt(" \U{661}\U{660}\U{3000}") == Some(10)
    ensures ParseInt("\U{FF11}\U{FF10}") == ParseInt("10")
  {
    assert Strip("\U{FF11}\U{FF10}") == "\U{FF11}\U{FF10}";
    assert Strip(" \U{661}\U{660}\U{3000}") == "\U{661}\U{660}" by {
      assert (" \U{661}\U{660}\U{3000}")[1..] == "\U{661}\U{660}\U{3000}";
      assert ("\U{661}\U{660}\U{3000}")[..2] == "\U{661}\U{660}";
    }
    assert Strip("10") == "10";
    var w := "\U{FF11}\U{FF10}";
    assert w[..1] == "\U{FF11}";
    assert SignOf(w) == (false, w);
    assert AllDigits(w) && DigitsValue(w[..1]) == 1;
    assert DigitsValue(w) == 10;
    assert ("\U{661}\U{660}")[..1] == "\U{661}";
    assert "10"[..1] == "1";
  }

  /** Whether a loaded configuration validates depends only on the two
      credential settings and the leverage setting: both credentials set
      and non-empty, and the leverage read by `int` within 1..100. */
  lemma LoadThenValidate(env: Env)
    requires Load(env).Success?
    ensures var lev := ParseInt(GetEnv(env, "LEVERAGE", "10"));
      Validate(Load(env).value)
      <==> GetEnv(env, "BYBIT_API_KEY", "") != "" && GetEnv(env, "BYBIT_API_SECRET", "") != ""
           && lev.Some? && 1 <= lev.value <= 100
  {
    assert TradingFromEnv(env).Some?;
  }
}
