// Configuration handling of src/config.py: `${NAME:-default}` / `${NAME}`
// substitution over the configuration text, the field validators, the user-id
// conversion done while loading, and the default values the rest of the model
// reads. Reading files, YAML parsing and the process environment are not
// modelled: the environment is a map parameter.
module Config {
  import opened Py
  import opened Numerals
  import opened Json

  // ---------------------------------------------------------------------------
  // Default values

  datatype Thresholds = Thresholds(
    autoApproveUsd: real,
    councilReviewUsd: real,
    humanRequiredUsd: real,
    consensusRequired: real,
    minConfidence: real,
    councilTimeoutSeconds: int,
    approvalTimeoutHours: int,
    reminderAfterHours: int)

  const DefaultThresholds := Thresholds(100.0, 500.0, 2000.0, 0.66, 0.7, 120, 24, 4)

  datatype WalletLimits = WalletLimits(maxSingleTxUsd: real, maxDailySpendUsd: real, maxWeeklySpendUsd: real)

  const DefaultWalletLimits := WalletLimits(1000.0, 5000.0, 20000.0)
  const DefaultMultisigThresholdUsd: real := 2000.0

  datatype VenturesConfig = VenturesConfig(
    minValidationScore: real,
    minProfitMargin: real,
    maxBurnMonths: int,
    scaleTriggerRevenueUsd: real,
    scaleTriggerMargin: real,
    shutdownLossThresholdUsd: real,
    shutdownConsecutiveLossMonths: int)

  const DefaultVentures := VenturesConfig(0.7, 0.2, 6, 10000.0, 0.3, -5000.0, 3)

  datatype X402Config = X402Config(
    enabled: bool,
    facilitatorUrl: string,
    maxAgentHireUsd: real,
    maxDailyHires: int,
    trustedServices: seq<string>)

  const DefaultX402 := X402Config(true, "https://x402.org/facilitator", 500.0, 10, [])

  datatype AlertsConfig = AlertsConfig(walletLowBalanceUsd: real, errorRateThreshold: real)

  const DefaultAlerts := AlertsConfig(500.0, 0.05)

  // ---------------------------------------------------------------------------
  // Environment substitution

  predicate IsNameStart(c: char) { IsAsciiLetter(c) || c == '_' }
  predicate IsNameChar(c: char) { IsNameStart(c) || IsDigit(c) }

  /** `[A-Za-z_][A-Za-z0-9_]*` */
  predicate IsName(s: string) {
    |s| > 0 && IsNameStart(s[0]) && forall i :: 0 <= i < |s| ==> IsNameChar(s[i])
  }

  /** The length of the longest prefix of name characters. */
  function NameRun(s: string): (n: nat)
    ensures n <= |s|
    ensures forall i :: 0 <= i < n ==> IsNameChar(s[i])
    ensures n < |s| ==> !IsNameChar(s[n])
  {
    if s != [] && IsNameChar(s[0]) then 1 + NameRun(s[1..]) else 0
  }

  lemma NameRunOfName(name: string, rest: string)
    requires IsName(name) && (rest == [] || !IsNameChar(rest[0]))
    ensures NameRun(name + rest) == |name|
  {
    var s := name + rest;
    assert forall i :: 0 <= i < |name| ==> s[i] == name[i];
    assert |name| < |s| ==> s[|name|] == rest[0];
  }

  /**
   * A match of `\$\{(NAME):-([^}]*)\}` at the start of `s`: the name, the default and the
   * length of the match.
   */
  function MatchWithDefault(s: string): (r: Option<(string, string, nat)>)
    ensures r.Some? ==> 0 < r.value.2 <= |s|
  {
    if |s| >= 3 && s[0] == '$' && s[1] == '{' && IsNameStart(s[2]) then
      var n := 2 + NameRun(s[2..]);
      if n + 1 < |s| && s[n] == ':' && s[n + 1] == '-' then
        match IndexOf(s[n + 2..], '}')
        case None => None
        case Some(k) => Some((s[2..n], s[n + 2..n + 2 + k], n + 3 + k))
      else None
    else None
  }

  /** A match of `\$\{(NAME)\}` at the start of `s`: the name and the length of the match. */
  function MatchSimple(s: string): (r: Option<(string, nat)>)
    ensures r.Some? ==> 0 < r.value.1 <= |s|
  {
    if |s| >= 3 && s[0] == '$' && s[1] == '{' && IsNameStart(s[2]) then
      var n := 2 + NameRun(s[2..]);
      if n < |s| && s[n] == '}' then Some((s[2..n], n + 1)) else None
    else None
  }

  /** `os.environ.get(name, default)` */
  function EnvGet(env: map<string, string>, name: string, default: string): string {
    if name in env then env[name] else default
  }

  /** The first `re.sub` pass: every `${NAME:-default}`, left to right. */
  function ExpandWithDefaults(s: string, env: map<string, string>): string
    decreases |s|
  {
    if s == [] then []
    else match MatchWithDefault(s)
      case Some((name, default, len)) => EnvGet(env, name, default) + ExpandWithDefaults(s[len..], env)
      case None => [s[0]] + ExpandWithDefaults(s[1..], env)
  }

  /** The second `re.sub` pass: every `${NAME}`, an unset name giving "". */
  function ExpandSimple(s: string, env: map<string, string>): string
    decreases |s|
  {
    if s == [] then []
    else match MatchSimple(s)
      case Some((name, len)) => EnvGet(env, name, "") + ExpandSimple(s[len..], env)
      case None => [s[0]] + ExpandSimple(s[1..], env)
  }

  /** `substitute_env_vars`: the two passes, one after the other. */
  function SubstituteEnvVars(s: string, env: map<string, string>): string {
    ExpandSimple(ExpandWithDefaults(s, env), env)
  }

  predicate NoPlaceholder(s: string) {
    forall i :: 0 <= i < |s| - 1 ==> !(s[i] == '$' && s[i + 1] == '{')
  }

  lemma {:induction false} NoPlaceholderFixed(s: string, env: map<string, string>)
    requires NoPlaceholder(s)
    ensures ExpandWithDefaults(s, env) == s && ExpandSimple(s, env) == s
  {
    if s != [] {
      assert NoPlaceholder(s[1..]) by {
        forall i | 0 <= i < |s[1..]| - 1 ensures !(s[1..][i] == '$' && s[1..][i + 1] == '{') {
          assert s[1..][i] == s[i + 1] && s[1..][i + 1] == s[i + 2];
        }
      }
      NoPlaceholderFixed(s[1..], env);
      assert s == [s[0]] + s[1..];
    }
  }

  /** Text without "${" passes through unchanged. */
  lemma TextWithoutPlaceholderUnchanged(s: string, env: map<string, string>)
    requires NoPlaceholder(s)
    ensures SubstituteEnvVars(s, env) == s
  {
    NoPlaceholderFixed(s, env);
  }

  lemma BraceNameNoPlaceholder(name: string, tail: string)
    requires IsName(name) && NoPlaceholder(tail) && (tail == [] || tail[0] != '$')
    ensures NoPlaceholder(['{'] + name + tail)
  {
    var s := ['{'] + name + tail;
    forall i | 0 <= i < |s| - 1 ensures !(s[i] == '$' && s[i + 1] == '{') {
      if 1 <= i <= |name| {
        assert s[i] == name[i - 1];
      } else if i > |name| {
        assert s[i] == tail[i - 1 - |name|];
        assert s[i + 1] == tail[i - |name|];
      }
    }
  }

  /** `${NAME:-default}` becomes the variable's value when it is set, even to "", else the default. */
  lemma PlaceholderWithDefault(name: string, default: string, env: map<string, string>)
    requires IsName(name) && '}' !in default
    ensures ExpandWithDefaults("${" + name + ":-" + default + "}", env) == EnvGet(env, name, default)
  {
    var s := "${" + name + ":-" + default + "}";
    var rest := ":-" + default + "}";
    assert s[2..] == name + rest;
    NameRunOfName(name, rest);
    var n := 2 + |name|;
    assert s[n] == ':' && s[n + 1] == '-';
    assert s[n + 2..] == default + "}";
    IndexOfAfter(default, '}');
    assert s[2..n] == name;
    assert s[n + 2..n + 2 + |default|] == default;
    assert s[n + 3 + |default|..] == [];
  }

  lemma IndexOfAfter(prefix: string, c: char)
    requires c !in prefix
    ensures IndexOf(prefix + [c], c) == Some(|prefix|)
  {
    var s := prefix + [c];
    assert s[|prefix|] == c;
    assert forall i :: 0 <= i < |prefix| ==> s[i] == prefix[i] && prefix[i] in prefix;
  }

  lemma SimplePlaceholderFirstPass(name: string, env: map<string, string>)
    requires IsName(name)
    ensures ExpandWithDefaults("${" + name + "}", env) == "${" + name + "}"
  {
    var s := "${" + name + "}";
    assert s[2..] == name + "}";
    NameRunOfName(name, "}");
    assert MatchWithDefault(s).None?;
    BraceNameNoPlaceholder(name, "}");
    assert s[1..] == ['{'] + name + "}";
    NoPlaceholderFixed(s[1..], env);
    assert ExpandWithDefaults(s, env) == [s[0]] + ExpandWithDefaults(s[1..], env);
    assert [s[0]] + s[1..] == s;
  }

  lemma SimplePlaceholderSecondPass(name: string, env: map<string, string>)
    requires IsName(name)
    ensures ExpandSimple("${" + name + "}", env) == EnvGet(env, name, "")
  {
    var s := "${" + name + "}";
    assert s[2..] == name + "}";
    NameRunOfName(name, "}");
    assert s[2..2 + |name|] == name;
    assert MatchSimple(s) == Some((name, |name| + 3));
    assert s[|name| + 3..] == [];
    assert ExpandSimple(s, env) == EnvGet(env, name, "") + ExpandSimple([], env);
  }

  /** `${NAME}` survives the first pass and becomes the variable's value or "" in the second. */
  lemma SimplePlaceholder(name: string, env: map<string, string>)
    requires IsName(name)
    ensures SubstituteEnvVars("${" + name + "}", env) == EnvGet(env, name, "")
  {
    SimplePlaceholderFirstPass(name, env);
    SimplePlaceholderSecondPass(name, env);
  }

  /**
   * The passes run in order: a value the first pass inserts is itself expanded by the
   * second when it holds a `${NAME}`.
   */
  lemma InsertedPlaceholderIsExpanded(name: string, default: string, inner: string, env: map<string, string>)
    requires IsName(name) && IsName(inner) && '}' !in default
    requires name in env && env[name] == "${" + inner + "}"
    ensures SubstituteEnvVars("${" + name + ":-" + default + "}", env) == EnvGet(env, inner, "")
  {
    PlaceholderWithDefault(name, default, env);
    assert EnvGet(env, name, default) == "${" + inner + "}";
    SimplePlaceholderSecondPass(inner, env);
  }

  // ---------------------------------------------------------------------------
  // Validators

  const NoApiKey: string := "OPENROUTER_API_KEY not configured. Get your API key at https://openrouter.ai/keys"

  /** `validate_api_key`: empty keys and the template placeholder are refused. */
  function ValidateApiKey(v: string): (r: Result<string>)
    ensures r.Ok? <==> v != "" && !StartsWith(v, "sk-or-v1-XXXX")
    ensures r.Ok? ==> r.value == v
  {
    if v == "" || StartsWith(v, "sk-or-v1-XXXX") then
      Err(NoApiKey)
    else Ok(v)
  }

  const NoBotToken: string := "TELEGRAM_BOT_TOKEN not configured. Create a bot via @BotFather on Telegram"

  /** `validate_bot_token`: a bot token must contain ':'. */
  function ValidateBotToken(v: string): (r: Result<string>)
    ensures r.Ok? <==> ':' in v
    ensures r.Ok? ==> r.value == v
  {
    if v == "" || ':' !in v then
      Err(NoBotToken)
    else Ok(v)
  }

  /** `[x.strip() for x in pieces if x.strip()]` */
  function StrippedPieces(pieces: seq<string>): (r: seq<string>)
    ensures |r| <= |pieces|
    ensures forall i :: 0 <= i < |r| ==> r[i] != ""
  {
    if pieces == [] then []
    else
      var rest := StrippedPieces(pieces[1..]);
      var p := Strip(pieces[0]);
      if p != "" then [p] + rest else rest
  }

  /** Every kept piece is the stripped form of some piece. */
  lemma {:induction false} StrippedPieceSource(pieces: seq<string>, x: string) returns (i: nat)
    requires x in StrippedPieces(pieces)
    ensures i < |pieces| && Strip(pieces[i]) == x && x != ""
  {
    var p := Strip(pieces[0]);
    if p != "" && x == p {
      i := 0;
    } else {
      var k := StrippedPieceSource(pieces[1..], x);
      i := k + 1;
    }
  }

  /** Every piece that is not blank is kept, stripped. */
  lemma {:induction false} StrippedPieceKept(pieces: seq<string>, i: nat)
    requires i < |pieces| && Strip(pieces[i]) != ""
    ensures Strip(pieces[i]) in StrippedPieces(pieces)
  {
    if i > 0 {
      StrippedPieceKept(pieces[1..], i - 1);
    }
  }

  /** The kept pieces are exactly the non-empty stripped pieces. */
  lemma StrippedPiecesMembers(pieces: seq<string>, x: string)
    ensures x in StrippedPieces(pieces) <==> x != "" && exists i :: 0 <= i < |pieces| && Strip(pieces[i]) == x
  {
    if x in StrippedPieces(pieces) {
      var i := StrippedPieceSource(pieces, x);
    }
    if x != "" && exists i :: 0 <= i < |pieces| && Strip(pieces[i]) == x {
      var i :| 0 <= i < |pieces| && Strip(pieces[i]) == x;
      StrippedPieceKept(pieces, i);
    }
  }

  /** A kept piece is already stripped. */
  lemma StrippedPiecesStripped(pieces: seq<string>, x: string)
    requires x in StrippedPieces(pieces)
    ensures Strip(x) == x
  {
    var i := StrippedPieceSource(pieces, x);
    StripUnpadded(x);
  }

  /** Comma-separated text: the stripped, non-empty pieces. */
  function CommaList(s: string): seq<string> {
    StrippedPieces(Split(s, ','))
  }

  /** No piece of a comma list contains a comma, and none is empty or padded. */
  lemma CommaListPieces(s: string, x: string)
    requires x in CommaList(s)
    ensures x != "" && ',' !in x && Strip(x) == x
  {
    var pieces := Split(s, ',');
    StrippedPiecesStripped(pieces, x);
    var k := StrippedPieceSource(pieces, x);
    SplitPiecesHaveNoSeparator(s, ',');
    StripIsInfix(pieces[k]);
    assert ',' !in pieces[k];
  }

  lemma StripIsInfix(s: string)
    ensures forall c :: c in Strip(s) ==> c in s
  {
    var l := StripLeft(s);
    assert forall c :: c in l ==> c in s by {
      forall c | c in l ensures c in s {
        var i :| 0 <= i < |l| && l[i] == c;
        assert s[|s| - |l| + i] == c;
      }
    }
    var r := StripRight(l);
    forall c | c in r ensures c in l {
      var i :| 0 <= i < |r| && r[i] == c;
      assert l[i] == c;
    }
  }

  /** `int(x)` over each element, raising at the first that fails. */
  function IntsOf(items: seq<Value>): (r: Result<seq<int>>)
    ensures r.Ok? ==> |r.value| == |items|
    ensures r.Ok? <==> forall i :: 0 <= i < |items| ==> ToInt(items[i]).Ok?
  {
    if items == [] then Ok([])
    else match ToInt(items[0])
      case Err(e) => Err(e)
      case Ok(n) =>
        assert forall i :: 1 <= i < |items| ==> items[i] == items[1..][i - 1];
        match IntsOf(items[1..])
        case Err(e) => Err(e)
        case Ok(ns) => Ok([n] + ns)
  }

  /**
   * `parse_user_ids`: comma-separated text is split, stripped and converted, a list is
   * converted element by element, and anything else gives no ids.
   */
  function ParseUserIds(v: Value): (r: Result<seq<int>>)
    ensures !v.JStr? && !v.JArr? ==> r == Ok([])
    ensures v.JArr? ==> r == IntsOf(v.items)
    ensures v.JStr? ==> r == IntsOf(JStrs(CommaList(v.s)))
  {
    match v
    case JStr(s) => IntsOf(JStrs(CommaList(s)))
    case JArr(items) => IntsOf(items)
    case _ => Ok([])
  }

  function JStrs(ss: seq<string>): (r: seq<Value>)
    ensures |r| == |ss| && forall i :: 0 <= i < |ss| ==> r[i] == JStr(ss[i])
  {
    if ss == [] then [] else [JStr(ss[0])] + JStrs(ss[1..])
  }

  /**
   * The `to_numbers`, `to_addresses` and `api_keys` validators: text is split into its
   * stripped non-empty pieces; a missing or empty value gives []; a list is kept.
   * Any other value is refused by the field's list type.
   */
  function StringList(v: Value): (r: Result<seq<Value>>)
    ensures v.JStr? ==> r == Ok(JStrs(CommaList(v.s)))
    ensures !v.JStr? && !Truthy(v) ==> r == Ok([])
    ensures v.JArr? ==> r == Ok(v.items)
    ensures r.Err? <==> !v.JStr? && !v.JArr? && Truthy(v)
  {
    if v.JStr? then Ok(JStrs(CommaList(v.s)))
    else if !Truthy(v) then Ok([])
    else if v.JArr? then Ok(v.items)
    else Err("ValidationError: Input should be a valid list")
  }

  /**
   * `parse_cors_origins`: as `StringList`, except that a missing or empty non-text value
   * gives ["*"]. Empty text is text, so it gives [].
   */
  function CorsOrigins(v: Value): (r: Result<seq<Value>>)
    ensures v.JStr? ==> r == StringList(v)
    ensures !v.JStr? && !Truthy(v) ==> r == Ok([JStr("*")])
    ensures Truthy(v) ==> r == StringList(v)
  {
    if v.JStr? then StringList(v)
    else if !Truthy(v) then Ok([JStr("*")])
    else StringList(v)
  }

  /**
   * The user-id conversion in `load_config`: only pieces whose stripped text is all
   * digits are kept, as numbers.
   */
  function DigitIds(s: string): seq<nat> {
    DigitPieces(Split(s, ','))
  }

  function DigitPieces(pieces: seq<string>): (r: seq<nat>)
    ensures |r| <= |pieces|
  {
    if pieces == [] then []
    else
      var rest := DigitPieces(pieces[1..]);
      match DigitPiece(pieces[0])
      case Some(n) => [n] + rest
      case None => rest
  }

  /** `int(x.strip())` for a piece whose stripped text `isdigit()`, else None. */
  function DigitPiece(x: string): Option<nat> {
    var p := Strip(x);
    if IsDigitString(p) then Some(DigitsValue(p)) else None
  }

  /** The decimal spelling of each id. */
  function Decimals(ns: seq<nat>): (r: seq<string>)
    ensures |r| == |ns|
  {
    if ns == [] then [] else [NatToString(ns[0])] + Decimals(ns[1..])
  }

  /** Writing ids as comma-separated decimals and loading them gives the ids back. */
  lemma {:induction false} DigitIdsRoundTrip(ns: seq<nat>)
    ensures DigitIds(Join(Decimals(ns), ',')) == ns
  {
    if ns == [] {
      assert Split([], ',') == [[]];
    } else {
      var parts := Decimals(ns);
      DecimalsHaveNoComma(ns);
      SplitJoin(parts, ',');
      DigitPiecesOfDecimals(ns);
    }
  }

  lemma DecimalPiece(n: nat)
    ensures DigitPiece(NatToString(n)) == Some(n)
  {
    var p := NatToString(n);
    assert IsDigit(p[0]) && IsDigit(p[|p| - 1]);
    StripUnpadded(p);
    DigitsValueOfNatToString(n);
  }

  lemma {:induction false} DecimalsHaveNoComma(ns: seq<nat>)
    ensures forall i :: 0 <= i < |ns| ==> ',' !in Decimals(ns)[i]
  {
    if ns != [] {
      DecimalsHaveNoComma(ns[1..]);
      var p := NatToString(ns[0]);
      assert ',' !in p by {
        assert IsDigitString(p);
      }
      assert Decimals(ns) == [p] + Decimals(ns[1..]);
    }
  }

  lemma {:induction false} DigitPiecesOfDecimals(ns: seq<nat>)
    ensures DigitPieces(Decimals(ns)) == ns
  {
    if ns != [] {
      var d := Decimals(ns);
      DecimalPiece(ns[0]);
      assert d[1..] == Decimals(ns[1..]);
      DigitPiecesOfDecimals(ns[1..]);
      assert DigitPieces(d) == [ns[0]] + DigitPieces(d[1..]);
    }
  }
}
