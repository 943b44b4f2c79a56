/**
 * The configuration read from the process environment at start-up: five variables are required,
 * the JWT secret must be long enough, and the rest fall back to defaults.
 */
module EnvConfig {
  import opened Common
  import Query

  /** The process environment: a variable that is not set has no entry. */
  type Env = map<string, string>

  /** The variables that must be set, in the order they are checked and reported. */
  const REQUIRED: seq<string> := ["DATABASE_URL", "JWT_SECRET", "CLOUDINARY_CLOUD_NAME", "CLOUDINARY_API_KEY", "CLOUDINARY_API_SECRET"]
  const MIN_SECRET_LENGTH := 32

  /** The loaded configuration; `port` is None where the port text parses to NaN. */
  datatype Config = Config(
    nodeEnv: string,
    port: Option<int>,
    frontendOrigin: string,
    databaseUrl: string,
    jwtSecret: string,
    jwtExpiresIn: string,
    cloudName: string,
    apiKey: string,
    apiSecret: string)

  function Get(env: Env, name: string): Option<string>
  {
    if name in env then Some(env[name]) else None
  }

  /** `!process.env[name]`: unset or empty. */
  predicate Unset(env: Env, name: string)
  {
    !Truthy(Get(env, name))
  }

  /** `sub` is `s` with some elements left out, the rest in their order. */
  predicate SubsequenceOf<T(==)>(sub: seq<T>, s: seq<T>)
    decreases |s|
  {
    if sub == [] then true
    else if s == [] then false
    else if sub[0] == s[0] then SubsequenceOf(sub[1..], s[1..])
    else SubsequenceOf(sub, s[1..])
  }

  /** The names among `names` that are unset. */
  function Missing(env: Env, names: seq<string>): (r: seq<string>)
    ensures forall n :: n in r <==> n in names && Unset(env, n)
  {
    if names == [] then []
    else
      var rest := Missing(env, names[1..]);
      assert forall n :: n in names[1..] ==> n in names;
      if Unset(env, names[0]) then [names[0]] + rest else rest
  }

  /** Each unset name is reported once and in the order of `names`. */
  lemma {:induction false} MissingKeepsOrder(env: Env, names: seq<string>)
    ensures SubsequenceOf(Missing(env, names), names)
    ensures Query.Distinct(names) ==> Query.Distinct(Missing(env, names))
  {
    if names != [] {
      var rest := Missing(env, names[1..]);
      MissingKeepsOrder(env, names[1..]);
      assert forall n :: n in names[1..] ==> n in names;
      if Unset(env, names[0]) {
        assert ([names[0]] + rest)[1..] == rest;
      } else {
        SkipHeadKeepsSubsequence(rest, names);
      }
    }
  }

  lemma {:induction false} SkipHeadKeepsSubsequence<T>(sub: seq<T>, s: seq<T>)
    requires s != [] && SubsequenceOf(sub, s[1..])
    ensures SubsequenceOf(sub, s)
    decreases |s|, 0
  {
    if sub != [] && sub[0] == s[0] {
      SubsequenceTail(sub, s[1..]);
    }
  }

  lemma {:induction false} SubsequenceTail<T>(sub: seq<T>, s: seq<T>)
    requires sub != [] && SubsequenceOf(sub, s)
    ensures SubsequenceOf(sub[1..], s)
    decreases |s|, 1
  {
    if sub[0] == s[0] {
      if sub[1..] != [] {
        SkipHeadKeepsSubsequence(sub[1..], s);
      }
    } else {
      SubsequenceTail(sub, s[1..]);
      if sub[1..] != [] {
        SkipHeadKeepsSubsequence(sub[1..], s);
      }
    }
  }

  /** `names.join(sep)`. */
  function Join(names: seq<string>, sep: string): string
  {
    if names == [] then ""
    else if |names| == 1 then names[0]
    else names[0] + sep + Join(names[1..], sep)
  }

  // ---------------------------------------------------------------- parseInt(text, 10)

  predicate IsDigit(c: char) { '0' <= c <= '9' }

  /** The white space `parseInt` skips: the Unicode space separators, line terminators, tab, VT, FF and BOM. */
  predicate WhiteSpace(c: char)
  {
    c == '\t' || c == '\n' || c == '\U{000B}' || c == '\U{000C}' || c == '\r' || c == ' ' || c == '\U{00A0}'
    || c == '\U{1680}' || ('\U{2000}' <= c <= '\U{200A}') || c == '\U{2028}' || c == '\U{2029}'
    || c == '\U{202F}' || c == '\U{205F}' || c == '\U{3000}' || c == '\U{FEFF}'
  }

  function TrimStart(s: string): (r: string)
    ensures |r| <= |s| && r == s[|s| - |r|..]
    ensures r == [] || !WhiteSpace(r[0])
  {
    if s != [] && WhiteSpace(s[0]) then TrimStart(s[1..]) else s
  }

  /** The longest prefix of `s` made of digits. */
  function DigitPrefix(s: string): (r: string)
    ensures |r| <= |s| && r == s[..|r|]
    ensures forall i :: 0 <= i < |r| ==> IsDigit(r[i])
    ensures |r| == |s| || !IsDigit(s[|r|])
  {
    if s != [] && IsDigit(s[0]) then
      var rest := DigitPrefix(s[1..]);
      assert [s[0]] + rest == s[..1 + |rest|];
      [s[0]] + rest
    else []
  }

  /** The value of a string of decimal digits. */
  function DigitsValue(s: string): (v: nat)
    requires forall i :: 0 <= i < |s| ==> IsDigit(s[i])
  {
    if s == [] then 0
    else
      assert IsDigit(s[|s| - 1]);
      10 * DigitsValue(s[..|s| - 1]) + (s[|s| - 1] as int - '0' as int)
  }

  /** parseInt(s, 10): skip white space, read a sign and the digits after it; no digit at all is NaN. */
  function ParseInt(s: string): (r: Option<int>)
    ensures r.None? <==> DigitPrefix(SkipSign(TrimStart(s))) == []
  {
    var t := TrimStart(s);
    var digits := DigitPrefix(SkipSign(t));
    if digits == [] then None
    else if t[0] == '-' then Some(-(DigitsValue(digits) as int))
    else Some(DigitsValue(digits))
  }

  function SkipSign(t: string): string
  {
    if t != [] && (t[0] == '+' || t[0] == '-') then t[1..] else t
  }

  /** The decimal digits of `n`, without leading zeros. */
  function Decimal(n: nat): (s: string)
    ensures |s| > 0 && forall i :: 0 <= i < |s| ==> IsDigit(s[i])
    ensures s[0] != '+' && s[0] != '-' && !WhiteSpace(s[0])
  {
    var d := ['0' + (n % 10) as char];
    if n < 10 then d else Decimal(n / 10) + d
  }

  lemma {:induction false} DecimalValue(n: nat)
    ensures DigitsValue(Decimal(n)) == n
  {
    var s := Decimal(n);
    if n >= 10 {
      DecimalValue(n / 10);
      assert s[..|s| - 1] == Decimal(n / 10);
    }
  }

  /** The decimal text of a number, followed by anything that does not start with a digit, parses back to it. */
  lemma {:induction false} ParseIntRoundTrip(n: nat, rest: string)
    requires rest == [] || !IsDigit(rest[0])
    ensures ParseInt(Decimal(n) + rest) == Some(n)
  {
    var s := Decimal(n) + rest;
    assert TrimStart(s) == s;
    assert SkipSign(s) == s;
    DigitPrefixOf(Decimal(n), rest);
    DecimalValue(n);
  }

  lemma {:induction false} DigitPrefixOf(digits: string, rest: string)
    requires forall i :: 0 <= i < |digits| ==> IsDigit(digits[i])
    requires rest == [] || !IsDigit(rest[0])
    ensures DigitPrefix(digits + rest) == digits
  {
    var s := digits + rest;
    assert s[..|digits|] == digits;
  }

  // ---------------------------------------------------------------- envConfig

  /** Each of the five required variables is set to a non-empty value. */
  predicate AllRequiredSet(env: Env)
  {
    && "DATABASE_URL" in env && env["DATABASE_URL"] != ""
    && "JWT_SECRET" in env && env["JWT_SECRET"] != ""
    && "CLOUDINARY_CLOUD_NAME" in env && env["CLOUDINARY_CLOUD_NAME"] != ""
    && "CLOUDINARY_API_KEY" in env && env["CLOUDINARY_API_KEY"] != ""
    && "CLOUDINARY_API_SECRET" in env && env["CLOUDINARY_API_SECRET"] != ""
  }

  /** Nothing is reported missing exactly when all five are set. */
  lemma NothingMissingIff(env: Env)
    ensures Missing(env, REQUIRED) == [] <==> AllRequiredSet(env)
  {
    if AllRequiredSet(env) {
      NothingMissing(env, REQUIRED);
    } else {
      var n := if Unset(env, "DATABASE_URL") then "DATABASE_URL"
        else if Unset(env, "JWT_SECRET") then "JWT_SECRET"
        else if Unset(env, "CLOUDINARY_CLOUD_NAME") then "CLOUDINARY_CLOUD_NAME"
        else if Unset(env, "CLOUDINARY_API_KEY") then "CLOUDINARY_API_KEY"
        else "CLOUDINARY_API_SECRET";
      assert n in REQUIRED && Unset(env, n);
      assert n in Missing(env, REQUIRED);
    }
  }

  /**
   * envConfig: every unset required variable is reported, in list order, before the secret's
   * length is looked at; otherwise the configuration with its defaults.
   */
  function Load(env: Env): (r: Result<Config>)
    ensures var missing := Missing(env, REQUIRED);
      missing != [] ==> r == Err(Failed("Missing required environment variables: " + Join(missing, ", ")))
    ensures Missing(env, REQUIRED) == [] <==> AllRequiredSet(env)
    ensures r.Ok? <==> AllRequiredSet(env) && |env["JWT_SECRET"]| >= MIN_SECRET_LENGTH
    ensures AllRequiredSet(env) && |env["JWT_SECRET"]| < MIN_SECRET_LENGTH ==>
      r == Err(Failed("JWT_SECRET must be at least 32 characters long"))
    ensures r.Ok? ==> (r.value.databaseUrl == env["DATABASE_URL"] && r.value.jwtSecret == env["JWT_SECRET"]
                       && r.value.cloudName == env["CLOUDINARY_CLOUD_NAME"] && r.value.apiKey == env["CLOUDINARY_API_KEY"]
                       && r.value.apiSecret == env["CLOUDINARY_API_SECRET"])
    ensures r.Ok? ==> (r.value.nodeEnv == OrDefault(Get(env, "NODE_ENV"), "development")
                       && r.value.port == ParseInt(OrDefault(Get(env, "PORT"), "8000"))
                       && r.value.frontendOrigin == OrDefault(Get(env, "FRONTEND_ORIGIN"), "http://localhost:5173")
                       && r.value.jwtExpiresIn == OrDefault(Get(env, "JWT_EXPIRES_IN"), "7d"))
  {
    var missing := Missing(env, REQUIRED);
    NothingMissingIff(env);
    if missing != [] then Err(Failed("Missing required environment variables: " + Join(missing, ", ")))
    else if Truthy(Get(env, "JWT_SECRET")) && |env["JWT_SECRET"]| < MIN_SECRET_LENGTH then
      Err(Failed("JWT_SECRET must be at least 32 characters long"))
    else
      Ok(Config(
        OrDefault(Get(env, "NODE_ENV"), "development"),
        ParseInt(OrDefault(Get(env, "PORT"), "8000")),
        OrDefault(Get(env, "FRONTEND_ORIGIN"), "http://localhost:5173"),
        env["DATABASE_URL"],
        env["JWT_SECRET"],
        OrDefault(Get(env, "JWT_EXPIRES_IN"), "7d"),
        env["CLOUDINARY_CLOUD_NAME"],
        env["CLOUDINARY_API_KEY"],
        env["CLOUDINARY_API_SECRET"]))
  }

  // ---------------------------------------------------------------- properties

  /** With only the required variables set, every optional setting takes its default. */
  lemma {:induction false} Defaults(env: Env)
    requires AllRequiredSet(env) && |env["JWT_SECRET"]| >= MIN_SECRET_LENGTH
    requires "NODE_ENV" !in env && "PORT" !in env && "FRONTEND_ORIGIN" !in env && "JWT_EXPIRES_IN" !in env
    ensures Load(env) == Ok(Config("development", Some(8000), "http://localhost:5173", env["DATABASE_URL"], env["JWT_SECRET"],
                                   "7d", env["CLOUDINARY_CLOUD_NAME"], env["CLOUDINARY_API_KEY"], env["CLOUDINARY_API_SECRET"]))
  {
    DefaultPort();
  }

  lemma {:induction false} NothingMissing(env: Env, names: seq<string>)
    requires forall n :: n in names ==> n in env && env[n] != ""
    ensures Missing(env, names) == []
  {
    if names != [] {
      NothingMissing(env, names[1..]);
    }
  }

  /** The default port text parses to 8000. */
  lemma DefaultPort()
    ensures ParseInt("8000") == Some(8000)
  {
    ParseIntRoundTrip(8000, "");
    DecimalOf8000();
  }

  lemma DecimalOf8000()
    ensures Decimal(8000) + "" == "8000"
  {
    assert Decimal(8) == "8";
    assert Decimal(80) == "80";
    assert Decimal(800) == "800";
    assert Decimal(8000) == "8000";
  }

  /** Only the JWT secret set: the other four are reported, in the order they are listed. */
  lemma MissingListedInOrder(env: Env)
    requires "JWT_SECRET" in env && |env["JWT_SECRET"]| >= MIN_SECRET_LENGTH
    requires "DATABASE_URL" !in env && "CLOUDINARY_CLOUD_NAME" !in env
    requires "CLOUDINARY_API_KEY" !in env && "CLOUDINARY_API_SECRET" !in env
    ensures Load(env) == Err(Failed("Missing required environment variables: "
      + ("DATABASE_URL" + ", " + ("CLOUDINARY_CLOUD_NAME" + ", " + ("CLOUDINARY_API_KEY" + ", " + "CLOUDINARY_API_SECRET")))))
  {
    OnlySecretSet(env);
    JoinOfTheOthers();
  }

  lemma OnlySecretSet(env: Env)
    requires "JWT_SECRET" in env && |env["JWT_SECRET"]| >= MIN_SECRET_LENGTH
    requires "DATABASE_URL" !in env && "CLOUDINARY_CLOUD_NAME" !in env
    requires "CLOUDINARY_API_KEY" !in env && "CLOUDINARY_API_SECRET" !in env
    ensures Missing(env, REQUIRED) == ["DATABASE_URL", "CLOUDINARY_CLOUD_NAME", "CLOUDINARY_API_KEY", "CLOUDINARY_API_SECRET"]
  {
    OnlySecondSet(env, REQUIRED);
    assert REQUIRED[2..] == ["CLOUDINARY_CLOUD_NAME", "CLOUDINARY_API_KEY", "CLOUDINARY_API_SECRET"];
  }

  /** Only the second name set: every other one is missing, in order. */
  lemma {:induction false} OnlySecondSet(env: Env, names: seq<string>)
    requires |names| >= 2 && names[0] !in env && names[1] in env && env[names[1]] != ""
    requires forall i :: 2 <= i < |names| ==> names[i] !in env
    ensures Missing(env, names) == [names[0]] + names[2..]
  {
    var others := names[2..];
    assert names[1..][1..] == others;
    MissingAllUnset(env, others);
  }

  lemma JoinOfTheOthers()
    ensures Join(["DATABASE_URL", "CLOUDINARY_CLOUD_NAME", "CLOUDINARY_API_KEY", "CLOUDINARY_API_SECRET"], ", ")
         == "DATABASE_URL" + ", " + ("CLOUDINARY_CLOUD_NAME" + ", " + ("CLOUDINARY_API_KEY" + ", " + "CLOUDINARY_API_SECRET"))
  {
    var names := ["DATABASE_URL", "CLOUDINARY_CLOUD_NAME", "CLOUDINARY_API_KEY", "CLOUDINARY_API_SECRET"];
    assert names[1..] == ["CLOUDINARY_CLOUD_NAME", "CLOUDINARY_API_KEY", "CLOUDINARY_API_SECRET"];
    assert names[1..][1..] == ["CLOUDINARY_API_KEY", "CLOUDINARY_API_SECRET"];
    assert names[1..][1..][1..] == ["CLOUDINARY_API_SECRET"];
  }

  /** When every listed name is unset, all of them are reported. */
  lemma {:induction false} MissingAllUnset(env: Env, names: seq<string>)
    requires forall n :: n in names ==> n !in env
    ensures Missing(env, names) == names
  {
    if names != [] {
      MissingAllUnset(env, names[1..]);
    }
  }
}
