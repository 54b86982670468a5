/** Application settings: the defaults of `Settings` and the validator that
    turns the comma-separated ALLOWED_ORIGINS text into a list. */
module Config {

  const ApiPrefix: string := "/api"
  const DefaultDbName: string := "news_app"
  const Algorithm: string := "HS256"
  const AccessTokenExpireMinutes: int := 15
  const RefreshTokenExpireDays: int := 7

  datatype Settings = Settings(
    apiPrefix: string,
    debug: bool,
    dbName: string,
    newsApiKey: string,
    allowedOrigins: seq<string>,
    mongodbUrl: string,
    jwtSecretKey: string,
    algorithm: string,
    accessTokenExpireMinutes: int,
    refreshTokenExpireDays: int)

  /** The settings of a process whose environment gives only the variables
      that have no default (the news API key, the database URL and the
      signing secret) and the raw ALLOWED_ORIGINS text. */
  function SettingsFromEnvironment(newsApiKey: string, mongodbUrl: string,
                                   jwtSecretKey: string, allowedOrigins: string): (s: Settings)
    ensures s.apiPrefix == "/api" && !s.debug && s.dbName == "news_app"
    ensures s.algorithm == "HS256"
    ensures s.accessTokenExpireMinutes == 15 && s.refreshTokenExpireDays == 7
    ensures s.newsApiKey == newsApiKey && s.mongodbUrl == mongodbUrl && s.jwtSecretKey == jwtSecretKey
    ensures Join(s.allowedOrigins) == allowedOrigins
    ensures allowedOrigins == "" ==> s.allowedOrigins == []
  {
    Settings(ApiPrefix, false, DefaultDbName, newsApiKey, ParseAllowedOrigins(allowedOrigins),
             mongodbUrl, jwtSecretKey, Algorithm, AccessTokenExpireMinutes, RefreshTokenExpireDays)
  }

  /** The ALLOWED_ORIGINS validator: empty text gives no origins, any other
      text is split at every comma, keeping empty and untrimmed pieces. */
  function ParseAllowedOrigins(v: string): (origins: seq<string>)
    ensures v == "" ==> origins == []
    ensures v != "" ==> |origins| == Commas(v) + 1
    ensures forall i | 0 <= i < |origins| :: ',' !in origins[i]
    ensures Join(origins) == v
  {
    if v == "" then []
    else
      PartsHaveNoComma(v);
      JoinSplit(v);
      Split(v)
  }

  /** Number of commas in `s`. */
  function Commas(s: string): nat
  {
    if s == [] then 0 else (if s[0] == ',' then 1 else 0) + Commas(s[1..])
  }

  /** `s.split(",")`: the pieces of `s` between commas, one more than there
      are commas. */
  function Split(s: string): (parts: seq<string>)
    ensures |parts| == Commas(s) + 1
  {
    if s == [] then [""]
    else
      var rest := Split(s[1..]);
      if s[0] == ',' then [""] + rest
      else [[s[0]] + rest[0]] + rest[1..]
  }

  /** `",".join(parts)`. */
  function Join(parts: seq<string>): string
  {
    if parts == [] then ""
    else if |parts| == 1 then parts[0]
    else parts[0] + "," + Join(parts[1..])
  }

  lemma {:induction false} PartsHaveNoComma(s: string)
    ensures forall i | 0 <= i < |Split(s)| :: ',' !in Split(s)[i]
  {
    if s != [] {
      PartsHaveNoComma(s[1..]);
    }
  }

  lemma JoinCons(x: string, xs: seq<string>)
    ensures Join([x] + xs) == if xs == [] then x else x + "," + Join(xs)
  {
    if xs != [] {
      assert ([x] + xs)[1..] == xs;
    }
  }

  /** Joining the pieces with commas gives back the text. */
  lemma {:induction false} JoinSplit(s: string)
    ensures Join(Split(s)) == s
  {
    if s != [] {
      var rest := Split(s[1..]);
      JoinSplit(s[1..]);
      if s[0] == ',' {
        JoinCons("", rest);
        assert s == [','] + s[1..];
      } else {
        assert rest == [rest[0]] + rest[1..];
        JoinCons(rest[0], rest[1..]);
        JoinCons([s[0]] + rest[0], rest[1..]);
        assert s == [s[0]] + s[1..];
      }
    }
  }

  lemma {:induction false} SplitWithoutComma(w: string)
    requires ',' !in w
    ensures Split(w) == [w]
  {
    if w != [] {
      SplitWithoutComma(w[1..]);
      assert [w[0]] + w[1..] == w;
    }
  }

  lemma {:induction false} SplitAtFirstComma(w: string, t: string)
    requires ',' !in w
    ensures Split(w + "," + t) == [w] + Split(t)
  {
    if w == [] {
      assert w + "," + t == [','] + t;
    } else {
      SplitAtFirstComma(w[1..], t);
      assert (w + "," + t)[1..] == w[1..] + "," + t;
      assert [w[0]] + w[1..] == w;
    }
  }

  /** Splitting comma-free pieces joined with commas gives back the pieces. */
  lemma {:induction false} SplitJoin(parts: seq<string>)
    requires |parts| >= 1
    requires forall i | 0 <= i < |parts| :: ',' !in parts[i]
    ensures Split(Join(parts)) == parts
  {
    if |parts| == 1 {
      SplitWithoutComma(parts[0]);
    } else {
      SplitJoin(parts[1..]);
      SplitAtFirstComma(parts[0], Join(parts[1..]));
      assert parts == [parts[0]] + parts[1..];
    }
  }

  /** Any non-empty comma-free list of origins survives being written out as
      ALLOWED_ORIGINS and parsed back. */
  lemma OriginsRoundTrip(origins: seq<string>)
    requires |origins| >= 1
    requires forall i | 0 <= i < |origins| :: ',' !in origins[i]
    requires Join(origins) != ""
    ensures ParseAllowedOrigins(Join(origins)) == origins
  {
    SplitJoin(origins);
  }
}
