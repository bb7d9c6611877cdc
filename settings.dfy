/** Configuration: the `Config` class of src/config.py (environment settings, keyword and category
    lists, search settings, the DRY_RUN override and `validate`) and the `AzureFunctionConfig`
    class of azure-functions/function_app.py with its own lists and its own `validate`. */
module Settings {
  import opened Wrappers
  import opened Text
  import Classifier

  /** The process environment, passed in explicitly. */
  type Environment = map<string, string>

  /** `os.getenv(key)` */
  function GetEnv(env: Environment, key: string): Option<string> {
    if key in env then Some(env[key]) else None
  }

  /** `os.getenv(key, default)` */
  function GetEnvOr(env: Environment, key: string, default: string): string {
    GetEnv(env, key).GetOr(default)
  }

  /** Python truthiness of an optional string: set and not empty. */
  predicate IsSet(v: Option<string>) {
    v.Some? && v.value != ""
  }

  // ------------------------------------------------------------------ src/config.py

  const PositiveKeywords: seq<string> := [
    "tutorial", "guide", "learn", "teach", "education", "how-to", "tips",
    "inspire", "motivate", "success", "improve", "growth", "help",
    "advice", "solution"]

  const NegativeKeywords: seq<string> := [
    "drama", "exposed", "controversy", "scandal", "fail", "worst",
    "terrible", "hate", "trash", "clickbait", "rant", "angry",
    "crisis", "disaster", "warning"]

  const PositiveCategories: seq<int> := [19, 26, 27, 28, 29]
  const NegativeCategories: seq<int> := [20, 23, 24, 25]
  const MixedCategories: seq<int> := [1, 2, 10, 15, 17, 22]

  const Regions: seq<string> := ["US", "IN", "GB", "CA", "AU"]
  const SearchKeywords: seq<string> := ["technology", "lifestyle", "tutorial", "daily vlog", "news update", "gaming"]
  const VideosPerKeyword: nat := 10

  /** The lists `YouTubeCollector.classify_video` reads. */
  const CollectorLexicon := Classifier.Lexicon(
    PositiveKeywords, NegativeKeywords, PositiveCategories, NegativeCategories, MixedCategories)

  /** No category code is in more than one of the three category lists, so the order in which
      `classify_video` tests them never decides a result. */
  predicate CategoriesDisjoint(lex: Classifier.Lexicon) {
    && (forall c :: c in lex.positiveCategories ==> c !in lex.negativeCategories && c !in lex.mixedCategories)
    && (forall c :: c in lex.negativeCategories ==> c !in lex.mixedCategories)
  }

  lemma CollectorCategoriesDisjoint()
    ensures CategoriesDisjoint(CollectorLexicon)
  {
  }

  /** The error messages `Config.validate` collects, in the order it checks the three keys. */
  const ApiKeyMissing := "YOUTUBE_API_KEY not set"
  const ConnectionStringMissing := "AZURE_STORAGE_CONNECTION_STRING not set"
  const UserMissing := "SNOWFLAKE_USER not set"

  function MessageRank(m: string): nat {
    if m == ApiKeyMissing then 0 else if m == ConnectionStringMissing then 1 else 2
  }

  /** The `errors` list `Config.validate` builds: one message per unset key, in checking order. */
  function ConfigErrors(apiKey: Option<string>, connectionString: Option<string>, user: Option<string>)
    : (errors: seq<string>)
    ensures ApiKeyMissing in errors <==> !IsSet(apiKey)
    ensures ConnectionStringMissing in errors <==> !IsSet(connectionString)
    ensures UserMissing in errors <==> !IsSet(user)
    ensures forall m :: m in errors ==> m in {ApiKeyMissing, ConnectionStringMissing, UserMissing}
    ensures forall i, j :: 0 <= i < j < |errors| ==> MessageRank(errors[i]) < MessageRank(errors[j])
    ensures errors == [] <==> IsSet(apiKey) && IsSet(connectionString) && IsSet(user)
  {
    (if IsSet(apiKey) then [] else [ApiKeyMissing])
    + (if IsSet(connectionString) then [] else [ConnectionStringMissing])
    + (if IsSet(user) then [] else [UserMissing])
  }

  /** The `Config` class: settings read from the environment when the module loads, and the
      search settings that the DRY_RUN block at the end of src/config.py reassigns. */
  class Config {
    var youtubeApiKey: Option<string>
    var azureConnectionString: Option<string>
    var azureContainerName: string
    var snowflakeUser: Option<string>
    var snowflakePassword: Option<string>
    var snowflakeAccount: Option<string>
    var snowflakeWarehouse: string
    var snowflakeDatabase: string
    var snowflakeSchema: string
    var regions: seq<string>
    var searchKeywords: seq<string>
    var videosPerKeyword: nat
    const dryRun: bool

    /** The class body: every setting read from `env`, with its default where it has one. */
    constructor (env: Environment, dryRun: bool)
      ensures youtubeApiKey == GetEnv(env, "YOUTUBE_API_KEY")
      ensures azureConnectionString == GetEnv(env, "AZURE_STORAGE_CONNECTION_STRING")
      ensures azureContainerName == GetEnvOr(env, "AZURE_CONTAINER_NAME", "youtube-raw-data")
      ensures snowflakeUser == GetEnv(env, "SNOWFLAKE_USER")
      ensures snowflakePassword == GetEnv(env, "SNOWFLAKE_PASSWORD")
      ensures snowflakeAccount == GetEnv(env, "SNOWFLAKE_ACCOUNT")
      ensures snowflakeWarehouse == GetEnvOr(env, "SNOWFLAKE_WAREHOUSE", "COMPUTE_WH")
      ensures snowflakeDatabase == GetEnvOr(env, "SNOWFLAKE_DATABASE", "YOUTUBE_ANALYTICS")
      ensures snowflakeSchema == GetEnvOr(env, "SNOWFLAKE_SCHEMA", "CORE")
      ensures regions == Regions && searchKeywords == SearchKeywords && videosPerKeyword == VideosPerKeyword
      ensures this.dryRun == dryRun
    {
      youtubeApiKey := GetEnv(env, "YOUTUBE_API_KEY");
      azureConnectionString := GetEnv(env, "AZURE_STORAGE_CONNECTION_STRING");
      azureContainerName := GetEnvOr(env, "AZURE_CONTAINER_NAME", "youtube-raw-data");
      snowflakeUser := GetEnv(env, "SNOWFLAKE_USER");
      snowflakePassword := GetEnv(env, "SNOWFLAKE_PASSWORD");
      snowflakeAccount := GetEnv(env, "SNOWFLAKE_ACCOUNT");
      snowflakeWarehouse := GetEnvOr(env, "SNOWFLAKE_WAREHOUSE", "COMPUTE_WH");
      snowflakeDatabase := GetEnvOr(env, "SNOWFLAKE_DATABASE", "YOUTUBE_ANALYTICS");
      snowflakeSchema := GetEnvOr(env, "SNOWFLAKE_SCHEMA", "CORE");
      regions := Regions;
      searchKeywords := SearchKeywords;
      videosPerKeyword := VideosPerKeyword;
      this.dryRun := dryRun;
    }

    /** The DRY_RUN block: with dry run on, one region, two keywords and two videos per keyword;
        otherwise nothing changes. */
    method ApplyDryRun()
      modifies this
      ensures dryRun ==> regions == ["US"] && searchKeywords == ["technology", "tutorial"] && videosPerKeyword == 2
      ensures !dryRun ==> regions == old(regions) && searchKeywords == old(searchKeywords)
                          && videosPerKeyword == old(videosPerKeyword)
      ensures youtubeApiKey == old(youtubeApiKey) && azureConnectionString == old(azureConnectionString)
      ensures azureContainerName == old(azureContainerName) && snowflakeUser == old(snowflakeUser)
      ensures snowflakePassword == old(snowflakePassword) && snowflakeAccount == old(snowflakeAccount)
      ensures snowflakeWarehouse == old(snowflakeWarehouse) && snowflakeDatabase == old(snowflakeDatabase)
      ensures snowflakeSchema == old(snowflakeSchema)
    {
      if dryRun {
        regions := ["US"];
        searchKeywords := ["technology", "tutorial"];
        videosPerKeyword := 2;
      }
    }

    /** `Config.validate`: succeeds exactly when the API key, the storage connection string and the
        Snowflake user are all set; no other setting (the password included) is checked. On failure
        the ValueError's message lists the missing keys in checking order, joined by ", ". */
    method Validate() returns (r: Result<bool>)
      ensures r.Success? <==> IsSet(youtubeApiKey) && IsSet(azureConnectionString) && IsSet(snowflakeUser)
      ensures r.Success? ==> r.value
      ensures r.Failure? ==>
                r.error == "Configuration errors: "
                           + Join(ConfigErrors(youtubeApiKey, azureConnectionString, snowflakeUser), ", ")
    {
      var errors: seq<string> := [];
      if !IsSet(youtubeApiKey) {
        errors := errors + [ApiKeyMissing];
      }
      if !IsSet(azureConnectionString) {
        errors := errors + [ConnectionStringMissing];
      }
      if !IsSet(snowflakeUser) {
        errors := errors + [UserMissing];
      }
      assert errors == ConfigErrors(youtubeApiKey, azureConnectionString, snowflakeUser);
      if errors != [] {
        return Failure("Configuration errors: " + Join(errors, ", "));
      }
      return Success(true);
    }
  }

  // ------------------------------------------------------------------ AzureFunctionConfig

  const FunctionRegions: seq<string> := ["US", "GB", "CA", "AU"]
  const FunctionSearchKeywords: seq<string> := ["technology", "AI", "machine learning", "data science"]
  const FunctionVideosPerKeyword: nat := 5

  /** The lists `YouTubeCollectorService.classify_video` reads. */
  const FunctionLexicon := Classifier.Lexicon(
    ["amazing", "great", "excellent", "best", "awesome"],
    ["terrible", "worst", "bad", "awful", "horrible"],
    [28], [25], [22, 23, 24])

  lemma FunctionCategoriesDisjoint()
    ensures CategoriesDisjoint(FunctionLexicon)
  {
  }

  /** `AzureFunctionConfig`: fields set once from the environment and never reassigned. Settings
      that have a default in the source are always present here. */
  datatype FunctionConfig = FunctionConfig(
    youtubeApiKey: Option<string>,
    azureConnectionString: Option<string>,
    azureContainerName: string,
    snowflakeUser: Option<string>,
    snowflakePassword: Option<string>,
    snowflakeAccount: Option<string>,
    snowflakeWarehouse: Option<string>,
    snowflakeDatabase: Option<string>,
    snowflakeSchema: string)
  {
    /** `getattr(self, key)` for the seven keys `validate` checks. */
    function Setting(key: string): Option<string> {
      if key == "YOUTUBE_API_KEY" then youtubeApiKey
      else if key == "AZURE_CONNECTION_STRING" then azureConnectionString
      else if key == "SNOWFLAKE_USER" then snowflakeUser
      else if key == "SNOWFLAKE_PASSWORD" then snowflakePassword
      else if key == "SNOWFLAKE_ACCOUNT" then snowflakeAccount
      else if key == "SNOWFLAKE_WAREHOUSE" then snowflakeWarehouse
      else snowflakeDatabase
    }
  }

  /** `AzureFunctionConfig.__init__` */
  function FunctionConfigFrom(env: Environment): FunctionConfig {
    FunctionConfig(
      GetEnv(env, "YOUTUBE_API_KEY"),
      GetEnv(env, "AZURE_CONNECTION_STRING"),
      GetEnvOr(env, "AZURE_CONTAINER_NAME", "youtube-data"),
      GetEnv(env, "SNOWFLAKE_USER"),
      GetEnv(env, "SNOWFLAKE_PASSWORD"),
      GetEnv(env, "SNOWFLAKE_ACCOUNT"),
      Some(GetEnvOr(env, "SNOWFLAKE_WAREHOUSE", "COMPUTE_WH")),
      Some(GetEnvOr(env, "SNOWFLAKE_DATABASE", "YOUTUBE_ANALYTICS")),
      GetEnvOr(env, "SNOWFLAKE_SCHEMA", "CORE"))
  }

  const RequiredKeys: seq<string> := [
    "YOUTUBE_API_KEY", "AZURE_CONNECTION_STRING",
    "SNOWFLAKE_USER", "SNOWFLAKE_PASSWORD", "SNOWFLAKE_ACCOUNT",
    "SNOWFLAKE_WAREHOUSE", "SNOWFLAKE_DATABASE"]

  /** `[key for key in keys if not getattr(self, key)]` */
  function Missing(c: FunctionConfig, keys: seq<string>): (missing: seq<string>)
    ensures forall k :: k in missing <==> k in keys && !IsSet(c.Setting(k))
    ensures |missing| <= |keys|
  {
    if keys == [] then []
    else
      assert forall k :: k in keys <==> k in keys[..|keys| - 1] || k == keys[|keys| - 1];
      Missing(c, keys[..|keys| - 1]) + (if IsSet(c.Setting(keys[|keys| - 1])) then [] else [keys[|keys| - 1]])
  }

  /** Python's `repr` of a list of key names: `['A', 'B']`. */
  function ListRepr(keys: seq<string>): string {
    "[" + Join(seq(|keys|, i requires 0 <= i < |keys| => "'" + keys[i] + "'"), ", ") + "]"
  }

  /** `AzureFunctionConfig.validate`: raises exactly when one of the seven required settings is
      unset or empty (the warehouse and database have defaults, so only an empty value misses). */
  function ValidateFunctionConfig(c: FunctionConfig): (r: Result<()>)
    ensures r.Success? <==> forall k :: k in RequiredKeys ==> IsSet(c.Setting(k))
    ensures r.Failure? ==> r.error == "Missing required configuration: " + ListRepr(Missing(c, RequiredKeys))
  {
    var missing := Missing(c, RequiredKeys);
    assert missing != [] ==> missing[0] in missing;
    if missing != [] then Failure("Missing required configuration: " + ListRepr(missing))
    else Success(())
  }
}
