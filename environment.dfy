/** support/environment.py: resolving an environment prefix ("qa", "ci",
    "dev", "production", "www", ...) into a CI/production classification,
    a base URL, a configuration and a validated credential pool. The
    configuration files on disk and the two password variables are inputs. */
module EnvironmentResolver {
  import opened Wrappers
  import opened Strings
  import opened Users

  /** The JSON values a configuration file can hold (floats left out). */
  datatype Json =
    | JNull
    | JBool(b: bool)
    | JInt(n: int)
    | JString(s: string)
    | JArray(items: seq<Json>)
    | JObject(fields: map<string, Json>)

  /** A loaded configuration file: a JSON object. */
  type Config = map<string, Json>

  /** The configuration errors raised while constructing an Environment. */
  datatype EnvError =
    | ConfigFileNotFound(fileName: string)  // FileNotFoundError of _load_config
    | MissingPassword(userKey: string)      // ValueError of _get_automation_users

  /** An Environment once constructed; `domain` is the full host name. */
  datatype Environment = Environment(
    prefix: string,
    protocol: string,
    domain: string,
    isCi: bool,
    config: Config,
    baseUrl: string,
    users: Pool)

  const Protocol: string := "https://"
  const DefaultDomain: string := "saucedemo.com"
  const CiConfigFile: string := "ci_config.json"
  const ProductionConfigFile: string := "production_config.json"

  const DefaultTimeout: int := 30000
  const DefaultViewport: Json := JObject(map["width" := JInt(1920), "height" := JInt(1080)])
  const DefaultScreenshotsOnFailure: bool := true

  /** `_is_ci_environment`, applied to the lower-cased prefix: CI-like
      exactly for "qa", "dev" and "ci". */
  predicate IsCiEnvironment(prefix: string)
    ensures IsCiEnvironment(prefix) <==> prefix == "qa" || prefix == "dev" || prefix == "ci"
  {
    prefix in ["qa", "dev", "ci"]
  }

  function ConfigFileName(isCi: bool): string {
    if isCi then CiConfigFile else ProductionConfigFile
  }

  /** `_load_config`: the file for the classification, or the error for a
      missing file. */
  function LoadConfig(isCi: bool, configFiles: map<string, Config>): (r: Result<Config, EnvError>)
    ensures var name := if isCi then "ci_config.json" else "production_config.json";
      && (r.Success? <==> name in configFiles)
      && (r.Success? ==> r.value == configFiles[name])
      && (r.Failure? ==> r.error == ConfigFileNotFound(name))
  {
    var name := ConfigFileName(isCi);
    if name in configFiles then Success(configFiles[name]) else Failure(ConfigFileNotFound(name))
  }

  /** `set_base_url`: the protocol followed by the host. */
  function SetBaseUrl(protocol: string, domain: string): (url: string)
    ensures |url| == |protocol| + |domain|
    ensures url[..|protocol|] == protocol && url[|protocol|..] == domain
  {
    protocol + domain
  }

  predicate AllPasswordsPresent(users: Pool) {
    forall i :: 0 <= i < |users| ==> users[i].record.password.Some?
  }

  /** `key` is the key of the first entry, in pool order, whose password is
      absent. */
  predicate FirstMissingPassword(users: Pool, key: string) {
    exists i :: 0 <= i < |users| && users[i].key == key && users[i].record.password.None? &&
      forall j :: 0 <= j < i ==> users[j].record.password.Some?
  }

  /** `_get_automation_users`: pick the pool for the classification, scan it
      in order and fail on the first entry whose password is `None`; an empty
      password is not rejected. */
  method GetAutomationUsers(isCi: bool, ciUsers: Pool, productionUsers: Pool)
    returns (r: Result<Pool, EnvError>)
    ensures var users := if isCi then ciUsers else productionUsers;
      && (r.Success? <==> AllPasswordsPresent(users))
      && (r.Success? ==> r.value == users)
      && (r.Failure? ==> r.error.MissingPassword? && FirstMissingPassword(users, r.error.userKey))
  {
    var users := if isCi then ciUsers else productionUsers;
    var i := 0;
    while i < |users|
      invariant 0 <= i <= |users|
      invariant forall j :: 0 <= j < i ==> users[j].record.password.Some?
    {
      if users[i].record.password.None? {
        return Failure(MissingPassword(users[i].key));
      }
      i := i + 1;
    }
    return Success(users);
  }

  /** `Environment.__init__`. The fields are set in the source's order: the
      prefix is lower-cased, but the host and the base URL are built from the
      argument as given; the configuration is loaded before the users are
      validated, so a missing configuration file is reported first. */
  method NewEnvironment(
    envPrefix: string,
    configFiles: map<string, Config>,
    ciPassword: Option<string>,
    productionPassword: Option<string>,
    domain: string := DefaultDomain)
    returns (r: Result<Environment, EnvError>)
    ensures var isCi := IsCiEnvironment(Lower(envPrefix));
      var file := ConfigFileName(isCi);
      var users := if isCi then CiUsers(ciPassword) else ProductionUsers(productionPassword);
      && (file !in configFiles ==> r == Failure(ConfigFileNotFound(file)))
      && (file in configFiles && !AllPasswordsPresent(users) ==>
            r.Failure? && r.error.MissingPassword? && FirstMissingPassword(users, r.error.userKey))
      && (r.Success? <==> file in configFiles && AllPasswordsPresent(users))
      && (r.Success? ==>
            && r.value.prefix == Lower(envPrefix)
            && r.value.protocol == "https://"
            && r.value.isCi == isCi
            && r.value.domain == envPrefix + "." + domain
            && r.value.baseUrl == "https://" + envPrefix + "." + domain
            && r.value.config == configFiles[file]
            && r.value.users == users)
  {
    var prefix := Lower(envPrefix);
    var protocol := Protocol;
    var host := envPrefix + "." + domain;
    var isCi := IsCiEnvironment(prefix);
    var config := LoadConfig(isCi, configFiles);
    if config.Failure? {
      return Failure(config.error);
    }
    var baseUrl := SetBaseUrl(protocol, host);
    var users := GetAutomationUsers(isCi, CiUsers(ciPassword), ProductionUsers(productionPassword));
    if users.Failure? {
      return Failure(users.error);
    }
    r := Success(Environment(prefix, protocol, host, isCi, config.value, baseUrl, users.value));
  }

  /** `dict.get(key, default)` on the loaded configuration. */
  function ConfigGet(config: Config, key: string, default: Json): Json {
    if key in config then config[key] else default
  }

  /** The `timeout` property, in milliseconds: the configured value, or
      30000 when the key is absent. */
  function Timeout(env: Environment): (t: Json)
    ensures "timeout" in env.config ==> t == env.config["timeout"]
    ensures "timeout" !in env.config ==> t == JInt(30000)
  {
    ConfigGet(env.config, "timeout", JInt(DefaultTimeout))
  }

  /** The `viewport` property: the configured value, or 1920 x 1080 when
      the key is absent. */
  function Viewport(env: Environment): (v: Json)
    ensures "viewport" in env.config ==> v == env.config["viewport"]
    ensures "viewport" !in env.config ==> v == JObject(map["width" := JInt(1920), "height" := JInt(1080)])
  {
    ConfigGet(env.config, "viewport", DefaultViewport)
  }

  /** The `screenshots_on_failure` property: the configured value, or
      `true` when the key is absent. */
  function ScreenshotsOnFailure(env: Environment): (b: Json)
    ensures "screenshots_on_failure" in env.config ==> b == env.config["screenshots_on_failure"]
    ensures "screenshots_on_failure" !in env.config ==> b == JBool(true)
  {
    ConfigGet(env.config, "screenshots_on_failure", JBool(DefaultScreenshotsOnFailure))
  }

  /** "QA" and "Dev" are CI-like. */
  lemma UpperCaseCiPrefixes()
    ensures IsCiEnvironment(Lower("QA")) && IsCiEnvironment(Lower("Dev"))
  {
    assert Lower("QA") == "qa";
    assert Lower("Dev") == "dev";
  }

  /** "www" and "production" are not CI-like. */
  lemma ProductionPrefixes()
    ensures !IsCiEnvironment(Lower("www")) && !IsCiEnvironment(Lower("production"))
  {
  }

  /** The quirk of `__init__`: an Environment built for "QA" is CI-like
      and has the prefix "qa", yet its base URL keeps the upper-case
      argument. */
  method UpperCasePrefixKeepsCaseInUrl() returns (r: Result<Environment, EnvError>)
    ensures r.Success? && r.value.isCi && r.value.prefix == "qa"
    ensures r.Success? && r.value.baseUrl == "https://QA.saucedemo.com"
  {
    assert Lower("QA") == "qa";
    r := NewEnvironment("QA", map[CiConfigFile := map[]], Some(""), None);
  }

  /** A pool passes validation exactly when its password variable is set,
      an empty password included; otherwise the first key, "standard_user",
      is named. */
  lemma PoolValidation(password: Option<string>)
    ensures AllPasswordsPresent(CiUsers(password)) <==> password.Some?
    ensures AllPasswordsPresent(ProductionUsers(password)) <==> password.Some?
    ensures password.None? ==> FirstMissingPassword(CiUsers(password), "standard_user")
    ensures password.None? ==> FirstMissingPassword(ProductionUsers(password), "standard_user")
    ensures AllPasswordsPresent(CiUsers(Some("")))
  {
    if password.None? {
      assert CiUsers(password)[0].record.password.None?;
      assert ProductionUsers(password)[0].record.password.None?;
    }
  }
}
