/**
 * Model of internals/config.py: the settings cache filled from the process environment,
 * the check that the database settings are present, and the typed accessors over the cache.
 * The environment (`os.environ` after `load_dotenv`) is a parameter.
 */
module Configuration {
  import opened Results
  import opened Text

  datatype ConfigError =
    | MissingProperty(name: string)   // Exception("Missing required property: <name>")
    | InvalidInteger(text: string)    // ValueError raised by int(<text>)

  /** The settings `_load` insists on, in the order it checks them. */
  const RequiredProperties: seq<string> := ["DB_USER", "DB_PASS", "DB_HOST", "DB_PORT", "DB_NAME"]

  /** The first of `required` that `cache` lacks, or None when it has them all. */
  function FirstMissing(cache: map<string, string>, required: seq<string>): (r: Option<string>)
    ensures r.None? <==> forall i :: 0 <= i < |required| ==> required[i] in cache
    ensures r.Some? ==> exists i :: 0 <= i < |required| && required[i] == r.value && r.value !in cache
                                    && forall j :: 0 <= j < i ==> required[j] in cache
  {
    if required == [] then None
    else if required[0] !in cache then Some(required[0])
    else
      var rest := FirstMissing(cache, required[1..]);
      assert rest.Some? ==> exists i :: 0 <= i < |required| && required[i] == rest.value && rest.value !in cache
                                        && forall j :: 0 <= j < i ==> required[j] in cache by {
        if rest.Some? {
          var i :| 0 <= i < |required| - 1 && required[1..][i] == rest.value && rest.value !in cache
                   && forall j :: 0 <= j < i ==> required[1..][j] in cache;
          assert required[i + 1] == rest.value;
          assert forall j :: 0 <= j < i + 1 ==> required[j] in cache by {
            forall j | 0 <= j < i + 1 ensures required[j] in cache {
              if j > 0 { assert required[j] == required[1..][j - 1]; }
            }
          }
        }
      }
      rest
  }

  /** When every earlier entry is present and the i-th is not, the i-th is the one reported. */
  lemma {:induction false} FirstMissingAt(cache: map<string, string>, required: seq<string>, i: nat)
    requires i < |required| && required[i] !in cache
    requires forall j :: 0 <= j < i ==> required[j] in cache
    ensures FirstMissing(cache, required) == Some(required[i])
    decreases i
  {
    if i > 0 {
      FirstMissingAt(cache, required[1..], i - 1);
    }
  }

  /** The string `cache.get("DEBUG", "False").lower() == "true"` accepts: "true" in any case. */
  predicate IsTrueSpelling(v: string)
  {
    && |v| == 4
    && (v[0] == 't' || v[0] == 'T')
    && (v[1] == 'r' || v[1] == 'R')
    && (v[2] == 'u' || v[2] == 'U')
    && (v[3] == 'e' || v[3] == 'E')
  }

  class Config {
    var cache: map<string, string>

    /** Every `Config` object that exists has passed `_load`: its constructor raises otherwise. */
    predicate Loaded()
      reads this
    {
      "DB_USER" in cache && "DB_PASS" in cache && "DB_HOST" in cache && "DB_PORT" in cache && "DB_NAME" in cache
    }

    /** The part of `__init__` before `_load`: an empty cache. */
    constructor()
      ensures cache == map[]
    {
      cache := map[];
    }

    /**
     * `_load`: copies every environment entry into the cache, then raises for the first
     * required setting the cache still lacks.
     */
    method Load(environ: map<string, string>) returns (r: Outcome<ConfigError>)
      modifies this
      ensures cache == old(cache) + environ
      ensures r == match FirstMissing(cache, RequiredProperties)
                   case None => Pass
                   case Some(name) => Fail(MissingProperty(name))
    {
      var keys := environ.Keys;
      while keys != {}
        invariant keys <= environ.Keys
        invariant cache == old(cache) + map k | k in environ && k !in keys :: environ[k]
        decreases keys
      {
        var key :| key in keys;
        cache := cache[key := environ[key]];
        keys := keys - {key};
      }
      assert (map k | k in environ && k !in keys :: environ[k]) == environ;

      for i := 0 to |RequiredProperties|
        invariant forall j :: 0 <= j < i ==> RequiredProperties[j] in cache
      {
        if RequiredProperties[i] !in cache {
          FirstMissingAt(cache, RequiredProperties, i);
          return Fail(MissingProperty(RequiredProperties[i]));
        }
      }
      return Pass;
    }

    /** `Config()`: a configuration built from `environ`, or the error `_load` raises. */
    static method Create(environ: map<string, string>) returns (r: Result<Config, ConfigError>)
      ensures r.Success? ==> fresh(r.value) && r.value.cache == environ && r.value.Loaded()
      ensures r.Failure? <==> FirstMissing(environ, RequiredProperties).Some?
      ensures r.Failure? ==> r.error == MissingProperty(FirstMissing(environ, RequiredProperties).value)
    {
      var config := new Config();
      var outcome := config.Load(environ);
      assert map[] + environ == environ;
      if outcome.Fail? {
        return Failure(outcome.error);
      }
      assert forall i :: 0 <= i < |RequiredProperties| ==> RequiredProperties[i] in config.cache;
      assert RequiredProperties[0] == "DB_USER" && RequiredProperties[1] == "DB_PASS";
      assert RequiredProperties[2] == "DB_HOST" && RequiredProperties[3] == "DB_PORT";
      assert RequiredProperties[4] == "DB_NAME";
      return Success(config);
    }

    /** `dbUser`: DB_USER as given. */
    function DbUser(): (r: string)
      reads this
      requires Loaded()
      ensures r == cache["DB_USER"]
    {
      cache["DB_USER"]
    }

    /** `dbPassword`: DB_PASS as given. */
    function DbPassword(): (r: string)
      reads this
      requires Loaded()
      ensures r == cache["DB_PASS"]
    {
      cache["DB_PASS"]
    }

    /** `dbHost`: DB_HOST as given. */
    function DbHost(): (r: string)
      reads this
      requires Loaded()
      ensures r == cache["DB_HOST"]
    {
      cache["DB_HOST"]
    }

    /** `dbPort`: `int(DB_PORT)`, which raises `ValueError` for text that is not an integer. */
    function DbPort(): (r: Result<int, ConfigError>)
      reads this
      requires Loaded()
      ensures r.Failure? <==> ParseInt(cache["DB_PORT"]).None?
      ensures r.Failure? ==> r.error == InvalidInteger(cache["DB_PORT"])
      ensures r.Success? ==> Some(r.value) == ParseInt(cache["DB_PORT"])
    {
      var text := cache["DB_PORT"];
      match ParseInt(text)
      case Some(port) => Success(port)
      case None => Failure(InvalidInteger(text))
    }

    /** `dbDatabase`: DB_NAME as given. */
    function DbDatabase(): (r: string)
      reads this
      requires Loaded()
      ensures r == cache["DB_NAME"]
    {
      cache["DB_NAME"]
    }

    /** `database`: (user, password, host, port, name), raising as `dbPort` does. */
    function Database(): (r: Result<(string, string, string, int, string), ConfigError>)
      reads this
      requires Loaded()
      ensures r.Success? <==> DbPort().Success?
      ensures r.Failure? ==> r.error == DbPort().error
      ensures r.Success? ==> r.value == (cache["DB_USER"], cache["DB_PASS"], cache["DB_HOST"],
                                         DbPort().value, cache["DB_NAME"])
    {
      match DbPort()
      case Failure(e) => Failure(e)
      case Success(port) => Success((DbUser(), DbPassword(), DbHost(), port, DbDatabase()))
    }

    /** `debug`: DEBUG read case-insensitively as "true"; an absent DEBUG counts as "False". */
    function Debug(): (r: bool)
      reads this
      ensures r <==> "DEBUG" in cache && IsTrueSpelling(cache["DEBUG"])
    {
      var text := if "DEBUG" in cache then cache["DEBUG"] else "False";
      assert Lower(text) == "true" <==> IsTrueSpelling(text) by {
        if Lower(text) == "true" {
          assert Lower(text)[0] == 't' && Lower(text)[1] == 'r' && Lower(text)[2] == 'u' && Lower(text)[3] == 'e';
        }
        if IsTrueSpelling(text) {
          assert Lower(text) == "true";
        }
      }
      Lower(text) == "true"
    }
  }

  /** A port written as Python writes an integer, with any white space around it, reads back as that integer. */
  lemma DbPortReadsWrittenPort(config: Config, port: int, before: string, after: string)
    requires config.Loaded() && AllSpace(before) && AllSpace(after)
    requires config.cache["DB_PORT"] == before + IntToDecimal(port) + after
    ensures config.DbPort() == Success(port)
    ensures config.Database().Success? && config.Database().value.3 == port
  {
    ParseIntRoundTrip(port);
    ParseIntIgnoresSurroundingSpace(before, IntToDecimal(port), after);
  }

  /** After a successful load from an empty cache, every accessor reports the environment's own value. */
  lemma LoadedFromEnvironment(config: Config, environ: map<string, string>)
    requires config.cache == environ && config.Loaded()
    ensures config.DbUser() == environ["DB_USER"] && config.DbPassword() == environ["DB_PASS"]
    ensures config.DbHost() == environ["DB_HOST"] && config.DbDatabase() == environ["DB_NAME"]
    ensures config.Debug() <==> "DEBUG" in environ && IsTrueSpelling(environ["DEBUG"])
  {
  }
}
