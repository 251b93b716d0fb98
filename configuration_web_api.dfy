/**
 * The configuration web API between a Bungee proxy and its Bukkit servers.
 * The Bungee side collects an allow-list of settings into string variables
 * and sends them; the Bukkit side either applies them to its per-server
 * settings or, when told to keep its own configuration, ignores them.
 */
module ConfigurationWebApi {
  import opened Wrappers
  import Numerals

  /** The settings this API reads or sends. */
  datatype Setting =
    | DbType | DbHost | DbUser | DbPass | DbDatabase | DbPort
    | FormatDecimals | FormatSeconds | FormatDay | FormatDays | FormatHours | FormatMinutes
    | FormatMonths | FormatMonth | FormatYear | FormatYears | FormatZeroSeconds
    | ThemeBase | WebserverPort | ServerName

  /** The key a setting travels under, `Settings.getPath()`. */
  function Path(s: Setting): (key: string)
    ensures key != [] && key != "webAddress" && key != "accessKey"
  {
    match s
    case DbType => "DB_TYPE"
    case DbHost => "DB_HOST"
    case DbUser => "DB_USER"
    case DbPass => "DB_PASS"
    case DbDatabase => "DB_DATABASE"
    case DbPort => "DB_PORT"
    case FormatDecimals => "FORMAT_DECIMALS"
    case FormatSeconds => "FORMAT_SECONDS"
    case FormatDay => "FORMAT_DAY"
    case FormatDays => "FORMAT_DAYS"
    case FormatHours => "FORMAT_HOURS"
    case FormatMinutes => "FORMAT_MINUTES"
    case FormatMonths => "FORMAT_MONTHS"
    case FormatMonth => "FORMAT_MONTH"
    case FormatYear => "FORMAT_YEAR"
    case FormatYears => "FORMAT_YEARS"
    case FormatZeroSeconds => "FORMAT_ZERO_SECONDS"
    case ThemeBase => "THEME_BASE"
    case WebserverPort => "WEBSERVER_PORT"
    case ServerName => "SERVER_NAME"
  }

  /** The setting a key belongs to, if any: the inverse of `Path`. */
  function SettingOfPath(key: string): Option<Setting>
  {
    if key == "DB_TYPE" then Some(DbType)
    else if key == "DB_HOST" then Some(DbHost)
    else if key == "DB_USER" then Some(DbUser)
    else if key == "DB_PASS" then Some(DbPass)
    else if key == "DB_DATABASE" then Some(DbDatabase)
    else if key == "DB_PORT" then Some(DbPort)
    else if key == "FORMAT_DECIMALS" then Some(FormatDecimals)
    else if key == "FORMAT_SECONDS" then Some(FormatSeconds)
    else if key == "FORMAT_DAY" then Some(FormatDay)
    else if key == "FORMAT_DAYS" then Some(FormatDays)
    else if key == "FORMAT_HOURS" then Some(FormatHours)
    else if key == "FORMAT_MINUTES" then Some(FormatMinutes)
    else if key == "FORMAT_MONTHS" then Some(FormatMonths)
    else if key == "FORMAT_MONTH" then Some(FormatMonth)
    else if key == "FORMAT_YEAR" then Some(FormatYear)
    else if key == "FORMAT_YEARS" then Some(FormatYears)
    else if key == "FORMAT_ZERO_SECONDS" then Some(FormatZeroSeconds)
    else if key == "THEME_BASE" then Some(ThemeBase)
    else if key == "WEBSERVER_PORT" then Some(WebserverPort)
    else if key == "SERVER_NAME" then Some(ServerName)
    else None
  }

  /** `SettingOfPath` recovers a setting from its key. */
  lemma PathInverse(s: Setting)
    ensures SettingOfPath(Path(s)) == Some(s)
  {
  }

  /** Distinct settings travel under distinct keys, none of them a key the request adds itself. */
  lemma PathInjective()
    ensures forall s :: SettingOfPath(Path(s)) == Some(s)
    ensures SettingOfPath("webAddress") == None && SettingOfPath("accessKey") == None
  {
    forall s ensures SettingOfPath(Path(s)) == Some(s) {
      PathInverse(s);
    }
  }

  /** The global string settings copied as they are (`sameStrings`), in the order they are added. */
  const SameStrings: seq<Setting> := [
    DbHost, DbUser, DbPass, DbDatabase, FormatDecimals, FormatSeconds,
    FormatDay, FormatDays, FormatHours, FormatMinutes, FormatMonths, FormatMonth,
    FormatYear, FormatYears, FormatZeroSeconds
  ]

  /** The per-server settings, resolved for the target server. */
  const ServerSpecific: seq<Setting> := [ThemeBase, WebserverPort, ServerName]

  /** Every setting the payload may carry, in the order `getConfigValues` adds them. */
  const AllSettings: seq<Setting> := [DbType] + SameStrings + [DbPort] + ServerSpecific

  /** Each setting is one of those the payload is built from. */
  lemma SettingListed(s: Setting)
    ensures s in AllSettings
  {
    match s {
      case DbType => assert AllSettings[0] == DbType;
      case DbHost => assert AllSettings[1] == DbHost;
      case DbUser => assert AllSettings[2] == DbUser;
      case DbPass => assert AllSettings[3] == DbPass;
      case DbDatabase => assert AllSettings[4] == DbDatabase;
      case FormatDecimals => assert AllSettings[5] == FormatDecimals;
      case FormatSeconds => assert AllSettings[6] == FormatSeconds;
      case FormatDay => assert AllSettings[7] == FormatDay;
      case FormatDays => assert AllSettings[8] == FormatDays;
      case FormatHours => assert AllSettings[9] == FormatHours;
      case FormatMinutes => assert AllSettings[10] == FormatMinutes;
      case FormatMonths => assert AllSettings[11] == FormatMonths;
      case FormatMonth => assert AllSettings[12] == FormatMonth;
      case FormatYear => assert AllSettings[13] == FormatYear;
      case FormatYears => assert AllSettings[14] == FormatYears;
      case FormatZeroSeconds => assert AllSettings[15] == FormatZeroSeconds;
      case DbPort => assert AllSettings[16] == DbPort;
      case ThemeBase => assert AllSettings[17] == ThemeBase;
      case WebserverPort => assert AllSettings[18] == WebserverPort;
      case ServerName => assert AllSettings[19] == ServerName;
    }
  }

  lemma AllSettingsComplete()
    ensures forall s :: s in AllSettings
  {
    forall s ensures s in AllSettings {
      SettingListed(s);
    }
  }

  /** A value of the payload before it is turned into text. */
  datatype ConfigValue = Text(text: string) | Number(number: int)

  /** `value.toString()`. */
  function ToText(v: ConfigValue): (t: string)
    ensures v.Text? ==> t == v.text
    ensures v.Number? ==> t == Numerals.IntToString(v.number)
  {
    match v
    case Text(t) => t
    case Number(n) => Numerals.IntToString(n)
  }

  /**
   * What the Bungee node knows: whether it runs as Bungee, the global string
   * settings (None for null), the database port, the per-server settings
   * resolved by server uuid, and its web server's access address.
   */
  datatype SenderSettings = SenderSettings(
    bungeeAvailable: bool,
    globalString: Setting -> Option<string>,
    dbPort: int,
    serverString: (string, Setting) -> Option<string>,
    serverInt: (string, Setting) -> Option<int>,
    accessAddress: string)

  /** What the Bukkit node knows when a request arrives. */
  datatype ReceiverSettings = ReceiverSettings(bukkitAvailable: bool, bungeeCopyConfig: bool, bungeeOverrideStandaloneMode: bool)

  datatype Response = BadRequest(message: string) | Ok

  /** The receiver's reply and, when it applied them, the variables handed to `ServerSpecificSettings.updateSettings`. */
  datatype ReceiverOutcome = ReceiverOutcome(response: Response, applied: Option<map<string, string>>)

  /** The request handed to the transport: the address and the variables sent. */
  datatype Request = Request(address: string, variables: map<string, string>)

  datatype SendError = IllegalState(message: string) | WebException(message: string)

  /** `Verify.isEmpty` negated: a string that is neither null nor empty. */
  function NonEmpty(v: Option<string>): (r: Option<ConfigValue>)
    ensures r.Some? <==> v.Some? && v.value != []
    ensures r.Some? ==> r.value == Text(v.value)
  {
    if v.Some? && v.value != [] then Some(Text(v.value)) else None
  }

  /**
   * Reference definition of one payload entry: the value a setting is sent
   * with, or None when it is left out.
   */
  function Expected(env: SenderSettings, serverUUID: string, s: Setting): Option<ConfigValue>
  {
    match s
    case DbType => Some(Text("mysql"))
    case DbPort => Some(Number(env.dbPort))
    case ThemeBase => NonEmpty(env.serverString(serverUUID, ThemeBase))
    case ServerName => NonEmpty(env.serverString(serverUUID, ServerName))
    case WebserverPort =>
      var port := env.serverInt(serverUUID, WebserverPort);
      if port.Some? && port.value != 0 then Some(Number(port.value)) else None
    case _ =>
      var v := env.globalString(s);
      if v.Some? then Some(Text(v.value)) else None
  }

  /** A `sameStrings` setting is sent exactly when its global value is not null, as that value. */
  lemma SameStringExpected(env: SenderSettings, serverUUID: string, s: Setting)
    requires s in SameStrings
    ensures Expected(env, serverUUID, s) == if env.globalString(s).Some? then Some(Text(env.globalString(s).value)) else None
  {
  }

  /** `base` with the settings of `settings` added one after another, each when its value is present. */
  function Put(base: map<string, ConfigValue>, env: SenderSettings, serverUUID: string, settings: seq<Setting>): map<string, ConfigValue>
    decreases |settings|
  {
    if settings == [] then base
    else
      var last := settings[|settings| - 1];
      ConfigurationWebAPI.AddConfigValue(Put(base, env, serverUUID, settings[..|settings| - 1]), last, Expected(env, serverUUID, last))
  }

  /** The payload of a config request for `serverUUID`. */
  function Payload(env: SenderSettings, serverUUID: string): map<string, ConfigValue>
  {
    Put(map[], env, serverUUID, AllSettings)
  }

  /** The payload turned into request variables. */
  function AsVariables(values: map<string, ConfigValue>): map<string, string>
  {
    map k | k in values :: ToText(values[k])
  }

  /** Overlaying a map and then updating a key is overlaying the updated map. */
  lemma OverlayUpdate(earlier: map<string, string>, sent: map<string, string>, key: string, text: string)
    ensures (earlier + sent)[key := text] == earlier + sent[key := text]
  {
  }

  /** Sending one more entry adds exactly its text to the variables sent so far. */
  lemma AsVariablesGrow(sent: map<string, ConfigValue>, key: string, value: ConfigValue)
    ensures AsVariables(sent[key := value]) == AsVariables(sent)[key := ToText(value)]
  {
  }

  /** Putting a setting with its expected value is one step of `Put`. */
  lemma AddExpected(base: map<string, ConfigValue>, env: SenderSettings, serverUUID: string, settings: seq<Setting>, s: Setting)
    ensures ConfigurationWebAPI.AddConfigValue(Put(base, env, serverUUID, settings), s, Expected(env, serverUUID, s))
            == Put(base, env, serverUUID, settings + [s])
  {
    assert (settings + [s])[..|settings|] == settings;
  }

  /** Adding two lists in turn is adding their concatenation. */
  lemma {:induction false} PutConcat(base: map<string, ConfigValue>, env: SenderSettings, serverUUID: string, a: seq<Setting>, b: seq<Setting>)
    ensures Put(Put(base, env, serverUUID, a), env, serverUUID, b) == Put(base, env, serverUUID, a + b)
    decreases |b|
  {
    if b == [] {
      assert a + b == a;
    } else {
      var b' := b[..|b| - 1];
      PutConcat(base, env, serverUUID, a, b');
      assert (a + b)[..|a + b| - 1] == a + b';
      assert (a + b)[|a + b| - 1] == b[|b| - 1];
    }
  }

  /**
   * What `Put` leaves at a setting's key: the setting's expected value when it
   * is in the list and present, and the base's entry otherwise.
   */
  lemma {:induction false} PutAt(base: map<string, ConfigValue>, env: SenderSettings, serverUUID: string, settings: seq<Setting>, s: Setting)
    ensures var m := Put(base, env, serverUUID, settings);
      if s in settings && Expected(env, serverUUID, s).Some? then Path(s) in m && m[Path(s)] == Expected(env, serverUUID, s).value
      else (Path(s) in m <==> Path(s) in base) && (Path(s) in base ==> m[Path(s)] == base[Path(s)])
    decreases |settings|
  {
    if settings != [] {
      var front, last := settings[..|settings| - 1], settings[|settings| - 1];
      assert settings == front + [last];
      PutAt(base, env, serverUUID, front, s);
      PathInverse(s);
      PathInverse(last);
    }
  }

  /** A key that is no setting's path keeps its entry from the base, or stays absent. */
  lemma {:induction false} PutOtherKeys(base: map<string, ConfigValue>, env: SenderSettings, serverUUID: string, settings: seq<Setting>, k: string)
    requires SettingOfPath(k).None?
    ensures k in Put(base, env, serverUUID, settings) <==> k in base
    ensures k in base ==> Put(base, env, serverUUID, settings)[k] == base[k]
    decreases |settings|
  {
    if settings != [] {
      PutOtherKeys(base, env, serverUUID, settings[..|settings| - 1], k);
      PathInverse(settings[|settings| - 1]);
    }
  }

  /** `Put` adds no key other than the paths of settings of the list. */
  lemma {:induction false} PutKeys(base: map<string, ConfigValue>, env: SenderSettings, serverUUID: string, settings: seq<Setting>)
    ensures forall k :: k in Put(base, env, serverUUID, settings) ==> k in base || SettingOfPath(k).Some?
    decreases |settings|
  {
    if settings != [] {
      PutKeys(base, env, serverUUID, settings[..|settings| - 1]);
      PathInverse(settings[|settings| - 1]);
    }
  }

  /** Each setting is in the payload exactly when its value is present, with that value; no other key is. */
  lemma PayloadAt(env: SenderSettings, serverUUID: string, s: Setting)
    ensures Path(s) in Payload(env, serverUUID) <==> Expected(env, serverUUID, s).Some?
    ensures Path(s) in Payload(env, serverUUID) ==> Payload(env, serverUUID)[Path(s)] == Expected(env, serverUUID, s).value
    ensures forall k :: k in Payload(env, serverUUID) ==> SettingOfPath(k).Some?
  {
    AllSettingsComplete();
    PutAt(map[], env, serverUUID, AllSettings, s);
    PutKeys(map[], env, serverUUID, AllSettings);
  }

  /** The database type is always sent as "mysql", and the database port always as its number. */
  lemma PayloadFixedEntries(env: SenderSettings, serverUUID: string)
    ensures Path(DbType) in Payload(env, serverUUID) && Payload(env, serverUUID)[Path(DbType)] == Text("mysql")
    ensures Path(DbPort) in Payload(env, serverUUID) && Payload(env, serverUUID)[Path(DbPort)] == Number(env.dbPort)
  {
    PayloadAt(env, serverUUID, DbType);
    PayloadAt(env, serverUUID, DbPort);
  }

  /** A `sameStrings` setting is sent iff it is not null, as its value: null never enters the payload. */
  lemma PayloadSameStrings(env: SenderSettings, serverUUID: string, s: Setting)
    requires s in SameStrings
    ensures Path(s) in Payload(env, serverUUID) <==> env.globalString(s).Some?
    ensures Path(s) in Payload(env, serverUUID) ==> Payload(env, serverUUID)[Path(s)] == Text(env.globalString(s).value)
  {
    PayloadAt(env, serverUUID, s);
    SameStringExpected(env, serverUUID, s);
  }

  /** The theme and the server name are sent iff neither null nor empty, the web server port iff neither null nor 0. */
  lemma PayloadServerSpecific(env: SenderSettings, serverUUID: string)
    ensures var theme, name := env.serverString(serverUUID, ThemeBase), env.serverString(serverUUID, ServerName);
      && (Path(ThemeBase) in Payload(env, serverUUID) <==> theme.Some? && theme.value != [])
      && (Path(ServerName) in Payload(env, serverUUID) <==> name.Some? && name.value != [])
    ensures var port := env.serverInt(serverUUID, WebserverPort);
      Path(WebserverPort) in Payload(env, serverUUID) <==> port.Some? && port.value != 0
  {
    PayloadAt(env, serverUUID, ThemeBase);
    PayloadAt(env, serverUUID, ServerName);
    PayloadAt(env, serverUUID, WebserverPort);
  }

  /**
   * On the wire: a present setting travels as the text of its value, and a
   * key the payload omits keeps whatever the variables held before.
   */
  lemma SentVariablesAt(before: map<string, string>, env: SenderSettings, serverUUID: string, s: Setting)
    ensures var sent := before + AsVariables(Payload(env, serverUUID));
      && (Expected(env, serverUUID, s).Some? ==> Path(s) in sent && sent[Path(s)] == ToText(Expected(env, serverUUID, s).value))
      && (Expected(env, serverUUID, s).None? ==> (Path(s) in sent <==> Path(s) in before) && (Path(s) in before ==> sent[Path(s)] == before[Path(s)]))
  {
    PayloadAt(env, serverUUID, s);
  }

  /** `ConfigurationWebAPI`: the receiver's request handler and the sender's variable map. */
  /** The three server-specific settings, added one after the other. */
  lemma PutServerSpecific(base: map<string, ConfigValue>, env: SenderSettings, serverUUID: string)
    ensures Put(base, env, serverUUID, ServerSpecific)
         == ConfigurationWebAPI.AddConfigValue(
              ConfigurationWebAPI.AddConfigValue(
                ConfigurationWebAPI.AddConfigValue(base, ThemeBase, Expected(env, serverUUID, ThemeBase)),
                WebserverPort, Expected(env, serverUUID, WebserverPort)),
              ServerName, Expected(env, serverUUID, ServerName))
  {
    AddExpected(base, env, serverUUID, [], ThemeBase);
    assert [] + [ThemeBase] == [ThemeBase];
    AddExpected(base, env, serverUUID, [ThemeBase], WebserverPort);
    assert [ThemeBase] + [WebserverPort] == [ThemeBase, WebserverPort];
    AddExpected(base, env, serverUUID, [ThemeBase, WebserverPort], ServerName);
    assert [ThemeBase, WebserverPort] + [ServerName] == ServerSpecific;
  }

  class ConfigurationWebAPI {
    /** The variables of the next request, filled by `addVariable`. */
    var variables: map<string, string>

    constructor ()
      ensures variables == map[]
    {
      variables := map[];
    }

    /**
     * `onRequest`: a Bungee node refuses the call; a Bukkit node that does not
     * copy the Bungee config, or overrides it, answers success without
     * applying; otherwise it applies the variables and answers success.
     */
    static function OnRequest(node: ReceiverSettings, requestVariables: map<string, string>): (o: ReceiverOutcome)
      ensures !node.bukkitAvailable ==> o == ReceiverOutcome(BadRequest("Called a Bungee Server"), None)
      ensures o.response == Ok <==> node.bukkitAvailable
      ensures o.applied.Some? <==> node.bukkitAvailable && node.bungeeCopyConfig && !node.bungeeOverrideStandaloneMode
      ensures o.applied.Some? ==> o.applied.value == requestVariables
    {
      if !node.bukkitAvailable then
        ReceiverOutcome(BadRequest("Called a Bungee Server"), None)
      else if !node.bungeeCopyConfig || node.bungeeOverrideStandaloneMode then
        ReceiverOutcome(Ok, None)
      else
        ReceiverOutcome(Ok, Some(requestVariables))
    }

    /** `addVariable`: sets one variable, replacing an earlier value under the same key. */
    method AddVariable(key: string, value: string)
      modifies this
      ensures variables == old(variables)[key := value]
    {
      variables := variables[key := value];
    }

    /** `sendRequest(address)`: always refused, and no variable changes. */
    method SendRequest(address: string) returns (r: Result<Request, SendError>)
      ensures r == Failure(IllegalState("Wrong method call for this WebAPI, call sendRequest(String, UUID, UUID) instead."))
    {
      r := Failure(IllegalState("Wrong method call for this WebAPI, call sendRequest(String, UUID, UUID) instead."));
    }

    /** `sendRequest(address, serverUUID, accessKey)`: the access key if there is one, the sender's web address, then the payload. */
    method SendRequestWithAccessKey(address: string, serverUUID: string, accessKey: Option<string>, env: SenderSettings)
      returns (r: Result<Request, SendError>)
      modifies this
      ensures var withKey := if accessKey.Some? then old(variables)["accessKey" := accessKey.value] else old(variables);
        var base := withKey["webAddress" := env.accessAddress];
        && (env.bungeeAvailable ==> variables == base + AsVariables(Payload(env, serverUUID)) && r == Success(Request(address, variables)))
        && (!env.bungeeAvailable ==> variables == base && r.Failure? && r.error.WebException?)
      ensures "webAddress" in variables && variables["webAddress"] == env.accessAddress
      ensures accessKey.Some? ==> "accessKey" in variables && variables["accessKey"] == accessKey.value
      ensures accessKey.None? ==> ("accessKey" in variables <==> "accessKey" in old(variables))
    {
      if accessKey.Some? {
        AddVariable("accessKey", accessKey.value);
      }
      AddVariable("webAddress", env.accessAddress);
      r := SendRequestToServer(address, serverUUID, env);
      PathInjective();
      PutKeys(map[], env, serverUUID, AllSettings);
      assert "webAddress" !in AsVariables(Payload(env, serverUUID));
      assert "accessKey" !in AsVariables(Payload(env, serverUUID));
    }

    /** The loop of `sendRequest(address, serverUUID)`: every entry of the map becomes a variable holding its text. */
    method AddVariables(values: map<string, ConfigValue>)
      modifies this
      ensures variables == old(variables) + AsVariables(values)
    {
      var remaining := values.Keys;
      ghost var sent: map<string, ConfigValue> := map[];
      while remaining != {}
        invariant remaining <= values.Keys
        invariant sent.Keys == values.Keys - remaining
        invariant forall k :: k in sent ==> sent[k] == values[k]
        invariant variables == old(variables) + AsVariables(sent)
        decreases remaining
      {
        var key :| key in remaining;
        var text := ToText(values[key]);
        AsVariablesGrow(sent, key, values[key]);
        OverlayUpdate(old(variables), AsVariables(sent), key, text);
        AddVariable(key, text);
        sent := sent[key := values[key]];
        remaining := remaining - {key};
      }
      assert sent == values;
    }

    /** `sendRequest(address, serverUUID)`: adds every payload entry as a variable, then sends. */
    method SendRequestToServer(address: string, serverUUID: string, env: SenderSettings) returns (r: Result<Request, SendError>)
      modifies this
      ensures env.bungeeAvailable ==>
        variables == old(variables) + AsVariables(Payload(env, serverUUID)) && r == Success(Request(address, variables))
      ensures !env.bungeeAvailable ==>
        variables == old(variables) && r == Failure(WebException("Attempted to send config values from Bukkit to Bungee."))
    {
      var configValues := GetConfigValues(serverUUID, env);
      if configValues.Failure? {
        return Failure(configValues.error);
      }
      AddVariables(configValues.value);
      r := Success(Request(address, variables));
    }

    /** `addConfigValue`: a null value is skipped; otherwise the setting's path is set. */
    static function AddConfigValue(configValues: map<string, ConfigValue>, setting: Setting, value: Option<ConfigValue>): (r: map<string, ConfigValue>)
      ensures value.None? ==> r == configValues
      ensures value.Some? ==> Path(setting) in r && r[Path(setting)] == value.value
      ensures value.Some? ==> r - {Path(setting)} == configValues - {Path(setting)}
    {
      if value.Some? then configValues[Path(setting) := value.value] else configValues
    }


    /**
     * `getConfigValues`: refused on a node that is not Bungee; otherwise the
     * database type, every present `sameStrings` setting, the database port and
     * the per-server values, exactly the reference payload.
     */
    method GetConfigValues(serverUUID: string, env: SenderSettings) returns (r: Result<map<string, ConfigValue>, SendError>)
      ensures !env.bungeeAvailable ==> r == Failure(WebException("Attempted to send config values from Bukkit to Bungee."))
      ensures env.bungeeAvailable ==> r == Success(Payload(env, serverUUID))
    {
      var configValues: map<string, ConfigValue> := map[];
      if !env.bungeeAvailable {
        return Failure(WebException("Attempted to send config values from Bukkit to Bungee."));
      }
      configValues := AddConfigValue(configValues, DbType, Some(Text("mysql")));
      assert configValues == Put(map[], env, serverUUID, [DbType]) by {
        AddExpected(map[], env, serverUUID, [], DbType);
        assert [] + [DbType] == [DbType];
      }
      var i := 0;
      while i < |SameStrings|
        invariant 0 <= i <= |SameStrings|
        invariant configValues == Put(map[], env, serverUUID, [DbType] + SameStrings[..i])
      {
        var setting := SameStrings[i];
        var v := env.globalString(setting);
        configValues := AddConfigValue(configValues, setting, if v.Some? then Some(Text(v.value)) else None);
        assert configValues == Put(map[], env, serverUUID, [DbType] + SameStrings[..i + 1]) by {
          AddExpected(map[], env, serverUUID, [DbType] + SameStrings[..i], setting);
          SameStringExpected(env, serverUUID, setting);
          assert [DbType] + SameStrings[..i] + [setting] == [DbType] + SameStrings[..i + 1];
        }
        i := i + 1;
      }
      configValues := AddConfigValue(configValues, DbPort, Some(Number(env.dbPort)));
      assert configValues == Put(map[], env, serverUUID, [DbType] + SameStrings + [DbPort]) by {
        assert SameStrings[..i] == SameStrings;
        AddExpected(map[], env, serverUUID, [DbType] + SameStrings, DbPort);
      }
      configValues := AddServerSpecificValues(configValues, serverUUID, env);
      PutConcat(map[], env, serverUUID, [DbType] + SameStrings + [DbPort], ServerSpecific);
      r := Success(configValues);
    }

    /**
     * `addServerSpecificValues`: the theme and the server name when they are
     * neither null nor empty, the web server port when it is neither null nor 0.
     */
    method AddServerSpecificValues(configValues: map<string, ConfigValue>, serverUUID: string, env: SenderSettings)
      returns (result: map<string, ConfigValue>)
      ensures result == Put(configValues, env, serverUUID, ServerSpecific)
    {
      var theme := env.serverString(serverUUID, ThemeBase);
      var port := env.serverInt(serverUUID, WebserverPort);
      var name := env.serverString(serverUUID, ServerName);
      result := configValues;
      if theme.Some? && theme.value != [] {
        result := AddConfigValue(result, ThemeBase, Some(Text(theme.value)));
      }
      ghost var withTheme := result;
      if port.Some? && port.value != 0 {
        result := AddConfigValue(result, WebserverPort, Some(Number(port.value)));
      }
      ghost var withPort := result;
      if name.Some? && name.value != [] {
        result := AddConfigValue(result, ServerName, Some(Text(name.value)));
      }
      assert withTheme == AddConfigValue(configValues, ThemeBase, Expected(env, serverUUID, ThemeBase));
      assert withPort == AddConfigValue(withTheme, WebserverPort, Expected(env, serverUUID, WebserverPort));
      assert result == AddConfigValue(withPort, ServerName, Expected(env, serverUUID, ServerName));
      PutServerSpecific(configValues, env, serverUUID);
    }
  }
}
