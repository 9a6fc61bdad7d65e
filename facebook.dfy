/**
 * The Facebook token chain of Facebook.py and bin/Facebook.py: a short-lived
 * user token bootstrapped once, exchanged for a long-lived one whose
 * acquisition time is stamped into the config, and the expiry test on the
 * cached long-lived token. The two files define the same class; they differ
 * in where the parser comes from (a class attribute shared by every
 * instance and "config.ini", or a fresh parser per instance and
 * "Facebook.ini") and in which token the page-details request uses.
 *
 * The Graph API calls are inputs: `fetched` is the short-lived token the
 * bootstrap obtains, `exchange` maps (app id, app secret, short token) to the
 * provider's reply, `now` is the current time in whole seconds.
 */
module Facebook {
  import opened Wrappers
  import opened PyConfig
  import Numerals
  import Strings

  const ShortSection: string := "ShortUserAccessToken"
  const LongSection: string := "LongUserAccessToken"
  const DetailsSection: string := "UserDetails"

  /** An instance attribute: never assigned, `None`, or a string. */
  datatype Attr = Unset | PyNone | Str(s: string)

  /** What the methods read and write: the parser contents and the three token attributes. */
  datatype Session = Session(config: ConfigData, shortToken: Option<string>, longToken: Attr, longRequest: Option<Options>)

  /**
   * The effect of one call: the session after it, the contents last written
   * to the config file (if any), and the value returned or the exception raised.
   */
  datatype Step = Step(after: Session, written: Option<ConfigData>, result: Result<Attr, PyError>)

  /** The file contents after a step: the last write, if there was one. */
  function Persist(files: map<string, ConfigData>, file: string, written: Option<ConfigData>): map<string, ConfigData>
  {
    if written.Some? then files[file := written.value] else files
  }

  /** A write followed by a second one leaves the file holding the later contents. */
  lemma PersistTwice(files: map<string, ConfigData>, file: string, first: ConfigData, written: Option<ConfigData>)
    ensures Persist(Persist(files, file, Some(first)), file, written) ==
      Persist(files, file, if written.Some? then written else Some(first))
  {
  }

  /** The exception a result stands for. */
  function Raised(r: Result<Attr, PyError>): Option<PyError>
  {
    if r.Err? then Some(r.error) else None
  }

  /** The first-run bootstrap: the fetched token in its own section, and `first_run` set to "No". */
  function Bootstrapped(c: ConfigData, fetched: string): ConfigData
  {
    ReplaceWithOne(c, ShortSection, "token", fetched);
    SetOption(ReplaceSection(c, ShortSection, map["token" := fetched]).value, DefaultSection, "first_run", "No").value
  }

  /**
   * `getShortLivedUserAccessToken`: bootstrap (and write the file) only when
   * DEFAULT's `first_run` is "Yes", then read the token back as "Token".
   */
  function ShortLived(s: Session, fetched: string): Step
  {
    match Lookup(s.config, DefaultSection, "first_run")
    case Err(e) => Step(s, None, Err(e))
    case Ok(flag) =>
      var c := if flag == "Yes" then Bootstrapped(s.config, fetched) else s.config;
      var written := if flag == "Yes" then Some(c) else None;
      match Lookup(c, ShortSection, "Token")
      case Err(e) => Step(s.(config := c), written, Err(e))
      case Ok(t) => Step(s.(config := c, shortToken := Some(t)), written, Ok(Str(t)))
  }

  /**
   * The provider's reply stored as the long-token section, stamped with
   * `time_obtained`; `DuplicateOptionError` when two of its names lower-case alike.
   */
  function Exchanged(c: ConfigData, response: Options, now: nat): (r: Result<ConfigData, PyError>)
    ensures r.Err? <==> Clashes(response)
    ensures r.Err? ==> r.error == DuplicateOptionError(LongSection)
  {
    match ReplaceSection(c, LongSection, response)
    case Err(e) => Err(e)
    case Ok(replaced) => Ok(SetOption(replaced, LongSection, "time_obtained", Numerals.WholeFloatString(now)).value)
  }

  /**
   * What the stamped long-token section answers for a lower-case name: the
   * stamp, the reply's value under any spelling of the name, or DEFAULT's.
   */
  lemma LookupExchanged(c: ConfigData, response: Options, now: nat, option: string)
    requires !Clashes(response)
    requires forall i :: 0 <= i < |option| ==> !Strings.IsAsciiUpper(option[i])
    ensures var x := Exchanged(c, response, now).value;
      && (option == "time_obtained" ==> Lookup(x, LongSection, option) == Ok(Numerals.WholeFloatString(now)))
      && (option != "time_obtained" ==>
        forall k :: k in response && OptionKey(k) == option ==> Lookup(x, LongSection, option) == Ok(response[k]))
      && (option != "time_obtained" && (forall k :: k in response ==> OptionKey(k) != option) ==>
        Lookup(x, LongSection, option) == if option in c.defaults then Ok(c.defaults[option]) else Err(KeyError(option)))
  {
    Strings.LowerOfLower(option);
    Strings.LowerOfLower("time_obtained");
    var r := ReplaceSection(c, LongSection, response).value;
    LookupAfterReplace(c, LongSection, response, option);
    LookupAfterSetOption(r, LongSection, "time_obtained", Numerals.WholeFloatString(now), option);
  }

  /** A reply spelled as given is read back under its own lower-case name. */
  lemma LookupExchangedAsGiven(c: ConfigData, response: Options, now: nat, option: string)
    requires !Clashes(response) && option != "time_obtained" && option in response
    requires OptionKey(option) == option
    ensures Lookup(Exchanged(c, response, now).value, LongSection, option) == Ok(response[option])
  {
    Strings.LowerOfLower("time_obtained");
    var r := ReplaceSection(c, LongSection, response).value;
    LookupAfterReplace(c, LongSection, response, option);
    assert Lookup(r, LongSection, option) == Ok(response[option]);
    LookupAfterSetOption(r, LongSection, "time_obtained", Numerals.WholeFloatString(now), option);
  }

  /** The stamp is read back as written. */
  lemma StampExchanged(c: ConfigData, response: Options, now: nat)
    requires !Clashes(response)
    ensures Lookup(Exchanged(c, response, now).value, LongSection, "time_obtained") == Ok(Numerals.WholeFloatString(now))
  {
    var r := ReplaceSection(c, LongSection, response).value;
    LookupAfterSet(r, LongSection, "time_obtained", "time_obtained", Numerals.WholeFloatString(now));
  }

  /**
   * `getNewLongUserToken`: exchange the short token, store and stamp the
   * reply, write the file and return its `access_token`; when the reply has
   * none, fall back to the short-token bootstrap and return None. Without a
   * short token the attribute access raises first.
   */
  function NewLongToken(s: Session, appId: string, appSecret: string, exchange: (string, string, string) -> Options, now: nat, fetched: string): Step
  {
    if s.shortToken.None? then Step(s, None, Err(AttributeError("shortUserAccessToken")))
    else
      var response := exchange(appId, appSecret, s.shortToken.value);
      match Exchanged(s.config, response, now)
      case Err(e) => Step(s.(longRequest := Some(response)), None, Err(e))
      case Ok(c) =>
        var stored := s.(config := c, longRequest := Some(response));
        match Lookup(c, LongSection, "access_token")
        case Ok(t) => Step(stored, Some(c), Ok(Str(t)))
        case Err(e) =>
          if e != KeyError("access_token") then Step(stored, Some(c), Ok(PyNone))
          else
            var f := ShortLived(stored, fetched);
            Step(f.after, if f.written.Some? then f.written else Some(c), if f.result.Err? then f.result else Ok(PyNone))
  }

  /**
   * The `finally` block of `getLongLivedUserAccessToken`: parse
   * `time_obtained` and `expires_in` with `float`; when their sum is strictly
   * below `now` the renewal calls `getNewLongToken`, which the class does not
   * define, so it raises `AttributeError`.
   */
  function ExpiryCheck(c: ConfigData, now: nat): Option<PyError>
  {
    match Lookup(c, LongSection, "time_obtained")
    case Err(e) => Some(e)
    case Ok(o) =>
      match Numerals.PyParseFloat(o)
      case None => Some(ValueError(o))
      case Some(obtained) =>
        match Lookup(c, LongSection, "expires_in")
        case Err(e) => Some(e)
        case Ok(l) =>
          match Numerals.PyParseFloat(l)
          case None => Some(ValueError(l))
          case Some(left) =>
            if obtained + left < now as real then Some(AttributeError("getNewLongToken")) else None
  }

  /**
   * `getLongLivedUserAccessToken`: take the cached token; when the section is
   * missing get a new one (a missing `access_token` option is swallowed);
   * then the `finally` block runs, and an exception it raises replaces any
   * pending one.
   */
  function LongLived(s: Session, appId: string, appSecret: string, exchange: (string, string, string) -> Options, now: nat, fetched: string): Step
  {
    var tried :=
      match Lookup(s.config, LongSection, "access_token")
      case Ok(t) => Step(s.(longToken := Str(t)), None, Ok(Str(t)))
      case Err(e) =>
        if e == KeyError(LongSection) then
          var n := NewLongToken(s, appId, appSecret, exchange, now, fetched);
          if n.result.Ok? then Step(n.after.(longToken := n.result.value), n.written, n.result) else n
        else Step(s, None, Ok(s.longToken));
    match ExpiryCheck(tried.after.config, now)
    case Some(e) => Step(tried.after, tried.written, Err(e))
    case None => tried
  }

  /** The arguments of the page-details request. */
  datatype PageRequest = PageRequest(userId: string, token: Attr)

  /** Facebook.py's `getManagedPageDetails`: the stored user id and the `longUserAccessToken` attribute. */
  function PageDetailsRequest(s: Session): Result<PageRequest, PyError>
  {
    match Lookup(s.config, DetailsSection, "id")
    case Err(e) => Err(e)
    case Ok(id) => if s.longToken.Unset? then Err(AttributeError("longUserAccessToken")) else Ok(PageRequest(id, s.longToken))
  }

  /** bin/Facebook.py's `getManagedPageDetails`: the stored user id and the stored `access_token`. */
  function PageDetailsRequestFromConfig(c: ConfigData): Result<PageRequest, PyError>
  {
    match Lookup(c, DetailsSection, "id")
    case Err(e) => Err(e)
    case Ok(id) =>
      match Lookup(c, LongSection, "access_token")
      case Err(e) => Err(e)
      case Ok(t) => Ok(PageRequest(id, Str(t)))
  }

  // ---------------------------------------------------------------------------
  // Properties of the token chain

  /** The option names the chain spells out, as `optionxform` stores them. */
  lemma LiteralKeys()
    ensures OptionKey("token") == "token" && OptionKey("Token") == "token"
    ensures OptionKey("first_run") == "first_run"
    ensures OptionKey("access_token") == "access_token" && OptionKey("expires_in") == "expires_in"
  {
    Strings.LowerOfLower("access_token");
    Strings.LowerOfLower("expires_in");
    assert OptionKey("Token") == "token";
  }

  /** On a first run the fetched token is stored, written and read back, and the flag is cleared. */
  lemma BootstrapOnFirstRun(s: Session, fetched: string)
    requires Lookup(s.config, DefaultSection, "first_run") == Ok("Yes")
    ensures var st := ShortLived(s, fetched);
      && st.result == Ok(Str(fetched)) && st.after.shortToken == Some(fetched)
      && st.written == Some(st.after.config)
      && Lookup(st.after.config, DefaultSection, "first_run") == Ok("No")
  {
    LiteralKeys();
    ReplaceWithOne(s.config, ShortSection, "token", fetched);
    var r := ConfigData(s.config.defaults, s.config.sections[ShortSection := map["token" := fetched]]);
    var b := ConfigData(r.defaults["first_run" := "No"], r.sections);
    assert Bootstrapped(s.config, fetched) == b;
    assert Lookup(b, ShortSection, "Token") == Ok(fetched);
  }

  /** After one successful call, another neither fetches nor writes, and yields the same token. */
  lemma ShortLivedOnce(s: Session, fetched: string, again: string)
    requires ShortLived(s, fetched).result.Ok?
    ensures var first := ShortLived(s, fetched);
      ShortLived(first.after, again) == Step(first.after, None, first.result)
  {
    var first := ShortLived(s, fetched);
    LiteralKeys();
    if Lookup(s.config, DefaultSection, "first_run") == Ok("Yes") {
      BootstrapOnFirstRun(s, fetched);
    }
  }

  /** A reply with an access token: it is returned, and the stored section carries the time it was obtained. */
  lemma ExchangeStampsTime(s: Session, appId: string, appSecret: string, exchange: (string, string, string) -> Options, now: nat, fetched: string)
    requires s.shortToken.Some?
    requires !Clashes(exchange(appId, appSecret, s.shortToken.value))
    requires "access_token" in exchange(appId, appSecret, s.shortToken.value)
    ensures var response := exchange(appId, appSecret, s.shortToken.value);
      var st := NewLongToken(s, appId, appSecret, exchange, now, fetched);
      && st.result == Ok(Str(response["access_token"]))
      && st.after.config == Exchanged(s.config, response, now).value
      && st.written == Some(st.after.config)
      && Lookup(st.after.config, LongSection, "time_obtained") == Ok(Numerals.WholeFloatString(now))
      && Lookup(st.after.config, LongSection, "access_token") == Ok(response["access_token"])
  {
    var response := exchange(appId, appSecret, s.shortToken.value);
    var x := Exchanged(s.config, response, now).value;
    LiteralKeys();
    LookupExchangedAsGiven(s.config, response, now, "access_token");
    StampExchanged(s.config, response, now);
    assert NewLongToken(s, appId, appSecret, exchange, now, fetched) ==
      Step(s.(config := x, longRequest := Some(response)), Some(x), Ok(Str(response["access_token"])));
  }

  /**
   * A reply with two names that lower-case alike: storing it raises
   * `DuplicateOptionError`, which the `except KeyError` does not catch, and
   * nothing is written.
   */
  lemma ExchangeClashRaises(s: Session, appId: string, appSecret: string, exchange: (string, string, string) -> Options, now: nat, fetched: string)
    requires s.shortToken.Some?
    requires Clashes(exchange(appId, appSecret, s.shortToken.value))
    ensures var st := NewLongToken(s, appId, appSecret, exchange, now, fetched);
      st.result == Err(DuplicateOptionError(LongSection)) && st.written == None
  {
  }

  /** A reply without an access token: the bootstrap runs instead and None is returned unless it raises. */
  lemma ExchangeWithoutToken(s: Session, appId: string, appSecret: string, exchange: (string, string, string) -> Options, now: nat, fetched: string)
    requires s.shortToken.Some?
    requires !Clashes(exchange(appId, appSecret, s.shortToken.value))
    requires forall k :: k in exchange(appId, appSecret, s.shortToken.value) ==> OptionKey(k) != "access_token"
    requires "access_token" !in s.config.defaults
    ensures var response := exchange(appId, appSecret, s.shortToken.value);
      var f := ShortLived(s.(config := Exchanged(s.config, response, now).value, longRequest := Some(response)), fetched);
      var st := NewLongToken(s, appId, appSecret, exchange, now, fetched);
      && st.after == f.after
      && st.result == (if f.result.Err? then f.result else Ok(PyNone))
  {
    var response := exchange(appId, appSecret, s.shortToken.value);
    LookupExchanged(s.config, response, now, "access_token");
  }

  /**
   * A token obtained at `obtained` for `lifetime` seconds is expired exactly
   * when `obtained + lifetime < now`: at the boundary it is still valid.
   */
  lemma ExpiryIsStrict(c: ConfigData, response: Options, obtained: nat, lifetime: nat, now: nat)
    requires !Clashes(response)
    requires "expires_in" in response && response["expires_in"] == Numerals.Digits(lifetime, 10)
    ensures ExpiryCheck(Exchanged(c, response, obtained).value, now) ==
      if obtained + lifetime < now then Some(AttributeError("getNewLongToken")) else None
  {
    var x := Exchanged(c, response, obtained).value;
    LiteralKeys();
    StampExchanged(c, response, obtained);
    LookupExchangedAsGiven(c, response, obtained, "expires_in");
    Numerals.WholeFloatRoundTrip(obtained);
    Numerals.IntegerFloatRoundTrip(lifetime);
  }

  /** A cached token that has not expired is kept, and nothing is fetched or written. */
  lemma CachedTokenKept(s: Session, appId: string, appSecret: string, exchange: (string, string, string) -> Options, now: nat, fetched: string, token: string)
    requires Lookup(s.config, LongSection, "access_token") == Ok(token)
    requires ExpiryCheck(s.config, now) == None
    ensures LongLived(s, appId, appSecret, exchange, now, fetched) == Step(s.(longToken := Str(token)), None, Ok(Str(token)))
  {
  }

  /** Renewing an expired token raises, and the attribute keeps the cached token. */
  lemma RenewalRaises(s: Session, appId: string, appSecret: string, exchange: (string, string, string) -> Options, now: nat, fetched: string, token: string)
    requires Lookup(s.config, LongSection, "access_token") == Ok(token)
    requires ExpiryCheck(s.config, now) == Some(AttributeError("getNewLongToken"))
    ensures var st := LongLived(s, appId, appSecret, exchange, now, fetched);
      st.result == Err(AttributeError("getNewLongToken")) && st.after.longToken == Str(token) && st.written == None
  {
  }

  /** bin/Facebook.py's page request uses the stored token even when it has expired. */
  lemma PageDetailsIgnoreExpiry(c: ConfigData, now: nat, id: string, token: string)
    requires Lookup(c, DetailsSection, "id") == Ok(id) && Lookup(c, LongSection, "access_token") == Ok(token)
    requires ExpiryCheck(c, now) == Some(AttributeError("getNewLongToken"))
    ensures PageDetailsRequestFromConfig(c) == Ok(PageRequest(id, Str(token)))
  {
  }

  // ---------------------------------------------------------------------------
  // The class

  class Facebook {
    /** Facebook.py: the class attribute every instance shares; bin/Facebook.py: a parser of its own. */
    const config: ConfigParser
    const configFile: string
    const disk: Disk
    const appId: string
    const appSecret: string
    var shortUserAccessToken: Option<string>
    var longUserAccessToken: Attr
    var longUserRequest: Option<Options>

    constructor(config: ConfigParser, configFile: string, disk: Disk, appId: string, appSecret: string)
      ensures this.config == config && this.configFile == configFile && this.disk == disk
      ensures this.appId == appId && this.appSecret == appSecret
      ensures shortUserAccessToken == None && longUserAccessToken == Unset && longUserRequest == None
    {
      this.config := config;
      this.configFile := configFile;
      this.disk := disk;
      this.appId := appId;
      this.appSecret := appSecret;
      shortUserAccessToken := None;
      longUserAccessToken := Unset;
      longUserRequest := None;
    }

    /** Facebook.py's `Facebook()`: read "config.ini" into the shared parser, then the app credentials. */
    static method OpenShared(shared: ConfigParser, disk: Disk) returns (r: Result<Facebook, PyError>)
      modifies shared
      ensures shared.data == if "config.ini" in disk.files then Merge(old(shared.data), disk.files["config.ini"]) else old(shared.data)
      ensures Lookup(shared.data, DefaultSection, "app_id").Err? ==> r == Err(Lookup(shared.data, DefaultSection, "app_id").error)
      ensures r.Ok? ==>
        && fresh(r.value) && r.value.config == shared && r.value.configFile == "config.ini" && r.value.disk == disk
        && Ok(r.value.appId) == Lookup(shared.data, DefaultSection, "app_id")
        && Ok(r.value.appSecret) == Lookup(shared.data, DefaultSection, "app_secret")
        && r.value.shortUserAccessToken == None && r.value.longUserAccessToken == Unset
      ensures r.Err? <==> Lookup(shared.data, DefaultSection, "app_id").Err? || Lookup(shared.data, DefaultSection, "app_secret").Err?
    {
      r := Open(shared, "config.ini", disk);
    }

    /** bin/Facebook.py's `Facebook()`: a new parser, read from "Facebook.ini". */
    static method OpenFresh(disk: Disk) returns (r: Result<Facebook, PyError>)
      ensures var read := if "Facebook.ini" in disk.files then Merge(ConfigData(map[], map[]), disk.files["Facebook.ini"]) else ConfigData(map[], map[]);
        && (r.Err? <==> Lookup(read, DefaultSection, "app_id").Err? || Lookup(read, DefaultSection, "app_secret").Err?)
        && (r.Ok? ==>
          && fresh(r.value) && fresh(r.value.config) && r.value.config.data == read
          && r.value.configFile == "Facebook.ini" && r.value.disk == disk
          && Ok(r.value.appId) == Lookup(read, DefaultSection, "app_id")
          && Ok(r.value.appSecret) == Lookup(read, DefaultSection, "app_secret"))
    {
      var config := new ConfigParser();
      r := Open(config, "Facebook.ini", disk);
    }

    /** The body both constructors share: `config.read`, then `app_id` and `app_secret` from DEFAULT. */
    static method Open(config: ConfigParser, file: string, disk: Disk) returns (r: Result<Facebook, PyError>)
      modifies config
      ensures config.data == if file in disk.files then Merge(old(config.data), disk.files[file]) else old(config.data)
      ensures Lookup(config.data, DefaultSection, "app_id").Err? ==> r == Err(Lookup(config.data, DefaultSection, "app_id").error)
      ensures r.Err? <==> Lookup(config.data, DefaultSection, "app_id").Err? || Lookup(config.data, DefaultSection, "app_secret").Err?
      ensures r.Ok? ==>
        && fresh(r.value) && r.value.config == config && r.value.configFile == file && r.value.disk == disk
        && Ok(r.value.appId) == Lookup(config.data, DefaultSection, "app_id")
        && Ok(r.value.appSecret) == Lookup(config.data, DefaultSection, "app_secret")
        && r.value.shortUserAccessToken == None && r.value.longUserAccessToken == Unset
    {
      config.Read(disk, file);
      var id := config.Get(DefaultSection, "app_id");
      if id.Err? {
        return Err(id.error);
      }
      var secret := config.Get(DefaultSection, "app_secret");
      if secret.Err? {
        return Err(secret.error);
      }
      var fb := new Facebook(config, file, disk, id.value, secret.value);
      r := Ok(fb);
    }

    function State(): Session
      reads this, config
    {
      Session(config.data, shortUserAccessToken, longUserAccessToken, longUserRequest)
    }

    method GetShortLivedUserAccessToken(fetched: string) returns (raised: Option<PyError>)
      modifies this, config, disk
      ensures var st := ShortLived(old(State()), fetched);
        && State() == st.after && raised == Raised(st.result)
        && disk.files == Persist(old(disk.files), configFile, st.written)
    {
      var flag := config.Get(DefaultSection, "first_run");
      if flag.Err? {
        return Some(flag.error);
      }
      if flag.value == "Yes" {
        ReplaceWithOne(config.data, ShortSection, "token", fetched);
        var none := config.SetSection(ShortSection, map["token" := fetched]);
        var ignored := config.Set(DefaultSection, "first_run", "No");
        config.Write(disk, configFile);
      }
      var token := config.Get(ShortSection, "Token");
      if token.Err? {
        return Some(token.error);
      }
      shortUserAccessToken := Some(token.value);
      raised := None;
    }

    method GetNewLongUserToken(exchange: (string, string, string) -> Options, now: nat, fetched: string) returns (r: Result<Attr, PyError>)
      modifies this, config, disk
      ensures var st := NewLongToken(old(State()), appId, appSecret, exchange, now, fetched);
        && State() == st.after && r == st.result
        && disk.files == Persist(old(disk.files), configFile, st.written)
    {
      if shortUserAccessToken.None? {
        return Err(AttributeError("shortUserAccessToken"));
      }
      ghost var s0 := State();
      var response := exchange(appId, appSecret, shortUserAccessToken.value);
      longUserRequest := Some(response);
      var clash := config.SetSection(LongSection, response);
      if clash.Some? {
        assert NewLongToken(s0, appId, appSecret, exchange, now, fetched) ==
          Step(s0.(longRequest := Some(response)), None, Err(DuplicateOptionError(LongSection)));
        return Err(clash.value);
      }
      var ignored := config.Set(LongSection, "time_obtained", Numerals.WholeFloatString(now));
      assert Exchanged(s0.config, response, now) == Ok(config.data);
      config.Write(disk, configFile);
      ghost var stored := State();
      ghost var st := NewLongToken(s0, appId, appSecret, exchange, now, fetched);
      assert stored == s0.(config := config.data, longRequest := Some(response));
      var token := config.Get(LongSection, "access_token");
      if token.Ok? {
        assert st == Step(stored, Some(stored.config), Ok(Str(token.value)));
        return Ok(Str(token.value));
      }
      if token.error == KeyError("access_token") {
        ghost var files := disk.files;
        var fallback := GetShortLivedUserAccessToken(fetched);
        ghost var f := ShortLived(stored, fetched);
        assert st == Step(f.after, if f.written.Some? then f.written else Some(stored.config), if f.result.Err? then f.result else Ok(PyNone));
        PersistTwice(old(disk.files), configFile, stored.config, f.written);
        if fallback.Some? {
          return Err(fallback.value);
        }
      } else {
        assert st == Step(stored, Some(stored.config), Ok(PyNone));
      }
      r := Ok(PyNone);
    }

    method GetLongLivedUserAccessToken(exchange: (string, string, string) -> Options, now: nat, fetched: string) returns (raised: Option<PyError>)
      modifies this, config, disk
      ensures var st := LongLived(old(State()), appId, appSecret, exchange, now, fetched);
        && State() == st.after && raised == Raised(st.result)
        && disk.files == Persist(old(disk.files), configFile, st.written)
    {
      var pending: Option<PyError> := None;
      var cached := config.Get(LongSection, "access_token");
      if cached.Ok? {
        longUserAccessToken := Str(cached.value);
      } else if cached.error == KeyError(LongSection) {
        var renewed := GetNewLongUserToken(exchange, now, fetched);
        if renewed.Ok? {
          longUserAccessToken := renewed.value;
        } else {
          pending := Some(renewed.error);
        }
      }
      // finally
      var expired := ExpiryCheck(config.data, now);
      if expired.Some? {
        return expired;
      }
      raised := pending;
    }

    /** `getUserDetails`: the provider's reply for the long token becomes the UserDetails section. */
    method GetUserDetails(userDetails: Attr -> Options) returns (raised: Option<PyError>)
      modifies config, disk
      ensures longUserAccessToken.Unset? ==> raised == Some(AttributeError("longUserAccessToken")) && config.data == old(config.data) && disk.files == old(disk.files)
      ensures !longUserAccessToken.Unset? ==>
        match ReplaceSection(old(config.data), DetailsSection, userDetails(longUserAccessToken))
        case Err(e) => raised == Some(e) && config.data == old(config.data) && disk.files == old(disk.files)
        case Ok(d) => raised == None && config.data == d && disk.files == old(disk.files)[configFile := d]
    {
      if longUserAccessToken.Unset? {
        return Some(AttributeError("longUserAccessToken"));
      }
      raised := config.SetSection(DetailsSection, userDetails(longUserAccessToken));
      if raised.Some? {
        return;
      }
      config.Write(disk, configFile);
    }
  }
}
