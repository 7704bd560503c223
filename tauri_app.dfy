// Proxy settings and setup state in the desktop shell (src-tauri/src/lib.rs):
// which stored proxy credential wins, what `set_proxy_config` writes,
// how `mark_setup_incomplete` resets the setup flag, and the window-close
// rule. The config file, the environment, the clock and encryption are inputs.
module TauriApp {
  import opened Wrappers
  import opened Strings
  import opened JsonValue
  import FsPath

  datatype ProxyAuth = ProxyAuth(username: string, password: string)

  /** `serde_json::from_value::<ProxyAuth>` on the object form. */
  function DecodeProxyAuth(v: Json): (r: Option<ProxyAuth>)
    ensures r.Some? <==> GetStr(v, "username").Some? && GetStr(v, "password").Some?
    ensures r.Some? ==> r.value == ProxyAuth(GetStr(v, "username").value, GetStr(v, "password").value)
  {
    match (GetStr(v, "username"), GetStr(v, "password"))
    case (Some(u), Some(p)) => Some(ProxyAuth(u, p))
    case _ => None
  }

  /** `serde_json::to_value(&ProxyAuth)` */
  function EncodeProxyAuth(a: ProxyAuth): (r: Json)
    ensures r.Obj? && r.fields.Keys == {"username", "password"}
    ensures GetStr(r, "username") == Some(a.username) && GetStr(r, "password") == Some(a.password)
  {
    Obj(map["username" := Str(a.username), "password" := Str(a.password)])
  }

  lemma DecodeEncodeProxyAuth(a: ProxyAuth)
    ensures DecodeProxyAuth(EncodeProxyAuth(a)) == Some(a)
  {
    assert GetStr(EncodeProxyAuth(a), "username") == Some(a.username);
    assert GetStr(EncodeProxyAuth(a), "password") == Some(a.password);
  }

  /** `read_proxy_auth_from_plain` */
  function ReadProxyAuthFromPlain(config: Json, key: string): (r: Option<ProxyAuth>)
    ensures r.Some? <==> GetStr(Index(config, key), "username").Some? && GetStr(Index(config, key), "password").Some?
    ensures r.Some? ==> r.value == ProxyAuth(GetStr(Index(config, key), "username").value, GetStr(Index(config, key), "password").value)
  {
    match Get(config, key)
    case Some(v) => DecodeProxyAuth(v)
    case None => None
  }

  /** `read_proxy_auth_from_encrypted` */
  function ReadProxyAuthFromEncrypted(config: Json, key: string, decrypt: Cipher, parse: Parser): (r: Option<ProxyAuth>)
    ensures GetStr(config, key).None? ==> r.None?
    ensures GetStr(config, key).Some? && decrypt(GetStr(config, key).value).Err? ==> r.None?
    ensures GetStr(config, key).Some? && decrypt(GetStr(config, key).value).Ok? ==>
              var text := decrypt(GetStr(config, key).value).value;
              r == if parse(text).Some? then DecodeProxyAuth(parse(text).value) else None
  {
    match GetStr(config, key)
    case None => None
    case Some(enc) =>
      match decrypt(enc)
      case Err(_) => None
      case Ok(text) =>
        match parse(text)
        case None => None
        case Some(v) => DecodeProxyAuth(v)
  }

  /** `read_proxy_auth_from_config`: `{t}_proxy_auth_encrypted`, then `{t}_proxy_auth`. */
  function ReadProxyAuthFromConfig(config: Json, proxyType: string, decrypt: Cipher, parse: Parser): (r: Option<ProxyAuth>)
    ensures r.None? <==>
              ReadProxyAuthFromEncrypted(config, proxyType + "_proxy_auth_encrypted", decrypt, parse).None?
              && ReadProxyAuthFromPlain(config, proxyType + "_proxy_auth").None?
    ensures r.Some? ==>
              r == ReadProxyAuthFromEncrypted(config, proxyType + "_proxy_auth_encrypted", decrypt, parse)
              || r == ReadProxyAuthFromPlain(config, proxyType + "_proxy_auth")
  {
    match ReadProxyAuthFromEncrypted(config, proxyType + "_proxy_auth_encrypted", decrypt, parse)
    case Some(a) => Some(a)
    case None => ReadProxyAuthFromPlain(config, proxyType + "_proxy_auth")
  }

  /** `read_proxy_auth_unified`: the canonical key, then the http pair, then the https pair. */
  function ReadProxyAuthUnified(config: Json, decrypt: Cipher, parse: Parser): (r: Option<ProxyAuth>)
    ensures r.None? <==>
              ReadProxyAuthFromEncrypted(config, "proxy_auth_encrypted", decrypt, parse).None?
              && ReadProxyAuthFromConfig(config, "http", decrypt, parse).None?
              && ReadProxyAuthFromConfig(config, "https", decrypt, parse).None?
    ensures ReadProxyAuthFromEncrypted(config, "proxy_auth_encrypted", decrypt, parse).Some? ==>
              r == ReadProxyAuthFromEncrypted(config, "proxy_auth_encrypted", decrypt, parse)
  {
    match ReadProxyAuthFromEncrypted(config, "proxy_auth_encrypted", decrypt, parse)
    case Some(a) => Some(a)
    case None =>
      match ReadProxyAuthFromConfig(config, "http", decrypt, parse)
      case Some(a) => Some(a)
      case None => ReadProxyAuthFromConfig(config, "https", decrypt, parse)
  }

  /** A place a credential may be stored. */
  datatype AuthSource = Encrypted(key: string) | Plain(key: string)

  function ReadSource(config: Json, src: AuthSource, decrypt: Cipher, parse: Parser): Option<ProxyAuth>
  {
    match src
    case Encrypted(k) => ReadProxyAuthFromEncrypted(config, k, decrypt, parse)
    case Plain(k) => ReadProxyAuthFromPlain(config, k)
  }

  /**
   * The sources in priority order: `proxy_auth_encrypted`, then
   * `http_proxy_auth_encrypted` and `http_proxy_auth`, then
   * `https_proxy_auth_encrypted` and `https_proxy_auth`.
   */
  const AUTH_SOURCES: seq<AuthSource> := [Encrypted("proxy_auth_encrypted")] + SchemeSources("http") + SchemeSources("https")

  /** The credential of the first source that yields one. */
  function FirstAuth(config: Json, sources: seq<AuthSource>, decrypt: Cipher, parse: Parser): (r: Option<ProxyAuth>)
    ensures |sources| > 0 && ReadSource(config, sources[0], decrypt, parse).Some? ==>
              r == ReadSource(config, sources[0], decrypt, parse)
  {
    if |sources| == 0 then None
    else match ReadSource(config, sources[0], decrypt, parse)
      case Some(a) => Some(a)
      case None => FirstAuth(config, sources[1..], decrypt, parse)
  }

  /**
   * The first-source read yields nothing exactly when no source yields a
   * credential, and otherwise the credential of a source all of whose
   * predecessors yield nothing.
   */
  lemma {:induction false} FirstAuthIsFirst(config: Json, sources: seq<AuthSource>, decrypt: Cipher, parse: Parser)
    ensures var r := FirstAuth(config, sources, decrypt, parse);
            && (r.None? <==> forall i :: 0 <= i < |sources| ==> ReadSource(config, sources[i], decrypt, parse).None?)
            && (r.Some? ==> exists i :: (0 <= i < |sources| && r == ReadSource(config, sources[i], decrypt, parse)
                                          && forall j :: 0 <= j < i ==> ReadSource(config, sources[j], decrypt, parse).None?))
  {
    if |sources| == 0 {
      return;
    }
    if ReadSource(config, sources[0], decrypt, parse).Some? {
      return;
    }
    var tail := sources[1..];
    FirstAuthIsFirst(config, tail, decrypt, parse);
    var r := FirstAuth(config, sources, decrypt, parse);
    assert r == FirstAuth(config, tail, decrypt, parse);
    forall j | 0 < j < |sources| ensures sources[j] == tail[j - 1] {
    }
    if r.Some? {
      var i :| 0 <= i < |tail| && r == ReadSource(config, tail[i], decrypt, parse)
               && forall j :: 0 <= j < i ==> ReadSource(config, tail[j], decrypt, parse).None?;
      assert r == ReadSource(config, sources[i + 1], decrypt, parse);
    } else {
      assert forall i :: 0 <= i < |tail| ==> ReadSource(config, tail[i], decrypt, parse).None?;
    }
  }

  /** Reading a concatenation of source lists reads the first list, then the second. */
  lemma {:induction false} FirstAuthAppend(config: Json, xs: seq<AuthSource>, ys: seq<AuthSource>, decrypt: Cipher, parse: Parser)
    ensures FirstAuth(config, xs + ys, decrypt, parse)
         == if FirstAuth(config, xs, decrypt, parse).Some? then FirstAuth(config, xs, decrypt, parse)
            else FirstAuth(config, ys, decrypt, parse)
  {
    if xs == [] {
      assert xs + ys == ys;
    } else {
      assert (xs + ys)[0] == xs[0];
      assert (xs + ys)[1..] == xs[1..] + ys;
      FirstAuthAppend(config, xs[1..], ys, decrypt, parse);
    }
  }

  /** The sources `read_proxy_auth_from_config` tries for one scheme. */
  function SchemeSources(proxyType: string): seq<AuthSource>
  {
    [Encrypted(proxyType + "_proxy_auth_encrypted"), Plain(proxyType + "_proxy_auth")]
  }

  lemma SchemeIsPriorityOrder(config: Json, proxyType: string, decrypt: Cipher, parse: Parser)
    ensures ReadProxyAuthFromConfig(config, proxyType, decrypt, parse)
         == FirstAuth(config, SchemeSources(proxyType), decrypt, parse)
  {
    var s := SchemeSources(proxyType);
    assert s[0] == Encrypted(proxyType + "_proxy_auth_encrypted");
    assert s[1..][0] == Plain(proxyType + "_proxy_auth");
    assert s[1..][1..] == [];
    assert FirstAuth(config, s[1..][1..], decrypt, parse) == None;
  }

  /** The unified read is the first-yielding source of the five, in priority order. */
  lemma {:induction false} UnifiedIsPriorityOrder(config: Json, decrypt: Cipher, parse: Parser)
    ensures ReadProxyAuthUnified(config, decrypt, parse) == FirstAuth(config, AUTH_SOURCES, decrypt, parse)
  {
    var canonical := [Encrypted("proxy_auth_encrypted")];
    var schemes := SchemeSources("http") + SchemeSources("https");
    assert AUTH_SOURCES == canonical + schemes;
    assert canonical[1..] == [];
    assert FirstAuth(config, canonical[1..], decrypt, parse) == None;
    FirstAuthAppend(config, canonical, schemes, decrypt, parse);
    FirstAuthAppend(config, SchemeSources("http"), SchemeSources("https"), decrypt, parse);
    SchemeIsPriorityOrder(config, "http", decrypt, parse);
    SchemeIsPriorityOrder(config, "https", decrypt, parse);
  }

  /** `should_exit_on_main_window_close` */
  predicate ShouldExitOnMainWindowClose(windowLabel: string, isCloseRequested: bool)
    ensures ShouldExitOnMainWindowClose(windowLabel, isCloseRequested) ==> isCloseRequested
    ensures windowLabel != "main" ==> !ShouldExitOnMainWindowClose(windowLabel, isCloseRequested)
  {
    windowLabel == "main" && isCloseRequested
  }

  /** The three cases the source's own tests pin down. */
  lemma ShouldExitExamples()
    ensures ShouldExitOnMainWindowClose("main", true)
    ensures !ShouldExitOnMainWindowClose("settings", true)
    ensures !ShouldExitOnMainWindowClose("main", false)
  {
  }

  /** What `get_proxy_config` reports. */
  datatype ProxyConfigView = ProxyConfigView(
    httpProxy: string, httpsProxy: string,
    username: Option<string>, password: Option<string>, remember: bool)

  /**
   * `get_proxy_config`: proxies default to "", stored credentials win and
   * are remembered, otherwise both PROXY_USERNAME and PROXY_PASSWORD from the
   * environment are used and not remembered.
   */
  function GetProxyConfig(config: Result<Json, string>, envUsername: Option<string>, envPassword: Option<string>,
                          decrypt: Cipher, parse: Parser): (r: Result<ProxyConfigView, string>)
    ensures config.Err? ==> r == Err(config.error)
    ensures config.Ok? ==> r.Ok?
    ensures config.Ok? ==> var stored := ReadProxyAuthUnified(config.value, decrypt, parse);
              && r.value.remember == stored.Some?
              && (stored.Some? ==> r.value.username == Some(stored.value.username) && r.value.password == Some(stored.value.password))
              && (stored.None? && envUsername.Some? && envPassword.Some? ==>
                    r.value.username == envUsername && r.value.password == envPassword)
              && (stored.None? && (envUsername.None? || envPassword.None?) ==>
                    r.value.username.None? && r.value.password.None?)
    ensures config.Ok? ==> (r.value.httpProxy == GetStr(config.value, "http_proxy").UnwrapOr("")
                            && r.value.httpsProxy == GetStr(config.value, "https_proxy").UnwrapOr(""))
  {
    match config
    case Err(e) => Err(e)
    case Ok(c) =>
      var http := GetStr(c, "http_proxy").UnwrapOr("");
      var https := GetStr(c, "https_proxy").UnwrapOr("");
      match ReadProxyAuthUnified(c, decrypt, parse)
      case Some(a) => Ok(ProxyConfigView(http, https, Some(a.username), Some(a.password), true))
      case None =>
        if envUsername.Some? && envPassword.Some? then Ok(ProxyConfigView(http, https, envUsername, envPassword, false))
        else Ok(ProxyConfigView(http, https, None, None, false))
  }

  /** The setup object `mark_setup_incomplete` writes when there is none to update. */
  function FreshSetup(now: string): Json
  {
    Obj(map["completed" := Bool(false), "reset_at" := Str(now)])
  }

  /**
   * `mark_setup_incomplete`: the config it writes. An existing `setup`
   * object gets `completed = false` and `reset_at`; otherwise a fresh setup
   * object is inserted, and a non-object config is replaced.
   */
  method MarkSetupIncomplete(loaded: Result<Json, string>, now: string) returns (r: Result<Json, string>)
    ensures loaded.Err? ==> r == Err(loaded.error)
    ensures loaded.Ok? ==> r.Ok? && MarkedSetup(loaded.value, r.value, now)
  {
    if loaded.Err? {
      return Err(loaded.error);
    }
    var config := loaded.value;
    if config.Obj? && "setup" in config.fields && config.fields["setup"].Obj? {
      var setup := config.fields["setup"].fields;
      setup := setup["completed" := Bool(false)];
      setup := setup["reset_at" := Str(now)];
      return Ok(Obj(config.fields["setup" := Obj(setup)]));
    }
    var newSetup := FreshSetup(now);
    if config.Obj? {
      r := Ok(Obj(config.fields["setup" := newSetup]));
    } else {
      r := Ok(Obj(map["setup" := newSetup]));
    }
  }

  /**
   * What a successful `mark_setup_incomplete` writes, given the config it
   * read: a setup object with `completed = false` and `reset_at = now` that
   * keeps the other fields of an existing setup object and adds no others, and every other
   * top-level field of an object config untouched.
   */
  ghost predicate MarkedSetup(config: Json, written: Json, now: string)
  {
    && written.Obj? && "setup" in written.fields
    && var setup := written.fields["setup"];
       && setup.Obj?
       && GetBool(setup, "completed") == Some(false)
       && GetStr(setup, "reset_at") == Some(now)
       && (Get(config, "setup").Some? && Get(config, "setup").value.Obj? ==>
             forall k :: k in config.fields["setup"].fields && k != "completed" && k != "reset_at" ==>
               k in setup.fields && setup.fields[k] == config.fields["setup"].fields[k])
       && (Get(config, "setup").Some? && Get(config, "setup").value.Obj? ==>
             forall k :: k in setup.fields ==> k == "completed" || k == "reset_at" || k in config.fields["setup"].fields)
       && (!(Get(config, "setup").Some? && Get(config, "setup").value.Obj?) ==> setup == FreshSetup(now))
       && (config.Obj? ==> forall k :: k != "setup" ==>
             (k in written.fields <==> k in config.fields) && (k in written.fields ==> written.fields[k] == config.fields[k]))
       && (!config.Obj? ==> written == Obj(map["setup" := FreshSetup(now)]))
  }

  /** The keys `set_proxy_config` always deletes. */
  predicate IsDroppedAuthKey(k: string)
  {
    k == "http_proxy_auth" || k == "https_proxy_auth" || k == "proxy_auth"
    || k == "http_proxy_auth_encrypted" || k == "https_proxy_auth_encrypted"
  }

  /** Whether `set_proxy_config` persists credentials. */
  predicate PersistsAuth(httpProxy: string, httpsProxy: string, username: Option<string>, remember: bool)
  {
    remember && Trim(username.UnwrapOr("")) != [] && (Trim(httpProxy) != [] || Trim(httpsProxy) != [])
  }

  /** The config's fields with both proxies set and every dropped credential key removed. */
  function ProxyBase(fields: map<string, Json>, http: string, https: string): map<string, Json>
  {
    fields["http_proxy" := Str(http)]["https_proxy" := Str(https)]
      - {"http_proxy_auth", "https_proxy_auth", "proxy_auth", "http_proxy_auth_encrypted", "https_proxy_auth_encrypted"}
  }

  lemma ProxyBaseFields(fields: map<string, Json>, http: string, https: string)
    ensures var b := ProxyBase(fields, http, https);
            && "http_proxy" in b && b["http_proxy"] == Str(http)
            && "https_proxy" in b && b["https_proxy"] == Str(https)
            && (forall k :: IsDroppedAuthKey(k) ==> k !in b)
            && (forall k :: k in fields && k !in b ==> IsDroppedAuthKey(k))
            && (forall k :: k in fields && !IsDroppedAuthKey(k) && k != "http_proxy" && k != "https_proxy"
                  ==> k in b && b[k] == fields[k])
            && ("proxy_auth_encrypted" in b <==> "proxy_auth_encrypted" in fields)
  {
  }

  /** What the written fields keep of, and drop from, the original ones; `auth` is the stored credential, if any. */
  lemma ProxyWritten(fields: map<string, Json>, http: string, https: string, auth: Option<Json>)
    ensures var b := ProxyBase(fields, http, https);
            var out := if auth.Some? then b["proxy_auth_encrypted" := auth.value] else b - {"proxy_auth_encrypted"};
            && GetStr(Obj(out), "http_proxy") == Some(http)
            && GetStr(Obj(out), "https_proxy") == Some(https)
            && (forall k :: IsDroppedAuthKey(k) ==> k !in out)
            && (forall k :: k !in out && k in fields ==> IsDroppedAuthKey(k) || k == "proxy_auth_encrypted")
            && (forall k :: (k in fields && !IsDroppedAuthKey(k) && k != "proxy_auth_encrypted"
                             && k != "http_proxy" && k != "https_proxy")
                            ==> k in out && out[k] == fields[k])
            && ("proxy_auth_encrypted" in out <==> auth.Some?)
  {
    ProxyBaseFields(fields, http, https);
  }

  /**
   * `set_proxy_config`: the config it writes, or its error message. Both
   * proxies and the username are trimmed, the password is not.
   */
  method SetProxyConfig(config: Result<Json, string>, httpProxy: string, httpsProxy: string,
                        username: Option<string>, password: Option<string>, remember: bool,
                        serialize: Serializer, encrypt: Cipher)
    returns (r: Result<Json, string>)
    ensures config.Err? ==> r == Err(config.error)
    ensures config.Ok? && !config.value.Obj? ==> r == Err("config.json must be a JSON object")
    ensures r.Ok? ==> config.Ok? && config.value.Obj? && r.value.Obj?
    ensures r.Ok? ==> (GetStr(r.value, "http_proxy") == Some(Trim(httpProxy))
                       && GetStr(r.value, "https_proxy") == Some(Trim(httpsProxy)))
    ensures r.Ok? ==> forall k :: IsDroppedAuthKey(k) ==> k !in r.value.fields
    ensures r.Ok? ==> forall k :: k !in r.value.fields && k in config.value.fields ==>
              IsDroppedAuthKey(k) || k == "proxy_auth_encrypted"
    ensures r.Ok? ==> forall k :: (k in config.value.fields && !IsDroppedAuthKey(k) && k != "proxy_auth_encrypted"
                                   && k != "http_proxy" && k != "https_proxy")
                                  ==> k in r.value.fields && r.value.fields[k] == config.value.fields[k]
    ensures r.Ok? ==> ("proxy_auth_encrypted" in r.value.fields <==> PersistsAuth(httpProxy, httpsProxy, username, remember))
    ensures config.Ok? && config.value.Obj? && PersistsAuth(httpProxy, httpsProxy, username, remember) ==>
              var plain := serialize(EncodeProxyAuth(ProxyAuth(Trim(username.UnwrapOr("")), password.UnwrapOr(""))));
              match encrypt(plain)
              case Ok(e) => r.Ok? && r.value.fields["proxy_auth_encrypted"] == Str(e)
              case Err(msg) => r == Err("Failed to encrypt auth: " + msg)
    ensures config.Ok? && config.value.Obj? && !PersistsAuth(httpProxy, httpsProxy, username, remember) ==> r.Ok?
  {
    var http := Trim(httpProxy);
    var https := Trim(httpsProxy);
    var user := Trim(username.UnwrapOr(""));
    var pass := password.UnwrapOr("");
    var hasAuth := user != [];
    if config.Err? {
      return Err(config.error);
    }
    if !config.value.Obj? {
      return Err("config.json must be a JSON object");
    }
    var obj := config.value.fields;
    obj := obj["http_proxy" := Str(http)];
    obj := obj["https_proxy" := Str(https)];
    obj := obj - {"http_proxy_auth", "https_proxy_auth", "proxy_auth", "http_proxy_auth_encrypted", "https_proxy_auth_encrypted"};
    assert obj == ProxyBase(config.value.fields, http, https);
    if remember && hasAuth && (http != [] || https != []) {
      var auth := ProxyAuth(user, pass);
      var encrypted := encrypt(serialize(EncodeProxyAuth(auth)));
      if encrypted.Err? {
        return Err("Failed to encrypt auth: " + encrypted.error);
      }
      ProxyWritten(config.value.fields, http, https, Some(Str(encrypted.value)));
      obj := obj["proxy_auth_encrypted" := Str(encrypted.value)];
    } else {
      ProxyWritten(config.value.fields, http, https, None);
      obj := obj - {"proxy_auth_encrypted"};
    }
    r := Ok(Obj(obj));
  }
}
