// Config-JSON rewriting in the settings endpoints
// (crates/web_service/src/controllers/settings_controller.rs): secret
// stripping, empty proxy cleanup, proxy-auth encryption, API-key masking,
// the provider merge, the legacy-field migrations and the model-list fetch.
// Encryption, JSON (de)serialisation and the config file are parameters.
module SettingsController {
  import opened Wrappers
  import opened Strings
  import opened JsonValue
  import opened AppErrors
  import SeqUtil

  /** What reading `config.json` produced. */
  datatype StoredFile = Missing | ReadFailed | Content(text: string)

  const PROXY_AUTH := "proxy_auth"
  const PROXY_AUTH_ENCRYPTED := "proxy_auth_encrypted"

  // ------------------------------------------------------------------ secrets

  /** `strip_proxy_auth` */
  function StripProxyAuth(config: Json): (r: Json)
    ensures !config.Obj? ==> r == config
    ensures config.Obj? ==> r.Obj?
    ensures config.Obj? ==> forall k :: k in r.fields <==> k in config.fields && k != PROXY_AUTH && k != PROXY_AUTH_ENCRYPTED
    ensures config.Obj? ==> forall k :: k in r.fields ==> r.fields[k] == config.fields[k]
  {
    match config
    case Obj(m) => Obj(Remove(Remove(m, PROXY_AUTH), PROXY_AUTH_ENCRYPTED))
    case _ => config
  }

  lemma StripProxyAuthIdempotent(config: Json)
    ensures StripProxyAuth(StripProxyAuth(config)) == StripProxyAuth(config)
  {
    if config.Obj? {
      assert StripProxyAuth(StripProxyAuth(config)).fields == StripProxyAuth(config).fields;
    }
  }

  predicate IsNonEmptyStr(v: Json) { v.Str? && v.s != "" }

  predicate IsProxyKey(k: string) { k == "http_proxy" || k == "https_proxy" }

  /** `clean_empty_proxy_fields` */
  function CleanEmptyProxyFields(config: Json): (r: Json)
    ensures !config.Obj? ==> r == config
    ensures config.Obj? ==> r.Obj?
    ensures config.Obj? ==> forall k :: k in r.fields <==>
              k in config.fields && (IsProxyKey(k) ==> IsNonEmptyStr(config.fields[k]))
    ensures config.Obj? ==> forall k :: k in r.fields ==> r.fields[k] == config.fields[k]
  {
    match config
    case Obj(m) =>
      var m1 := if "http_proxy" in m && !IsNonEmptyStr(m["http_proxy"]) then Remove(m, "http_proxy") else m;
      var m2 := if "https_proxy" in m1 && !IsNonEmptyStr(m1["https_proxy"]) then Remove(m1, "https_proxy") else m1;
      Obj(m2)
    case _ => config
  }

  /** After cleaning, a proxy field that is still there holds a non-empty string. */
  lemma CleanedProxyFieldsNonEmpty(config: Json, k: string)
    requires IsProxyKey(k)
    ensures var r := CleanEmptyProxyFields(config);
            r.Obj? && k in r.fields ==> IsNonEmptyStr(r.fields[k])
  {
  }

  /**
   * `encrypt_proxy_auth`: a `proxy_auth` entry is replaced by the encryption
   * of its serialised form; when encryption fails the config is unchanged.
   */
  function EncryptProxyAuth(config: Json, serialize: Serializer, encrypt: Cipher): (r: Json)
    ensures !(config.Obj? && PROXY_AUTH in config.fields) ==> r == config
    ensures config.Obj? && PROXY_AUTH in config.fields ==>
              var e := encrypt(serialize(config.fields[PROXY_AUTH]));
              && (e.Err? ==> r == config)
              && (e.Ok? ==>
                    && r.Obj? && PROXY_AUTH !in r.fields
                    && PROXY_AUTH_ENCRYPTED in r.fields && r.fields[PROXY_AUTH_ENCRYPTED] == Str(e.value)
                    && forall k :: k != PROXY_AUTH && k != PROXY_AUTH_ENCRYPTED ==>
                         (k in r.fields <==> k in config.fields) && (k in r.fields ==> r.fields[k] == config.fields[k]))
  {
    if config.Obj? && PROXY_AUTH in config.fields then
      match encrypt(serialize(config.fields[PROXY_AUTH]))
      case Ok(enc) => Obj(Remove(config.fields[PROXY_AUTH_ENCRYPTED := Str(enc)], PROXY_AUTH))
      case Err(_) => config
    else config
  }

  /**
   * `decrypt_proxy_auth`: a string `proxy_auth_encrypted` that decrypts and
   * parses sets `proxy_auth`; every other case leaves the config as it was.
   */
  function DecryptProxyAuth(config: Json, decrypt: Cipher, parse: Parser): (r: Json)
    ensures var enc := GetStr(config, PROXY_AUTH_ENCRYPTED);
            if enc.Some? && decrypt(enc.value).Ok? && parse(decrypt(enc.value).value).Some?
            then r == Obj(config.fields[PROXY_AUTH := parse(decrypt(enc.value).value).value])
            else r == config
  {
    match GetStr(config, PROXY_AUTH_ENCRYPTED)
    case None => config
    case Some(enc) =>
      match decrypt(enc)
      case Err(_) => config
      case Ok(text) =>
        match parse(text)
        case None => config
        case Some(auth) => Obj(config.fields[PROXY_AUTH := auth])
  }

  /**
   * Encrypting and then decrypting restores `proxy_auth` when the cipher and
   * the parser invert their counterparts; once secrets are stripped the
   * config is exactly the original one.
   */
  lemma EncryptDecryptRoundTrip(config: Json, serialize: Serializer, parse: Parser, encrypt: Cipher, decrypt: Cipher)
    requires config.Obj? && PROXY_AUTH in config.fields
    requires var s := serialize(config.fields[PROXY_AUTH]);
             encrypt(s).Ok? && decrypt(encrypt(s).value) == Ok(s) && parse(s) == Some(config.fields[PROXY_AUTH])
    ensures var enc := EncryptProxyAuth(config, serialize, encrypt);
            var dec := DecryptProxyAuth(enc, decrypt, parse);
            && dec.Obj? && dec.fields[PROXY_AUTH] == config.fields[PROXY_AUTH]
            && dec.fields == config.fields[PROXY_AUTH_ENCRYPTED := enc.fields[PROXY_AUTH_ENCRYPTED]]
            && StripProxyAuth(dec) == StripProxyAuth(config)
  {
    var enc := EncryptProxyAuth(config, serialize, encrypt);
    var dec := DecryptProxyAuth(enc, decrypt, parse);
    assert GetStr(enc, PROXY_AUTH_ENCRYPTED) == Some(enc.fields[PROXY_AUTH_ENCRYPTED].s);
    assert dec.fields == config.fields[PROXY_AUTH_ENCRYPTED := enc.fields[PROXY_AUTH_ENCRYPTED]];
    assert StripProxyAuth(dec).fields == StripProxyAuth(config).fields;
  }

  /** `is_safe_workflow_name` */
  predicate IsSafeWorkflowName(name: string)
    ensures IsSafeWorkflowName(name) ==> name != [] && name != ".."
  {
    assert StartsWith(".."[0..], "..");
    name != [] && '/' !in name && '\\' !in name && !Contains(name, "..")
  }

  /** A single path component: never a separator, never `.` or `..`. */
  predicate IsPlainComponent(f: string)
  {
    f != [] && '/' !in f && '\\' !in f && f != "." && f != ".."
  }

  /** A name that passes the check gives a `{name}.md` file that stays inside the workflows directory. */
  lemma SafeWorkflowFileIsPlain(name: string)
    requires IsSafeWorkflowName(name)
    ensures IsPlainComponent(name + ".md")
  {
  }

  /** Each rejected name is rejected for one of the four reasons. */
  lemma UnsafeWorkflowNames(name: string)
    ensures !IsSafeWorkflowName(name) <==>
              name == [] || Contains(name, "/") || Contains(name, "\\") || Contains(name, "..")
  {
    if '/' in name {
      var i :| 0 <= i < |name| && name[i] == '/';
      ContainsChar(name, i, '/');
    }
    if '\\' in name {
      var i :| 0 <= i < |name| && name[i] == '\\';
      ContainsChar(name, i, '\\');
    }
    if Contains(name, "/") {
      var i :| 0 <= i <= |name| && StartsWith(name[i..], "/");
      assert name[i] == '/';
    }
    if Contains(name, "\\") {
      var i :| 0 <= i <= |name| && StartsWith(name[i..], "\\");
      assert name[i] == '\\';
    }
  }

  // ------------------------------------------------------ POST /bamboo/config

  /** The stored encrypted auth `set_bamboo_config` preserves, if the file holds one. */
  function ExistingEncryptedAuth(file: StoredFile, parse: Parser): Option<Json>
  {
    if file.Content? && parse(file.text).Some? then Get(parse(file.text).value, PROXY_AUTH_ENCRYPTED) else None
  }

  /**
   * `set_bamboo_config`: the payload without plain secrets and empty proxy
   * fields, with the previously stored encrypted auth carried over.
   */
  function SetBambooConfig(file: StoredFile, parse: Parser, payload: Json): (r: Json)
    ensures r.Obj? <==> payload.Obj?
    ensures r.Obj? ==> PROXY_AUTH !in r.fields
    ensures r.Obj? ==> var kept := ExistingEncryptedAuth(file, parse);
              (PROXY_AUTH_ENCRYPTED in r.fields <==> kept.Some?)
              && (kept.Some? ==> r.fields[PROXY_AUTH_ENCRYPTED] == kept.value)
    ensures r.Obj? ==> forall k :: k != PROXY_AUTH && k != PROXY_AUTH_ENCRYPTED && !IsProxyKey(k) ==>
              (k in r.fields <==> k in payload.fields) && (k in r.fields ==> r.fields[k] == payload.fields[k])
    ensures r.Obj? ==> forall k :: IsProxyKey(k) ==>
              (k in r.fields <==> k in payload.fields && IsNonEmptyStr(payload.fields[k]))
              && (k in r.fields ==> r.fields[k] == payload.fields[k])
  {
    var config := CleanEmptyProxyFields(StripProxyAuth(payload));
    match ExistingEncryptedAuth(file, parse)
    case Some(enc) => if config.Obj? then Obj(config.fields[PROXY_AUTH_ENCRYPTED := enc]) else config
    case None => config
  }

  // -------------------------------------------------- POST /bamboo/proxy-auth

  /** `ProxyAuth { username, password }` as a JSON value. */
  function ProxyAuthJson(username: string, password: string): Json
  {
    Obj(map["username" := Str(username), "password" := Str(password)])
  }

  /**
   * The config `set_proxy_auth` starts from: the stored config with its
   * auth decrypted; `{}` when the file cannot be read; an error when it
   * does not parse.
   */
  function ProxyAuthBase(file: StoredFile, parse: Parser, decrypt: Cipher): (r: Result<Json, AppError>)
    ensures !file.Content? ==> r == Ok(Obj(map[]))
    ensures file.Content? && parse(file.text).None? ==> r == Err(SerdeError)
    ensures file.Content? && parse(file.text).Some? ==> r == Ok(DecryptProxyAuth(parse(file.text).value, decrypt, parse))
  {
    match file
    case Content(text) =>
      (match parse(text)
       case Some(v) => Ok(DecryptProxyAuth(v, decrypt, parse))
       case None => Err(SerdeError))
    case _ => Ok(Obj(map[]))
  }

  /**
   * `set_proxy_auth`: the config it writes. A blank username removes both
   * auth keys, any other username stores the (encrypted) credentials; every
   * other key is the stored config's, and a stored config that is not an
   * object is written back unchanged.
   */
  function SetProxyAuth(file: StoredFile, username: Option<string>, password: Option<string>,
                        parse: Parser, serialize: Serializer, encrypt: Cipher, decrypt: Cipher): (r: Result<Json, AppError>)
    ensures file.Content? && parse(file.text).None? ==> r == Err(SerdeError)
    ensures !file.Content? ==> r.Ok? && r.value.Obj?
    ensures r.Ok? ==> var base := ProxyAuthBase(file, parse, decrypt);
              && base.Ok?
              && (r.value.Obj? <==> base.value.Obj?)
              && (!base.value.Obj? ==> r.value == base.value)
              && (base.value.Obj? ==> forall k :: k != PROXY_AUTH && k != PROXY_AUTH_ENCRYPTED ==>
                    (k in r.value.fields <==> k in base.value.fields)
                    && (k in r.value.fields ==> r.value.fields[k] == base.value.fields[k]))
    ensures r.Ok? && r.value.Obj? && IsBlank(username.UnwrapOr("")) ==>
              PROXY_AUTH !in r.value.fields && PROXY_AUTH_ENCRYPTED !in r.value.fields
    ensures r.Ok? && r.value.Obj? && !IsBlank(username.UnwrapOr("")) ==>
              var auth := ProxyAuthJson(username.UnwrapOr(""), password.UnwrapOr(""));
              match encrypt(serialize(auth))
              case Ok(e) => PROXY_AUTH !in r.value.fields && PROXY_AUTH_ENCRYPTED in r.value.fields
                            && r.value.fields[PROXY_AUTH_ENCRYPTED] == Str(e)
              case Err(_) =>
                && PROXY_AUTH in r.value.fields && r.value.fields[PROXY_AUTH] == auth
                && var base := ProxyAuthBase(file, parse, decrypt).value;
                   (PROXY_AUTH_ENCRYPTED in r.value.fields <==> PROXY_AUTH_ENCRYPTED in base.fields)
                   && (PROXY_AUTH_ENCRYPTED in r.value.fields ==>
                         r.value.fields[PROXY_AUTH_ENCRYPTED] == base.fields[PROXY_AUTH_ENCRYPTED])
  {
    var u := username.UnwrapOr("");
    var p := password.UnwrapOr("");
    match ProxyAuthBase(file, parse, decrypt)
    case Err(e) => Err(e)
    case Ok(config) =>
      var updated :=
        if !config.Obj? then config
        else if IsBlank(u) then Obj(Remove(Remove(config.fields, PROXY_AUTH), PROXY_AUTH_ENCRYPTED))
        else Obj(config.fields[PROXY_AUTH := ProxyAuthJson(u, p)]);
      Ok(EncryptProxyAuth(updated, serialize, encrypt))
  }

  // --------------------------------------------------------------- API keys

  /** How one API key is shown to the client. */
  function MaskKey(key: string): (r: string)
    ensures |key| > 8 ==> r == key[..4] + "..." + key[|key| - 4..]
    ensures 0 < |key| <= 8 ==> r == "***"
    ensures key == [] ==> r == []
  {
    if |key| > 8 then key[..4] + "..." + key[|key| - 4..]
    else if key != [] then "***"
    else key
  }

  /** A masked key shows at most 8 characters of the key and always carries a mask marker. */
  lemma MaskKeyHidesKey(key: string)
    requires key != []
    ensures |MaskKey(key)| <= 11
    ensures Contains(MaskKey(key), "***") || Contains(MaskKey(key), "...")
  {
    if |key| > 8 {
      ContainsInfix(key[..4], "...", key[|key| - 4..]);
    } else {
      assert StartsWith("***"[0..], "***");
    }
  }

  /** One provider entry as `mask_api_keys_in_providers` leaves it. */
  function MaskedEntry(entry: Json): (r: Json)
    ensures !(entry.Obj? && GetStr(entry, "api_key").Some?) ==> r == entry
    ensures entry.Obj? && GetStr(entry, "api_key").Some? ==>
              r == Obj(entry.fields["api_key" := Str(MaskKey(entry.fields["api_key"].s))])
  {
    match GetStr(entry, "api_key")
    case Some(k) => Obj(entry.fields["api_key" := Str(MaskKey(k))])
    case None => entry
  }

  /** Every provider entry masked. */
  function MaskedProviders(m: map<string, Json>): (r: map<string, Json>)
    ensures r.Keys == m.Keys
    ensures forall k :: k in r ==> r[k] == MaskedEntry(m[k])
  {
    map k | k in m :: MaskedEntry(m[k])
  }

  /** `mask_api_keys_in_providers`: masks the `api_key` of each provider entry in turn. */
  method MaskApiKeysInProviders(providers: Json) returns (masked: Json)
    ensures !providers.Obj? ==> masked == providers
    ensures providers.Obj? ==> masked == Obj(MaskedProviders(providers.fields))
  {
    if !providers.Obj? {
      return providers;
    }
    var m := providers.fields;
    var todo := m.Keys;
    var done: map<string, Json> := m;
    while todo != {}
      invariant todo <= m.Keys && done.Keys == m.Keys
      invariant forall k :: k in m && k !in todo ==> done[k] == MaskedEntry(m[k])
      invariant forall k :: k in todo ==> done[k] == m[k]
      decreases todo
    {
      var k :| k in todo;
      done := done[k := MaskedEntry(done[k])];
      todo := todo - {k};
    }
    assert done == MaskedProviders(m);
    masked := Obj(done);
  }

  // --------------------------------------------------------- provider merge

  predicate LooksMasked(key: string) { Contains(key, "***") || Contains(key, "...") }

  /**
   * What the merge stores for one incoming provider entry: an entry whose
   * `api_key` looks masked takes the existing entry's `api_key`, if there is
   * one; any other entry replaces the old one.
   */
  function MergedEntry(existing: Option<Json>, incoming: Json): (r: Json)
    ensures (&& incoming.Obj? && GetStr(incoming, "api_key").Some? && LooksMasked(GetStr(incoming, "api_key").value)
             && existing.Some? && Get(existing.value, "api_key").Some?)
            ==> r.Obj? && r.fields == incoming.fields["api_key" := Get(existing.value, "api_key").value]
    ensures !(&& incoming.Obj? && GetStr(incoming, "api_key").Some? && LooksMasked(GetStr(incoming, "api_key").value)
              && existing.Some? && Get(existing.value, "api_key").Some?)
            ==> r == incoming
  {
    match GetStr(incoming, "api_key")
    case Some(k) =>
      if LooksMasked(k) && existing.Some? && Get(existing.value, "api_key").Some? then
        Obj(incoming.fields["api_key" := Get(existing.value, "api_key").value])
      else incoming
    case None => incoming
  }

  /** The provider map after merging `incoming` into `existing`. */
  function MergedProviders(existing: map<string, Json>, incoming: map<string, Json>): (r: map<string, Json>)
    ensures r.Keys == existing.Keys + incoming.Keys
    ensures forall k :: k in incoming ==> r[k] == MergedEntry(if k in existing then Some(existing[k]) else None, incoming[k])
    ensures forall k :: k in existing && k !in incoming ==> r[k] == existing[k]
  {
    map k | k in existing.Keys + incoming.Keys ::
      if k in incoming then MergedEntry(if k in existing then Some(existing[k]) else None, incoming[k])
      else existing[k]
  }

  /** The merge loop over the incoming providers (lines 554-576). */
  method MergeProviders(existing: map<string, Json>, incoming: map<string, Json>) returns (merged: map<string, Json>)
    ensures merged == MergedProviders(existing, incoming)
  {
    merged := existing;
    var todo := incoming.Keys;
    while todo != {}
      invariant todo <= incoming.Keys
      invariant merged.Keys == existing.Keys + (incoming.Keys - todo)
      invariant forall k :: k in incoming && k !in todo ==>
                  merged[k] == MergedEntry(if k in existing then Some(existing[k]) else None, incoming[k])
      invariant forall k :: k in existing && (k !in incoming || k in todo) ==> merged[k] == existing[k]
      decreases todo
    {
      var k :| k in todo;
      merged := merged[k := MergedEntry(if k in merged then Some(merged[k]) else None, incoming[k])];
      todo := todo - {k};
    }
    assert merged == MergedProviders(existing, incoming);
  }

  /** Sending back the masked providers unchanged leaves the stored providers as they were. */
  lemma MergeMaskedRestoresKeys(m: map<string, Json>)
    ensures MergedProviders(m, MaskedProviders(m)) == m
  {
    var masked := MaskedProviders(m);
    forall k | k in m ensures MergedEntry(Some(m[k]), masked[k]) == m[k] {
      var e := m[k];
      if e.Obj? && GetStr(e, "api_key").Some? {
        var key := GetStr(e, "api_key").value;
        if key != [] {
          MaskKeyHidesKey(key);
          assert GetStr(masked[k], "api_key") == Some(MaskKey(key));
          assert masked[k].fields["api_key" := Str(key)] == e.fields;
        } else {
          assert masked[k] == e;
        }
      }
    }
    assert MergedProviders(m, masked) == m;
  }

  /** An incoming masked key never replaces a stored key. */
  lemma MaskedKeyNeverOverwrites(existing: map<string, Json>, incoming: map<string, Json>, k: string)
    requires k in incoming && k in existing
    requires GetStr(incoming[k], "api_key").Some? && LooksMasked(GetStr(incoming[k], "api_key").value)
    requires Get(existing[k], "api_key").Some?
    ensures Get(MergedProviders(existing, incoming)[k], "api_key") == Get(existing[k], "api_key")
  {
  }

  /**
   * `update_provider_config` up to the file write: the stored config with
   * `provider` set and the providers merged, cleaned and encrypted.
   */
  method UpdateProviderConfig(file: StoredFile, provider: string, providers: Json,
                              parse: Parser, serialize: Serializer, encrypt: Cipher, decrypt: Cipher)
    returns (r: Result<Json, AppError>)
    ensures file.ReadFailed? ==> r == Err(StorageError)
    ensures file.Content? && parse(file.text).None? ==> r == Err(SerdeError)
    ensures file.Missing? ==> r.Ok?
    ensures r.Ok? ==> r.value == EncryptProxyAuth(CleanEmptyProxyFields(
                        UpdatedConfig(LoadedConfig(file, parse, decrypt).value, provider, providers)), serialize, encrypt)
  {
    var loaded := LoadedConfig(file, parse, decrypt);
    if loaded.Err? {
      return Err(loaded.error);
    }
    var config := loaded.value;
    if config.Obj? {
      var obj := config.fields[("provider") := Str(provider)];
      if "providers" in obj {
        var existing := obj["providers"];
        if existing.Obj? {
          if providers.Obj? {
            var merged := MergeProviders(existing.fields, providers.fields);
            obj := obj["providers" := Obj(merged)];
          }
        } else {
          obj := obj["providers" := providers];
        }
      } else {
        obj := obj["providers" := providers];
      }
      config := Obj(obj);
    }
    assert config == UpdatedConfig(loaded.value, provider, providers);
    r := Ok(EncryptProxyAuth(CleanEmptyProxyFields(config), serialize, encrypt));
  }

  /** The config the update handlers start from: `{}` when the file is missing. */
  function LoadedConfig(file: StoredFile, parse: Parser, decrypt: Cipher): (r: Result<Json, AppError>)
    ensures file.Missing? ==> r == Ok(Obj(map[]))
    ensures file.ReadFailed? ==> r == Err(StorageError)
    ensures file.Content? && parse(file.text).None? ==> r == Err(SerdeError)
    ensures file.Content? && parse(file.text).Some? ==> r == Ok(DecryptProxyAuth(parse(file.text).value, decrypt, parse))
  {
    match file
    case Missing => Ok(Obj(map[]))
    case ReadFailed => Err(StorageError)
    case Content(text) =>
      match parse(text)
      case Some(v) => Ok(DecryptProxyAuth(v, decrypt, parse))
      case None => Err(SerdeError)
  }

  /** The provider update on a loaded config (lines 547-584). */
  function UpdatedConfig(config: Json, provider: string, providers: Json): (r: Json)
    ensures !config.Obj? ==> r == config
    ensures config.Obj? ==> r.Obj? && "provider" in r.fields && r.fields["provider"] == Str(provider) && "providers" in r.fields
    ensures config.Obj? ==> forall k :: k != "provider" && k != "providers" ==>
              (k in r.fields <==> k in config.fields) && (k in r.fields ==> r.fields[k] == config.fields[k])
    ensures config.Obj? ==>
              r.fields["providers"] ==
                match Get(config, "providers")
                case Some(Obj(existing)) => if providers.Obj? then Obj(MergedProviders(existing, providers.fields)) else Obj(existing)
                case _ => providers
  {
    if !config.Obj? then config
    else
      var obj := config.fields["provider" := Str(provider)];
      match Get(config, "providers")
      case Some(Obj(existing)) =>
        if providers.Obj? then Obj(obj["providers" := Obj(MergedProviders(existing, providers.fields))])
        else Obj(obj)
      case _ => Obj(obj["providers" := providers])
  }

  // ------------------------------------------------------------ migrations

  /** A migration's result: the config and whether it changed (`needs_save`). */
  datatype Migration = Migration(config: Json, changed: bool)

  /** The provider `get_provider_config` reads: the `provider` string, else "copilot". */
  /** `m` and `n` agree on every key other than `k1` and `k2`. */
  ghost predicate SameExcept(m: map<string, Json>, n: map<string, Json>, k1: string, k2: string)
  {
    forall k :: k != k1 && k != k2 ==> (k in m <==> k in n) && (k in m ==> m[k] == n[k])
  }

  /** The fields of an object; `Null`, which indexing turns into `{}`, has none. */
  function FieldsOf(v: Json): map<string, Json>
  {
    if v.Obj? then v.fields else map[]
  }

  function ProviderOf(config: Json): string
  {
    GetStr(config, "provider").UnwrapOr("copilot")
  }

  /**
   * Migration 1 as written: `provider_config["model"] = ...` panics (here
   * `None`) when the provider entry is neither an object nor null.
   */
  function MigrateRootModelAsWritten(config: Json): (r: Option<Migration>)
    ensures r.None? <==>
              && GetStr(config, "model").Some? && ProviderOf(config) != "copilot"
              && Get(config, "providers").Some?
              && Get(Get(config, "providers").value, ProviderOf(config)).Some?
              && var entry := Get(Get(config, "providers").value, ProviderOf(config)).value;
                 !(entry.Obj? || entry.Null?)
    ensures r.Some? && !r.value.changed ==> r.value.config == config
  {
    match GetStr(config, "model")
    case None => Some(Migration(config, false))
    case Some(model) =>
      var provider := ProviderOf(config);
      if provider == "copilot" then Some(Migration(config, false))
      else match Get(config, "providers")
        case None => Some(Migration(config, false))
        case Some(providers) =>
          match Get(providers, provider)
          case None => Some(Migration(config, false))
          case Some(entry) =>
            if Get(entry, "model").Some? then Some(Migration(config, false))
            else match SetIndex(entry, "model", Str(model))
              case None => None
              case Some(entry2) =>
                Some(Migration(Obj(Remove(config.fields["providers" := Obj(providers.fields[provider := entry2])], "model")), true))
  }

  /** A config on which the written migration 1 panics. */
  lemma MigrateRootModelPanics()
    ensures MigrateRootModelAsWritten(Obj(map[
              "model" := Str("gpt-4"), "provider" := Str("openai"),
              "providers" := Obj(map["openai" := Str("sk-legacy")])])) == None
  {
    var config := Obj(map["model" := Str("gpt-4"), "provider" := Str("openai"),
                          "providers" := Obj(map["openai" := Str("sk-legacy")])]);
    assert GetStr(config, "model") == Some("gpt-4");
    assert ProviderOf(config) == "openai";
  }

  /**
   * Migration 1: moves a root `model` string into `providers[provider].model`
   * when the provider (default "copilot") is not copilot, its entry exists,
   * is an object or null, and has no `model`; only then is the root field removed.
   */
  function MigrateRootModel(config: Json): (r: Migration)
    ensures !r.changed ==> r.config == config
    ensures r.changed <==>
              && GetStr(config, "model").Some? && ProviderOf(config) != "copilot"
              && Get(config, "providers").Some?
              && Get(Get(config, "providers").value, ProviderOf(config)).Some?
              && var entry := Get(Get(config, "providers").value, ProviderOf(config)).value;
                 (entry.Obj? || entry.Null?) && Get(entry, "model").None?
    ensures r.changed ==>
              && r.config.Obj? && "model" !in r.config.fields && "providers" in r.config.fields
              && var p := r.config.fields["providers"];
                 p.Obj? && ProviderOf(config) in p.fields && GetStr(p.fields[ProviderOf(config)], "model") == GetStr(config, "model")
    ensures r.changed ==>
              && config.Obj? && SameExcept(r.config.fields, config.fields, "model", "providers")
              && var before := Get(config, "providers").value;
                 var entry := Index(before, ProviderOf(config));
                 var p := r.config.fields["providers"];
                 before.Obj? && p.Obj? && SameExcept(p.fields, before.fields, ProviderOf(config), ProviderOf(config))
                 && p.fields[ProviderOf(config)] == Obj(FieldsOf(entry)["model" := Str(GetStr(config, "model").value)])
  {
    match GetStr(config, "model")
    case None => Migration(config, false)
    case Some(model) =>
      var provider := ProviderOf(config);
      if provider == "copilot" then Migration(config, false)
      else match Get(config, "providers")
        case None => Migration(config, false)
        case Some(providers) =>
          match Get(providers, provider)
          case None => Migration(config, false)
          case Some(entry) =>
            if Get(entry, "model").Some? then Migration(config, false)
            else match SetIndex(entry, "model", Str(model))
              case None => Migration(config, false)
              case Some(entry2) =>
                Migration(Obj(Remove(config.fields["providers" := Obj(providers.fields[provider := entry2])], "model")), true)
  }

  /** Wherever the written migration 1 does not panic, it agrees with the corrected one. */
  lemma MigrateRootModelAgrees(config: Json)
    requires MigrateRootModelAsWritten(config).Some?
    ensures MigrateRootModelAsWritten(config).value == MigrateRootModel(config)
  {
  }

  /**
   * Migration 2 as written: `providers["copilot"] = {}` and
   * `copilot_config["headless_auth"] = ...` panic (here `None`) on values
   * that are neither objects nor null.
   */
  function MigrateHeadlessAuthAsWritten(config: Json): (r: Option<Migration>)
    ensures r.None? <==>
              GetBool(config, "headless_auth").Some? && Get(config, "providers").Some?
              && !CopilotWritable(Get(config, "providers").value)
    ensures r.Some? && !r.value.changed ==> r.value.config == config
  {
    match GetBool(config, "headless_auth")
    case None => Some(Migration(config, false))
    case Some(h) =>
      match Get(config, "providers")
      case None => Some(Migration(config, false))
      case Some(providers) =>
        var ensured := if Get(providers, "copilot").None? then SetIndex(providers, "copilot", Obj(map[])) else Some(providers);
        match ensured
        case None => None
        case Some(p) =>
          var copilot := Index(p, "copilot");
          if Get(copilot, "headless_auth").Some? then Some(Migration(config, false))
          else match SetIndex(copilot, "headless_auth", Bool(h))
            case None => None
            case Some(copilot2) =>
              Some(Migration(Obj(Remove(config.fields["providers" := Obj(p.fields["copilot" := copilot2])], "headless_auth")), true))
  }

  /** A config on which the written migration 2 panics. */
  lemma MigrateHeadlessAuthPanics()
    ensures MigrateHeadlessAuthAsWritten(Obj(map[
              "headless_auth" := Bool(true), "providers" := Obj(map["copilot" := Bool(true)])])) == None
  {
    var config := Obj(map["headless_auth" := Bool(true), "providers" := Obj(map["copilot" := Bool(true)])]);
    assert GetBool(config, "headless_auth") == Some(true);
  }

  /** Whether migration 2 can write into `providers.copilot`. */
  predicate CopilotWritable(providers: Json)
  {
    (providers.Obj? || providers.Null?) &&
    (Get(providers, "copilot").None? || Get(providers, "copilot").value.Obj? || Get(providers, "copilot").value.Null?)
  }

  /**
   * Migration 2: moves a boolean root `headless_auth` into
   * `providers.copilot.headless_auth`, creating the copilot object if
   * needed, when that key is absent; only then is the root field removed.
   */
  function MigrateHeadlessAuth(config: Json): (r: Migration)
    ensures !r.changed ==> r.config == config
    ensures r.changed <==>
              && GetBool(config, "headless_auth").Some? && Get(config, "providers").Some?
              && CopilotWritable(Get(config, "providers").value)
              && Get(Index(Get(config, "providers").value, "copilot"), "headless_auth").None?
    ensures r.changed ==>
              && r.config.Obj? && "headless_auth" !in r.config.fields && "providers" in r.config.fields
              && var p := r.config.fields["providers"];
                 p.Obj? && "copilot" in p.fields && GetBool(p.fields["copilot"], "headless_auth") == GetBool(config, "headless_auth")
    ensures r.changed ==>
              && config.Obj? && SameExcept(r.config.fields, config.fields, "headless_auth", "providers")
              && var before := Get(config, "providers").value;
                 var p := r.config.fields["providers"];
                 p.Obj? && SameExcept(p.fields, FieldsOf(before), "copilot", "copilot")
                 && p.fields["copilot"] == Obj(FieldsOf(Index(before, "copilot"))["headless_auth" := Bool(GetBool(config, "headless_auth").value)])
  {
    match GetBool(config, "headless_auth")
    case None => Migration(config, false)
    case Some(h) =>
      match Get(config, "providers")
      case None => Migration(config, false)
      case Some(providers) =>
        if !CopilotWritable(providers) then Migration(config, false)
        else
          var p := if Get(providers, "copilot").None? then SetIndex(providers, "copilot", Obj(map[])).value else providers;
          var copilot := Index(p, "copilot");
          if Get(copilot, "headless_auth").Some? then Migration(config, false)
          else
            var copilot2 := SetIndex(copilot, "headless_auth", Bool(h)).value;
            Migration(Obj(Remove(config.fields["providers" := Obj(p.fields["copilot" := copilot2])], "headless_auth")), true)
  }

  /** Wherever the written migration 2 does not panic, it agrees with the corrected one. */
  lemma MigrateHeadlessAuthAgrees(config: Json)
    requires MigrateHeadlessAuthAsWritten(config).Some?
    ensures MigrateHeadlessAuthAsWritten(config).value == MigrateHeadlessAuth(config)
  {
  }

  /** The body of `GET /bamboo/settings/provider`. */
  datatype ProviderConfigResponse = ProviderConfigResponse(provider: string, providers: Json)

  /**
   * `get_provider_config`: the response, and the config written back when a
   * migration changed something. A missing file gives provider "copilot"
   * and no providers.
   */
  method GetProviderConfig(file: StoredFile, parse: Parser, serialize: Serializer, encrypt: Cipher, decrypt: Cipher)
    returns (r: Result<ProviderConfigResponse, AppError>, saved: Option<Json>)
    ensures file.Missing? ==> r == Ok(ProviderConfigResponse("copilot", Obj(map[]))) && saved == None
    ensures file.ReadFailed? ==> r == Err(StorageError) && saved == None
    ensures file.Content? && parse(file.text).None? ==> r == Err(SerdeError) && saved == None
    ensures file.Content? && parse(file.text).Some? ==>
              var m1 := MigrateRootModel(DecryptProxyAuth(parse(file.text).value, decrypt, parse));
              var m2 := MigrateHeadlessAuth(m1.config);
              var providers := Get(m2.config, "providers").UnwrapOr(Obj(map[]));
              && r.Ok? && r.value.provider == ProviderOf(m2.config)
              && (providers.Obj? ==> r.value.providers == Obj(MaskedProviders(providers.fields)))
              && (!providers.Obj? ==> r.value.providers == providers)
              && (saved.Some? <==> m1.changed || m2.changed)
              && (saved.Some? ==> saved.value == EncryptProxyAuth(m2.config, serialize, encrypt))
  {
    var config: Json;
    saved := None;
    match file {
      case Missing =>
        config := Obj(map["provider" := Str("copilot"), "providers" := Obj(map[])]);
        assert ProviderOf(config) == "copilot";
      case ReadFailed =>
        return Err(StorageError), None;
      case Content(text) =>
        var parsed := parse(text);
        if parsed.None? {
          return Err(SerdeError), None;
        }
        var m1 := MigrateRootModel(DecryptProxyAuth(parsed.value, decrypt, parse));
        var m2 := MigrateHeadlessAuth(m1.config);
        if m1.changed || m2.changed {
          saved := Some(EncryptProxyAuth(m2.config, serialize, encrypt));
        }
        config := m2.config;
    }
    var providers := Get(config, "providers").UnwrapOr(Obj(map[]));
    var masked := MaskApiKeysInProviders(providers);
    r := Ok(ProviderConfigResponse(ProviderOf(config), masked));
    if file.Missing? {
      assert MaskedProviders(map[]) == map[];
    }
  }

  // ------------------------------------------------------------ model lists

  /** The request `fetch_models_from_api` sends: URL and, except for Gemini, one auth header. */
  datatype ModelsRequest = ModelsRequest(url: string, header: Option<(string, string)>)

  /** Provider-specific URL and authentication for listing models. */
  function ModelsRequestFor(provider: string, apiKey: string, baseUrl: Option<string>): (r: Result<ModelsRequest, AppError>)
    ensures r.Err? <==> provider != "openai" && provider != "anthropic" && provider != "gemini"
    ensures r.Err? ==> r.error == BadRequest("Unsupported provider: " + provider)
    ensures provider == "openai" && r.Ok? ==> r.value.header == Some(("Authorization", "Bearer " + apiKey))
    ensures provider == "anthropic" && r.Ok? ==> r.value.header == Some(("x-api-key", apiKey))
    ensures provider == "gemini" && r.Ok? ==> r.value.header == None && EndsWith(r.value.url, "?key=" + apiKey)
    ensures (provider == "openai" || provider == "anthropic") && baseUrl.Some? && r.Ok? ==>
              r.value.url == TrimEndMatches(baseUrl.value, '/') + "/models"
    ensures provider == "openai" && baseUrl.None? && r.Ok? ==> r.value.url == "https://api.openai.com/v1/models"
    ensures provider == "anthropic" && baseUrl.None? && r.Ok? ==> r.value.url == "https://api.anthropic.com/v1/models"
    ensures provider == "gemini" && baseUrl.Some? && r.Ok? ==>
              r.value.url == TrimEndMatches(baseUrl.value, '/') + "?key=" + apiKey
    ensures provider == "gemini" && baseUrl.None? && r.Ok? ==>
              r.value.url == "https://generativelanguage.googleapis.com/v1beta/models" + "?key=" + apiKey
  {
    if provider == "openai" then
      var url := match baseUrl case Some(b) => TrimEndMatches(b, '/') + "/models" case None => "https://api.openai.com/v1/models";
      Ok(ModelsRequest(url, Some(("Authorization", "Bearer " + apiKey))))
    else if provider == "anthropic" then
      var url := match baseUrl case Some(b) => TrimEndMatches(b, '/') + "/models" case None => "https://api.anthropic.com/v1/models";
      Ok(ModelsRequest(url, Some(("x-api-key", apiKey))))
    else if provider == "gemini" then
      var endpoint := match baseUrl
        case Some(b) => TrimEndMatches(b, '/')
        case None => "https://generativelanguage.googleapis.com/v1beta/models";
      EndsWithAppend(endpoint, "?key=" + apiKey);
      Ok(ModelsRequest(endpoint + ("?key=" + apiKey), None))
    else Err(BadRequest("Unsupported provider: " + provider))
  }

  /** Trailing slashes on a configured base URL make no difference to the request. */
  lemma {:induction false} BaseUrlSlashesIgnored(provider: string, apiKey: string, base: string)
    ensures ModelsRequestFor(provider, apiKey, Some(base + "/")) == ModelsRequestFor(provider, apiKey, Some(base))
  {
    assert (base + "/")[..|base|] == base;
  }

  /** Model ids from an OpenAI-style `data` entry. */
  function DataEntryId(entry: Json): Option<string> { GetStr(entry, "id") }

  /** Model ids from a `models` entry: `name`, else `id`, else the entry itself when it is a string. */
  function ModelsEntryId(entry: Json): (r: Option<string>)
    ensures GetStr(entry, "name").Some? ==> r == GetStr(entry, "name")
    ensures GetStr(entry, "name").None? && GetStr(entry, "id").Some? ==> r == GetStr(entry, "id")
    ensures GetStr(entry, "name").None? && GetStr(entry, "id").None? ==> (r.Some? <==> entry.Str?)
  {
    if GetStr(entry, "name").Some? then GetStr(entry, "name")
    else if GetStr(entry, "id").Some? then GetStr(entry, "id")
    else if entry.Str? then Some(entry.s)
    else None
  }

  /** The model-id extraction in `fetch_models_from_api` (lines 757-786). */
  function ExtractModelIds(body: Json): (r: Result<seq<string>, AppError>)
    ensures r.Err? <==> GetArr(body, "data").None? && GetArr(body, "models").None? && !body.Arr?
    ensures r.Err? ==> r.error == InternalError("Unexpected response format")
    ensures GetArr(body, "data").Some? ==> r == Ok(SeqUtil.FilterMap(GetArr(body, "data").value, DataEntryId))
    ensures GetArr(body, "data").None? && GetArr(body, "models").Some? ==>
              r == Ok(SeqUtil.FilterMap(GetArr(body, "models").value, ModelsEntryId))
    ensures body.Arr? ==> r == Ok(SeqUtil.FilterMap(body.items, AsStr))
  {
    match GetArr(body, "data")
    case Some(data) => Ok(SeqUtil.FilterMap(data, DataEntryId))
    case None =>
      match GetArr(body, "models")
      case Some(models) => Ok(SeqUtil.FilterMap(models, ModelsEntryId))
      case None =>
        if body.Arr? then Ok(SeqUtil.FilterMap(body.items, AsStr))
        else Err(InternalError("Unexpected response format"))
  }

  /** When every `data` entry carries a string `id`, the list is exactly those ids, in order. */
  lemma ExtractDataIds(body: Json, data: seq<Json>)
    requires GetArr(body, "data") == Some(data)
    requires forall i :: 0 <= i < |data| ==> GetStr(data[i], "id").Some?
    ensures ExtractModelIds(body).Ok?
    ensures |ExtractModelIds(body).value| == |data|
    ensures forall i :: 0 <= i < |data| ==> ExtractModelIds(body).value[i] == GetStr(data[i], "id").value
  {
    assert forall i :: 0 <= i < |data| ==> DataEntryId(data[i]).Some?;
  }

  /**
   * `fetch_provider_models` up to the HTTP call: the provider (default
   * "openai"), its stored API key and base URL decide the request.
   */
  function ProviderModelsRequest(file: StoredFile, payload: Json, parse: Parser, decrypt: Cipher): (r: Result<ModelsRequest, AppError>)
    ensures file.Missing? ==> r == Err(NotFound("Configuration file not found"))
    ensures file.ReadFailed? ==> r == Err(StorageError)
    ensures file.Content? && parse(file.text).None? ==> r == Err(SerdeError)
    ensures r.Ok? ==> file.Content? && parse(file.text).Some?
    ensures file.Content? && parse(file.text).Some? ==>
              var config := DecryptProxyAuth(parse(file.text).value, decrypt, parse);
              var provider := GetStr(payload, "provider").UnwrapOr("openai");
              var section := Get(Get(config, "providers").UnwrapOr(Null), provider).UnwrapOr(Obj(map[]));
              var key := GetStr(section, "api_key").UnwrapOr("");
              && (key == [] ==> r == Err(BadRequest("API key not configured")))
              && (key != [] ==> r == ModelsRequestFor(provider, key, GetStr(section, "base_url")))
  {
    match file
    case Missing => Err(NotFound("Configuration file not found"))
    case ReadFailed => Err(StorageError)
    case Content(text) =>
      match parse(text)
      case None => Err(SerdeError)
      case Some(v) =>
        var config := DecryptProxyAuth(v, decrypt, parse);
        var provider := GetStr(payload, "provider").UnwrapOr("openai");
        var entry := Get(Get(config, "providers").UnwrapOr(Null), provider).UnwrapOr(Obj(map[]));
        var key := GetStr(entry, "api_key").UnwrapOr("");
        if key == [] then Err(BadRequest("API key not configured"))
        else ModelsRequestFor(provider, key, GetStr(entry, "base_url"))
  }
}
