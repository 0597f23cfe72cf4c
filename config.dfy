/**
 * The configuration accessors. The loaded YAML document is a `Value`; every
 * accessor reads it through a dotted path. The exceptions Python raises are
 * the `Err` side of a `Result`.
 */
module Config {
  import opened Wrappers
  import opened PyValues

  datatype ConfigError =
    | NotADict(key: string)         // AttributeError: `.get(key, {})` on a value that is not a dict
    | NotAString(key: string)       // AttributeError: `.strip()` on a value that is not a str
    | MissingKey(key: string)       // ValueError: a required key is missing or falsy
    | UnsupportedProxy(url: string) // ValueError: the proxy URL has none of the accepted schemes
    | SocksMissing                  // ImportError: a socks5 proxy without the PySocks package

  const EmptyDict := Dict(map[])

  // ---------------------------------------------------------------- str.split('.')

  /** `s.split(sep)`: the pieces between the separators, empty ones included. */
  function SplitOn(s: string, sep: char): (parts: seq<string>)
    ensures |parts| >= 1
    ensures forall i | 0 <= i < |parts| :: sep !in parts[i]
    decreases |s|
  {
    if s == [] then [""]
    else
      var rest := SplitOn(s[1..], sep);
      if s[0] == sep then [""] + rest
      else [[s[0]] + rest[0]] + rest[1..]
  }

  /** `sep.join(parts)`. */
  function JoinWith(parts: seq<string>, sep: char): string
    requires |parts| >= 1
  {
    if |parts| == 1 then parts[0] else parts[0] + [sep] + JoinWith(parts[1..], sep)
  }

  /** Splitting loses nothing: joining the pieces gives the key back. */
  lemma {:induction false} JoinSplit(s: string, sep: char)
    ensures JoinWith(SplitOn(s, sep), sep) == s
    decreases |s|
  {
    if s != [] {
      var rest := SplitOn(s[1..], sep);
      JoinSplit(s[1..], sep);
      if s[0] == sep {
        assert ([""] + rest)[1..] == rest;
      } else {
        var parts := [[s[0]] + rest[0]] + rest[1..];
        if |rest| > 1 {
          assert parts[1..] == rest[1..];
        }
      }
    }
  }

  // ---------------------------------------------------------------- _get_nested_value

  /** The value reached by `value = value.get(k, {})` for each key in turn. */
  function Lookup(v: Value, keys: seq<string>): (r: Result<Value, ConfigError>)
    ensures r.Err? ==> r.error.NotADict?
    decreases |keys|
  {
    if keys == [] then Ok(v)
    else if v.Dict? then
      Lookup(if keys[0] in v.entries then v.entries[keys[0]] else EmptyDict, keys[1..])
    else Err(NotADict(keys[0]))
  }

  /** `_get_nested_value(key)`, with Python's None as `Null`. */
  function NestedValue(config: Value, key: string): (r: Result<Value, ConfigError>)
    ensures r.Ok? ==> r.value != EmptyDict
    ensures r.Err? ==> r.error.NotADict?
  {
    match Lookup(config, SplitOn(key, '.'))
    case Ok(v) => Ok(if v == EmptyDict then Null else v)
    case Err(e) => Err(e)
  }

  /** The loop of `_get_nested_value`, one key per iteration. */
  method GetNestedValue(config: Value, key: string) returns (r: Result<Value, ConfigError>)
    ensures r == NestedValue(config, key)
  {
    var keys := SplitOn(key, '.');
    var value := config;
    var i := 0;
    while i < |keys|
      invariant 0 <= i <= |keys|
      invariant Lookup(config, keys) == Lookup(value, keys[i..])
    {
      if !value.Dict? {
        return Err(NotADict(keys[i]));
      }
      var k := keys[i];
      assert keys[i..][1..] == keys[i + 1..];
      value := if k in value.entries then value.entries[k] else EmptyDict;
      i := i + 1;
    }
    assert keys[i..] == [];
    r := Ok(if value == EmptyDict then Null else value);
  }

  /** Once a key is missing, every later `.get` is on `{}`. */
  lemma {:induction false} LookupEmpty(keys: seq<string>)
    ensures Lookup(EmptyDict, keys) == Ok(EmptyDict)
    decreases |keys|
  {
    if keys != [] {
      LookupEmpty(keys[1..]);
    }
  }

  /** Following `a + b` is following `a` and then `b` from where `a` ends. */
  lemma {:induction false} LookupAppend(v: Value, a: seq<string>, b: seq<string>)
    ensures Lookup(v, a + b) ==
      match Lookup(v, a)
      case Ok(w) => Lookup(w, b)
      case Err(e) => Err(e)
    decreases |a|
  {
    if a == [] {
      assert a + b == b;
    } else {
      assert (a + b)[1..] == a[1..] + b;
      assert (a + b)[0] == a[0];
      if v.Dict? {
        LookupAppend(if a[0] in v.entries then v.entries[a[0]] else EmptyDict, a[1..], b);
      }
    }
  }

  /** A key missing at any level of the path gives None. */
  lemma NestedMissing(config: Value, key: string, i: nat)
    requires i < |SplitOn(key, '.')|
    requires Lookup(config, SplitOn(key, '.')[..i]).Ok?
    requires var w := Lookup(config, SplitOn(key, '.')[..i]).value;
      w.Dict? && SplitOn(key, '.')[i] !in w.entries
    ensures NestedValue(config, key) == Ok(Null)
  {
    var keys := SplitOn(key, '.');
    assert keys == keys[..i] + keys[i..];
    LookupAppend(config, keys[..i], keys[i..]);
    LookupEmpty(keys[i + 1..]);
    assert keys[i..][1..] == keys[i + 1..];
  }

  /** The value at the end of a path whose every step is a dict holding the next key. */
  function PathValue(v: Value, keys: seq<string>): Option<Value>
    decreases |keys|
  {
    if keys == [] then Some(v)
    else if v.Dict? && keys[0] in v.entries then PathValue(v.entries[keys[0]], keys[1..])
    else None
  }

  /** Where the whole path exists, the lookup gives its end value, or None for an empty map. */
  lemma {:induction false} NestedPresent(config: Value, key: string)
    requires PathValue(config, SplitOn(key, '.')).Some?
    ensures var w := PathValue(config, SplitOn(key, '.')).value;
      NestedValue(config, key) == Ok(if w == EmptyDict then Null else w)
  {
    LookupOfPath(config, SplitOn(key, '.'));
  }

  lemma {:induction false} LookupOfPath(v: Value, keys: seq<string>)
    requires PathValue(v, keys).Some?
    ensures Lookup(v, keys) == Ok(PathValue(v, keys).value)
    decreases |keys|
  {
    if keys != [] {
      LookupOfPath(v.entries[keys[0]], keys[1..]);
    }
  }

  // ---------------------------------------------------------------- _validate_config

  const RequiredKeys: seq<string> :=
    ["telegram.bot_token", "telegram.chat_id", "gotify.server_url", "gotify.client_token"]

  /** The check of `_validate_config` over `keys`, in order. */
  function ValidateKeys(config: Value, keys: seq<string>): Result<(), ConfigError>
    decreases |keys|
  {
    if keys == [] then Ok(())
    else
      match NestedValue(config, keys[0])
      case Err(e) => Err(e)
      case Ok(v) => if !Truthy(v) then Err(MissingKey(keys[0])) else ValidateKeys(config, keys[1..])
  }

  function ValidateConfig(config: Value): Result<(), ConfigError> {
    ValidateKeys(config, RequiredKeys)
  }

  /** Validation passes exactly when every required key holds a truthy value. */
  lemma {:induction false} ValidateKeysOk(config: Value, keys: seq<string>)
    ensures ValidateKeys(config, keys).Ok? <==>
      forall i | 0 <= i < |keys| :: NestedValue(config, keys[i]).Ok? && Truthy(NestedValue(config, keys[i]).value)
    decreases |keys|
  {
    if keys != [] {
      ValidateKeysOk(config, keys[1..]);
      assert forall i | 1 <= i < |keys| :: keys[i] == keys[1..][i - 1];
    }
  }

  /** A reported missing key is a required key whose value is missing or falsy. */
  lemma {:induction false} ValidateKeysMissing(config: Value, keys: seq<string>)
    requires ValidateKeys(config, keys).Err? && ValidateKeys(config, keys).error.MissingKey?
    ensures var k := ValidateKeys(config, keys).error.key;
      k in keys && NestedValue(config, k).Ok? && !Truthy(NestedValue(config, k).value)
    decreases |keys|
  {
    if NestedValue(config, keys[0]).Ok? && Truthy(NestedValue(config, keys[0]).value) {
      ValidateKeysMissing(config, keys[1..]);
      assert ValidateKeys(config, keys[1..]).error.key in keys[1..];
    }
  }

  lemma ValidateConfigOk(config: Value)
    ensures ValidateConfig(config).Ok? <==>
      forall k | k in RequiredKeys :: NestedValue(config, k).Ok? && Truthy(NestedValue(config, k).value)
  {
    ValidateKeysOk(config, RequiredKeys);
    assert forall k | k in RequiredKeys :: exists i | 0 <= i < |RequiredKeys| :: RequiredKeys[i] == k;
  }

  // ---------------------------------------------------------------- _to_int_list

  /** The elements of `items` that `int()` accepts, converted, in their order. */
  function Converted(items: seq<Value>): seq<int> {
    Collect(items, Kept)
  }

  /** What `f` gives each element, joined in order (built from the end, as the loop appends). */
  function Collect(items: seq<Value>, f: Value -> seq<int>): seq<int>
    decreases |items|
  {
    if items == [] then [] else Collect(items[..|items| - 1], f) + f(items[|items| - 1])
  }

  /** What one element contributes: its `int()` value, or nothing when `int()` raises. */
  function Kept(v: Value): seq<int> {
    var n := ToInt(v);
    if n.Some? then [n.value] else []
  }

  /** `_to_int_list(value)`. */
  function IntList(v: Value): seq<int> {
    if v.List? then Converted(v.items) else []
  }

  /** The loop of `_to_int_list`: append what `int()` accepts, skip what it rejects. */
  method ToIntList(v: Value) returns (result: seq<int>)
    ensures result == IntList(v)
  {
    result := [];
    if v.List? {
      var i := 0;
      while i < |v.items|
        invariant 0 <= i <= |v.items|
        invariant result == Converted(v.items[..i])
      {
        var n := ToInt(v.items[i]);
        assert v.items[..i + 1][..i] == v.items[..i];
        if n.Some? {
          result := result + [n.value];
        }
        i := i + 1;
      }
      assert v.items[..i] == v.items;
    }
  }

  lemma {:induction false} CollectAppend(a: seq<Value>, b: seq<Value>, f: Value -> seq<int>)
    ensures Collect(a + b, f) == Collect(a, f) + Collect(b, f)
    decreases |b|
  {
    if b == [] {
      assert a + b == a;
    } else {
      var b' := b[..|b| - 1];
      CollectAppend(a, b', f);
      assert (a + b)[..|a + b| - 1] == a + b';
      assert (a + b)[|a + b| - 1] == b[|b| - 1];
    }
  }

  /** Conversion works element by element, so the kept elements keep their order. */
  lemma ConvertedAppend(a: seq<Value>, b: seq<Value>)
    ensures Converted(a + b) == Converted(a) + Converted(b)
  {
    CollectAppend(a, b, Kept);
  }

  /** An integer is in the result exactly when some element converts to it. */
  lemma {:induction false} ConvertedMembers(items: seq<Value>, x: int)
    ensures x in Converted(items) <==> exists i | 0 <= i < |items| :: ToInt(items[i]) == Some(x)
    decreases |items|
  {
    if items != [] {
      var init := items[..|items| - 1];
      ConvertedMembers(init, x);
      assert forall i | 0 <= i < |init| :: init[i] == items[i];
    }
  }

  /** A list of ints comes back unchanged. */
  lemma {:induction false} ConvertedInts(xs: seq<int>)
    ensures Converted(seq(|xs|, i requires 0 <= i < |xs| => Int(xs[i]))) == xs
    decreases |xs|
  {
    if xs != [] {
      var items := seq(|xs|, i requires 0 <= i < |xs| => Int(xs[i]));
      var init := xs[..|xs| - 1];
      ConvertedInts(init);
      assert items[..|items| - 1] == seq(|init|, i requires 0 <= i < |init| => Int(init[i]));
    }
  }

  lemma IntListNotList(v: Value)
    requires !v.List?
    ensures IntList(v) == []
  {
  }

  // ---------------------------------------------------------------- whitelist and blacklist

  /**
   * `gotify_whitelist` (name "whitelist") or `gotify_blacklist` (name
   * "blacklist"): `gotify.filter.<name>`, or `gotify.<name>` when that is None.
   */
  function FilterList(config: Value, name: string): Result<seq<int>, ConfigError> {
    var raw :- NestedValue(config, "gotify.filter." + name);
    if raw == Null then
      var fallback :- NestedValue(config, "gotify." + name);
      Ok(IntList(fallback))
    else
      Ok(IntList(raw))
  }

  function Whitelist(config: Value): Result<seq<int>, ConfigError> {
    FilterList(config, "whitelist")
  }

  function Blacklist(config: Value): Result<seq<int>, ConfigError> {
    FilterList(config, "blacklist")
  }

  /** `gotify.filter.<name>`, when it is set, decides alone. */
  lemma FilterListPrimary(config: Value, name: string)
    requires NestedValue(config, "gotify.filter." + name).Ok?
    requires NestedValue(config, "gotify.filter." + name).value != Null
    ensures FilterList(config, name) == Ok(IntList(NestedValue(config, "gotify.filter." + name).value))
  {
  }

  /** When `gotify.filter.<name>` is None, `gotify.<name>` is read instead. */
  lemma FilterListFallback(config: Value, name: string)
    requires NestedValue(config, "gotify.filter." + name) == Ok(Null)
    ensures FilterList(config, name) ==
      match NestedValue(config, "gotify." + name)
      case Ok(v) => Ok(IntList(v))
      case Err(e) => Err(e)
  {
  }

  // ---------------------------------------------------------------- is_app_allowed

  /** The admission rule: a non-empty whitelist admits its members only; else a non-empty blacklist excludes its members. */
  predicate IsAppAllowed(whitelist: seq<int>, blacklist: seq<int>, appId: int) {
    if whitelist != [] then appId in whitelist
    else if blacklist != [] then appId !in blacklist
    else true
  }

  /** `is_app_allowed(app_id)`: both lists are read first, then the rule applied. */
  function AppAllowed(config: Value, appId: int): Result<bool, ConfigError> {
    var whitelist :- Whitelist(config);
    var blacklist :- Blacklist(config);
    Ok(IsAppAllowed(whitelist, blacklist, appId))
  }

  /** Rejection needs a reason: not whitelisted under a whitelist, or blacklisted without one. */
  lemma RejectedWhy(whitelist: seq<int>, blacklist: seq<int>, appId: int)
    ensures !IsAppAllowed(whitelist, blacklist, appId) <==>
      (whitelist != [] && appId !in whitelist) || (whitelist == [] && appId in blacklist)
  {
  }

  /** The whitelist wins: when it is non-empty the blacklist plays no part. */
  lemma WhitelistWins(whitelist: seq<int>, blacklist: seq<int>, other: seq<int>, appId: int)
    requires whitelist != []
    ensures IsAppAllowed(whitelist, blacklist, appId) == IsAppAllowed(whitelist, other, appId)
  {
  }

  // ---------------------------------------------------------------- defaults

  const DefaultMaxLength := 4000
  const DefaultTitleFormat := "[Gotify→{app_name}] - {title}"

  /** `value or default`: one of the two operands, and truthy when either is. */
  function OrDefault(v: Value, default: Value): (r: Value)
    ensures r == v || r == default
    ensures Truthy(r) <==> Truthy(v) || Truthy(default)
  {
    if Truthy(v) then v else default
  }

  /** `max_message_length`: `message.max_length`, or 4000 when that is missing or falsy. */
  function MaxMessageLength(config: Value): (r: Result<Value, ConfigError>)
    ensures r.Ok? ==> Truthy(r.value)
  {
    var v :- NestedValue(config, "message.max_length");
    Ok(OrDefault(v, Int(DefaultMaxLength)))
  }

  /** `title_format`: `message.title_format`, or the default template. */
  function TitleFormat(config: Value): (r: Result<Value, ConfigError>)
    ensures r.Ok? ==> Truthy(r.value)
  {
    var v :- NestedValue(config, "message.title_format");
    Ok(OrDefault(v, Str(DefaultTitleFormat)))
  }

  /** A zero length, like a missing one, falls back to 4000. */
  lemma MaxLengthZero(config: Value)
    requires NestedValue(config, "message.max_length") == Ok(Int(0))
             || NestedValue(config, "message.max_length") == Ok(Null)
    ensures MaxMessageLength(config) == Ok(Int(4000))
  {
  }

  lemma MaxLengthSet(config: Value, n: int)
    requires NestedValue(config, "message.max_length") == Ok(Int(n)) && n != 0
    ensures MaxMessageLength(config) == Ok(Int(n))
  {
  }

  lemma TitleFormatEmpty(config: Value)
    requires NestedValue(config, "message.title_format") == Ok(Str(""))
             || NestedValue(config, "message.title_format") == Ok(Null)
    ensures TitleFormat(config) == Ok(Str(DefaultTitleFormat))
  {
  }

  // ---------------------------------------------------------------- proxy

  predicate StartsWith(s: string, prefix: string) {
    |prefix| <= |s| && s[..|prefix|] == prefix
  }

  /** `proxy_url`: the stripped `telegram.proxy.url`, or None when it is missing or blank. */
  function ProxyUrl(config: Value): (r: Result<Option<string>, ConfigError>)
    ensures r.Ok? && r.value.Some? ==>
      var u := r.value.value;
      u != [] && !IsSpace(u[0]) && !IsSpace(u[|u| - 1])
  {
    var v :- NestedValue(config, "telegram.proxy.url");
    if !Truthy(v) then Ok(None)
    else if !v.Str? then Err(NotAString("telegram.proxy.url"))
    else if Strip(v.s) == [] then Ok(None)
    else Ok(Some(Strip(v.s)))
  }

  /** A proxy URL that is text comes back stripped, and blank text means no proxy. */
  lemma ProxyUrlOfText(config: Value, s: string)
    requires NestedValue(config, "telegram.proxy.url") == Ok(Str(s))
    ensures ProxyUrl(config) == Ok(if Strip(s) == [] then None else Some(Strip(s)))
  {
    if s == [] {
      assert !Truthy(Str(s));
    } else {
      assert Truthy(Str(s));
    }
  }

  predicate SupportedScheme(u: string) {
    StartsWith(u, "http://") || StartsWith(u, "https://") || StartsWith(u, "socks5://")
  }

  /**
   * `get_proxy_dict()` once `proxy_url` is known: None without a proxy;
   * otherwise the same URL for both schemes of `requests`. `socksInstalled`
   * says whether `import socks` succeeds.
   */
  function ProxyDictFor(url: Option<string>, socksInstalled: bool): (r: Result<Option<map<string, string>>, ConfigError>)
    ensures r == Ok(None) <==> url.None?
    ensures r.Ok? && r.value.Some? ==>
      var d := r.value.value;
      d.Keys == {"http", "https"} && url == Some(d["http"]) && url == Some(d["https"]) && SupportedScheme(d["http"])
    ensures r.Err? && r.error.UnsupportedProxy? ==> url == Some(r.error.url) && !SupportedScheme(r.error.url)
    ensures r.Err? ==> r.error.UnsupportedProxy? || r.error.SocksMissing?
    ensures r.Err? && r.error.SocksMissing? ==> !socksInstalled && url.Some? && StartsWith(url.value, "socks5://")
    ensures url.Some? && !SupportedScheme(url.value) ==> r == Err(UnsupportedProxy(url.value))
    ensures url.Some? && StartsWith(url.value, "socks5://") && !socksInstalled ==> r == Err(SocksMissing)
    ensures url.Some? && SupportedScheme(url.value) && (socksInstalled || !StartsWith(url.value, "socks5://")) ==>
      r == Ok(Some(map["http" := url.value, "https" := url.value]))
  {
    if url.None? then Ok(None)
    else
      var u := url.value;
      if !SupportedScheme(u) then Err(UnsupportedProxy(u))
      else if StartsWith(u, "socks5://") && !socksInstalled then Err(SocksMissing)
      else Ok(Some(map["http" := u, "https" := u]))
  }

  function GetProxyDict(config: Value, socksInstalled: bool): Result<Option<map<string, string>>, ConfigError> {
    var url :- ProxyUrl(config);
    ProxyDictFor(url, socksInstalled)
  }

  /** Without a proxy URL there is no proxy dict, and no error. */
  lemma NoProxy(config: Value, socksInstalled: bool)
    requires ProxyUrl(config) == Ok(None)
    ensures GetProxyDict(config, socksInstalled) == Ok(None)
  {
  }

  /** An http or https proxy is always accepted. */
  lemma HttpProxyAccepted(config: Value, socksInstalled: bool, u: string)
    requires ProxyUrl(config) == Ok(Some(u))
    requires StartsWith(u, "http://") || StartsWith(u, "https://")
    ensures GetProxyDict(config, socksInstalled) == Ok(Some(map["http" := u, "https" := u]))
  {
    HttpNotSocks(u);
  }

  lemma HttpNotSocks(u: string)
    requires StartsWith(u, "http://") || StartsWith(u, "https://")
    ensures SupportedScheme(u) && !StartsWith(u, "socks5://")
  {
    assert u[0] == 'h';
    assert |u| < 9 || u[..9][0] != "socks5://"[0];
  }
}
