/**
 * The Gotify side: each message from the stream is filtered by application
 * id, its application name is resolved through a cache that is filled on
 * demand, and it is handed to the bridge. The stream and the application
 * list are not fetched here: they are given as values, and a failed fetch is
 * `None`.
 */
module Listener {
  import opened Wrappers
  import opened PyValues
  import opened Config

  /** The "appid" of a stream message: an integer, or absent (missing or null). */
  datatype AppId = Id(n: int) | Absent

  /** `str(app_id)` as an f-string writes it. */
  function ShowId(a: AppId): string {
    match a
    case Id(n) => IntToString(n)
    case Absent => "None"
  }

  /** One entry of `get_applications()`. */
  datatype Application = Application(id: int, name: string)

  /** A stream message: its application id, title and body (None when missing or null). */
  datatype Message = Message(appid: AppId, title: Option<string>, body: Option<string>)

  function UnknownName(appId: AppId): string {
    "未知应用(" + ShowId(appId) + ")"
  }

  function FailedFetchName(appId: AppId): string {
    "应用" + ShowId(appId)
  }

  /** `next((app['name'] for app in apps if app['id'] == app_id), 未知应用(app_id))`. */
  function NameFrom(apps: seq<Application>, appId: AppId): string {
    if apps == [] then UnknownName(appId)
    else if appId == Id(apps[0].id) then apps[0].name
    else NameFrom(apps[1..], appId)
  }

  /** The first application with the id gives the name. */
  lemma {:induction false} NameFromFirstMatch(apps: seq<Application>, n: int, i: nat)
    requires i < |apps| && apps[i].id == n
    requires forall j | 0 <= j < i :: apps[j].id != n
    ensures NameFrom(apps, Id(n)) == apps[i].name
  {
    if i > 0 {
      NameFromFirstMatch(apps[1..], n, i - 1);
    }
  }

  /** Without an application of that id, the name says the application is unknown. */
  lemma {:induction false} NameFromNoMatch(apps: seq<Application>, appId: AppId)
    requires forall j | 0 <= j < |apps| :: appId != Id(apps[j].id)
    ensures NameFrom(apps, appId) == UnknownName(appId)
  {
    if apps != [] {
      NameFromNoMatch(apps[1..], appId);
    }
  }

  /** The name `_get_application_name` returns, the cache after it, and whether it fetched. */
  datatype Resolution = Resolution(name: string, cache: map<AppId, string>, fetched: bool)

  /** `_get_application_name(app_id)` when fetching the application list would give `fetch`. */
  function Resolve(cache: map<AppId, string>, appId: AppId, fetch: Option<seq<Application>>): (r: Resolution)
    ensures appId in cache ==> r == Resolution(cache[appId], cache, false)
    ensures appId !in cache && fetch.None? ==> r == Resolution(FailedFetchName(appId), cache, true)
    ensures appId !in cache && fetch.Some? ==>
      r.fetched && r.cache.Keys == cache.Keys + {appId} && r.cache[appId] == r.name &&
      r.name == NameFrom(fetch.value, appId)
    ensures forall k | k in cache :: k in r.cache && r.cache[k] == cache[k]
  {
    if appId in cache then Resolution(cache[appId], cache, false)
    else
      match fetch
      case None => Resolution(FailedFetchName(appId), cache, true)
      case Some(apps) =>
        var name := NameFrom(apps, appId);
        Resolution(name, cache[appId := name], true)
  }

  /** What happened to one message. */
  datatype Handling =
    | Dropped                                            // filtered out by the whitelist or blacklist
    | Failed                                             // reading the filter lists raised; the message is skipped
    | Forwarded(appName: string, title: string, body: string) // `bridge.send_message(app_name, title, body)`

  /**
   * The filter of `start_listening`: only an integer id is filtered; the
   * whitelist is read first, and the blacklist only when the whitelist is empty.
   */
  function Admit(appId: AppId, whitelist: Result<seq<int>, ConfigError>, blacklist: Result<seq<int>, ConfigError>)
    : Result<bool, ConfigError>
  {
    match appId
    case Absent => Ok(true)
    case Id(n) =>
      var w :- whitelist;
      if w != [] then Ok(n in w)
      else
        var b :- blacklist;
        Ok(b == [] || n !in b)
  }

  /** The listener's filter and `is_app_allowed` agree when both lists can be read. */
  lemma AdmitIsAppAllowed(n: int, whitelist: seq<int>, blacklist: seq<int>)
    ensures Admit(Id(n), Ok(whitelist), Ok(blacklist)) == Ok(IsAppAllowed(whitelist, blacklist, n))
  {
  }

  /** A message without an integer id is never filtered, whatever the lists are. */
  lemma AbsentIdAdmitted(whitelist: Result<seq<int>, ConfigError>, blacklist: Result<seq<int>, ConfigError>)
    ensures Admit(Absent, whitelist, blacklist) == Ok(true)
  {
  }

  /** Under a non-empty whitelist the blacklist is not read, so an error in it does not matter. */
  lemma WhitelistShortCircuits(n: int, whitelist: seq<int>, blacklist: Result<seq<int>, ConfigError>)
    requires whitelist != []
    ensures Admit(Id(n), Ok(whitelist), blacklist) == Ok(n in whitelist)
  {
  }

  function OrEmpty(s: Option<string>): string {
    if s.Some? then s.value else ""
  }

  datatype Step = Step(handling: Handling, cache: map<AppId, string>)

  /** The body of the `async for message` loop for one message. */
  function HandleStep(cache: map<AppId, string>, msg: Message,
                      whitelist: Result<seq<int>, ConfigError>, blacklist: Result<seq<int>, ConfigError>,
                      fetch: Option<seq<Application>>): (s: Step)
    ensures !s.handling.Forwarded? ==> s.cache == cache
    ensures s.handling == Dropped <==> Admit(msg.appid, whitelist, blacklist) == Ok(false)
    ensures s.handling == Failed <==> Admit(msg.appid, whitelist, blacklist).Err?
    ensures s.handling.Forwarded? ==>
      s.handling.title == OrEmpty(msg.title) && s.handling.body == OrEmpty(msg.body) &&
      s.handling.appName == Resolve(cache, msg.appid, fetch).name &&
      s.cache == Resolve(cache, msg.appid, fetch).cache
    ensures forall k | k in cache :: k in s.cache && s.cache[k] == cache[k]
  {
    match Admit(msg.appid, whitelist, blacklist)
    case Err(_) => Step(Failed, cache)
    case Ok(admitted) =>
      if !admitted then Step(Dropped, cache)
      else
        var r := Resolve(cache, msg.appid, fetch);
        Step(Forwarded(r.name, OrEmpty(msg.title), OrEmpty(msg.body)), r.cache)
  }

  /** The loop over a stream of messages; `fetches[i]` is what a fetch for message `i` would give. */
  function RunAll(cache: map<AppId, string>, msgs: seq<Message>,
                  whitelist: Result<seq<int>, ConfigError>, blacklist: Result<seq<int>, ConfigError>,
                  fetches: seq<Option<seq<Application>>>): (r: (seq<Handling>, map<AppId, string>))
    requires |fetches| == |msgs|
    ensures |r.0| == |msgs|
    decreases |msgs|
  {
    if msgs == [] then ([], cache)
    else
      var s := HandleStep(cache, msgs[0], whitelist, blacklist, fetches[0]);
      var rest := RunAll(s.cache, msgs[1..], whitelist, blacklist, fetches[1..]);
      ([s.handling] + rest.0, rest.1)
  }

  /** Once a name is cached it never changes, however many messages follow. */
  lemma {:induction false} CachedNamesStay(cache: map<AppId, string>, msgs: seq<Message>,
                                           whitelist: Result<seq<int>, ConfigError>, blacklist: Result<seq<int>, ConfigError>,
                                           fetches: seq<Option<seq<Application>>>, k: AppId)
    requires |fetches| == |msgs| && k in cache
    ensures var after := RunAll(cache, msgs, whitelist, blacklist, fetches).1;
      k in after && after[k] == cache[k]
    decreases |msgs|
  {
    if msgs != [] {
      var s := HandleStep(cache, msgs[0], whitelist, blacklist, fetches[0]);
      CachedNamesStay(s.cache, msgs[1..], whitelist, blacklist, fetches[1..], k);
    }
  }

  /** Every message whose id is already cached is forwarded under the cached name, with no fetch's effect. */
  lemma CachedNameUsed(cache: map<AppId, string>, msg: Message,
                       fetch: Option<seq<Application>>)
    requires msg.appid in cache
    ensures HandleStep(cache, msg, Ok([]), Ok([]), fetch) ==
      Step(Forwarded(cache[msg.appid], OrEmpty(msg.title), OrEmpty(msg.body)), cache)
  {
  }

  class GotifyListener {
    var appCache: map<AppId, string>

    constructor()
      ensures appCache == map[]
    {
      appCache := map[];
    }

    /** `_get_application_name`: the cached name, or one looked up and cached; a failed fetch caches nothing. */
    method GetApplicationName(appId: AppId, fetch: Option<seq<Application>>) returns (name: string, fetched: bool)
      modifies this
      ensures Resolution(name, appCache, fetched) == Resolve(old(appCache), appId, fetch)
    {
      if appId in appCache {
        return appCache[appId], false;
      }
      match fetch
      case None =>
        name, fetched := FailedFetchName(appId), true;
      case Some(apps) =>
        name := NameFrom(apps, appId);
        appCache := appCache[appId := name];
        fetched := true;
    }

    /** One iteration of the message loop of `start_listening`. */
    method HandleMessage(msg: Message, whitelist: Result<seq<int>, ConfigError>,
                         blacklist: Result<seq<int>, ConfigError>, fetch: Option<seq<Application>>)
      returns (handling: Handling)
      modifies this
      ensures Step(handling, appCache) == HandleStep(old(appCache), msg, whitelist, blacklist, fetch)
    {
      var admitted := Admit(msg.appid, whitelist, blacklist);
      if admitted.Err? {
        return Failed;
      }
      if !admitted.value {
        return Dropped;
      }
      var name, fetched := GetApplicationName(msg.appid, fetch);
      handling := Forwarded(name, OrEmpty(msg.title), OrEmpty(msg.body));
    }

    /** The message loop of `start_listening` over a finite stream. */
    method Listen(msgs: seq<Message>, whitelist: Result<seq<int>, ConfigError>,
                  blacklist: Result<seq<int>, ConfigError>, fetches: seq<Option<seq<Application>>>)
      returns (handled: seq<Handling>)
      requires |fetches| == |msgs|
      modifies this
      ensures (handled, appCache) == RunAll(old(appCache), msgs, whitelist, blacklist, fetches)
    {
      handled := [];
      var i := 0;
      assert msgs[0..] == msgs && fetches[0..] == fetches;
      assert handled + RunAll(appCache, msgs, whitelist, blacklist, fetches).0
          == RunAll(appCache, msgs, whitelist, blacklist, fetches).0;
      while i < |msgs|
        invariant 0 <= i <= |msgs|
        invariant var rest := RunAll(appCache, msgs[i..], whitelist, blacklist, fetches[i..]);
          RunAll(old(appCache), msgs, whitelist, blacklist, fetches) == (handled + rest.0, rest.1)
      {
        assert msgs[i..][1..] == msgs[i + 1..] && fetches[i..][1..] == fetches[i + 1..];
        var before := appCache;
        var h := HandleMessage(msgs[i], whitelist, blacklist, fetches[i]);
        var rest := RunAll(appCache, msgs[i + 1..], whitelist, blacklist, fetches[i + 1..]);
        assert RunAll(before, msgs[i..], whitelist, blacklist, fetches[i..]) == ([h] + rest.0, rest.1);
        assert handled + ([h] + rest.0) == (handled + [h]) + rest.0;
        handled := handled + [h];
        i := i + 1;
      }
      assert msgs[i..] == [] && fetches[i..] == [];
      assert handled + [] == handled;
    }
  }
}
