/**
 * The runtime configuration script of the static front end
 * (public/config.js): it picks the API base URL from an override (query
 * parameter `apiBase`, then the runtime global, then the stored value) or,
 * without one, from the page's host name, and switches the demo API off.
 * An override source that cannot be read (a throwing `URLSearchParams` or
 * `localStorage`) or is unset is `None`.
 */
module RuntimeConfig {
  import opened Text
  import opened Base

  const LocalApi := "http://localhost:3000"
  const HostedApi := "https://kvantum-api.vercel.app"

  /** What the script leaves on `window`: the API base and the demo-API flag. */
  datatype Settings = Settings(apiBase: string, useDemo: bool)

  predicate IsLocalHost(host: string) {
    host == "localhost" || host == "127.0.0.1"
  }

  predicate IsGitHubPages(host: string) {
    EndsWith(host, "github.io")
  }

  /** `(source || '').trim()`. */
  function Trimmed(source: Option<string>): string {
    Trim(OrEmpty(source))
  }

  /**
   * `queryOverride || runtimeOverride || storageOverride`: the first
   * source that is not blank, trimmed; empty when all are blank.
   */
  function ChooseOverride(query: Option<string>, runtime: Option<string>, storage: Option<string>): (o: string)
    ensures IsTrimmed(o)
    ensures o == [] <==> Trimmed(query) == [] && Trimmed(runtime) == [] && Trimmed(storage) == []
  {
    if Trimmed(query) != [] then Trimmed(query)
    else if Trimmed(runtime) != [] then Trimmed(runtime)
    else Trimmed(storage)
  }

  /** The base URL when no override is given. */
  function HostDefault(host: string): (base: string)
    ensures IsLocalHost(host) ==> base == LocalApi
    ensures !IsLocalHost(host) && IsGitHubPages(host) ==> base == HostedApi
    ensures !IsLocalHost(host) && !IsGitHubPages(host) ==> base == []
  {
    if IsLocalHost(host) then LocalApi
    else if IsGitHubPages(host) then HostedApi
    else []
  }

  /** The script as a whole. */
  function Resolve(host: string, query: Option<string>, runtime: Option<string>, storage: Option<string>): (s: Settings)
    ensures !s.useDemo
    ensures ChooseOverride(query, runtime, storage) != [] ==>
      s.apiBase + (if EndsWith(ChooseOverride(query, runtime, storage), "/") then "/" else "")
        == ChooseOverride(query, runtime, storage)
    ensures ChooseOverride(query, runtime, storage) == [] ==> s.apiBase == HostDefault(host)
  {
    var o := ChooseOverride(query, runtime, storage);
    Settings(if o != [] then StripTrailingSlash(o) else HostDefault(host), false)
  }

  /** A non-blank query parameter wins over every other source and the host. */
  lemma QueryOverrideWins(host: string, query: string, runtime: Option<string>, storage: Option<string>)
    requires Trim(query) != []
    ensures Resolve(host, Some(query), runtime, storage).apiBase == StripTrailingSlash(Trim(query))
  {
  }

  /** Without a query parameter, a non-blank runtime global wins over the stored value. */
  lemma RuntimeOverrideBeatsStorage(host: string, query: Option<string>, runtime: string, storage: Option<string>)
    requires Trimmed(query) == [] && Trim(runtime) != []
    ensures Resolve(host, query, Some(runtime), storage).apiBase == StripTrailingSlash(Trim(runtime))
  {
  }

  /** The stored value is used only when both other sources are blank. */
  lemma StorageOverrideLast(host: string, query: Option<string>, runtime: Option<string>, storage: string)
    requires Trimmed(query) == [] && Trimmed(runtime) == [] && Trim(storage) != []
    ensures Resolve(host, query, runtime, Some(storage)).apiBase == StripTrailingSlash(Trim(storage))
  {
  }

  /** White-space-only overrides count as absent: the host decides. */
  lemma BlankOverridesIgnored(host: string, query: string, runtime: string, storage: string)
    requires AllSpace(query) && AllSpace(runtime) && AllSpace(storage)
    ensures Resolve(host, Some(query), Some(runtime), Some(storage)) == Resolve(host, None, None, None)
  {
    TrimEmptyIffAllSpace(query);
    TrimEmptyIffAllSpace(runtime);
    TrimEmptyIffAllSpace(storage);
  }

  /** Only one trailing slash is removed from an override. */
  lemma OneSlashRemoved(host: string, base: string)
    requires base != [] && IsTrimmed(base) && !EndsWith(base, "/")
    ensures Resolve(host, Some(base + "/"), None, None).apiBase == base
    ensures Resolve(host, Some(base + "//"), None, None).apiBase == base + "/"
  {
    var one := base + "/";
    var two := base + "//";
    assert one[0] == base[0] && one[|one| - 1] == '/';
    assert two[0] == base[0] && two[|two| - 1] == '/';
    TrimOfTrimmed(one);
    TrimOfTrimmed(two);
    assert one[..|one| - 1] == base;
    assert two[..|two| - 1] == one;
  }
}
