/**
 * The pure helpers of the two browser clients (public/app.js and
 * public/admin.js): how each reads the API base URL and the demo-API flag
 * from the globals the runtime configuration leaves on `window`, how
 * request paths are joined to the base, and the admin-table search.
 */
module Client {
  import opened Text
  import opened Base
  import RuntimeConfig

  // ----- base URL and demo mode -----

  /**
   * The globals a client reads: app.js reads the KVANTUM_* names, admin.js
   * and the configuration script use the QUANTUM_* names. `true` for a
   * demo flag means the global is the boolean `true` itself.
   */
  datatype Window = Window(
    host: string,
    quantumBase: Option<string>, quantumDemo: bool,
    kvantumBase: Option<string>, kvantumDemo: bool)

  /** The page after public/config.js has run and nothing else set a global. */
  function AfterConfig(host: string, query: Option<string>, runtime: Option<string>, storage: Option<string>): Window {
    var s := RuntimeConfig.Resolve(host, query, runtime, storage);
    Window(host, Some(s.apiBase), s.useDemo, None, false)
  }

  /** What a client settles on: `API_BASE_URL` and `USE_DEMO_API`. */
  datatype ClientSettings = ClientSettings(apiBase: string, useDemo: bool)

  /**
   * `(global || '').trim().replace(/\/$/, '')`, and demo mode when the
   * flag is set or when there is no base on a GitHub Pages host.
   */
  function ReadSettings(base: Option<string>, demoFlag: bool, host: string): (c: ClientSettings)
    ensures c.apiBase + (if EndsWith(Trim(OrEmpty(base)), "/") then "/" else "") == Trim(OrEmpty(base))
    ensures c.useDemo <==> demoFlag || (c.apiBase == [] && RuntimeConfig.IsGitHubPages(host))
  {
    var apiBase := StripTrailingSlash(Trim(OrEmpty(base)));
    ClientSettings(apiBase, demoFlag || (apiBase == [] && RuntimeConfig.IsGitHubPages(host)))
  }

  /**
   * The settings read from the globals the configuration script writes:
   * what public/admin.js does, and what public/app.js does once it reads
   * the same names.
   */
  function ConfiguredSettings(w: Window): ClientSettings {
    ReadSettings(w.quantumBase, w.quantumDemo, w.host)
  }

  /** public/app.js as written reads the KVANTUM_* globals, which nothing sets. */
  function AppSettingsAsWritten(w: Window): ClientSettings {
    ReadSettings(w.kvantumBase, w.kvantumDemo, w.host)
  }

  /**
   * As written, app.js never sees the configured base: it always sends
   * same-origin requests, and falls back to the demo API on GitHub Pages.
   */
  lemma AppIgnoresConfiguredBase(host: string, query: Option<string>, runtime: Option<string>, storage: Option<string>)
    ensures AppSettingsAsWritten(AfterConfig(host, query, runtime, storage))
         == ClientSettings([], RuntimeConfig.IsGitHubPages(host))
  {
    var w := AfterConfig(host, query, runtime, storage);
    assert w.kvantumBase == None && !w.kvantumDemo && w.host == host;
    NothingToRead(host);
  }

  lemma NothingToRead(host: string)
    ensures ReadSettings(None, false, host) == ClientSettings([], RuntimeConfig.IsGitHubPages(host))
  {
    assert OrEmpty(None) == [];
    assert Trim([]) == [];
  }

  /** The concrete case: a GitHub Pages host with no override. */
  lemma GitHubPagesAsWritten()
    ensures ConfiguredSettings(AfterConfig("x.github.io", None, None, None))
         == ClientSettings(RuntimeConfig.HostedApi, false)
    ensures AppSettingsAsWritten(AfterConfig("x.github.io", None, None, None))
         == ClientSettings([], true)
  {
    var host := "x.github.io";
    assert host[|host| - 9..] == "github.io";
    assert RuntimeConfig.IsGitHubPages(host) && !RuntimeConfig.IsLocalHost(host);
    AppIgnoresConfiguredBase(host, None, None, None);
    HostedApiIsClean();
  }

  lemma HostedApiIsClean()
    ensures Trim(RuntimeConfig.HostedApi) == RuntimeConfig.HostedApi
    ensures StripTrailingSlash(RuntimeConfig.HostedApi) == RuntimeConfig.HostedApi
  {
    var h := RuntimeConfig.HostedApi;
    assert h[0] == 'h' && h[|h| - 1] == 'p';
    TrimOfTrimmed(h);
  }

  /**
   * Reading the QUANTUM_* globals, a client uses exactly the base the
   * configuration chose when that base is clean (an override ending in
   * white space before a slash, or in two slashes, is trimmed further),
   * and stays off the demo API unless no base was chosen on GitHub Pages.
   */
  lemma ClientUsesConfiguredBase(host: string, query: Option<string>, runtime: Option<string>, storage: Option<string>)
    requires var b := RuntimeConfig.Resolve(host, query, runtime, storage).apiBase;
             IsTrimmed(b) && !EndsWith(b, "/")
    ensures ConfiguredSettings(AfterConfig(host, query, runtime, storage)).apiBase
         == RuntimeConfig.Resolve(host, query, runtime, storage).apiBase
    ensures !ConfiguredSettings(AfterConfig(host, query, runtime, storage)).useDemo
        <==> RuntimeConfig.Resolve(host, query, runtime, storage).apiBase != [] || !RuntimeConfig.IsGitHubPages(host)
  {
    ReadCleanBase(AfterConfig(host, query, runtime, storage));
  }

  lemma ReadCleanBase(w: Window)
    requires w.quantumBase.Some? && !w.quantumDemo
    requires IsTrimmed(w.quantumBase.value) && !EndsWith(w.quantumBase.value, "/")
    ensures ConfiguredSettings(w) == ClientSettings(w.quantumBase.value, w.quantumBase.value == [] && RuntimeConfig.IsGitHubPages(w.host))
  {
    TrimOfTrimmed(w.quantumBase.value);
  }

  /** With no override the configured base is one of the clean host defaults. */
  lemma HostDefaultsAreClean(host: string)
    ensures var b := RuntimeConfig.HostDefault(host); IsTrimmed(b) && !EndsWith(b, "/")
  {
    var l := RuntimeConfig.LocalApi;
    assert l[0] == 'h' && l[|l| - 1] == '0';
    HostedApiIsClean();
    var h := RuntimeConfig.HostedApi;
    assert h[0] == 'h' && h[|h| - 1] == 'p';
  }

  // ----- request URLs -----

  /** `buildApiUrl`: the path gets a leading slash and, when there is one, the base in front. */
  function BuildApiUrl(base: string, path: string): (url: string)
    ensures StartsWith(path, "/") ==> url == base + path
    ensures !StartsWith(path, "/") ==> url == base + "/" + path
  {
    var normalized := if StartsWith(path, "/") then path else "/" + path;
    if base != [] then base + normalized else normalized
  }

  /** Writing the leading slash or leaving it out gives the same URL. */
  lemma LeadingSlashOptional(base: string, path: string)
    requires !StartsWith(path, "/")
    ensures BuildApiUrl(base, "/" + path) == BuildApiUrl(base, path)
  {
    assert "/" <= "/" + path;
  }

  /** The path can be read back from the URL after the base. */
  lemma PathAfterBase(base: string, path: string)
    ensures var url := BuildApiUrl(base, path);
      |base| < |url| && url[..|base|] == base && url[|base|] == '/' &&
      (url[|base|..] == path || url[|base| + 1..] == path)
  {
    var url := BuildApiUrl(base, path);
    if StartsWith(path, "/") {
      assert url == base + path;
    } else {
      assert url == base + ("/" + path);
      assert url[|base| + 1..] == path;
    }
  }

  // ----- request method -----

  /** `(options.method || 'GET').toUpperCase()`: the method a demo API dispatches on. */
  function MethodOf(verb: Option<string>): (m: string)
    ensures m != []
    ensures OrEmpty(verb) != [] ==> m == Upper(OrEmpty(verb))
  {
    Upper(if OrEmpty(verb) == [] then "GET" else OrEmpty(verb))
  }

  // ----- admin search -----

  /** `normalizeAdminValue`: `String(value || '').toLowerCase().trim()`. */
  function NormalizeAdminValue(value: Option<string>): (r: string)
    ensures r == Lower(Trim(OrEmpty(value)))
    ensures IsTrimmed(r) && Lower(r) == r
  {
    TrimLowerCommute(OrEmpty(value));
    LowerIdempotent(Trim(OrEmpty(value)));
    Trim(Lower(OrEmpty(value)))
  }

  /** One field of a record, normalised, includes the query. */
  predicate FieldIncludes(value: Option<string>, query: string) {
    Contains(NormalizeAdminValue(value), query)
  }

  /**
   * `matchesAdminSearch`: an empty query matches every record, otherwise
   * some field must include it (`values.some(...)`).
   */
  predicate MatchesAdminSearch(query: string, values: seq<Option<string>>) {
    query == [] || exists k :: 0 <= k < |values| && FieldIncludes(values[k], query)
  }

  /**
   * The admin panel searches with the normalised search box text: a record
   * one of whose fields contains that text, in any letter case, is shown.
   */
  lemma SearchFindsAnyCase(search: string, values: seq<Option<string>>, k: nat)
    requires k < |values| && Contains(Lower(OrEmpty(values[k])), Lower(search))
    ensures MatchesAdminSearch(NormalizeAdminValue(Some(search)), values)
  {
    var q := NormalizeAdminValue(Some(search));
    if q != [] {
      var v := Lower(OrEmpty(values[k]));
      TrimLowerCommute(search);
      ContainsTrimmedPart(v, Lower(search));
      assert Contains(v, q);
      ContainsInTrim(v, q);
      TrimLowerCommute(OrEmpty(values[k]));
      assert FieldIncludes(values[k], q);
    }
  }

  /** A search box holding only white space filters nothing out. */
  lemma BlankSearchMatchesAll(search: string, values: seq<Option<string>>)
    requires AllSpace(search)
    ensures MatchesAdminSearch(NormalizeAdminValue(Some(search)), values)
  {
    TrimEmptyIffAllSpace(search);
  }
}
