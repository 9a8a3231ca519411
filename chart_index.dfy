// Locating a chart in an HTTP Helm repository: the in-memory index cache
// in front of an on-disk index that is downloaded again once stale, and the
// lookup of a chart version in the index.  Two copies of this flow exist:
// the caching repository of the plugin architecture, which also protects
// the index and chart downloads with file locks and resolves the chart URL
// against the repository URL, and the older chart source, which hands the
// first URL to Helm's chart locator and loads the chart.
module ChartIndex {
  import opened Wrappers
  import opened HelmIndexCache

  function Quote(s: string): string
  {
    "\"" + s + "\""
  }

  function ErrChartNotFound(chartName: string): string
  {
    "chart " + Quote(chartName) + " not found in repository index"
  }

  function ErrVersionNotFound(chartName: string, version: string): string
  {
    "chart " + Quote(chartName) + " version " + Quote(version) + " not found in repository index"
  }

  function ErrNoUrls(chartName: string, version: string): string
  {
    "chart " + Quote(chartName) + " version " + Quote(version) + " has no URLs"
  }

  // ---------------------------------------------------------------------
  // Version lookup

  /** The position of the first entry with exactly this version. */
  function FirstMatch(versions: seq<ChartVersion>, version: string): (r: Option<nat>)
    ensures r.Some? ==> r.value < |versions| && versions[r.value].version == version
    ensures r.Some? ==> forall j :: 0 <= j < r.value ==> versions[j].version != version
    ensures r.None? <==> forall j :: 0 <= j < |versions| ==> versions[j].version != version
  {
    if versions == [] then None
    else if versions[0].version == version then Some(0)
    else match FirstMatch(versions[1..], version)
      case None => None
      case Some(i) => Some(i + 1)
  }

  /** The URL `loadChartFromIndex` goes on with, or the error it stops with. */
  function ChartUrl(index: IndexFile, chartName: string, version: string): Result<string>
  {
    if chartName !in index.entries then Err(ErrChartNotFound(chartName))
    else match FirstMatch(index.entries[chartName], version)
      case None => Err(ErrVersionNotFound(chartName, version))
      case Some(i) =>
        var urls := index.entries[chartName][i].urls;
        if |urls| == 0 then Err(ErrNoUrls(chartName, version)) else Ok(urls[0])
  }

  /**
   * The lookup succeeds iff the chart is listed and some entry has the
   * requested version; the first such entry decides, and its first URL is
   * used.
   */
  lemma ChartUrlMeaning(index: IndexFile, chartName: string, version: string, i: nat)
    requires chartName in index.entries
    requires i < |index.entries[chartName]| && index.entries[chartName][i].version == version
    requires forall j :: 0 <= j < i ==> index.entries[chartName][j].version != version
    ensures |index.entries[chartName][i].urls| > 0 ==>
              ChartUrl(index, chartName, version) == Ok(index.entries[chartName][i].urls[0])
    ensures |index.entries[chartName][i].urls| == 0 ==>
              ChartUrl(index, chartName, version) == Err(ErrNoUrls(chartName, version))
  {
  }

  /** The three ways the lookup fails. */
  lemma ChartUrlErrors(index: IndexFile, chartName: string, version: string)
    ensures chartName !in index.entries ==> ChartUrl(index, chartName, version) == Err(ErrChartNotFound(chartName))
    ensures chartName in index.entries && (forall v :: v in index.entries[chartName] ==> v.version != version) ==>
              ChartUrl(index, chartName, version) == Err(ErrVersionNotFound(chartName, version))
    ensures ChartUrl(index, chartName, version).Ok? ==>
              chartName in index.entries &&
              exists v :: v in index.entries[chartName] && v.version == version && |v.urls| > 0 &&
                          ChartUrl(index, chartName, version).value == v.urls[0]
  {
    if chartName in index.entries && (forall v :: v in index.entries[chartName] ==> v.version != version) {
      var vs := index.entries[chartName];
      assert forall j :: 0 <= j < |vs| ==> vs[j] in vs;
    }
    if ChartUrl(index, chartName, version).Ok? {
      var vs := index.entries[chartName];
      var i := FirstMatch(vs, version).value;
      assert vs[i] in vs;
    }
  }

  // ---------------------------------------------------------------------
  // Index freshness and file names

  /** The index is fetched again if there is no file, or it is at least `refreshInterval` old. */
  predicate NeedsDownload(indexAge: Option<int>, refreshInterval: int)
  {
    indexAge.None? || indexAge.value >= refreshInterval
  }

  /** A file that is fresh stays fresh at any smaller age, and a stale one at any larger age. */
  lemma FreshnessMonotone(a: int, b: int, refreshInterval: int)
    requires a <= b
    ensures NeedsDownload(Some(a), refreshInterval) ==> NeedsDownload(Some(b), refreshInterval)
    ensures !NeedsDownload(Some(b), refreshInterval) ==> !NeedsDownload(Some(a), refreshInterval)
  {
  }

  function IndexFileName(repoName: string): string
  {
    repoName + "-index.yaml"
  }

  function IndexLockName(repoName: string): string
  {
    repoName + "-index.lock"
  }

  function ChartLockName(repoName: string, chartName: string, version: string): string
  {
    repoName + "-" + chartName + "-" + version + ".lock"
  }

  /** `filepath.Join` of the cache directory and a file name. */
  function InDirectory(dir: string, file: string): string
  {
    dir + "/" + file
  }

  /** Different repositories use different index files, and no index file is a lock file. */
  lemma FileNamesDistinct(a: string, b: string, chart: string, version: string)
    ensures IndexFileName(a) == IndexFileName(b) ==> a == b
    ensures IndexLockName(a) == IndexLockName(b) ==> a == b
    ensures IndexFileName(a) != IndexLockName(b)
    ensures IndexFileName(a) != ChartLockName(b, chart, version)
  {
    if IndexFileName(a) == IndexFileName(b) {
      assert |a| == |b|;
      assert a == IndexFileName(a)[..|a|];
    }
    if IndexLockName(a) == IndexLockName(b) {
      assert |a| == |b|;
      assert a == IndexLockName(a)[..|a|];
    }
    var x := IndexFileName(a);
    assert x[|x| - 1] == 'l';
    var y := IndexLockName(b);
    assert y[|y| - 1] == 'k';
    var z := ChartLockName(b, chart, version);
    assert z[|z| - 1] == 'k';
  }

  // ---------------------------------------------------------------------
  // Loading the on-disk index

  /** The two copies of the HTTP chart flow. */
  datatype Layout = CachingRepository | LegacyChartSource

  /**
   * What the file system, the network and Helm answer during one lookup.
   * `indexAge` is the age of the index file, `None` when there is none.
   */
  datatype LocateEnv = LocateEnv(
    ensureRepository: Outcome,
    indexLock: Outcome,
    indexAge: Option<int>,
    createRepository: Outcome,
    downloadIndex: Outcome,
    loadIndex: Result<IndexFile>,
    resolve: (string, string) -> Result<string>,
    chartLock: Outcome,
    downloadChart: string -> Result<string>,
    locateChart: string -> Result<string>,
    loadChart: string -> Result<string>)

  /** The outcome of `loadOrDownloadIndex`, and whether it fetched the index. */
  datatype IndexLoad = IndexLoad(downloaded: bool, result: Result<IndexFile>)

  function LoadOrDownloadIndex(layout: Layout, refreshInterval: int, env: LocateEnv): (t: IndexLoad)
    ensures t.downloaded ==> NeedsDownload(env.indexAge, refreshInterval)
  {
    if layout == CachingRepository && env.indexLock.Fail? then IndexLoad(false, Err(env.indexLock.error))
    else if NeedsDownload(env.indexAge, refreshInterval) && env.createRepository.Fail? then
      IndexLoad(false, Err("create chart repository: " + env.createRepository.error))
    else if NeedsDownload(env.indexAge, refreshInterval) && env.downloadIndex.Fail? then
      IndexLoad(true, Err("download repository index: " + env.downloadIndex.error))
    else
      var downloaded := NeedsDownload(env.indexAge, refreshInterval);
      match env.loadIndex
      case Err(e) => IndexLoad(downloaded, Err("load index file: " + e))
      case Ok(index) => IndexLoad(downloaded, Ok(index))
  }

  /** A fresh index file is read without fetching; a missing or stale one is fetched first. */
  lemma DownloadOnlyWhenStale(layout: Layout, refreshInterval: int, env: LocateEnv)
    requires layout == LegacyChartSource || env.indexLock.Pass?
    ensures !NeedsDownload(env.indexAge, refreshInterval) ==>
              !LoadOrDownloadIndex(layout, refreshInterval, env).downloaded &&
              LoadOrDownloadIndex(layout, refreshInterval, env).result.Ok? == env.loadIndex.Ok?
    ensures NeedsDownload(env.indexAge, refreshInterval) && env.createRepository.Pass? ==>
              LoadOrDownloadIndex(layout, refreshInterval, env).downloaded
    ensures LoadOrDownloadIndex(layout, refreshInterval, env).result.Ok? ==>
              env.loadIndex.Ok? && LoadOrDownloadIndex(layout, refreshInterval, env).result.value == env.loadIndex.value
  {
  }

  /** What happens once the index is known: version lookup, then fetching the chart. */
  function FromIndex(layout: Layout, index: IndexFile, repoUrl: string, chartName: string, version: string, env: LocateEnv): (r: Result<string>)
    ensures ChartUrl(index, chartName, version).Err? ==> r == ChartUrl(index, chartName, version)
  {
    var relative :- ChartUrl(index, chartName, version);
    match layout
    case CachingRepository =>
      (match env.resolve(repoUrl, relative)
       case Err(e) => Err("failed to resolve chart URL: " + e)
       case Ok(url) =>
         if env.chartLock.Fail? then Err(env.chartLock.error)
         else match env.downloadChart(url)
           case Err(e) => Err("failed to download chart: " + e)
           case Ok(path) => Ok(path))
    case LegacyChartSource =>
      match env.locateChart(relative)
      case Err(e) => Err("failed to locate chart: " + e)
      case Ok(path) =>
        match env.loadChart(path)
        case Err(e) => Err("failed to load chart from " + path + ": " + e)
        case Ok(chart) => Ok(chart)
  }

  /** `LocateChart` / `GetChart` once the cache has answered `cached`. */
  function Locate(layout: Layout, refreshInterval: int, cached: Option<IndexFile>, repoUrl: string,
                  chartName: string, version: string, env: LocateEnv): (r: Result<string>)
  {
    if env.ensureRepository.Fail? then Err("failed to ensure repository: " + env.ensureRepository.error)
    else match cached
      case Some(index) => FromIndex(layout, index, repoUrl, chartName, version, env)
      case None =>
        match LoadOrDownloadIndex(layout, refreshInterval, env).result
        case Err(e) => Err("failed to load repository index: " + e)
        case Ok(index) => FromIndex(layout, index, repoUrl, chartName, version, env)
  }

  /** A cache hit never touches the on-disk index: the answer is the same whatever the disk holds. */
  lemma HitIgnoresDisk(layout: Layout, refreshInterval: int, index: IndexFile, repoUrl: string,
                       chartName: string, version: string, env: LocateEnv, age: Option<int>, load: Result<IndexFile>)
    ensures Locate(layout, refreshInterval, Some(index), repoUrl, chartName, version, env) ==
            Locate(layout, refreshInterval, Some(index), repoUrl, chartName, version, env.(indexAge := age, loadIndex := load))
  {
  }

  /** On a miss the loaded index is the one that is searched, exactly as a hit on it would be. */
  lemma MissSearchesLoadedIndex(layout: Layout, refreshInterval: int, repoUrl: string,
                                chartName: string, version: string, env: LocateEnv)
    requires env.ensureRepository.Pass?
    requires LoadOrDownloadIndex(layout, refreshInterval, env).result.Ok?
    ensures Locate(layout, refreshInterval, None, repoUrl, chartName, version, env) ==
            Locate(layout, refreshInterval, Some(LoadOrDownloadIndex(layout, refreshInterval, env).result.value),
                   repoUrl, chartName, version, env)
  {
  }

  // ---------------------------------------------------------------------
  // The chart source object

  /** The Helm CLI settings the lookup points at the source's own files. */
  class EnvSettings {
    var repositoryConfig: string
    var repositoryCache: string

    constructor ()
      ensures repositoryConfig == "" && repositoryCache == ""
    {
      repositoryConfig := "";
      repositoryCache := "";
    }
  }

  /** `CachingRepository` / `ChartSource`: its files, its refresh interval and its index cache. */
  class HttpChartSource {
    const layout: Layout
    const repoConfigPath: string
    const repoCachePath: string
    const refreshInterval: int
    const cache: IndexCache

    constructor (layout: Layout, basePath: string, refreshInterval: int, cache: IndexCache)
      ensures this.layout == layout && this.refreshInterval == refreshInterval && this.cache == cache
      ensures repoConfigPath == InDirectory(basePath, "repositories.yaml")
      ensures repoCachePath == InDirectory(basePath, "repository")
    {
      this.layout := layout;
      this.refreshInterval := refreshInterval;
      this.cache := cache;
      repoConfigPath := InDirectory(basePath, "repositories.yaml");
      repoCachePath := InDirectory(basePath, "repository");
    }

    /** The on-disk paths of a repository's index and of its lock. */
    function IndexPath(repoName: string): string
    {
      InDirectory(repoCachePath, IndexFileName(repoName))
    }

    /**
     * The search of `loadChartFromIndex`: the settings are pointed at the
     * source's files first, then the versions are scanned until the first
     * exact match.
     */
    method FindChartUrl(index: IndexFile, chartName: string, version: string, settings: EnvSettings) returns (r: Result<string>)
      modifies settings
      ensures settings.repositoryConfig == repoConfigPath && settings.repositoryCache == repoCachePath
      ensures r == ChartUrl(index, chartName, version)
    {
      settings.repositoryConfig := repoConfigPath;
      settings.repositoryCache := repoCachePath;
      if chartName !in index.entries {
        return Err(ErrChartNotFound(chartName));
      }
      var versions := index.entries[chartName];
      var i := 0;
      while i < |versions| && versions[i].version != version
        invariant 0 <= i <= |versions|
        invariant forall j :: 0 <= j < i ==> versions[j].version != version
      {
        i := i + 1;
      }
      if i == |versions| {
        return Err(ErrVersionNotFound(chartName, version));
      }
      if |versions[i].urls| == 0 {
        return Err(ErrNoUrls(chartName, version));
      }
      return Ok(versions[i].urls[0]);
    }

    /** `loadChartFromIndex` as a whole. */
    method LoadChartFromIndex(index: IndexFile, repoUrl: string, chartName: string, version: string,
                              settings: EnvSettings, env: LocateEnv) returns (r: Result<string>)
      modifies settings
      ensures settings.repositoryConfig == repoConfigPath && settings.repositoryCache == repoCachePath
      ensures r == FromIndex(layout, index, repoUrl, chartName, version, env)
    {
      var relative := FindChartUrl(index, chartName, version, settings);
      if relative.Err? {
        return Err(relative.error);
      }
      r := FromIndex(layout, index, repoUrl, chartName, version, env);
    }

    /**
     * `LocateChart` / `GetChart`: make sure the repository is configured,
     * answer from the cache on a hit, and on a miss load the index from disk
     * (fetching it when stale) and store it in the cache before searching it.
     */
    method LocateChart(repoName: string, repoUrl: string, chartName: string, version: string,
                       settings: EnvSettings, now: int, env: LocateEnv) returns (r: Result<string>)
      modifies cache, settings
      ensures var cached := if env.ensureRepository.Fail? || cache.maxSize == 0 then None
                            else Lookup(old(cache.items), cache.ttl, repoName, now);
              r == Locate(layout, refreshInterval, cached, repoUrl, chartName, version, env)
      ensures env.ensureRepository.Fail? ==> cache.items == old(cache.items)
      ensures env.ensureRepository.Pass? && cache.maxSize != 0 && Lookup(old(cache.items), cache.ttl, repoName, now).Some? ==>
                cache.items == old(cache.items)[repoName := old(cache.items)[repoName].(accessedAt := now)]
      ensures env.ensureRepository.Pass? && (cache.maxSize == 0 || Lookup(old(cache.items), cache.ttl, repoName, now).None?) ==>
                var load := LoadOrDownloadIndex(layout, refreshInterval, env).result;
                (load.Err? ==> cache.items == old(cache.items)) &&
                (load.Ok? && cache.maxSize != 0 ==> repoName in cache.items && cache.items[repoName] == Fresh(load.value, repoUrl, now))
      ensures old(cache.Valid()) ==> cache.Valid()
    {
      if env.ensureRepository.Fail? {
        return Err("failed to ensure repository: " + env.ensureRepository.error);
      }
      var hit := cache.Get(repoName, now);
      if hit.Some? {
        r := LoadChartFromIndex(hit.value, repoUrl, chartName, version, settings, env);
        return;
      }
      var load := LoadOrDownloadIndex(layout, refreshInterval, env);
      if load.result.Err? {
        return Err("failed to load repository index: " + load.result.error);
      }
      cache.Set(repoName, repoUrl, load.result.value, now);
      r := LoadChartFromIndex(load.result.value, repoUrl, chartName, version, settings, env);
    }
  }

  /** A worked lookup: of two entries with the same version the first one's URL is used. */
  lemma FirstEntryWins(index: IndexFile, a: ChartVersion, b: ChartVersion)
    requires a.version == "1.0.0" && b.version == "1.0.0" && a.urls == ["a.tgz"] && b.urls == ["b.tgz"]
    requires index.entries == map["app" := [a, b]]
    ensures ChartUrl(index, "app", "1.0.0") == Ok("a.tgz")
  {
  }
}
