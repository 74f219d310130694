/**
 The dataset cache (carbonscope/emission_factors/loader.py).  A file's content stands for
 both its parsed form and its hash, so hashes are taken to be free of collisions.
 */
module FactorCache {
  import opened Outcomes
  import opened Runs

  type Content = string

  const TTL := 3600

  const DATASETS := {"epa_stationary", "epa_mobile", "egrid", "iea", "defra", "transport", "industry", "gwp"}

  /** What was parsed, what was hashed, and when: the two are read separately. */
  datatype Cached = Cached(data: Content, version: Content, loadedAt: int)

  type Cache = map<string, Cached>

  /** What each of the three reads of a load would find: the check, the parse, and the hash after it. */
  datatype Reads = Reads(check: Content, parse: Content, hash: Content)

  predicate Fresh(c: Cache, dataset: string, now: int) {
    dataset in c && now - c[dataset].loadedAt < TTL
  }

  predicate Unchanged(c: Cache, dataset: string, r: Reads) {
    dataset in c && r.check == c[dataset].version
  }

  function Reloaded(r: Reads, now: int): Cached {
    Cached(r.parse, r.hash, now)
  }

  function Loaded(c: Cache, dataset: string, now: int, r: Reads): Cache {
    if Fresh(c, dataset, now) then c
    else if Unchanged(c, dataset, r) then c[dataset := c[dataset].(loadedAt := now)]
    else c[dataset := Reloaded(r, now)]
  }

  /** What a load returns. */
  function Served(c: Cache, dataset: string, now: int, r: Reads): Content {
    if Fresh(c, dataset, now) || Unchanged(c, dataset, r) then c[dataset].data else r.parse
  }

  function Version(c: Cache, dataset: string, read: Content): Content {
    if dataset in c then c[dataset].version else read
  }

  // ---------------------------------------------------------------- runs

  datatype Event =
      Write(at: int, dataset: string, content: Content)
    | Load(at: int, dataset: string, found: Reads)
    | Invalidate(at: int, which: Option<string>)

  datatype State = State(disk: map<string, Content>, cache: Cache)

  function OnDisk(s: State, dataset: string): Content {
    if dataset in s.disk then s.disk[dataset] else ""
  }

  function Next(s: State, e: Event): State {
    match e
    case Write(_, dataset, content) => s.(disk := s.disk[dataset := content])
    case Load(at, dataset, found) => s.(cache := Loaded(s.cache, dataset, at, found))
    case Invalidate(_, which) => s.(cache := if which.None? then map[] else s.cache - {which.value})
  }

  function After(run: Run<Event>): State {
    match run
    case Start => State(map[], map[])
    case Then(before, e) => Next(After(before), e)
  }

  /** The clock does not go backwards. */
  predicate Timed(run: Run<Event>, now: int) {
    run.Then? ==> run.last.at <= now && Timed(run.before, run.last.at)
  }

  /** Every load reads the same content all three times: what is on disk at that moment. */
  predicate AtomicReads(run: Run<Event>) {
    run.Then? ==>
      && AtomicReads(run.before)
      && (run.last.Load? ==>
            var content := OnDisk(After(run.before), run.last.dataset);
            run.last.found == Reads(content, content, content))
  }

  /** The file held this content at some moment later than the given time. */
  predicate StoodAfter(run: Run<Event>, dataset: string, content: Content, time: int) {
    run.Then? && ((run.last.at > time && OnDisk(After(run), dataset) == content)
                  || StoodAfter(run.before, dataset, content, time))
  }

  /** Every cached dataset stood on disk when it was last confirmed, under its own hash. */
  ghost predicate Honest(run: Run<Event>) {
    forall dataset :: dataset in After(run).cache ==>
      var c := After(run).cache[dataset];
      c.version == c.data && StoodAfter(run, dataset, c.data, c.loadedAt - 1)
  }

  lemma {:induction false} AtomicRunsAreHonest(run: Run<Event>, now: int)
    requires Timed(run, now) && AtomicReads(run)
    ensures Honest(run)
  {
    if run.Then? {
      AtomicRunsAreHonest(run.before, run.last.at);
      hide StoodAfter;
      var s := After(run.before);
      forall dataset | dataset in After(run).cache
        ensures var c := After(run).cache[dataset];
                c.version == c.data && StoodAfter(run, dataset, c.data, c.loadedAt - 1)
      {
        var c := After(run).cache[dataset];
        if dataset in s.cache && c == s.cache[dataset] {
          StoodBefore(run, dataset, c.data, c.loadedAt - 1);
        } else {
          StoodNow(run, dataset, c.data, c.loadedAt - 1);
        }
      }
    }
  }

  lemma StoodBefore(run: Run<Event>, dataset: string, content: Content, time: int)
    requires run.Then? && StoodAfter(run.before, dataset, content, time)
    ensures StoodAfter(run, dataset, content, time)
  {
  }

  lemma StoodNow(run: Run<Event>, dataset: string, content: Content, time: int)
    requires run.Then? && run.last.at > time && OnDisk(After(run), dataset) == content
    ensures StoodAfter(run, dataset, content, time)
  {
  }

  lemma {:induction false} StoodEarlier(run: Run<Event>, dataset: string, content: Content, time: int, earlier: int)
    requires StoodAfter(run, dataset, content, time) && earlier <= time
    ensures StoodAfter(run, dataset, content, earlier)
  {
    if StoodAfter(run.before, dataset, content, time) {
      StoodEarlier(run.before, dataset, content, time, earlier);
    }
  }

  /**
   With atomic reads, a load returns the content the file had at some moment less than the
   time to live ago, and the version reported for a cached dataset is the hash of exactly
   the data being served.
   */
  lemma ServedIsRecent(run: Run<Event>)
    requires run.Then? && run.last.Load? && Timed(run, run.last.at) && AtomicReads(run)
    ensures var before, e := After(run.before), run.last;
            var served := Served(before.cache, e.dataset, e.at, e.found);
            && StoodAfter(run, e.dataset, served, e.at - TTL)
            && e.dataset in After(run).cache
            && After(run).cache[e.dataset].data == served
            && forall read :: Version(After(run).cache, e.dataset, read) == served
  {
    hide StoodAfter;
    AtomicRunsAreHonest(run, run.last.at);
    var c := After(run).cache[run.last.dataset];
    StoodEarlier(run, run.last.dataset, c.data, c.loadedAt - 1, run.last.at - TTL);
  }

  // ---------------------------------------------------------------- within the time to live

  /** When the cached entry was last read from disk or confirmed, since the last time it was dropped. */
  function ConfirmedAt(run: Run<Event>, dataset: string): Option<int> {
    match run
    case Start => None
    case Then(before, e) =>
      var was := ConfirmedAt(before, dataset);
      match e
      case Write(_, _, _) => was
      case Invalidate(_, which) => if which.None? || which.value == dataset then None else was
      case Load(at, d, _) => if d == dataset && (was.None? || at >= was.value + 3600) then Some(at) else was
  }

  /** The cache remembers when that was. */
  lemma {:induction false} CacheRemembers(run: Run<Event>, dataset: string)
    ensures dataset in After(run).cache <==> ConfirmedAt(run, dataset).Some?
    ensures dataset in After(run).cache ==>
              After(run).cache[dataset].loadedAt == ConfirmedAt(run, dataset).value
  {
    if run.Then? {
      CacheRemembers(run.before, dataset);
    }
  }

  /**
   For an hour after a dataset was read or confirmed, and unless it is dropped, a load answers
   without looking at the disk: whatever the file has become, it serves the same data again.
   */
  lemma WithinTheHour(run: Run<Event>, dataset: string, now: int, found: Reads, other: Reads)
    requires ConfirmedAt(run, dataset).Some? && now < ConfirmedAt(run, dataset).value + 3600
    ensures var c := After(run).cache;
            && dataset in c && Served(c, dataset, now, found) == Served(c, dataset, now, other) == c[dataset].data
            && After(Then(run, Load(now, dataset, found))) == After(run)
  {
    CacheRemembers(run, dataset);
  }

  // ---------------------------------------------------------------- reads that are not atomic

  predicate Reloads(s: State, e: Event) {
    e.Load? && !Fresh(s.cache, e.dataset, e.at) && !Unchanged(s.cache, e.dataset, e.found)
  }

  /** Every reload parsed and hashed the same content, whether or not that was on disk at its start or end. */
  predicate CleanReloads(run: Run<Event>) {
    run.Then? ==>
      && CleanReloads(run.before)
      && (Reloads(After(run.before), run.last) ==> run.last.found.parse == run.last.found.hash)
  }

  /** After every load of the run the reported version is the hash of the data just served. */
  predicate VersionsMatch(run: Run<Event>) {
    run.Then? ==>
      && VersionsMatch(run.before)
      && (run.last.Load? ==>
            var c := After(run).cache[run.last.dataset];
            c.version == c.data)
  }

  lemma {:induction false} CleanReloadsMatch(run: Run<Event>, dataset: string)
    requires CleanReloads(run) && dataset in After(run).cache
    ensures var c := After(run).cache[dataset]; c.version == c.data
  {
    if run.Then? && dataset in After(run.before).cache {
      CleanReloadsMatch(run.before, dataset);
    }
  }

  /**
   Without atomic reads, over whole runs: every load leaves the reported version the hash
   of the served data if and only if no file was replaced between the parse and the hash
   of a reload.
   */
  lemma {:induction false} VersionsMatchIff(run: Run<Event>)
    ensures VersionsMatch(run) <==> CleanReloads(run)
  {
    if run.Then? {
      VersionsMatchIff(run.before);
      if CleanReloads(run) && run.last.Load? {
        CleanReloadsMatch(run, run.last.dataset);
      }
    }
  }

  /** Loads only, each finding this content on disk. */
  predicate OnlyLoads(run: Run<Event>, dataset: string, content: Content) {
    run.Then? ==>
      && OnlyLoads(run.before, dataset, content)
      && run.last.Load? && run.last.dataset == dataset
      && run.last.found == Reads(content, content, content)
  }

  function Continued(s: State, run: Run<Event>): State {
    match run
    case Start => s
    case Then(before, e) => Next(Continued(s, before), e)
  }

  /**
   A reload during which the file is replaced, parsed before and hashed after, serves the
   old content for good: no later load ever notices, although every later read is atomic
   and the file no longer changes.
   */
  lemma {:induction false} TornReloadIsServedForever(
    c: Cache, dataset: string, at: int, was: Content, becomes: Content, later: Run<Event>)
    requires dataset !in c && was != becomes
    requires OnlyLoads(later, dataset, becomes)
    ensures var torn := State(map[dataset := becomes], Loaded(c, dataset, at, Reads(was, was, becomes)));
            var s := Continued(torn, later);
            && dataset in s.cache && s.cache[dataset].data == was && s.cache[dataset].version == becomes
            && OnDisk(s, dataset) == becomes
            && forall now :: Served(s.cache, dataset, now, Reads(becomes, becomes, becomes)) == was
  {
    if later.Then? {
      TornReloadIsServedForever(c, dataset, at, was, becomes, later.before);
    }
  }

  /**
   A cached dataset keeps up with a file of this content that no longer changes: after any
   number of atomic loads, every load past the time to live serves what is on disk.
   */
  ghost predicate KeepsUp(s: State, dataset: string, content: Content) {
    forall later, now ::
      var q := Continued(s, later);
      OnlyLoads(later, dataset, content) && !Fresh(q.cache, dataset, now) ==>
        Served(q.cache, dataset, now, Reads(content, content, content)) == content
  }

  /** Under this content's hash there is nothing but this content. */
  predicate NotMasked(c: Cache, dataset: string, content: Content) {
    dataset in c && c[dataset].version == content ==> c[dataset].data == content
  }

  lemma {:induction false} LoadsKeepUnmasked(s: State, dataset: string, content: Content, later: Run<Event>)
    requires OnlyLoads(later, dataset, content) && NotMasked(s.cache, dataset, content)
    ensures NotMasked(Continued(s, later).cache, dataset, content)
  {
    if later.Then? {
      LoadsKeepUnmasked(s, dataset, content, later.before);
    }
  }

  /** A cached dataset keeps up with a file exactly when it does not hold other data under that file's hash. */
  lemma KeepsUpIff(s: State, dataset: string, content: Content)
    ensures KeepsUp(s, dataset, content) <==> NotMasked(s.cache, dataset, content)
  {
    if NotMasked(s.cache, dataset, content) {
      forall later, now | OnlyLoads(later, dataset, content) && !Fresh(Continued(s, later).cache, dataset, now)
        ensures Served(Continued(s, later).cache, dataset, now, Reads(content, content, content)) == content
      {
        LoadsKeepUnmasked(s, dataset, content, later);
      }
    } else {
      var now := s.cache[dataset].loadedAt + TTL;
      assert OnlyLoads(Start, dataset, content) && Continued(s, Start) == s && !Fresh(s.cache, dataset, now);
      assert Served(s.cache, dataset, now, Reads(content, content, content)) != content;
    }
  }

  /** After every load of the run, the dataset just loaded keeps up with whatever file may come. */
  ghost predicate AlwaysKeepsUp(run: Run<Event>) {
    run.Then? ==>
      && AlwaysKeepsUp(run.before)
      && (run.last.Load? ==> forall content :: KeepsUp(After(run), run.last.dataset, content))
  }

  lemma KeepsUpWithAllIff(s: State, dataset: string)
    requires dataset in s.cache
    ensures (forall content :: KeepsUp(s, dataset, content)) <==> s.cache[dataset].version == s.cache[dataset].data
  {
    hide KeepsUp;
    forall content ensures KeepsUp(s, dataset, content) <==> NotMasked(s.cache, dataset, content) {
      KeepsUpIff(s, dataset, content);
    }
    assert NotMasked(s.cache, dataset, s.cache[dataset].version) ==> s.cache[dataset].version == s.cache[dataset].data;
  }

  /**
   Over whole runs: after every load the dataset keeps up with every file that may follow,
   if and only if every reload parsed what it hashed.
   */
  lemma {:induction false} AlwaysKeepsUpIff(run: Run<Event>)
    ensures AlwaysKeepsUp(run) <==> CleanReloads(run)
  {
    VersionsMatchIff(run);
    if run.Then? {
      AlwaysKeepsUpIff(run.before);
      VersionsMatchIff(run.before);
      hide KeepsUp;
      if run.last.Load? {
        KeepsUpWithAllIff(After(run), run.last.dataset);
      }
    }
  }

  // ---------------------------------------------------------------- the module's cache

  class DatasetCache {
    var cache: Cache

    constructor ()
      ensures cache == map[]
    {
      cache := map[];
    }

    method LoadFactors(dataset: string, now: int, r: Reads) returns (data: Result<Content>)
      modifies this
      ensures data.Ok? <==> dataset in DATASETS
      ensures data.Ok? ==>
                data.value == Served(old(cache), dataset, now, r) && cache == Loaded(old(cache), dataset, now, r)
      ensures data.Err? ==> cache == old(cache)
    {
      if dataset !in DATASETS {
        return Err;
      }
      if dataset in cache {
        var entry := cache[dataset];
        if now - entry.loadedAt < TTL {
          return Ok(entry.data);
        }
        if r.check == entry.version {
          cache := cache[dataset := Cached(entry.data, entry.version, now)];
          return Ok(entry.data);
        }
      }
      cache := cache[dataset := Cached(r.parse, r.hash, now)];
      data := Ok(r.parse);
    }

    method GetDatasetVersion(dataset: string, read: Content) returns (version: Result<Content>)
      ensures version == if dataset in DATASETS then Ok(Version(cache, dataset, read)) else Err
    {
      if dataset !in DATASETS {
        return Err;
      }
      version := Ok(if dataset in cache then cache[dataset].version else read);
    }

    method InvalidateCache(dataset: Option<string>)
      modifies this
      ensures dataset.None? ==> cache == map[]
      ensures dataset.Some? ==> cache == old(cache) - {dataset.value}
    {
      if dataset.None? {
        cache := map[];
      } else {
        cache := cache - {dataset.value};
      }
    }
  }
}
