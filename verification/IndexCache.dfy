/**
 The workspace index: a content-hash cache and per-file symbol lists, refreshed incrementally.
 Hashing and parsing are parameters; a workspace maps each scanned file to its content, or to nothing when
 it cannot be read.
 */
module IndexCache {
  import opened Results

  datatype Path = Path(name: string)

  datatype Content = Content(text: string)

  datatype Symbol = Symbol(path: string)

  datatype FileCache = FileCache(contentHash: nat, symbols: seq<Symbol>)

  datatype Tools = Tools(
    hash: Content -> nat,
    supported: Path -> bool,
    parse: (Path, Content) -> Option<seq<Symbol>>)

  type Cache = map<Path, FileCache>

  type Workspace = map<Path, Option<Content>>

  /** The scan only lists files of supported languages. */
  predicate Scanned(t: Tools, ws: Workspace) {
    forall p | p in ws :: t.supported(p)
  }

  /** The entry a refresh computes for a scanned file: none if it is unreadable, unchanged, or does not parse. */
  function Reindexed(t: Tools, cache: Cache, p: Path, read: Option<Content>): Option<FileCache> {
    match read
    case None => None
    case Some(content) =>
      if p in cache && cache[p].contentHash == t.hash(content) then None
      else
        match t.parse(p, content)
        case None => None
        case Some(symbols) => Some(FileCache(t.hash(content), symbols))
  }

  /** The entry after a refresh: the recomputed one, or the cached one. */
  function Settled(t: Tools, cache: Cache, p: Path, read: Option<Content>): Option<FileCache> {
    match Reindexed(t, cache, p, read)
    case Some(entry) => Some(entry)
    case None => if p in cache then Some(cache[p]) else None
  }

  function Refreshed(t: Tools, cache: Cache, ws: Workspace): Cache {
    map p | p in ws && Settled(t, cache, p, ws[p]).Some? :: Settled(t, cache, p, ws[p]).value
  }

  function Rebuilt(t: Tools, ws: Workspace): Cache {
    Refreshed(t, map[], ws)
  }

  /** Every cached entry is what some content of its file gives. */
  ghost predicate Sound(t: Tools, cache: Cache) {
    forall p | p in cache && t.supported(p) :: SoundEntry(t, p, cache[p])
  }

  ghost predicate SoundEntry(t: Tools, p: Path, entry: FileCache) {
    exists content :: t.hash(content) == entry.contentHash && t.parse(p, content) == Some(entry.symbols)
  }

  ghost predicate CollisionFree(t: Tools) {
    forall c, d :: t.hash(c) == t.hash(d) ==> c == d
  }

  predicate Indexable(t: Tools, p: Path, read: Option<Content>) {
    read.Some? && t.parse(p, read.value).Some?
  }

  lemma RefreshKeepsSound(t: Tools, cache: Cache, ws: Workspace)
    requires Sound(t, cache)
    ensures Sound(t, Refreshed(t, cache, ws))
  {
    forall p | p in Refreshed(t, cache, ws) && t.supported(p)
      ensures SoundEntry(t, p, Refreshed(t, cache, ws)[p])
    {
      if Reindexed(t, cache, p, ws[p]).None? {
        assert SoundEntry(t, p, cache[p]);
      }
    }
  }

  /** An incremental refresh equals a rebuild from nothing exactly when every scanned file that has a cached
      entry can be read and parsed now. */
  lemma RefreshIsRebuildIff(t: Tools, cache: Cache, ws: Workspace)
    requires CollisionFree(t) && Sound(t, cache) && Scanned(t, ws)
    ensures Refreshed(t, cache, ws) == Rebuilt(t, ws) <==>
            forall p | p in ws && p in cache :: Indexable(t, p, ws[p])
  {
    var incremental, full := Refreshed(t, cache, ws), Rebuilt(t, ws);
    forall p | p in ws
      ensures p !in cache || Indexable(t, p, ws[p]) ==>
                Settled(t, cache, p, ws[p]) == Settled(t, map[], p, ws[p])
      ensures p in cache && !Indexable(t, p, ws[p]) ==> p in incremental && p !in full
    {
      if p in cache {
        assert SoundEntry(t, p, cache[p]);
      }
    }
  }

  /** What happens to a cache: a scan, or the update of one file. */
  datatype Change = Scan(ws: Workspace) | Update(p: Path, content: Content, stored: bool)

  function Changed(t: Tools, cache: Cache, change: Change): Cache {
    match change
    case Scan(ws) => Refreshed(t, cache, ws)
    case Update(p, content, stored) => Updated(t, cache, p, content, stored)
  }

  function Updated(t: Tools, cache: Cache, p: Path, content: Content, stored: bool): Cache {
    if Unchanged(t, cache, p, content) || UpdateFails(t, cache, p, content) || !stored then cache
    else cache[p := FileCache(t.hash(content), SymbolsIn(t, p, content))]
  }

  lemma UpdateKeepsSound(t: Tools, cache: Cache, p: Path, content: Content, stored: bool)
    requires Sound(t, cache)
    ensures Sound(t, Updated(t, cache, p, content, stored))
  {
    var after := Updated(t, cache, p, content, stored);
    forall q | q in after && t.supported(q)
      ensures SoundEntry(t, q, after[q])
    {
      if after != cache && q == p {
        assert t.hash(content) == after[q].contentHash && t.parse(q, content) == Some(after[q].symbols);
      } else {
        assert SoundEntry(t, q, cache[q]);
      }
    }
  }

  function History(t: Tools, changes: seq<Change>): Cache {
    if changes == [] then map[]
    else Changed(t, History(t, changes[..|changes| - 1]), changes[|changes| - 1])
  }

  lemma {:induction false} HistorySound(t: Tools, changes: seq<Change>)
    ensures Sound(t, History(t, changes))
  {
    if changes != [] {
      var before, last := History(t, changes[..|changes| - 1]), changes[|changes| - 1];
      HistorySound(t, changes[..|changes| - 1]);
      match last
      case Scan(ws) => RefreshKeepsSound(t, before, ws);
      case Update(p, content, stored) => UpdateKeepsSound(t, before, p, content, stored);
    }
  }

  /** After any history of scans and updates, whatever failed in between, a scan whose files can all be read and
      parsed leaves the cache a full rebuild would. */
  lemma AnyHistoryThenCleanScanIsRebuild(t: Tools, changes: seq<Change>, last: Workspace)
    requires CollisionFree(t) && Scanned(t, last) && forall p | p in last :: Indexable(t, p, last[p])
    ensures History(t, changes + [Scan(last)]) == Rebuilt(t, last)
  {
    assert (changes + [Scan(last)])[..|changes|] == changes;
    HistorySound(t, changes);
    RefreshIsRebuildIff(t, History(t, changes), last);
  }

  // ----- the manager -----

  /** What the index answers for a file it may not hold. */
  function SymbolsFor(files: map<Path, seq<Symbol>>, p: Path): seq<Symbol> {
    if p in files then files[p] else []
  }

  predicate AgreeAt(files: map<Path, seq<Symbol>>, cache: Cache, p: Path) {
    SymbolsFor(files, p) == if p in cache then cache[p].symbols else []
  }

  /** The index answers what the cache would have it answer. */
  ghost predicate Agree(files: map<Path, seq<Symbol>>, cache: Cache) {
    forall p :: AgreeAt(files, cache, p)
  }

  predicate Vanished(cache: Cache, ws: Workspace, p: Path) {
    p in cache && p !in ws
  }

  predicate Touched(t: Tools, cache: Cache, ws: Workspace, p: Path) {
    p in ws && Reindexed(t, cache, p, ws[p]).Some?
  }

  /** What the index answers for a file after a scan: its new symbols if it was re-indexed, none if it
      vanished, and otherwise whatever it answered before, right or wrong. */
  function Answered(t: Tools, files: map<Path, seq<Symbol>>, cache: Cache, ws: Workspace, p: Path): seq<Symbol> {
    if Touched(t, cache, ws, p) then Reindexed(t, cache, p, ws[p]).value.symbols
    else if Vanished(cache, ws, p) then []
    else SymbolsFor(files, p)
  }

  /** A scan puts a file right exactly when it re-indexes it or finds it gone; every other file agrees with its
      cached entry afterwards exactly when it did before. */
  lemma ScanAgreesIff(t: Tools, files: map<Path, seq<Symbol>>, cache: Cache, ws: Workspace,
                      files': map<Path, seq<Symbol>>)
    requires forall p :: SymbolsFor(files', p) == Answered(t, files, cache, ws, p)
    ensures forall p :: AgreeAt(files', Refreshed(t, cache, ws), p)
              <==> Touched(t, cache, ws, p) || Vanished(cache, ws, p) || AgreeAt(files, cache, p)
  {
    forall p
      ensures AgreeAt(files', Refreshed(t, cache, ws), p)
        <==> Touched(t, cache, ws, p) || Vanished(cache, ws, p) || AgreeAt(files, cache, p)
    {
      assert SymbolsFor(files', p) == Answered(t, files, cache, ws, p);
    }
  }

  /** Dropping what vanished and applying what was reindexed gives the refreshed cache. */
  lemma AppliedIsRefreshed(t: Tools, cache: Cache, ws: Workspace, kept: Cache, results: Cache)
    requires kept == map p | p in cache && p in ws :: cache[p]
    requires results.Keys == set p | p in ws && Reindexed(t, kept, p, ws[p]).Some?
    requires forall p | p in results :: Some(results[p]) == Reindexed(t, kept, p, ws[p])
    ensures kept + results == Refreshed(t, cache, ws)
    ensures results.Keys == set p | p in ws && Reindexed(t, cache, p, ws[p]).Some?
  {
    assert forall p | p in ws :: Reindexed(t, kept, p, ws[p]) == Reindexed(t, cache, p, ws[p]);
  }

  class IndexManager {
    const t: Tools
    var cache: Cache
    var files: map<Path, seq<Symbol>>

    /** Opens on a loaded cache and restores every file's symbols from it. */
    constructor (t: Tools, loaded: Cache)
      ensures this.t == t && cache == loaded && Agree(files, cache)
    {
      this.t := t;
      cache := loaded;
      files := map[];
      new;
      var paths := loaded.Keys;
      while paths != {}
        invariant paths <= loaded.Keys && cache == loaded
        invariant forall p :: SymbolsFor(files, p) == if p in loaded && p !in paths then loaded[p].symbols else []
        decreases paths
      {
        var p :| p in paths;
        files := files[p := loaded[p].symbols];
        paths := paths - {p};
      }
    }

    method IndexWorkspace(ws: Workspace) returns (indexed: nat)
      modifies this
      ensures cache == Refreshed(t, old(cache), ws)
      ensures forall p :: SymbolsFor(files, p) == Answered(t, old(files), old(cache), ws, p)
      ensures forall p :: AgreeAt(files, cache, p)
                <==> Touched(t, old(cache), ws, p) || Vanished(old(cache), ws, p) || AgreeAt(old(files), old(cache), p)
      ensures indexed == |set p | p in ws && Reindexed(t, old(cache), p, ws[p]).Some?|
    {
      DropVanished(ws.Keys);
      ghost var kept := cache;
      var results := ReindexChanged(ws);
      AppliedIsRefreshed(t, old(cache), ws, kept, results);
      forall p
        ensures SymbolsFor(files, p) == Answered(t, old(files), old(cache), ws, p)
      {
        assert p in ws ==> Reindexed(t, kept, p, ws[p]) == Reindexed(t, old(cache), p, ws[p]);
      }
      indexed := |results.Keys|;
      cache := cache + results;
      ScanAgreesIff(t, old(files), old(cache), ws, files);
    }

    /** Forgets, in cache and index alike, every cached file that is not among those present. */
    method DropVanished(present: set<Path>)
      modifies this
      ensures cache == (map p | p in old(cache) && p in present :: old(cache)[p])
      ensures forall p :: SymbolsFor(files, p)
                == if p in old(cache) && p !in present then [] else SymbolsFor(old(files), p)
    {
      var removed := set p | p in cache && p !in present;
      ghost var before, held := cache, files;
      while removed != {}
        invariant removed <= before.Keys && removed !! present
        invariant cache == map p | p in before && (p in present || p in removed) :: before[p]
        invariant forall p :: SymbolsFor(files, p)
                    == if p in before && p !in present && p !in removed then [] else SymbolsFor(held, p)
        decreases removed
      {
        var p :| p in removed;
        cache := cache - {p};
        files := files - {p};
        removed := removed - {p};
      }
    }

    /** Reads, hashes, parses and indexes every changed file, in any order, against the cache as it was. */
    method ReindexChanged(ws: Workspace) returns (results: Cache)
      modifies this`files
      ensures results.Keys == set p | p in ws && Reindexed(t, cache, p, ws[p]).Some?
      ensures forall p | p in results :: Some(results[p]) == Reindexed(t, cache, p, ws[p])
      ensures forall p :: SymbolsFor(files, p) == if p in results then results[p].symbols else SymbolsFor(old(files), p)
    {
      results := map[];
      var pending := ws.Keys;
      while pending != {}
        invariant pending <= ws.Keys
        invariant results.Keys == set p | p in ws && p !in pending && Reindexed(t, cache, p, ws[p]).Some?
        invariant forall p | p in results :: Some(results[p]) == Reindexed(t, cache, p, ws[p])
        invariant forall p :: SymbolsFor(files, p)
                    == if p in results then results[p].symbols else SymbolsFor(old(files), p)
        decreases pending
      {
        var p :| p in pending;
        pending := pending - {p};
        var entry := Reindexed(t, cache, p, ws[p]);
        if entry.Some? {
          files := files[p := entry.value.symbols];
          results := results[p := entry.value];
        }
      }
    }

    /** Re-indexes one file. An unchanged file is not looked at, so it agrees afterwards exactly when it did before. A
        file that does not parse is dropped from the index and the error reported, while its cached entry stays: it
        then agrees exactly when that entry has no symbols. `stored` says whether the full-text index, if there is one,
        takes the file: if not, the error leaves the new symbols in the index and the old entry in the cache, and they
        agree exactly when the symbols are the same. */
    method UpdateFile(p: Path, content: Content, stored: bool) returns (r: Result<bool, ()>)
      modifies this
      ensures r.Err? <==>
              UpdateFails(t, old(cache), p, content) || (!Unchanged(t, old(cache), p, content) && !stored)
      ensures r == Ok(false) <==> Unchanged(t, old(cache), p, content)
      ensures r != Ok(true) ==> cache == old(cache)
      ensures r == Ok(true) ==> cache == old(cache)[p := FileCache(t.hash(content), SymbolsIn(t, p, content))]
      ensures cache == Updated(t, old(cache), p, content, stored)
      ensures forall q | q != p :: SymbolsFor(files, q) == SymbolsFor(old(files), q)
      ensures forall q | q != p :: AgreeAt(files, cache, q) <==> AgreeAt(old(files), old(cache), q)
      ensures r != Ok(false) ==> SymbolsFor(files, p) == SymbolsIn(t, p, content)
      ensures AgreeAt(files, cache, p) <==>
              match r
              case Ok(true) => true
              case Ok(false) => AgreeAt(old(files), old(cache), p)
              case Err(_) => SymbolsIn(t, p, content) == if p in old(cache) then old(cache)[p].symbols else []
    {
      var hash := t.hash(content);
      if p in cache && cache[p].contentHash == hash {
        return Ok(false);
      }
      files := files - {p};
      var symbols: seq<Symbol> := [];
      if t.supported(p) {
        match t.parse(p, content) {
          case None =>
            return Err(());
          case Some(parsed) =>
            symbols := parsed;
            files := files[p := symbols];
        }
      }
      if !stored {
        return Err(());
      }
      cache := cache[p := FileCache(hash, symbols)];
      r := Ok(true);
    }

    /** An edit that does not parse, then put back: the next scan finds the content it has cached, skips the
        file, and its symbols stay missing from the index. */
    method EditAndPutBack(p: Path, broken: Content, good: Content, stored: bool, ws: Workspace)
      requires Agree(files, cache) && Unchanged(t, cache, p, good) && cache[p].symbols != []
      requires UpdateFails(t, cache, p, broken) && p in ws && ws[p] == Some(good)
      modifies this
      ensures p in cache && cache[p] == old(cache)[p] && cache[p].symbols != []
      ensures SymbolsFor(files, p) == [] && !Agree(files, cache)
    {
      var updated := UpdateFile(p, broken, stored);
      var indexed := IndexWorkspace(ws);
      assert !AgreeAt(files, cache, p);
    }
  }

  predicate Unchanged(t: Tools, cache: Cache, p: Path, content: Content) {
    p in cache && cache[p].contentHash == t.hash(content)
  }

  /** The symbols an update finds: none in a file of no supported language, or one that does not parse. */
  function SymbolsIn(t: Tools, p: Path, content: Content): seq<Symbol> {
    if t.supported(p) && t.parse(p, content).Some? then t.parse(p, content).value else []
  }

  predicate UpdateFails(t: Tools, cache: Cache, p: Path, content: Content) {
    && !Unchanged(t, cache, p, content)
    && t.supported(p) && t.parse(p, content).None?
  }
}
