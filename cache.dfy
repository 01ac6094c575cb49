/** The time-boxed cache of fetched data. Each entry lives in its own file of the
    cache directory, named after its namespace and key, and holds the time it was
    written together with the payload. The directory is modelled as a map from
    file name to the JSON document in that file. */
module Cache {
  import opened JsonValues

  /** Entries older than this many seconds are treated as absent. */
  const CacheExpiry: int := 30 * 60

  /** The namespaces the fetch procedures store under. */
  const Namespaces: seq<string> := ["city", "index", "weather", "forecast"]

  /** Name of the file holding the entry for `key` in namespace `cacheType`. */
  function CachePath(key: string, cacheType: string): (p: string)
    ensures |p| == |cacheType| + 1 + |key| + 5
    ensures p[..|cacheType|] == cacheType && p[|cacheType|] == '_'
    ensures p[|cacheType| + 1..|p| - 5] == key && p[|p| - 5..] == ".json"
  {
    cacheType + "_" + key + ".json"
  }

  /** The document written for a payload stored at time `now`. */
  function EntryRecord(now: int, data: Json): Json {
    JObj(map["timestamp" := JNum(now), "data" := data])
  }

  /** The file holds a usable timestamp and `now` is at most CacheExpiry past it. */
  predicate Unexpired(content: Json, now: int) {
    var ts := Field(content, "timestamp");
    ts.Some? && AsNumber(ts.value).Some? && now - AsNumber(ts.value).value <= CacheExpiry
  }

  /** What a read of a file with this content yields at time `now`: the payload of
      an unexpired, well-formed entry. A document that is not an object, lacks one
      of the two keys or has a timestamp that is not a number raises inside the
      read and is caught there, so it reads as absent. */
  function ReadEntry(content: Json, now: int): Option<Json> {
    match Field(content, "timestamp")
    case None => None
    case Some(ts) =>
      match AsNumber(ts)
      case None => None
      case Some(t) =>
        if now - t > CacheExpiry then None
        else Field(content, "data")
  }

  /** The payload a read of file `path` yields at time `now`. */
  function Lookup(files: map<string, Json>, path: string, now: int): Option<Json> {
    if path !in files then None else ReadEntry(files[path], now)
  }

  /** The directory after storing `data` for (key, cacheType) at time `now`. */
  function Saved(files: map<string, Json>, key: string, cacheType: string, data: Json, now: int): map<string, Json> {
    files[CachePath(key, cacheType) := EntryRecord(now, data)]
  }

  /** The directory after a fetch that decided to store `stored` (or nothing). */
  function Store(files: map<string, Json>, key: string, cacheType: string, stored: Option<Json>, now: int): map<string, Json> {
    if stored.Some? then Saved(files, key, cacheType, stored.value, now) else files
  }

  class CacheManager {
    /** Content of each file of the cache directory, by file name. */
    var files: map<string, Json>

    /** An empty cache directory. */
    constructor ()
      ensures files == map[]
    {
      files := map[];
    }

    /** Replaces the whole entry for (key, cacheType) by `data` stamped `now`. */
    method SaveToCache(key: string, data: Json, cacheType: string, now: int)
      modifies this
      ensures files == Saved(old(files), key, cacheType, data, now)
      ensures forall p :: p != CachePath(key, cacheType) && p in old(files) ==> p in files && files[p] == old(files)[p]
    {
      var cachePath := CachePath(key, cacheType);
      var cacheData := EntryRecord(now, data);
      files := files[cachePath := cacheData];
    }

    /** The cached payload for (key, cacheType) at time `now`, if there is one. */
    method GetFromCache(key: string, cacheType: string, now: int) returns (r: Option<Json>)
      ensures r == Lookup(files, CachePath(key, cacheType), now)
      ensures r.Some? <==> (CachePath(key, cacheType) in files
                            && Unexpired(files[CachePath(key, cacheType)], now)
                            && Field(files[CachePath(key, cacheType)], "data").Some?)
      ensures r.Some? ==> r == Field(files[CachePath(key, cacheType)], "data")
    {
      var cachePath := CachePath(key, cacheType);
      if cachePath !in files {
        return None;
      }
      var cacheData := files[cachePath];
      var ts := Field(cacheData, "timestamp");
      if ts.None? || AsNumber(ts.value).None? {
        return None;
      }
      if now - AsNumber(ts.value).value > CacheExpiry {
        return None;
      }
      r := Field(cacheData, "data");
    }
  }

  /** A read within CacheExpiry seconds of a write returns exactly what was written. */
  lemma ReadAfterSave(files: map<string, Json>, key: string, cacheType: string, data: Json, written: int, now: int)
    requires now - written <= CacheExpiry
    ensures Lookup(Saved(files, key, cacheType, data, written), CachePath(key, cacheType), now) == Some(data)
  {
  }

  /** A read more than CacheExpiry seconds after the write finds nothing. */
  lemma ReadAfterExpiry(files: map<string, Json>, key: string, cacheType: string, data: Json, written: int, now: int)
    requires now - written > CacheExpiry
    ensures Lookup(Saved(files, key, cacheType, data, written), CachePath(key, cacheType), now) == None
  {
  }

  /** A second write to the same entry replaces payload and timestamp entirely. */
  lemma SaveOverwrites(files: map<string, Json>, key: string, cacheType: string, d1: Json, t1: int, d2: Json, t2: int)
    ensures Saved(Saved(files, key, cacheType, d1, t1), key, cacheType, d2, t2) == Saved(files, key, cacheType, d2, t2)
  {
  }

  /** Within one namespace, distinct keys have distinct files. */
  lemma CachePathInjective(k1: string, k2: string, cacheType: string)
    requires CachePath(k1, cacheType) == CachePath(k2, cacheType)
    ensures k1 == k2
  {
    var p := CachePath(k1, cacheType);
    var n := |cacheType| + 1;
    assert |k1| == |k2|;
    assert p[n..n + |k1|] == k1 by {
      assert p == (cacheType + "_") + (k1 + ".json");
    }
    assert p[n..n + |k2|] == k2 by {
      assert p == (cacheType + "_") + (k2 + ".json");
    }
  }

  /** Files of two different namespaces in use never coincide. */
  lemma NamespacesDisjoint(k1: string, t1: string, k2: string, t2: string)
    requires t1 in Namespaces && t2 in Namespaces && t1 != t2
    ensures CachePath(k1, t1) != CachePath(k2, t2)
  {
    assert CachePath(k1, t1)[0] == t1[0];
    assert CachePath(k2, t2)[0] == t2[0];
  }

  /** The file-name rule by itself is not injective across arbitrary namespaces,
      which is why the frame lemma below restricts namespaces to those in use. */
  lemma PathRuleCollides()
    ensures CachePath("b_c", "a") == CachePath("c", "a_b")
  {
  }

  /** Storing one entry leaves every other entry of the namespaces in use as it was. */
  lemma SaveLeavesOthers(files: map<string, Json>, k1: string, t1: string, d: Json, written: int,
                         k2: string, t2: string, now: int)
    requires t1 in Namespaces && t2 in Namespaces
    requires (k1, t1) != (k2, t2)
    ensures Lookup(Saved(files, k1, t1, d, written), CachePath(k2, t2), now) == Lookup(files, CachePath(k2, t2), now)
  {
    if t1 == t2 {
      if CachePath(k1, t1) == CachePath(k2, t2) {
        CachePathInjective(k1, k2, t1);
      }
    } else {
      NamespacesDisjoint(k1, t1, k2, t2);
    }
  }
}
