/**
 * The memory store as it runs: an object whose fields are the directories and
 * the cache.  Each call does to them exactly what the function of MemoryStore
 * named in its contract says.
 */
module MemoryService {
  import opened Basics
  import opened BoundedRecall
  import opened MemoryStore

  class ContextMemory {
    var objects: map<string, Sealed<ObjectBody>>
    var bindings: seq<BindingFile>
    var cache: map<CacheKey, seq<Item>>

    function Contents(): Memory
      reads this
    {
      Memory(Store(objects, bindings), cache)
    }

    constructor ()
      ensures Contents() == Memory(Store(map[], []), map[])
    {
      objects, bindings, cache := map[], [], map[];
    }

    method LocalItems(role: string, query: string) returns (items: seq<Item>)
      ensures items == MemoryStore.LocalItems(Contents().store, role, query)
    {
      var ranked: seq<Item> := [];
      var seen: set<string> := {};
      var i := 0;
      while i < |bindings|
        invariant 0 <= i <= |bindings|
        invariant ranked + Collect(bindings[i..], role, query, objects, seen)
                  == Collect(bindings, role, query, objects, {})
      {
        var file := bindings[i];
        ghost var rest := bindings[i..];
        assert rest[0] == file && rest[1..] == bindings[i + 1..];
        i := i + 1;
        if file.record.body.sha256 !in seen && Relevant(file, role, query, objects) {
          ghost var more := Collect(bindings[i..], role, query, objects, seen + {file.record.body.sha256});
          assert ranked + ([ItemOf(file.record.body)] + more) == ranked + [ItemOf(file.record.body)] + more;
          ranked := ranked + [ItemOf(file.record.body)];
          seen := seen + {file.record.body.sha256};
        }
      }
      assert ranked + [] == ranked;
      return Rank(ranked, query);
    }

    method EvictRole(role: string)
      modifies this`cache
      ensures cache == Evict(old(cache), role)
    {
      var keys := cache.Keys;
      while keys != {}
        invariant keys <= cache.Keys <= old(cache).Keys
        invariant forall key :: key in cache ==> cache[key] == old(cache)[key]
        invariant forall key :: key in old(cache) && key.role != role ==> key in cache
        invariant forall key :: key in cache && key.role == role ==> key in keys
        decreases |keys|
      {
        var key :| key in keys;
        if key.role == role {
          cache := cache - {key};
        }
        keys := keys - {key};
      }
      assert cache == Evict(old(cache), role);
    }

    method CommitLongTerm(r: Reference, a: Approval, structured: bool, writes: nat) returns (status: Reply<WriteStatus>)
      modifies this
      ensures (Contents(), status) == Commit(old(Contents()), r, a, structured, writes)
    {
      var fault := CommitFault(r, a, structured);
      if fault.Some? {
        return Err(fault.value);
      }
      if writes == 0 {
        cache := map[];
        return Err(Stopped);
      }
      var record := Seal(ObjectBody(r.sha256));
      if r.sha256 !in objects {
        objects := objects[r.sha256 := record];
      } else if objects[r.sha256] != record {
        return Err(Collision);
      }
      if writes == 1 {
        cache := map[];
        return Err(Stopped);
      }
      var file := BindingOf(r, a);
      var n := PathIndex(bindings, file.path);
      status := Ok(DedupHit);
      if n == |bindings| || bindings[n].path != file.path {
        bindings := bindings[..n] + [file] + bindings[n..];
        status := Ok(Stored);
      } else if bindings[n] != file {
        return Err(Collision);
      }
      EvictRole(r.role);
    }

    method Lookup(runId: string, role: string, query: string, budget: MemoryBudget) returns (r: Reply<Answer>)
      modifies this`cache
      ensures (Contents(), r) == MemoryStore.Lookup(old(Contents()), runId, role, query, budget)
    {
      var fault := LookupFault(runId, role, query);
      if fault.Some? {
        return Err(fault.value);
      }
      var key := CacheKey(Strip(runId), Strip(role), Sha256(Strip(query)), budget);
      var items, hit := [], key in cache;
      if hit {
        items := cache[key];
      } else {
        items := LocalItems(Strip(role), Strip(query));
        var packed, _, _ := BoundedItems(items, budget);
        cache := cache[key := packed];
        items := packed;
      }
      var bounded, characters, tokens := BoundedItems(items, budget);
      return Ok(Answer(bounded, hit, characters, tokens));
    }
  }
}
