/** src/cache.rs: a table of file texts keyed by path, each with an
    occurrence count that starts at 1. Entries are put once; a mutable
    handle to one entry can be taken afterwards. */
module Caches {
  import opened Errors

  datatype CacheEntry = CacheEntry(text: string, occured: nat)

  /** `CacheEntry::new`. */
  function NewEntry(text: string): (e: CacheEntry)
    ensures e.text == text && e.occured == 1
  {
    CacheEntry(text, 1)
  }

  class Cache {
    var entries: map<Path, CacheEntry>

    constructor()
      ensures entries == map[]
    {
      entries := map[];
    }

    /** `put`: a new entry with count 1, or AlreadyExists with the table unchanged. */
    method Put(path: Path, text: string) returns (r: Result<()>)
      modifies this
      ensures path in old(entries) ==> r == Err(Fail(AlreadyExists)) && entries == old(entries)
      ensures path !in old(entries) ==> r == Ok(()) && entries == old(entries)[path := NewEntry(text)]
    {
      if path in entries {
        r := Err(Fail(AlreadyExists));
      } else {
        entries := entries[path := NewEntry(text)];
        r := Ok(());
      }
    }

    /** `get`: the stored entry, if any. */
    function Get(path: Path): (r: Option<CacheEntry>)
      reads this
      ensures r.Some? <==> path in entries
      ensures r.Some? ==> r.value == entries[path]
    {
      if path in entries then Some(entries[path]) else None
    }

    /** `get_mut` followed by a write through the handle: only the entry of
        `path` can change, and only when it is stored. */
    method GetMut(path: Path, update: CacheEntry -> CacheEntry) returns (found: bool)
      modifies this
      ensures found <==> path in old(entries)
      ensures found ==> entries == old(entries)[path := update(old(entries)[path])]
      ensures !found ==> entries == old(entries)
    {
      found := path in entries;
      if found {
        entries := entries[path := update(entries[path])];
      }
    }
  }

  /** After a successful `put`, `get` sees the text with a count of 1, and a
      second `put` on the same path fails without touching it. */
  method PutThenGet(c: Cache, path: Path, text: string, other: string) returns (first: Result<()>, second: Result<()>)
    requires path !in c.entries
    modifies c
    ensures first == Ok(()) && second == Err(Fail(AlreadyExists))
    ensures c.Get(path) == Some(CacheEntry(text, 1))
  {
    first := c.Put(path, text);
    second := c.Put(path, other);
  }
}
