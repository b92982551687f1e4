/** The Redis client of the list cache, one call at a time. */
module CacheClient {
  import opened Text
  import opened Model
  import opened Lists
  import opened CacheKeys
  import opened CacheProtocol

  /** INCR of each counter in turn. */
  function Bumped(entries: map<string, Entry>, tenant: Id, resources: seq<Resource>): map<string, Entry>
    decreases resources
  {
    if resources == [] then entries
    else Bumped(Incremented(entries, VersionKey(tenant, resources[0])), tenant, resources[1..])
  }

  lemma BumpedOne(entries: map<string, Entry>, tenant: Id, a: Resource)
    ensures Bumped(entries, tenant, [a]) == Incremented(entries, VersionKey(tenant, a))
  {
    assert [a][1..] == [];
    assert Bumped(Incremented(entries, VersionKey(tenant, a)), tenant, [])
        == Incremented(entries, VersionKey(tenant, a));
  }

  lemma BumpedTwo(entries: map<string, Entry>, tenant: Id, a: Resource, b: Resource)
    ensures Bumped(entries, tenant, [a, b])
              == Incremented(Incremented(entries, VersionKey(tenant, a)), VersionKey(tenant, b))
  {
    assert [a, b][1..] == [b];
    BumpedOne(Incremented(entries, VersionKey(tenant, a)), tenant, b);
  }

  /** A missing version counter is created as 1. */
  function CurrentVersion(entries: map<string, Entry>, key: string): (map<string, Entry>, nat) {
    if key !in entries then (entries[key := Counter(1)], 1)
    else (entries, if entries[key].Counter? then entries[key].n else 1)
  }

  /** Parts put together left to right, a colon in front of all but the first. */
  method Join(parts: seq<string>) returns (result: string)
    ensures result == Joined(parts)
  {
    result := "";
    for index := 0 to |parts|
      invariant result == Joined(parts[..index])
    {
      assert parts[..index + 1] == parts[..index] + [parts[index]];
      if index > 0 {
        JoinedSnoc(parts[..index], parts[index]);
        result := result + ":";
      }
      result := result + parts[index];
    }
    assert parts[..|parts|] == parts;
  }

  class Client {
    var entries: map<string, Entry>

    method Key(parts: seq<string>) returns (key: string)
      ensures key == CacheKeys.Key(parts)
    {
      var joined := Join(parts);
      key := "sociomile:" + joined;
    }

    method Version(tenant: Id, resource: Resource) returns (version: nat)
      modifies this
      ensures (entries, version) == CurrentVersion(old(entries), VersionKey(tenant, resource))
    {
      var key := Key(["tenant", tenant, resource.Text(), "version"]);
      if key !in entries {
        entries := entries[key := Counter(1)];
        return 1;
      }
      if !entries[key].Counter? { return 1; }
      version := entries[key].n;
    }

    method BumpVersion(tenant: Id, resource: Resource)
      modifies this
      ensures entries == Incremented(old(entries), VersionKey(tenant, resource))
      ensures var key := VersionKey(tenant, resource);
              && key in entries
                   && (forall k :: k in old(entries) && k != key ==> k in entries && entries[k] == old(entries[k]))
              && (key !in old(entries) ==> entries[key] == Counter(1))
              && (key in old(entries) && old(entries[key]).Counter? ==>
                   entries[key] == Counter(old(entries[key]).n + 1))
    {
      var key := Key(["tenant", tenant, resource.Text(), "version"]);
      if key in entries {
        if entries[key].Counter? {
          entries := entries[key := Counter(entries[key].n + 1)];
        }
      } else {
        entries := entries[key := Counter(1)];
      }
    }

    /** A counter does not decode as a page. */
    method GetJSON(key: string) returns (hit: Option<Entry>)
      ensures hit.Some? <==> key in entries && entries[key].CachedPage?
      ensures hit.Some? ==> hit.value == entries[key]
    {
      hit := if key in entries && entries[key].CachedPage? then Some(entries[key]) else None;
    }

    method SetJSON(key: string, rows: seq<Row>, total: nat)
      modifies this
      ensures entries == old(entries)[key := CachedPage(rows, total)]
    {
      entries := entries[key := CachedPage(rows, total)];
    }
  }
}
