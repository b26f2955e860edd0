/** One connection's subscriptions, keyed by the dump of the client-assigned id. */
module SubscriptionTables {
  import opened Prelude

  datatype Entry = Entry(name: string, event: string, owner: nat)
  type Table = map<string, Entry>
  datatype Claim = Fresh | Duplicate | Full

  function ClaimOf(t: Table, key: string, limit: nat): Claim {
    if key in t then Duplicate else if |t| >= limit then Full else Fresh
  }

  function Claimed(t: Table, key: string, e: Entry, limit: nat): Table {
    if ClaimOf(t, key, limit).Fresh? then t[key := e] else t
  }

  /** Freed only while `owner` still holds it. */
  function Released(t: Table, key: string, owner: nat): Table {
    if key in t && t[key].owner == owner then t - {key} else t
  }

  function Taken(t: Table, key: string): Table {
    t - {key}
  }

  class SubscriptionTable {
    var entries: Table

    constructor ()
      ensures entries == map[]
    {
      entries := map[];
    }

    method TryClaim(key: string, name: string, event: string, owner: nat, limit: nat) returns (c: Claim)
      modifies this
      ensures c == ClaimOf(old(entries), key, limit)
      ensures entries == Claimed(old(entries), key, Entry(name, event, owner), limit)
    {
      if key in entries {
        return Duplicate;
      }
      if |entries| >= limit {
        return Full;
      }
      entries := entries[key := Entry(name, event, owner)];
      return Fresh;
    }

    method Release(key: string, owner: nat) returns (freed: bool)
      modifies this
      ensures entries == Released(old(entries), key, owner)
      ensures freed == (key in old(entries) && old(entries)[key].owner == owner)
    {
      if key !in entries || entries[key].owner != owner {
        return false;
      }
      entries := entries - {key};
      return true;
    }

    method Take(key: string) returns (held: Option<Entry>)
      modifies this
      ensures entries == Taken(old(entries), key)
      ensures held == if key in old(entries) then Some(old(entries)[key]) else None
    {
      if key !in entries {
        assert entries - {key} == entries;
        return None;
      }
      held := Some(entries[key]);
      entries := entries - {key};
    }
  }

  /** The table never grows past its limit, and claiming what is held is idempotent at the limit too. */
  lemma ClaimKeepsLimit(t: Table, key: string, e: Entry, limit: nat)
    requires |t| <= limit
    ensures |Claimed(t, key, e, limit)| <= limit
    ensures key in t ==> ClaimOf(t, key, limit) == Duplicate && Claimed(t, key, e, limit) == t
    ensures ClaimOf(t, key, limit).Fresh? ==> Released(Claimed(t, key, e, limit), key, e.owner) == t
  {
    if ClaimOf(t, key, limit).Fresh? {
      assert t[key := e] - {key} == t;
      assert t[key := e].Keys == t.Keys + {key};
    }
  }
}
