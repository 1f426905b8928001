/** The shared Redis cache: string entries with a time to live, and the key families written to it. */
module Cache {
  import opened Prelude

  const SECOND := 1000
  const MINUTE := 60 * SECOND

  /** Who may write an entry: each family of keys has one writer in the services. */
  datatype CacheKey =
    | JobOwner(id: string)
    | JobStatus(id: string)
    | JobGif(id: string)
    | Uploading(id: string)
    | Blocklisted(id: string)

  function Prefix(k: CacheKey): string {
    match k
    case JobOwner(_) => "messaage_queue_owner:job_id:"
    case JobStatus(_) => "messaage_queue:job_id:"
    case JobGif(_) => "messaage_queue_gif:job_id:"
    case Uploading(_) => "uploading:"
    case Blocklisted(_) => "token_blocklist:"
  }

  function Rendered(k: CacheKey): string {
    Prefix(k) + k.id
  }

  /** Two different entries never share a key string, whatever characters the ids contain. */
  lemma RenderedIsInjective(k: CacheKey, k': CacheKey)
    requires Rendered(k) == Rendered(k')
    ensures k == k'
  {
    var r, r' := Rendered(k), Rendered(k');
    assert r[0] == Prefix(k)[0] && r'[0] == Prefix(k')[0];
    if k.JobOwner? || k.JobStatus? || k.JobGif? {
      assert r[14] == Prefix(k)[14] && r[15] == Prefix(k)[15];
      assert r'[14] == Prefix(k')[14] && r'[15] == Prefix(k')[15];
    }
    assert Prefix(k) == Prefix(k');
    assert k.id == r[|Prefix(k)|..] && k'.id == r'[|Prefix(k')|..];
  }

  /** A value and the last millisecond at which it is served. */
  datatype Entry = Entry(value: string, expireAt: int)

  type Entries = map<CacheKey, Entry>

  predicate IsLive(c: Entries, k: CacheKey, now: int) {
    k in c && now <= c[k].expireAt
  }

  function Put(c: Entries, k: CacheKey, value: string, expireAt: int, o: Outcome): Entries {
    if o.Lost? then c else c[k := Entry(value, expireAt)]
  }

  /** What a read reports: a value, a missing entry, or that the store could not be asked. */
  datatype Got = Hit(value: string) | Miss | Fault

  function Read(c: Entries, k: CacheKey, now: int, fault: bool): Got {
    if fault then Fault
    else if IsLive(c, k, now) then Hit(c[k].value)
    else Miss
  }

  /** An entry is read back until its last millisecond and not after, and a write leaves the other entries alone. */
  lemma WhatWasPutIsRead(
    c: Entries, k: CacheKey, value: string, expireAt: int, o: Outcome, k': CacheKey, now: int, fault: bool)
    ensures var got := Read(Put(c, k, value, expireAt, o), k', now, fault);
      && (got.Fault? <==> fault)
      && (k' == k && !o.Lost? && !fault ==> got == if now <= expireAt then Hit(value) else Miss)
      && (k' != k || o.Lost? ==> got == Read(c, k', now, fault))
  {
  }

  class RedisCache {
    var strings: map<string, Entry>
    ghost var entries: Entries

    ghost predicate Valid()
      reads this
    {
      forall k: CacheKey ::
        && (k in entries <==> Rendered(k) in strings)
        && (k in entries ==> strings[Rendered(k)] == entries[k])
    }

    constructor ()
      ensures Valid() && entries == map[]
    {
      strings, entries := map[], map[];
    }

    /** Replaces the entry of `k`, and of no other key, with a fresh time to live. */
    method Set(k: CacheKey, value: string, ttl: int, now: int, o: Outcome) returns (ok: bool)
      requires Valid()
      modifies this
      ensures Valid() && entries == Put(old(entries), k, value, now + ttl, o)
      ensures ok <==> o.Done?
    {
      ok := o.Done?;
      if !o.Lost? {
        var key := Rendered(k);
        strings := strings[key := Entry(value, now + ttl)];
        entries := entries[k := Entry(value, now + ttl)];
        forall k': CacheKey | k' != k
          ensures Rendered(k') != key
        {
          if Rendered(k') == key {
            RenderedIsInjective(k', k);
          }
        }
      }
    }

    method Get(k: CacheKey, now: int, fault: bool) returns (got: Got)
      requires Valid()
      ensures got == Read(entries, k, now, fault)
    {
      var key := Rendered(k);
      if fault {
        got := Fault;
      } else if key in strings && now <= strings[key].expireAt {
        got := Hit(strings[key].value);
      } else {
        got := Miss;
      }
    }
  }
}
