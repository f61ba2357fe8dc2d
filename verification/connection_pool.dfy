/** The direct client's connection pool: at most three broker connections,
    keyed by `url-clientId`, kept in insertion order. A connected entry is
    reused, a dead one is ended and replaced, and when the pool is full the
    oldest entry is ended and evicted before a new connection is stored.
    Opening a connection is foreign code: its outcome is a parameter. */
module ConnectionPool {
  import opened Wrappers

  /** A broker connection, identified by `id`, and whether it is connected. */
  datatype Client = Client(id: nat, connected: bool)

  datatype Entry = Entry(key: string, client: Client)

  /** The pool in insertion order (a JavaScript `Map` iterates that way). */
  type Pool = seq<Entry>

  const MaxConnections: nat := 3

  /** The key the pool files a connection under. */
  function Key(url: string, clientId: string): (k: string)
    ensures |k| == |url| + 1 + |clientId| && k[|url|] == '-'
    ensures k[..|url|] == url && k[|url| + 1..] == clientId
  {
    url + "-" + clientId
  }

  /** A `Map` holds each key once. */
  predicate DistinctKeys(p: Pool) {
    forall i, j | 0 <= i < j < |p| :: p[i].key != p[j].key
  }

  /** `Map.get`: the client filed under `key`, if any. */
  function Find(p: Pool, key: string): (r: Option<Client>)
    ensures r.Some? ==> Entry(key, r.value) in p
    ensures r.None? ==> forall i | 0 <= i < |p| :: p[i].key != key
  {
    if p == [] then None
    else if p[0].key == key then Some(p[0].client)
    else Find(p[1..], key)
  }

  /** In a pool with distinct keys an entry is found exactly under its key. */
  lemma {:induction false} FindDistinct(p: Pool, key: string, c: Client)
    requires DistinctKeys(p)
    ensures Find(p, key) == Some(c) <==> Entry(key, c) in p
  {
    if p != [] {
      TailDistinct(p);
      FindDistinct(p[1..], key, c);
    }
  }

  lemma TailDistinct(p: Pool)
    requires DistinctKeys(p) && p != []
    ensures DistinctKeys(p[1..])
  {
    var tail := p[1..];
    forall i, j | 0 <= i < j < |tail| ensures tail[i].key != tail[j].key {
      assert tail[i] == p[i + 1] && tail[j] == p[j + 1];
    }
  }

  lemma ConsDistinct(e: Entry, rest: Pool)
    requires DistinctKeys(rest) && forall i | 0 <= i < |rest| :: rest[i].key != e.key
    ensures DistinctKeys([e] + rest)
  {
    var q := [e] + rest;
    forall i, j | 0 <= i < j < |q| ensures q[i].key != q[j].key {
      assert q[j] == rest[j - 1];
      if i > 0 {
        assert q[i] == rest[i - 1];
      }
    }
  }

  /** `Map.delete`: drops the entries filed under `key`, keeping the order
      of the rest. */
  function Delete(p: Pool, key: string): (r: Pool)
    ensures |r| <= |p|
    ensures forall e :: e in r <==> e in p && e.key != key
    ensures Find(p, key).None? ==> r == p
  {
    if p == [] then []
    else if p[0].key == key then Delete(p[1..], key)
    else [p[0]] + Delete(p[1..], key)
  }

  /** After a delete the key is gone and every other key is found as before. */
  lemma {:induction false} DeleteFind(p: Pool, key: string, k: string)
    ensures Find(Delete(p, key), k) == if k == key then None else Find(p, k)
  {
    if p != [] {
      DeleteFind(p[1..], key, k);
    }
  }

  /** Deleting a present key from a map removes exactly one entry and keeps
      the keys distinct. */
  lemma {:induction false} DeleteDistinct(p: Pool, key: string)
    requires DistinctKeys(p)
    ensures DistinctKeys(Delete(p, key))
    ensures Find(p, key).Some? ==> |Delete(p, key)| == |p| - 1
  {
    if p != [] {
      var tail := p[1..];
      TailDistinct(p);
      DeleteDistinct(tail, key);
      if p[0].key == key {
        assert Find(tail, key).None?;
      } else {
        var rest := Delete(tail, key);
        forall i | 0 <= i < |rest| ensures rest[i].key != p[0].key {
          var e := rest[i];
          assert e in tail;
          var m :| 0 <= m < |tail| && tail[m] == e;
          assert p[m + 1] == e;
        }
        ConsDistinct(p[0], rest);
      }
    }
  }

  /** What one `getConnection` call leaves behind: the new pool, the value
      the call resolves or rejects with, and the clients it ended, in order. */
  datatype Lookup = Lookup(pool: Pool, result: Result<Client, string>, ended: seq<Client>)

  /** `getConnection(url, options)` for `key == Key(url, options.clientId)`;
      `created` is the outcome of opening a fresh connection, used only when
      no live one is filed under the key. */
  function GetConnection(p: Pool, key: string, created: Result<Client, string>): (r: Lookup)
    requires DistinctKeys(p)
    // reuse: a connected client under the key is returned and nothing changes
    ensures Find(p, key).Some? && Find(p, key).value.connected ==>
              r == Lookup(p, Success(Find(p, key).value), [])
    // otherwise the call resolves or rejects exactly as the opening did
    ensures !(Find(p, key).Some? && Find(p, key).value.connected) ==> r.result == created
    // a dead client under the key is ended before anything else
    ensures Find(p, key).Some? && !Find(p, key).value.connected ==>
              r.ended != [] && r.ended[0] == Find(p, key).value
    // the new key then maps to the new client, as the newest entry
    ensures created.Success? && !(Find(p, key).Some? && Find(p, key).value.connected) ==>
              Find(r.pool, key) == Some(created.value) && r.pool[|r.pool| - 1] == Entry(key, created.value)
    ensures created.Failure? && !(Find(p, key).Some? && Find(p, key).value.connected) ==>
              Find(r.pool, key).None?
    // bound and map shape
    ensures |p| <= MaxConnections ==> |r.pool| <= MaxConnections
    ensures DistinctKeys(r.pool)
    // every other key keeps its client, except the oldest key of a pool that
    // is still full once a dead client under `key` is dropped: that one is evicted
    ensures forall k | k != key ::
              Find(r.pool, k) == Find(p, k)
              || (var kept := Unreused(p, key); |kept| >= MaxConnections && k == kept[0].key && Find(r.pool, k).None?)
  {
    match Find(p, key)
    case Some(c) =>
      if c.connected then Lookup(p, Success(c), [])
      else
        DeleteDistinct(p, key);
        DeleteFind(p, key, key);
        assert forall k | k != key :: Find(Delete(p, key), k) == Find(p, k) by {
          forall k | k != key { DeleteFind(p, key, k); }
        }
        Replace(Delete(p, key), key, created, [c])
    case None => Replace(p, key, created, [])
  }

  /** The pool `getConnection` works on when it does not reuse a client: a
      dead client under `key` is dropped from it first. */
  function Unreused(p: Pool, key: string): Pool {
    if Find(p, key).Some? && !Find(p, key).value.connected then Delete(p, key) else p
  }

  /** The part of `getConnection` after the key is known to hold no live
      client: evict the oldest entry when full, then store the new client. */
  function Replace(p: Pool, key: string, created: Result<Client, string>, ended: seq<Client>): (r: Lookup)
    requires DistinctKeys(p) && Find(p, key).None?
    ensures r.result == created
    ensures |r.ended| >= |ended| && r.ended[..|ended|] == ended
    // full: the first-inserted entry is ended and no longer present
    ensures |p| >= MaxConnections ==> r.ended == ended + [p[0].client] && Find(r.pool, p[0].key).None?
    ensures |p| < MaxConnections ==> r.ended == ended
    ensures created.Success? ==> Find(r.pool, key) == Some(created.value) && r.pool[|r.pool| - 1] == Entry(key, created.value)
    ensures created.Failure? ==> Find(r.pool, key).None?
    ensures |p| <= MaxConnections ==> |r.pool| <= MaxConnections
    ensures DistinctKeys(r.pool)
    ensures forall k | k != key :: Find(r.pool, k) == Find(p, k) || (|p| >= MaxConnections && k == p[0].key)
  {
    var full := |p| >= MaxConnections;
    var kept := if full then Delete(p, p[0].key) else p;
    assert DistinctKeys(kept) && forall k :: Find(kept, k) == if full && k == p[0].key then None else Find(p, k) by {
      if full {
        DeleteDistinct(p, p[0].key);
        forall k { DeleteFind(p, p[0].key, k); }
      }
    }
    var ended' := if full then ended + [p[0].client] else ended;
    assert full ==> Find(p, p[0].key).Some?;
    match created
    case Success(c) =>
      var q := kept + [Entry(key, c)];
      FindAppend(kept, Entry(key, c));
      AppendDistinct(kept, Entry(key, c));
      Lookup(q, created, ended')
    case Failure(_) => Lookup(kept, created, ended')
  }

  lemma AppendDistinct(p: Pool, e: Entry)
    requires DistinctKeys(p) && Find(p, e.key).None?
    ensures DistinctKeys(p + [e])
  {
    var q := p + [e];
    forall i, j | 0 <= i < j < |q| ensures q[i].key != q[j].key {
      assert q[i] == p[i];
      if j < |p| {
        assert q[j] == p[j];
      }
    }
  }

  /** Appending an entry under a new key files it there and moves nothing. */
  lemma {:induction false} FindAppend(p: Pool, e: Entry)
    requires Find(p, e.key).None?
    ensures forall k :: Find(p + [e], k) == if k == e.key then Some(e.client) else Find(p, k)
  {
    if p != [] {
      assert (p + [e])[1..] == p[1..] + [e];
      FindAppend(p[1..], e);
    }
  }

  /** The pool after the broker connection `c` went offline: every entry
      holding it now holds it disconnected, and nothing else changes. */
  function MarkDead(p: Pool, c: Client): (r: Pool)
    ensures |r| == |p|
    ensures forall i | 0 <= i < |p| :: r[i].key == p[i].key
    decreases |p|
  {
    if p == [] then []
    else [if p[0].client == c then Entry(p[0].key, c.(connected := false)) else p[0]] + MarkDead(p[1..], c)
  }

  /** After `c` went offline every key finds what it found before, with `c`
      marked disconnected; so a later lookup of its key ends it and opens a
      fresh connection. */
  lemma {:induction false} MarkDeadFind(p: Pool, c: Client, k: string)
    ensures Find(MarkDead(p, c), k).None? <==> Find(p, k).None?
    ensures Find(p, k).Some? ==>
              Find(MarkDead(p, c), k).value == if Find(p, k).value == c then c.(connected := false) else Find(p, k).value
    decreases |p|
  {
    if p != [] {
      assert MarkDead(p, c)[1..] == MarkDead(p[1..], c);
      MarkDeadFind(p[1..], c, k);
    }
  }

  /** `closeAll`: every pooled client is ended, in insertion order, and the
      pool is emptied. */
  function CloseAll(p: Pool): (r: (Pool, seq<Client>))
    ensures r.0 == []
    ensures |r.1| == |p| && forall i | 0 <= i < |p| :: r.1[i] == p[i].client
  {
    ([], seq(|p|, i requires 0 <= i < |p| => p[i].client))
  }

  /** Starting from the empty pool, any sequence of `getConnection` calls
      keeps at most three connections with distinct keys. */
  lemma {:induction false} PoolStaysBounded(p: Pool, calls: seq<(string, Result<Client, string>)>)
    requires DistinctKeys(p) && |p| <= MaxConnections
    ensures DistinctKeys(Run(p, calls)) && |Run(p, calls)| <= MaxConnections
    decreases |calls|
  {
    if calls != [] {
      var next := GetConnection(p, calls[0].0, calls[0].1).pool;
      PoolStaysBounded(next, calls[1..]);
    }
  }

  /** The pool after a sequence of `getConnection` calls. */
  function Run(p: Pool, calls: seq<(string, Result<Client, string>)>): Pool
    requires DistinctKeys(p)
    decreases |calls|
  {
    if calls == [] then p else Run(GetConnection(p, calls[0].0, calls[0].1).pool, calls[1..])
  }
}
