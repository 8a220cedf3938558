/** The file gateway as an environment: uploads under immutable keys, one resource binding per
    file, retirement of keys and release of bindings with tombstones
    (internal/filegatewayclient/client.go:119-121, 166-167).  Distinct keys get distinct files.
    A request that was sent may be executed at any later time and any number of times. */
module FileGateway {
  import opened Tables

  datatype Gateway<K> = Gateway(files: map<K, Id>, retired: set<K>, bound: set<Id>, released: set<Id>)

  datatype Message<K> = UploadMsg(key: K) | BindMsg(file: Id) | RetireMsg(key: K) | ReleaseMsg(file: Id)

  predicate FileOf<K>(g: Gateway<K>, k: K, f: Id) {
    k in g.files && g.files[k] == f
  }

  /** A retired key accepts no upload, a released binding cannot be made again. */
  function Execute<K(==)>(g: Gateway<K>, m: Message<K>, chosen: Id): Gateway<K> {
    match m
    case UploadMsg(k) =>
      if k in g.retired || k in g.files || chosen in g.files.Values then g else g.(files := g.files[k := chosen])
    case BindMsg(f) =>
      if f in g.files.Values && f !in g.released then g.(bound := g.bound + {f}) else g
    case RetireMsg(k) => g.(retired := g.retired + {k})
    case ReleaseMsg(f) => g.(released := g.released + {f}, bound := g.bound - {f})
  }

  /** The file identity an upload of the key is answered with. */
  function UploadAnswer<K(==)>(g: Gateway<K>, k: K): Option<Id> {
    if k in g.files && k !in g.retired then Some(g.files[k]) else None
  }

  /** The file identity a retirement of the key is answered with; none means cancelled. */
  function RetireAnswer<K(==)>(g: Gateway<K>, k: K): Option<Id> {
    if k in g.files then Some(g.files[k]) else None
  }

  ghost predicate GatewaySound<K(!new)>(g: Gateway<K>) {
    && (forall k, j, f {:trigger FileOf(g, k, f), FileOf(g, j, f)} :: FileOf(g, k, f) && FileOf(g, j, f) ==> k == j)
    && (forall f :: f in g.bound ==> f in g.files.Values && f !in g.released)
  }

  /** What the gateway never takes back. */
  ghost predicate GatewayLater<K(!new)>(g: Gateway<K>, n: Gateway<K>) {
    && (forall k, f {:trigger FileOf(n, k, f)} {:trigger FileOf(g, k, f)} :: FileOf(g, k, f) ==> FileOf(n, k, f))
    && (forall k :: k in g.retired && k !in g.files ==> k !in n.files)
    && g.retired <= n.retired && g.released <= n.released
  }

  lemma ExecuteKeeps<K(!new)>(g: Gateway<K>, m: Message<K>, chosen: Id)
    requires GatewaySound(g)
    ensures GatewaySound(Execute(g, m, chosen)) && GatewayLater(g, Execute(g, m, chosen))
  {
    var n := Execute(g, m, chosen);
    forall f | f in g.files.Values ensures f in n.files.Values {
      var k :| k in g.files && g.files[k] == f;
      assert n.files[k] == f;
    }
    forall k, j, f | FileOf(n, k, f) && FileOf(n, j, f) ensures k == j {
      assert n.files != g.files ==> forall x :: x in g.files ==> g.files[x] != chosen;
      assert FileOf(g, k, f) || f == chosen;
      assert FileOf(g, j, f) || f == chosen;
    }
  }
}
