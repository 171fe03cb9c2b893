/** The exchanger's calls on the shared store, as one process makes them. */
module BootstrapCalls {
  import opened Bootstrap

  class MemoryStore {
    var contents: Store

    /** False stands for the exception on a key that exists. */
    method Set(key: Key, value: Value) returns (ok: bool)
      modifies this
      ensures ok <==> key !in old(contents)
      ensures contents == if ok then old(contents)[key := value] else old(contents)
    {
      var found := Get(key);
      if found.Some? { return false; }
      contents := contents[key := value];
      return true;
    }

    method Get(key: Key) returns (value: Found)
      ensures value == if key in contents then Some(contents[key]) else None
    {
      if key in contents { return Some(contents[key]); }
      return None;
    }

    method Remove(key: Key) returns (existed: bool)
      modifies this
      ensures contents == old(contents) - {key} && (existed <==> key in old(contents))
    {
      existed := key in contents;
      contents := contents - {key};
    }
  }

  datatype Found = None | Some(value: Value)

  class RcConnectionExchanger {
    const me: nat
    const store: MemoryStore
    var links: map<nat, Value>

    constructor (me: nat, store: MemoryStore)
      ensures this.me == me && this.store == store && links == map[]
    {
      this.me, this.store, links := me, store, map[];
    }

    method Announce(peer: nat) returns (ok: bool)
      modifies store
      ensures Effect(old(store.contents), me, SetKey(Qp(me, peer))) == if ok then Ran(store.contents) else Throws
      ensures !ok ==> store.contents == old(store.contents)
    {
      ok := store.Set(Qp(me, peer), Info(me, peer));
    }

    method Unannounce(peer: nat)
      modifies store
      ensures Effect(old(store.contents), me, RemoveKey(Qp(me, peer))) == Ran(store.contents)
    {
      var _ := store.Remove(Qp(me, peer));
    }

    method ConnectTo(peer: nat) returns (ok: bool)
      modifies this
      ensures Effect(store.contents, me, Connect(peer)) == if ok then Ran(store.contents) else Throws
      ensures links == Linked(old(links), store.contents, me, Connect(peer))
    {
      var found := store.Get(Qp(peer, me));
      if found.None? { return false; }
      links := links[peer := found.value];
      return true;
    }

    method AnnounceReady(reason: Reason) returns (ok: bool)
      modifies store
      ensures Effect(old(store.contents), me, SetKey(Ready(me, reason))) == if ok then Ran(store.contents) else Throws
      ensures !ok ==> store.contents == old(store.contents)
    {
      ok := store.Set(Ready(me, reason), ReadyFor(reason));
    }

    method UnannounceReady(reason: Reason)
      modifies store
      ensures Effect(old(store.contents), me, RemoveKey(Ready(me, reason))) == Ran(store.contents)
    {
      var _ := store.Remove(Ready(me, reason));
    }

    /** One turn of the loop that waits for a peer's mark. */
    method PollReady(peer: nat, reason: Reason) returns (outcome: Outcome<Store>)
      ensures outcome == Effect(store.contents, me, Wait(peer, reason))
    {
      var found := store.Get(Ready(peer, reason));
      if found.None? { return Waits; }
      if found.value != ReadyFor(reason) { return Throws; }
      return Ran(store.contents);
    }
  }
}
