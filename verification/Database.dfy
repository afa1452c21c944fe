/** The database (solo-machine-core/src/model): rows of `chains`, the path-keyed `ibc_data` table and `chain_keys`.
    A transaction works on its own view; dropping it without commit leaves the committed tables as they were. */
module Database {
  import opened Wrappers
  import opened Paths
  import opened Records

  datatype Tables = Tables(
    chains: map<string, Chain>,
    ibcData: map<string, Record>,
    chainKeys: map<string, set<string>>)
  {
    function KeysOf(id: string): set<string> {
      if id in chainKeys then chainKeys[id] else {}
    }

    /** The record a path names. */
    function Lookup(path: StorePath): Option<Record> {
      if Key(path) in ibcData then Some(ibcData[Key(path)]) else None
    }

    function WithRow(id: string, row: Chain): Tables {
      this.(chains := chains[id := row])
    }

    function WithKey(id: string, publicKey: string): Tables {
      this.(chainKeys := chainKeys[id := KeysOf(id) + {publicKey}])
    }
  }

  /** Two views agree on every valid path but one. */
  ghost predicate SameElsewhere(a: Tables, b: Tables, path: StorePath) {
    forall p: StorePath | p.Valid() && p != path :: a.Lookup(p) == b.Lookup(p)
  }

  /** A record stored under one valid path is not seen under any other: printed paths do not collide. */
  lemma StoreAtOnePath(a: Tables, path: StorePath, record: Record)
    requires path.Valid()
    ensures SameElsewhere(a, a.(ibcData := a.ibcData[Key(path) := record]), path)
    ensures a.(ibcData := a.ibcData[Key(path) := record]).Lookup(path) == Some(record)
  {
    var b := a.(ibcData := a.ibcData[Key(path) := record]);
    forall p: StorePath | p.Valid() && p != path
      ensures a.Lookup(p) == b.Lookup(p)
    {
      if Key(p) == Key(path) {
        KeyInjective(p, path);
      }
    }
  }

  class Transaction {
    var view: Tables

    constructor Begin(committed: Tables)
      ensures view == committed
    {
      view := committed;
    }

    // ----- chains -----

    /** INSERT of a row with the column defaults; a second row with the same id fails. */
    method AddChain(id: string, portId: string) returns (ok: bool)
      modifies this
      ensures ok <==> id !in old(view.chains)
      ensures view == if ok then old(view).WithRow(id, Chain(portId, 1, 1, None)) else old(view)
    {
      if id in view.chains {
        return false;
      }
      view := view.(chains := view.chains[id := Chain(portId, 1, 1, None)]);
      return true;
    }

    /** SELECT and conversion; None when there is no row or a counter does not fit 32 bits. */
    method GetChain(id: string) returns (chain: Option<Chain>)
      ensures chain == if id in view.chains && view.chains[id].Readable() then Some(view.chains[id]) else None
      ensures chain.Some? <==>
        && id in view.chains
        && 0 <= view.chains[id].sequence < 0x1_0000_0000 && 0 <= view.chains[id].packetSequence < 0x1_0000_0000
    {
      if id in view.chains && view.chains[id].Readable() {
        return Some(view.chains[id]);
      }
      return None;
    }

    method AddConnectionDetails(id: string, details: ConnectionDetails) returns (ok: bool)
      modifies this
      ensures ok <==> id in old(view.chains)
      ensures view == if ok then old(view).WithRow(id, old(view.chains[id]).(connectionDetails := Some(details)))
                      else old(view)
    {
      if id !in view.chains {
        return false;
      }
      view := view.(chains := view.chains[id := view.chains[id].(connectionDetails := Some(details))]);
      return true;
    }

    /** UPDATE ... RETURNING: the row is counted up first and converted afterwards. */
    method IncrementSequence(id: string) returns (chain: Option<Chain>)
      modifies this
      ensures view == if id in old(view.chains) then old(view).WithRow(id, old(view.chains[id]).NextSequence())
                      else old(view)
      ensures chain == if id in old(view.chains) && old(view.chains[id]).NextSequence().Readable()
                       then Some(old(view.chains[id]).NextSequence()) else None
    {
      if id !in view.chains {
        return None;
      }
      view := view.(chains := view.chains[id := view.chains[id].(sequence := view.chains[id].sequence + 1)]);
      chain := GetChain(id);
    }

    method IncrementPacketSequence(id: string) returns (chain: Option<Chain>)
      modifies this
      ensures view == if id in old(view.chains) then old(view).WithRow(id, old(view.chains[id]).NextPacketSequence())
                      else old(view)
      ensures chain == if id in old(view.chains) && old(view.chains[id]).NextPacketSequence().Readable()
                       then Some(old(view.chains[id]).NextPacketSequence()) else None
    {
      if id !in view.chains {
        return None;
      }
      view :=
        view.(chains := view.chains[id := view.chains[id].(packetSequence := view.chains[id].packetSequence + 1)]);
      chain := GetChain(id);
    }

    // ----- chain_keys -----

    /** INSERT; the pair of chain and key is unique. */
    method AddChainKey(id: string, publicKey: string) returns (ok: bool)
      modifies this
      ensures ok <==> publicKey !in old(view).KeysOf(id)
      ensures view == if ok then old(view).WithKey(id, publicKey) else old(view)
    {
      if publicKey in view.KeysOf(id) {
        return false;
      }
      view := view.(chainKeys := view.chainKeys[id := view.KeysOf(id) + {publicKey}]);
      return true;
    }

    // ----- ibc_data -----

    /** INSERT: fails on an existing key. A record under a valid path is found under that path and changes what is
        found under no other. */
    method Add(path: StorePath, record: Record) returns (ok: bool)
      modifies this
      ensures ok <==> old(view).Lookup(path).None?
      ensures view == if ok then old(view).(ibcData := old(view).ibcData[Key(path) := record]) else old(view)
      ensures path.Valid() ==> SameElsewhere(old(view), view, path)
    {
      if Key(path) in view.ibcData {
        return false;
      }
      ghost var before := view;
      view := view.(ibcData := view.ibcData[Key(path) := record]);
      if path.Valid() {
        StoreAtOnePath(before, path, record);
      }
      return true;
    }

    /** UPDATE: fails on a missing key. */
    method Update(path: StorePath, record: Record) returns (ok: bool)
      modifies this
      ensures ok <==> old(view).Lookup(path).Some?
      ensures view == if ok then old(view).(ibcData := old(view).ibcData[Key(path) := record]) else old(view)
      ensures path.Valid() ==> SameElsewhere(old(view), view, path)
    {
      if Key(path) !in view.ibcData {
        return false;
      }
      ghost var before := view;
      view := view.(ibcData := view.ibcData[Key(path) := record]);
      if path.Valid() {
        StoreAtOnePath(before, path, record);
      }
      return true;
    }

    method Get(path: StorePath) returns (record: Option<Record>)
      ensures record == view.Lookup(path)
    {
      if Key(path) in view.ibcData {
        return Some(view.ibcData[Key(path)]);
      }
      return None;
    }
  }
}
