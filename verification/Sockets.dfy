/** The socket map. Connection ids are fresh, so no two live connections share one. */
module Sockets {
  import opened Epoch
  import opened Sums
  import opened MineSuccess

  type Addr = nat

  class AppState {
    var sockets: map<Addr, Connection>
    ghost var issued: set<Uuid>

    ghost predicate Valid()
      reads this
    {
      && (forall a | a in sockets :: sockets[a].uuid in issued)
      && (forall a, b | a in sockets && b in sockets && a != b :: sockets[a].uuid != sockets[b].uuid)
    }

    constructor ()
      ensures Valid() && sockets == map[] && issued == {}
    {
      sockets, issued := map[], {};
    }

    /** A second connection from an address that has one is turned away. */
    method Connect(who: Addr, conn: Connection) returns (accepted: bool)
      requires Valid() && conn.uuid !in issued
      modifies this
      ensures Valid() && issued == old(issued) + {conn.uuid}
      ensures accepted <==> who !in old(sockets)
      ensures sockets == if accepted then old(sockets)[who := conn] else old(sockets)
    {
      issued := issued + {conn.uuid};
      if who in sockets {
        return false;
      }
      sockets := sockets[who := conn];
      return true;
    }

    method Disconnect(who: Addr)
      requires Valid()
      modifies this
      ensures Valid() && issued == old(issued) && sockets == old(sockets) - {who}
    {
      sockets := sockets - {who};
    }

    /** The connections in the order a walk of the map visits their addresses. */
    function Walked(order: seq<Addr>): seq<Connection>
      requires forall i | 0 <= i < |order| :: order[i] in sockets
      reads this
    {
      if order == [] then [] else Walked(order[..|order| - 1]) + [sockets[order[|order| - 1]]]
    }

    lemma {:induction false} WalkedAt(order: seq<Addr>)
      requires forall i | 0 <= i < |order| :: order[i] in sockets
      ensures |Walked(order)| == |order| && forall i | 0 <= i < |order| :: Walked(order)[i] == sockets[order[i]]
      decreases |order|
    {
      if order != [] {
        WalkedAt(order[..|order| - 1]);
      }
    }

    /** Walking the map hands out connections with distinct ids, whatever the order. */
    lemma WalkIsFresh(order: seq<Addr>)
      requires Valid() && Enumerates(order, sockets)
      ensures FreshIds(Walked(order))
    {
      WalkedAt(order);
    }
  }
}
