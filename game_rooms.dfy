/** The in-memory room registry of the websocket game server
    (app/api/game.py): rooms map to the list of their connections, in
    joining order. Accepting and sending on a socket are not modelled; a send
    succeeds or fails nondeterministically. */
module GameRooms {

  /** The position of the first occurrence of `x`. */
  function IndexOf<T(==)>(s: seq<T>, x: T): (i: nat)
    requires x in s
    ensures i < |s| && s[i] == x && x !in s[..i]
  {
    if s[0] == x then 0
    else
      assert s[1..][..IndexOf(s[1..], x)] == s[1..IndexOf(s[1..], x) + 1];
      IndexOf(s[1..], x) + 1
  }

  /** `list.remove(x)`: drops the first occurrence of `x`, keeping everything
      before and after it in order; the list loses exactly that one element. */
  function RemoveFirst<T(==)>(s: seq<T>, x: T): (r: seq<T>)
    requires x in s
    ensures |r| == |s| - 1
    ensures multiset(r) == multiset(s) - multiset{x}
    ensures exists i | 0 <= i < |s| :: s[i] == x && x !in s[..i] && r == s[..i] + s[i + 1..]
  {
    var i := IndexOf(s, x);
    assert s == s[..i] + [s[i]] + s[i + 1..];
    s[..i] + s[i + 1..]
  }

  /** The outcome of one attempted send during a broadcast. */
  datatype Delivery<Conn, Msg> = Delivery(conn: Conn, message: Msg, ok: bool)

  class ConnectionManager<Conn(==)> {
    var activeRooms: map<string, seq<Conn>>

    /** No room id maps to an empty list. */
    predicate Valid()
      reads this
    {
      forall room | room in activeRooms :: activeRooms[room] != []
    }

    /** The connections of a room, empty for an unknown room. */
    function Members(room: string): (s: seq<Conn>)
      reads this
      ensures room !in activeRooms ==> s == []
      ensures Valid() ==> (s == [] <==> room !in activeRooms)
    {
      if room in activeRooms then activeRooms[room] else []
    }

    /** The registry starts with no rooms. */
    constructor ()
      ensures Valid() && activeRooms == map[]
    {
      activeRooms := map[];
    }

    /** `connect`: an unknown room gets an empty list first; the connection is
        appended, so the room grows by exactly one and keeps its members in
        order; no other room changes. */
    method Connect(ws: Conn, room: string)
      requires Valid()
      modifies this
      ensures Valid()
      ensures activeRooms == old(activeRooms)[room := old(Members(room)) + [ws]]
    {
      if room !in activeRooms {
        activeRooms := activeRooms[room := []];
      }
      activeRooms := activeRooms[room := activeRooms[room] + [ws]];
    }

    /** `disconnect`: for a known room, the first occurrence of the connection
        is removed if present, and the room is deleted once its list is empty;
        an unknown room leaves everything unchanged. */
    method Disconnect(ws: Conn, room: string)
      requires Valid()
      modifies this
      ensures Valid()
      ensures room !in old(activeRooms) ==> activeRooms == old(activeRooms)
      ensures room in old(activeRooms) ==>
        var rest := if ws in old(activeRooms[room]) then RemoveFirst(old(activeRooms[room]), ws)
                    else old(activeRooms[room]);
        activeRooms == if rest == [] then old(activeRooms) - {room} else old(activeRooms)[room := rest]
    {
      if room in activeRooms {
        var members := activeRooms[room];
        if ws in members {
          members := RemoveFirst(members, ws);
        }
        if members == [] {
          activeRooms := activeRooms - {room};
        } else {
          activeRooms := activeRooms[room := members];
        }
      }
    }

    /** `broadcast_to_room`: a send is attempted to every connection of the
        room in list order, whatever the earlier sends did; failures are
        swallowed, nothing in the registry changes, and an unknown room gets
        no sends. */
    method BroadcastToRoom<Msg>(message: Msg, room: string) returns (attempts: seq<Delivery<Conn, Msg>>)
      ensures |attempts| == |Members(room)|
      ensures forall i | 0 <= i < |attempts| :: attempts[i].conn == Members(room)[i] && attempts[i].message == message
    {
      attempts := [];
      if room in activeRooms {
        var connections := activeRooms[room];
        var i := 0;
        while i < |connections|
          invariant 0 <= i <= |connections|
          invariant |attempts| == i
          invariant forall j | 0 <= j < i :: attempts[j].conn == connections[j] && attempts[j].message == message
        {
          var sent: bool := *;
          attempts := attempts + [Delivery(connections[i], message, sent)];
          i := i + 1;
        }
      }
    }
  }

  /** Leaving undoes joining: removing a connection that was appended to a
      list not containing it gives the list back. */
  lemma {:induction false} RemoveAfterAppend<T>(s: seq<T>, x: T)
    requires x !in s
    ensures RemoveFirst(s + [x], x) == s
  {
    assert IndexOf(s + [x], x) == |s|;
    assert (s + [x])[..|s|] == s;
  }

  /** A client of the registry: joining twice and leaving once keeps the room;
      the last leave deletes it, so a later broadcast there sends nothing. */
  method RoomLifecycle<Conn(==)>(a: Conn, b: Conn)
    requires a != b
  {
    var m := new ConnectionManager<Conn>();
    m.Connect(a, "PARTIDA_A");
    m.Connect(b, "PARTIDA_A");
    assert m.Members("PARTIDA_A") == [a, b];
    m.Disconnect(a, "PARTIDA_A");
    assert m.Members("PARTIDA_A") == [b];
    m.Disconnect(a, "PARTIDA_A");
    assert m.Members("PARTIDA_A") == [b];
    m.Disconnect(b, "PARTIDA_A");
    assert "PARTIDA_A" !in m.activeRooms;
    var sent := m.BroadcastToRoom("hola", "PARTIDA_A");
    assert sent == [];
  }
}
