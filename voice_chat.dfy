/**
 The relay: the process-wide registry (`rooms`, keyed by room id, and
 `connections`, keyed by channel) and the per-channel handler that joins,
 routes negotiation messages, and cleans up when the channel closes.

 The two tables are written independently and are NOT kept consistent with
 each other: a re-join on the same channel, or a second channel joining
 with an id already in the room, leaves entries that the other table does
 not mirror. Only each room's own shape (`Rooms.WellFormed`) is invariant.
 */
module Relay {
  import opened Messages
  import opened Rooms
  import opened Fanout

  /** What `connections` records for a channel: the ids of its last join. */
  datatype ConnInfo = ConnInfo(user: UserId, room: RoomId)

  /** The handler's locals for one channel: the channel and the `user_id` / `room_id` bound so far. */
  datatype Session = Session(conn: ConnId, user: Option<UserId>, room: Option<RoomId>)

  /** The name `create_room` gives a room when the request carries none. */
  const CreatedRoomName: string := "Комната"

  /** A freshly accepted channel: nothing bound yet. */
  function Opened(c: ConnId): (s: Session)
    ensures s.conn == c && Coherent(s) && !Truthy(s.room)
  {
    Session(c, None, None)
  }

  /** Python truthiness of the `room_id` local: bound, and not the empty string. */
  predicate Truthy(room: Option<RoomId>)
  {
    room.Some? && room.value != ""
  }

  /** `room_id` is never bound while `user_id` is not (a join binds `user_id` first). */
  predicate Coherent(s: Session)
  {
    s.room.Some? ==> s.user.Some?
  }

  ghost predicate AllWellFormed(rooms: map<RoomId, Room>)
  {
    forall r :: r in rooms ==> WellFormed(rooms[r])
  }

  /** A frame that carries a `join` with both `user_id` and `room_id`. */
  predicate IsFullJoin(f: Frame)
  {
    f.Text? && f.msg.Join? && f.msg.user.Some? && f.msg.room.Some?
  }

  /**
   The registry after a reference to room `r` (a join, or a visit to the
   room page): an absent room is created with the default name and no
   participants; a present room, and every other room, is left as it was.
   */
  function WithRoom(rooms: map<RoomId, Room>, r: RoomId): (rs: map<RoomId, Room>)
    requires AllWellFormed(rooms)
    ensures AllWellFormed(rs)
    ensures rs.Keys == rooms.Keys + {r}
    ensures forall k :: k in rooms ==> rs[k] == rooms[k]
    ensures r !in rooms ==> rs[r] == NewRoom(DefaultName(r))
  {
    if r in rooms then rooms else rooms[r := NewRoom(DefaultName(r))]
  }

  /**
   The registry after `u` joins `r` on channel `c`. The room exists
   afterwards, `u` is bound to `c`, a new `u` is appended to the roster and
   an existing `u` keeps its place; no other room and no other participant
   changes, and no room disappears.
   */
  function JoinRooms(rooms: map<RoomId, Room>, r: RoomId, u: UserId, c: ConnId): (rs: map<RoomId, Room>)
    requires AllWellFormed(rooms)
    ensures AllWellFormed(rs) && rs.Keys == rooms.Keys + {r}
    ensures forall k :: k in rooms && k != r ==> rs[k] == rooms[k]
    ensures rs[r].name == if r in rooms then rooms[r].name else DefaultName(r)
    ensures u in rs[r].users && rs[r].users[u] == c
    ensures r in rooms ==> forall v :: v != u ==>
      (v in rs[r].users <==> v in rooms[r].users) && (v in rooms[r].users ==> rs[r].users[v] == rooms[r].users[v])
    ensures r !in rooms ==> rs[r].order == [u]
    ensures r in rooms && u in rooms[r].users ==> rs[r].order == rooms[r].order
    ensures r in rooms && u !in rooms[r].users ==> rs[r].order == rooms[r].order + [u]
  {
    var present := WithRoom(rooms, r);
    present[r := Put(present[r], u, c)]
  }

  /** The registry after the joins `(user id, channel)` to room `r`, one after another, with no channel closing. */
  function JoinAll(rooms: map<RoomId, Room>, r: RoomId, joins: seq<(UserId, ConnId)>): (rs: map<RoomId, Room>)
    requires AllWellFormed(rooms)
    ensures AllWellFormed(rs)
  {
    if joins == [] then rooms
    else JoinRooms(JoinAll(rooms, r, joins[..|joins| - 1]), r, joins[|joins| - 1].0, joins[|joins| - 1].1)
  }

  /** A join to a room that exists is the binding `users[u] = c` in that room and nothing else. */
  lemma JoinExisting(rooms: map<RoomId, Room>, r: RoomId, room: Room, u: UserId, c: ConnId)
    requires AllWellFormed(rooms) && r in rooms && WellFormed(room)
    ensures JoinRooms(rooms[r := room], r, u, c) == rooms[r := Put(room, u, c)]
  {
  }

  /**
   A series of joins to `r` creates the room if absent and then leaves in
   it what the same bindings, made one after another, leave in its users
   dictionary; no other room changes.
   */
  lemma {:induction false} JoinAllBindsInOrder(rooms: map<RoomId, Room>, r: RoomId, joins: seq<(UserId, ConnId)>)
    requires AllWellFormed(rooms) && joins != []
    ensures JoinAll(rooms, r, joins) == WithRoom(rooms, r)[r := PutAll(WithRoom(rooms, r)[r], joins)]
  {
    var n := |joins|;
    var prefix := joins[..n - 1];
    var u, c := joins[n - 1].0, joins[n - 1].1;
    var present := WithRoom(rooms, r);
    var bound := PutAll(present[r], prefix);
    assert PutAll(present[r], joins) == Put(bound, u, c);
    if prefix == [] {
      assert JoinAll(rooms, r, joins) == JoinRooms(rooms, r, u, c);
    } else {
      JoinAllBindsInOrder(rooms, r, prefix);
      assert JoinAll(rooms, r, joins) == JoinRooms(present[r := bound], r, u, c);
      JoinExisting(present, r, bound, u, c);
      assert present[r := bound][r := Put(bound, u, c)] == present[r := Put(bound, u, c)];
    }
  }

  /**
   What a join delivers, given the room after the join: `user_joined` to
   each registered channel, then the roster to each registered channel,
   then the roster once more to the joiner's own channel.
   */
  function JoinOutbox(room: Room, u: UserId, c: ConnId, failing: set<ConnId>): (out: seq<Send>)
    requires WellFormed(room)
    ensures |out| <= 2 * |room.order| + 1
    ensures failing == {} ==> |out| == 2 * |room.order| + 1
  {
    Sends(Values(room), UserJoined(u), failing)
    + Sends(Values(room), Users(room.order), failing)
    + Sends([c], Users(room.order), failing)
  }

  /**
   Every delivery of a join, for a joiner `u` already bound to `c`, goes
   to a channel registered in the room that does not fail, and is either
   `user_joined(u)` or the room's current roster.
   */
  lemma JoinOutboxSound(room: Room, u: UserId, c: ConnId, failing: set<ConnId>)
    requires WellFormed(room) && u in room.users && room.users[u] == c
    ensures forall x :: x in JoinOutbox(room, u, c, failing) ==>
      x.conn in room.users.Values && x.conn !in failing && (x.msg == UserJoined(u) || x.msg == Users(room.order))
  {
    var cs := Values(room);
    ValuesAreRegistered(room);
    SendsSound(cs, UserJoined(u), failing);
    SendsSound(cs, Users(room.order), failing);
    SendsSound([c], Users(room.order), failing);
    assert c in room.users.Values;
  }

  /** In a join's deliveries every `user_joined` comes before every roster. */
  lemma JoinOutboxPhases(room: Room, u: UserId, c: ConnId, failing: set<ConnId>)
    requires WellFormed(room)
    ensures var out := JoinOutbox(room, u, c, failing);
      forall i, j :: 0 <= i < |out| && 0 <= j < |out| && out[i].msg.UserJoined? && out[j].msg.Users? ==> i < j
  {
    var cs := Values(room);
    var a := Sends(cs, UserJoined(u), failing);
    var b := Sends(cs, Users(room.order), failing);
    var direct := Sends([c], Users(room.order), failing);
    var out := a + b + direct;
    assert JoinOutbox(room, u, c, failing) == out;
    SendsSound(cs, UserJoined(u), failing);
    SendsSound(cs, Users(room.order), failing);
    SendsSound([c], Users(room.order), failing);
    forall i | 0 <= i < |a|
      ensures out[i].msg == UserJoined(u)
    {
      assert out[i] == a[i] && a[i] in a;
    }
    forall i | |a| <= i < |out|
      ensures out[i].msg == Users(room.order)
    {
      if i < |a| + |b| {
        assert out[i] == b[i - |a|] && b[i - |a|] in b;
      } else {
        assert out[i] == direct[i - |a| - |b|] && direct[i - |a| - |b|] in direct;
      }
    }
  }

  /**
   A join reaches everyone in the room: each registered channel that does
   not fail, the joiner's included, gets `user_joined(u)` and later the
   current roster.
   */
  lemma JoinOutboxReachesAll(room: Room, u: UserId, c: ConnId, failing: set<ConnId>)
    requires WellFormed(room)
    ensures var out := JoinOutbox(room, u, c, failing);
      forall d :: d in room.users.Values && d !in failing ==>
        exists i, j :: 0 <= i < j < |out| && out[i] == Send(d, UserJoined(u)) && out[j] == Send(d, Users(room.order))
  {
    var cs := Values(room);
    var a := Sends(cs, UserJoined(u), failing);
    var b := Sends(cs, Users(room.order), failing);
    var out := a + b + Sends([c], Users(room.order), failing);
    assert JoinOutbox(room, u, c, failing) == out;
    ValuesAreRegistered(room);
    SendsComplete(cs, UserJoined(u), failing);
    SendsComplete(cs, Users(room.order), failing);
    forall d | d in room.users.Values && d !in failing
      ensures exists i, j :: 0 <= i < j < |out| && out[i] == Send(d, UserJoined(u)) && out[j] == Send(d, Users(room.order))
    {
      assert d in cs;
      var i :| 0 <= i < |a| && a[i] == Send(d, UserJoined(u));
      var j :| 0 <= j < |b| && b[j] == Send(d, Users(room.order));
      assert out[i] == a[i];
      assert out[|a| + j] == b[j];
    }
  }

  /**
   A joiner whose channel does not fail gets the roster twice: once in
   the room-wide roster broadcast, and once more as the join's last
   delivery.
   */
  lemma JoinerGetsRosterTwice(room: Room, u: UserId, c: ConnId, failing: set<ConnId>)
    requires WellFormed(room) && u in room.users && room.users[u] == c && c !in failing
    ensures var out := JoinOutbox(room, u, c, failing);
      && |out| >= 3 && out[|out| - 1] == Send(c, Users(room.order))
      && exists j :: 0 <= j < |out| - 1 && out[j] == Send(c, Users(room.order))
  {
    var cs := Values(room);
    var a := Sends(cs, UserJoined(u), failing);
    var b := Sends(cs, Users(room.order), failing);
    var direct := Sends([c], Users(room.order), failing);
    var out := a + b + direct;
    assert JoinOutbox(room, u, c, failing) == out;
    ValuesAreRegistered(room);
    assert c in room.users.Values;
    SendsComplete(cs, UserJoined(u), failing);
    SendsComplete(cs, Users(room.order), failing);
    assert Send(c, UserJoined(u)) in a;
    var j :| 0 <= j < |b| && b[j] == Send(c, Users(room.order));
    assert out[|a| + j] == b[j];
    assert direct == [Send(c, Users(room.order))];
  }

  /** A negotiation message finds its target: the session is bound to a room that holds `target`. */
  predicate RouteHits(rooms: map<RoomId, Room>, s: Session, target: UserId)
  {
    Truthy(s.room) && s.room.value in rooms && target in rooms[s.room.value].users
  }

  /**
   What an `offer`, `answer` or `ice-candidate` for `target` delivers: at
   most one message, and one exactly when the target is found and its
   channel does not fail. It goes to the target's channel, keeps the type,
   the target and every other field, and carries `from` set to the
   sender's `user_id`, replacing any `from` the sender put there.
   */
  function RouteOutbox(rooms: map<RoomId, Room>, s: Session, k: Kind, target: UserId,
                       fields: map<string, Value>, failing: set<ConnId>): (out: seq<Send>)
    ensures |out| <= 1
    ensures out != [] <==> RouteHits(rooms, s, target) && rooms[s.room.value].users[target] !in failing
    ensures out != [] ==>
      && out[0].conn == rooms[s.room.value].users[target]
      && out[0].msg.Forwarded? && out[0].msg.kind == k && out[0].msg.target == target
      && "from" in out[0].msg.fields && out[0].msg.fields["from"] == UserValue(s.user)
    ensures out != [] ==> forall key :: key != "from" ==>
      (key in out[0].msg.fields <==> key in fields) && (key in fields ==> out[0].msg.fields[key] == fields[key])
  {
    if RouteHits(rooms, s, target) then
      Sends([rooms[s.room.value].users[target]], Forwarded(k, target, fields["from" := UserValue(s.user)]), failing)
    else []
  }

  /**
   The registry after the channel recorded as `info` closes: `info.user`
   leaves `info.room` (whichever channel it is bound to now), the rest of
   that roster keeps its order, and every other room, including any room
   the channel joined earlier, is untouched. No room disappears.
   */
  function Evict(rooms: map<RoomId, Room>, info: ConnInfo): (rs: map<RoomId, Room>)
    requires AllWellFormed(rooms)
    ensures AllWellFormed(rs) && rs.Keys == rooms.Keys
    ensures forall r :: r in rooms && r != info.room ==> rs[r] == rooms[r]
    ensures info.room in rooms ==> info.user !in rs[info.room].users && rs[info.room].name == rooms[info.room].name
    ensures info.room in rooms ==> forall v :: v != info.user ==>
      (v in rs[info.room].users <==> v in rooms[info.room].users)
      && (v in rooms[info.room].users ==> rs[info.room].users[v] == rooms[info.room].users[v])
    ensures info.room in rooms ==> rs[info.room].order == Without(rooms[info.room].order, info.user)
  {
    if info.room in rooms && info.user in rooms[info.room].users then
      rooms[info.room := Remove(rooms[info.room], info.user)]
    else if info.room in rooms then
      WithoutAbsent(rooms[info.room].order, info.user);
      rooms
    else rooms
  }

  /** After a joined participant's channel closes, a message for its id from its room is a routing miss. */
  lemma ClosedIsRoutingMiss(rooms: map<RoomId, Room>, info: ConnInfo, s: Session, k: Kind,
                            fields: map<string, Value>, failing: set<ConnId>)
    requires AllWellFormed(rooms) && s.room == Some(info.room)
    ensures !RouteHits(Evict(rooms, info), s, info.user)
    ensures RouteOutbox(Evict(rooms, info), s, k, info.user, fields, failing) == []
  {
  }

  class VoiceChat {
    var rooms: map<RoomId, Room>
    var connections: map<ConnId, ConnInfo>

    ghost predicate Valid()
      reads this
    {
      AllWellFormed(rooms)
    }

    constructor ()
      ensures Valid() && rooms == map[] && connections == map[]
    {
      rooms := map[];
      connections := map[];
    }

    /**
     The room-creation endpoint, given the id the generator produced and
     the request's `name` (if any): `rooms[id]` is set to a fresh room with
     that name, or the default one, and no participants, replacing a room
     that had the same id.
     */
    method CreateRoom(id: RoomId, name: Option<string>)
      requires Valid()
      modifies this
      ensures Valid()
      ensures rooms == old(rooms)[id := NewRoom(if name.Some? then name.value else CreatedRoomName)]
      ensures connections == old(connections)
    {
      rooms := rooms[id := NewRoom(if name.Some? then name.value else CreatedRoomName)];
    }

    /** The room page's registry write: an unknown room is created with the default name. */
    method VisitRoom(id: RoomId)
      requires Valid()
      modifies this
      ensures Valid()
      ensures rooms == WithRoom(old(rooms), id)
      ensures connections == old(connections)
    {
      if id !in rooms {
        rooms := rooms[id := NewRoom(DefaultName(id))];
      }
    }

    /**
     `broadcast_to_room`: nothing for an unknown room; otherwise `m` is
     written to every registered channel in roster order, and a channel
     whose write fails is skipped without stopping the others.
     */
    method Broadcast(r: RoomId, m: Outbound, failing: set<ConnId>) returns (out: seq<Send>)
      requires Valid()
      ensures r !in rooms ==> out == []
      ensures r in rooms ==> out == Sends(Values(rooms[r]), m, failing)
      ensures forall x :: x in out ==> x.msg == m && r in rooms && x.conn in rooms[r].users.Values && x.conn !in failing
      ensures r in rooms ==> forall c :: c in rooms[r].users.Values && c !in failing ==> Send(c, m) in out
    {
      out := [];
      if r in rooms {
        var channels := Values(rooms[r]);
        out := Deliver(channels, m, failing);
        ValuesAreRegistered(rooms[r]);
        SendsSound(channels, m, failing);
        SendsComplete(channels, m, failing);
      }
    }

    /**
     A `join` of `u` to `r` on channel `c`: the room is created if absent,
     `u` is bound to `c` in it, `c` is recorded as `(u, r)`, and then
     `user_joined`, the roster, and the roster again to `c` are written.
     */
    method JoinRoom(c: ConnId, u: UserId, r: RoomId, failing: set<ConnId>) returns (out: seq<Send>)
      requires Valid()
      modifies this
      ensures Valid()
      ensures rooms == JoinRooms(old(rooms), r, u, c)
      ensures connections == old(connections)[c := ConnInfo(u, r)]
      ensures out == JoinOutbox(rooms[r], u, c, failing)
    {
      if r !in rooms {
        rooms := rooms[r := NewRoom(DefaultName(r))];
      }
      rooms := rooms[r := Put(rooms[r], u, c)];
      connections := connections[c := ConnInfo(u, r)];
      var joined := Broadcast(r, UserJoined(u), failing);
      var roster := rooms[r].order;
      var listed := Broadcast(r, Users(roster), failing);
      var direct := if c in failing then [] else [Send(c, Users(roster))];
      assert direct == Sends([c], Users(roster), failing);
      out := joined + listed + direct;
    }

    /**
     One inbound frame on the channel whose handler locals are `s`. A full
     `join` rebinds both locals and updates the registry as `JoinRooms`
     says; a `join` with `user_id` but no `room_id` rebinds `user_id` and
     stops; a negotiation message with a `target` is delivered as
     `RouteOutbox` says; everything else is dropped. Only a full join
     changes the registry, and no step removes a room.
     */
    method HandleFrame(s: Session, f: Frame, failing: set<ConnId>) returns (next: Session, out: seq<Send>)
      requires Valid()
      modifies this
      ensures Valid() && next.conn == s.conn
      ensures Coherent(s) ==> Coherent(next)
      ensures old(rooms).Keys <= rooms.Keys
      ensures IsFullJoin(f) ==>
        && next == Session(s.conn, f.msg.user, f.msg.room)
        && rooms == JoinRooms(old(rooms), f.msg.room.value, f.msg.user.value, s.conn)
        && connections == old(connections)[s.conn := ConnInfo(f.msg.user.value, f.msg.room.value)]
        && out == JoinOutbox(rooms[f.msg.room.value], f.msg.user.value, s.conn, failing)
      ensures !IsFullJoin(f) ==> rooms == old(rooms) && connections == old(connections)
      ensures f.Text? && f.msg.Join? && f.msg.user.Some? && f.msg.room.None? ==>
        next == s.(user := f.msg.user) && out == []
      ensures f.Text? && f.msg.Negotiate? && f.msg.target.Some? ==>
        next == s && out == RouteOutbox(old(rooms), s, f.msg.kind, f.msg.target.value, f.msg.fields, failing)
      ensures f.NonText? || f.msg.Malformed? || (f.msg.Join? && f.msg.user.None?) || (f.msg.Negotiate? && f.msg.target.None?) ==>
        next == s && out == []
    {
      next, out := s, [];
      if f.Text? {
        match f.msg {
          case Malformed =>
          case Join(user, room) =>
            if user.Some? {
              next := next.(user := user);
              if room.Some? {
                next := next.(room := room);
                out := JoinRoom(s.conn, user.value, room.value, failing);
              }
            }
          case Negotiate(kind, target, fields) =>
            if target.Some? && Truthy(s.room) && s.room.value in rooms && target.value in rooms[s.room.value].users {
              var dest := rooms[s.room.value].users[target.value];
              var data := fields["from" := UserValue(s.user)];
              if dest !in failing {
                out := [Send(dest, Forwarded(kind, target.value, data))];
              }
            }
        }
      }
    }

    /**
     Cleanup when channel `c` closes. A channel never recorded changes
     nothing. Otherwise its recorded user id leaves its recorded room, as
     `Evict` says, and its record is deleted. No roster is re-sent.
     */
    method Close(c: ConnId)
      requires Valid()
      modifies this
      ensures Valid()
      ensures c in old(connections) ==> rooms == Evict(old(rooms), old(connections)[c])
      ensures c !in old(connections) ==> rooms == old(rooms)
      ensures connections == old(connections) - {c}
    {
      if c in connections {
        var info := connections[c];
        if info.room in rooms && info.user in rooms[info.room].users {
          rooms := rooms[info.room := Remove(rooms[info.room], info.user)];
        }
        connections := connections - {c};
      }
    }

    /**
     The whole life of channel `c`: its frames handled in arrival order,
     then the cleanup. Afterwards `c` has no record and every room that
     existed still exists; `out` collects each frame's deliveries in turn.
     */
    method Serve(c: ConnId, frames: seq<Frame>, failing: set<ConnId>) returns (out: seq<Send>)
      requires Valid()
      modifies this
      ensures Valid()
      ensures c !in connections
      ensures old(rooms).Keys <= rooms.Keys
    {
      var s := Opened(c);
      out := [];
      for i := 0 to |frames|
        invariant Valid() && s.conn == c && Coherent(s)
        invariant old(rooms).Keys <= rooms.Keys
      {
        var sent;
        s, sent := HandleFrame(s, frames[i], failing);
        out := out + sent;
      }
      Close(c);
    }
  }
}
