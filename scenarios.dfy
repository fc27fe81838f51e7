/**
 Concrete runs of the relay, each starting from an empty registry, stated
 through the handler's contracts alone.
 */
module Scenarios {
  import opened Messages
  import opened Rooms
  import opened Fanout
  import opened Relay

  /**
   Two peers in room "r1": A (channel 1) joins as "u1", B (channel 2) joins
   as "u2", then A sends an offer to "u2" with a forged `from`. A hears
   itself join and the roster twice; on B's join A hears `user_joined`
   then the new roster, and B hears the same plus the roster once more;
   the offer reaches B alone, payload intact, `from` replaced by "u1".
   */
  method TwoPeers() returns (joinA: seq<Send>, joinB: seq<Send>, offer: seq<Send>)
    ensures joinA == [Send(1, UserJoined("u1")), Send(1, Users(["u1"])), Send(1, Users(["u1"]))]
    ensures joinB == [Send(1, UserJoined("u2")), Send(2, UserJoined("u2")),
                      Send(1, Users(["u1", "u2"])), Send(2, Users(["u1", "u2"])),
                      Send(2, Users(["u1", "u2"]))]
    ensures offer == [Send(2, Forwarded(Offer, "u2", map["sdp" := Opaque("v=0"), "from" := Str("u1")]))]
  {
    var chat := new VoiceChat();
    var a, b := Opened(1), Opened(2);
    a, joinA := chat.HandleFrame(a, Text(Join(Some("u1"), Some("r1"))), {});
    assert chat.rooms == map["r1" := RoomOfOne("r1")] by { FirstJoin("r1"); }
    assert joinA == [Send(1, UserJoined("u1")), Send(1, Users(["u1"])), Send(1, Users(["u1"]))] by { FirstJoinSends(); }
    b, joinB := chat.HandleFrame(b, Text(Join(Some("u2"), Some("r1"))), {});
    assert chat.rooms == map["r1" := RoomOfTwo("r1")] by { SecondJoin("r1"); }
    SecondJoinSends();
    ForgedFromIsReplaced();
    a, offer := chat.HandleFrame(a, Text(Negotiate(Offer, Some("u2"), ForgedOffer())), {});
  }

  /** An offer whose sender wrote its own `from`. */
  function ForgedOffer(): map<string, Value>
  {
    map["sdp" := Opaque("v=0"), "from" := Str("mallory")]
  }

  /** The forged offer from "u1" to "u2" in "r1" reaches channel 2 with `from` set to "u1". */
  lemma ForgedFromIsReplaced()
    ensures RouteOutbox(map["r1" := RoomOfTwo("r1")], Session(1, Some("u1"), Some("r1")), Offer, "u2", ForgedOffer(), {})
      == [Send(2, Forwarded(Offer, "u2", map["sdp" := Opaque("v=0"), "from" := Str("u1")]))]
  {
    assert ForgedOffer()["from" := Str("u1")] == map["sdp" := Opaque("v=0"), "from" := Str("u1")];
  }

  /** Room `r` once "u1" has joined it on channel 1. */
  function RoomOfOne(r: RoomId): Room
  {
    Room(DefaultName(r), ["u1"], map["u1" := 1])
  }

  /** Room `r` once "u2" has joined it on channel 2 after "u1". */
  function RoomOfTwo(r: RoomId): Room
  {
    Room(DefaultName(r), ["u1", "u2"], map["u1" := 1, "u2" := 2])
  }

  /** The first join to `r`, as "u1" on channel 1, creates the room. */
  lemma FirstJoin(r: RoomId)
    ensures JoinRooms(map[], r, "u1", 1) == map[r := RoomOfOne(r)]
  {
  }

  /** What the first join to a room sends: `user_joined` and the roster to the joiner, then the roster again. */
  lemma FirstJoinSends()
    ensures JoinOutbox(RoomOfOne("r1"), "u1", 1, {}) == [Send(1, UserJoined("u1")), Send(1, Users(["u1"])), Send(1, Users(["u1"]))]
  {
  }

  /** "u2" joining `r` after "u1", on channel 2, goes to the end of the roster. */
  lemma SecondJoin(r: RoomId)
    ensures JoinRooms(map[r := RoomOfOne(r)], r, "u2", 2) == map[r := RoomOfTwo(r)]
  {
    var one := map[r := RoomOfOne(r)];
    JoinExisting(one, r, RoomOfOne(r), "u2", 2);
    assert one[r := RoomOfOne(r)] == one;
    assert one[r := RoomOfTwo(r)] == map[r := RoomOfTwo(r)];
    assert Put(RoomOfOne(r), "u2", 2) == RoomOfTwo(r) by {
      assert RoomOfOne(r).order + ["u2"] == ["u1", "u2"];
      assert RoomOfOne(r).users["u2" := 2] == map["u1" := 1, "u2" := 2];
    }
  }

  /** The channels of the room of two, in roster order. */
  lemma ChannelsOfTwo()
    ensures Values(RoomOfTwo("r1")) == [1, 2]
  {
  }

  /** What "u2" joining after "u1" sends when no channel fails. */
  lemma SecondJoinSends()
    ensures JoinOutbox(RoomOfTwo("r1"), "u2", 2, {}) ==
      [Send(1, UserJoined("u2")), Send(2, UserJoined("u2")),
       Send(1, Users(["u1", "u2"])), Send(2, Users(["u1", "u2"])), Send(2, Users(["u1", "u2"]))]
  {
    ChannelsOfTwo();
  }

  /** What "u2" joining after "u1" sends when its own channel fails. */
  lemma SecondJoinSendsFailing()
    ensures JoinOutbox(RoomOfTwo("r1"), "u2", 2, {2}) == [Send(1, UserJoined("u2")), Send(1, Users(["u1", "u2"]))]
  {
    ChannelsOfTwo();
  }

  /** Room "r" after one channel, 1, joined it as "u1" and then as "u2". */
  function SharedRoom(): Room
  {
    Room(DefaultName("r"), ["u1", "u2"], map["u1" := 1, "u2" := 1])
  }

  /** Channel 1, already "u1" in "r", joins "r" again as "u2": it now holds both ids. */
  lemma SharedChannelJoin()
    ensures JoinRooms(map["r" := RoomOfOne("r")], "r", "u2", 1) == map["r" := SharedRoom()]
  {
    var one := map["r" := RoomOfOne("r")];
    JoinExisting(one, "r", RoomOfOne("r"), "u2", 1);
    assert one["r" := RoomOfOne("r")] == one;
    assert Put(RoomOfOne("r"), "u2", 1) == SharedRoom() by {
      assert RoomOfOne("r").order + ["u2"] == ["u1", "u2"];
      assert RoomOfOne("r").users["u2" := 1] == map["u1" := 1, "u2" := 1];
    }
    assert one["r" := SharedRoom()] == map["r" := SharedRoom()];
  }

  /** A channel holding two ids of a room gets every broadcast to that room twice. */
  lemma SharedChannelHearsTwice()
    ensures Sends(Values(SharedRoom()), UserJoined("u2"), {}) == [Send(1, UserJoined("u2")), Send(1, UserJoined("u2"))]
  {
  }

  /**
   A second channel joining with an id already in the room takes that id
   over: messages for it go to the new channel. When the first channel
   then closes, cleanup removes the id by name, so the new channel, still
   open, becomes unreachable too.
   */
  method TakeoverThenStaleClose() returns (before: seq<Send>, after: seq<Send>)
    ensures before == [Send(2, Forwarded(Answer, "u1", map["from" := Str("u2")]))]
    ensures after == []
  {
    var chat := new VoiceChat();
    var first, second, other;
    first := JoinAs(chat, 1, "u1", "r");
    assert chat.rooms == Alone(1) by { FirstOfTakeover(); }
    second := JoinAs(chat, 2, "u1", "r");
    assert chat.rooms == Alone(2) by { SecondOfTakeover(); }
    other := JoinAs(chat, 3, "u2", "r");
    assert chat.rooms == TakenOver() by { ThirdOfTakeover(); }
    assert chat.connections == map[1 := ConnInfo("u1", "r"), 2 := ConnInfo("u1", "r"), 3 := ConnInfo("u2", "r")];
    before, after := StaleClose(chat, other);
  }

  /** From the taken-over room: "u2" answers "u1", channel 1 closes, "u2" answers "u1" again. */
  method StaleClose(chat: VoiceChat, other: Session) returns (before: seq<Send>, after: seq<Send>)
    requires chat.Valid() && chat.rooms == TakenOver()
    requires 1 in chat.connections && chat.connections[1] == ConnInfo("u1", "r")
    requires other == Session(3, Some("u2"), Some("r"))
    modifies chat
    ensures before == [Send(2, Forwarded(Answer, "u1", map["from" := Str("u2")]))]
    ensures after == []
  {
    TakeoverRoutes();
    before := Negotiation(chat, other, Answer, "u1");
    TakeoverEvicts();
    chat.Close(1);
    after := Negotiation(chat, other, Answer, "u1");
  }

  /** A fresh channel `c` sends a full `join` of `u` to `r`; what it is sent is not looked at. */
  method JoinAs(chat: VoiceChat, c: ConnId, u: UserId, r: RoomId) returns (s: Session)
    requires chat.Valid()
    modifies chat
    ensures chat.Valid() && s == Session(c, Some(u), Some(r))
    ensures chat.rooms == JoinRooms(old(chat.rooms), r, u, c)
    ensures chat.connections == old(chat.connections)[c := ConnInfo(u, r)]
  {
    var sent;
    s, sent := chat.HandleFrame(Opened(c), Text(Join(Some(u), Some(r))), {});
  }

  /** The channel with locals `s` sends a `k` message with no payload to `target`. */
  method Negotiation(chat: VoiceChat, s: Session, k: Kind, target: UserId) returns (out: seq<Send>)
    requires chat.Valid()
    modifies chat
    ensures chat.Valid() && chat.rooms == old(chat.rooms) && chat.connections == old(chat.connections)
    ensures out == RouteOutbox(chat.rooms, s, k, target, map[], {})
  {
    var next;
    next, out := chat.HandleFrame(s, Text(Negotiate(k, Some(target), map[])), {});
  }

  /** "r" with "u1" joined on channel `c`. */
  function Alone(c: ConnId): map<RoomId, Room>
  {
    map["r" := Room(DefaultName("r"), ["u1"], map["u1" := c])]
  }

  /** "u1" joins "r" on channel 1. */
  lemma FirstOfTakeover()
    ensures JoinRooms(map[], "r", "u1", 1) == Alone(1)
  {
  }

  /** "u1" joins "r" again, on channel 2: same roster, new channel. */
  lemma SecondOfTakeover()
    ensures JoinRooms(Alone(1), "r", "u1", 2) == Alone(2)
  {
    var one := Alone(1)["r"];
    JoinExisting(Alone(1), "r", one, "u1", 2);
    assert Alone(1)["r" := one] == Alone(1);
    assert Put(one, "u1", 2) == Alone(2)["r"] by {
      assert one.users["u1" := 2] == map["u1" := 2];
    }
  }

  /** "u2" joins "r" on channel 3. */
  lemma ThirdOfTakeover()
    ensures JoinRooms(Alone(2), "r", "u2", 3) == TakenOver()
  {
    var moved := Alone(2)["r"];
    JoinExisting(Alone(2), "r", moved, "u2", 3);
    assert Alone(2)["r" := moved] == Alone(2);
    assert "u2" !in moved.users;
    assert Put(moved, "u2", 3) == TakenOver()["r"] by {
      assert moved.order + ["u2"] == ["u1", "u2"];
      assert moved.users["u2" := 3] == map["u1" := 2, "u2" := 3];
    }
  }

  /** While channel 2 holds "u1", an answer to "u1" from "u2" goes to channel 2. */
  lemma TakeoverRoutes()
    ensures RouteOutbox(TakenOver(), Session(3, Some("u2"), Some("r")), Answer, "u1", map[], {})
      == [Send(2, Forwarded(Answer, "u1", map["from" := Str("u2")]))]
  {
  }

  /** Closing channel 1, recorded as ("u1", "r"), removes "u1" although channel 2 now holds it. */
  lemma TakeoverEvicts()
    ensures Evict(TakenOver(), ConnInfo("u1", "r")) == map["r" := Room(DefaultName("r"), ["u2"], map["u2" := 3])]
  {
    var room := TakenOver()["r"];
    assert Without(room.order, "u1") == ["u2"] by {
      assert Without(["u2"], "u1") == ["u2"] + Without([], "u1");
    }
    assert room.users - {"u1"} == map["u2" := 3];
  }

  /** "r" after channel 2 took over "u1" from channel 1 and "u2" joined on channel 3. */
  function TakenOver(): map<RoomId, Room>
  {
    map["r" := Room(DefaultName("r"), ["u1", "u2"], map["u1" := 2, "u2" := 3])]
  }

  /**
   A channel that joins "r1" and then "r2" under the same id is cleaned
   up only in "r2" when it closes; "r1" keeps the stale entry.
   */
  method RejoinLeavesStaleEntry() returns (r1: seq<UserId>, r2: seq<UserId>)
    ensures r1 == ["u1"] && r2 == []
  {
    var chat := new VoiceChat();
    var s;
    s := JoinAs(chat, 1, "u1", "r1");
    assert chat.rooms == map["r1" := RoomOfOne("r1")] by { FirstJoin("r1"); }
    s := JoinAs(chat, 1, "u1", "r2");
    assert chat.rooms == map["r1" := RoomOfOne("r1"), "r2" := RoomOfOne("r2")] by { JoinSecondRoom(); }
    assert chat.connections[1] == ConnInfo("u1", "r2");
    chat.Close(1);
    r1, r2 := chat.rooms["r1"].order, chat.rooms["r2"].order;
    assert r2 == Without(["u1"], "u1");
  }

  /** "u1", already in "r1" on channel 1, joins "r2" on the same channel: "r1" is left as it was. */
  lemma JoinSecondRoom()
    ensures JoinRooms(map["r1" := RoomOfOne("r1")], "r2", "u1", 1) == map["r1" := RoomOfOne("r1"), "r2" := RoomOfOne("r2")]
  {
  }

  /**
   Room id "" is accepted by a join, but the handler treats an empty
   `room_id` as unbound, so negotiation messages from that channel are
   always dropped, even to a peer in the same room.
   */
  method EmptyRoomIdNeverRoutes() returns (roster: seq<UserId>, offer: seq<Send>)
    ensures roster == ["u1", "u2"] && offer == []
  {
    var chat := new VoiceChat();
    var a, b;
    a := JoinAs(chat, 1, "u1", "");
    assert chat.rooms == map["" := RoomOfOne("")] by { FirstJoin(""); }
    b := JoinAs(chat, 2, "u2", "");
    assert chat.rooms == map["" := RoomOfTwo("")] by { SecondJoin(""); }
    roster := chat.rooms[""].order;
    offer := Negotiation(chat, a, Offer, "u2");
  }

  /**
   A failing channel during a join does not stop the others: with B's
   channel failing, A still gets `user_joined` and the new roster, and
   the registry records B all the same.
   */
  method FailingPeerDuringJoin() returns (joinB: seq<Send>, registered: bool)
    ensures joinB == [Send(1, UserJoined("u2")), Send(1, Users(["u1", "u2"]))]
    ensures registered
  {
    var chat := new VoiceChat();
    var a, b;
    a := JoinAs(chat, 1, "u1", "r1");
    assert chat.rooms == map["r1" := RoomOfOne("r1")] by { FirstJoin("r1"); }
    b, joinB := chat.HandleFrame(Opened(2), Text(Join(Some("u2"), Some("r1"))), {2});
    assert chat.rooms == map["r1" := RoomOfTwo("r1")] by { SecondJoin("r1"); }
    SecondJoinSendsFailing();
    registered := "u2" in chat.rooms["r1"].users && chat.connections[2] == ConnInfo("u2", "r1");
  }
}
