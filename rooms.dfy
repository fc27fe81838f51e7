/**
 A room of the registry: its display name and its `users` dictionary, which
 maps a participant id to that participant's channel. The dictionary keeps
 insertion order, so it is modelled as the key sequence `order` beside the
 map `users`: assigning an existing key keeps its place, a new key goes to
 the end, deleting a key drops it from the sequence.
 */
module Rooms {
  import opened Messages

  datatype Room = Room(name: string, order: seq<UserId>, users: map<UserId, ConnId>)

  predicate Distinct(s: seq<UserId>)
  {
    forall i, j :: 0 <= i < j < |s| ==> s[i] != s[j]
  }

  /** `order` lists each key of `users` exactly once. */
  ghost predicate WellFormed(room: Room)
  {
    && Distinct(room.order)
    && (forall u :: u in room.users <==> u in room.order)
  }

  /** The name a room gets when it is created on first reference. */
  function DefaultName(r: RoomId): (name: string)
    ensures |name| == 8 + |r| && name[8..] == r
  {
    "Комната " + r
  }

  /** A room with the given name and no participants. */
  function NewRoom(name: string): (room: Room)
    ensures WellFormed(room) && room.name == name
    ensures room.order == [] && room.users == map[]
  {
    Room(name, [], map[])
  }

  /**
   `users[u] = c`: afterwards `u` is bound to `c` (last writer wins), every
   other binding is as it was, and the roster either keeps its order (`u`
   was already there, in its old place) or gains `u` at its end.
   */
  function Put(room: Room, u: UserId, c: ConnId): (r: Room)
    requires WellFormed(room)
    ensures WellFormed(r) && r.name == room.name
    ensures u in r.users && r.users[u] == c
    ensures forall v :: v != u ==> (v in r.users <==> v in room.users)
    ensures forall v :: v != u && v in room.users ==> r.users[v] == room.users[v]
    ensures u in room.users ==> r.order == room.order
    ensures u !in room.users ==> r.order == room.order + [u]
  {
    if u in room.users then room.(users := room.users[u := c])
    else Room(room.name, room.order + [u], room.users[u := c])
  }

  /** `s` without `u`, the other ids in their order. */
  function Without(s: seq<UserId>, u: UserId): (t: seq<UserId>)
    ensures forall v :: v in t <==> v in s && v != u
    ensures Distinct(s) ==> Distinct(t)
    ensures |t| <= |s|
  {
    if s == [] then []
    else if s[0] == u then Without(s[1..], u)
    else
      var rest := Without(s[1..], u);
      assert Distinct(s) ==> Distinct(s[1..]) && s[0] !in s[1..] by {
        if Distinct(s) {
          forall j | 1 <= j < |s| ensures s[j] != s[0] { }
        }
      }
      [s[0]] + rest
  }

  /** Removing the one occurrence of `u` from a roster closes the gap it leaves. */
  lemma {:induction false} WithoutSplit(s: seq<UserId>, u: UserId, i: nat)
    requires Distinct(s) && i < |s| && s[i] == u
    ensures Without(s, u) == s[..i] + s[i + 1..]
  {
    if i == 0 {
      WithoutAbsent(s[1..], u);
    } else {
      WithoutSplit(s[1..], u, i - 1);
      assert s[1..][..i - 1] == s[1..i];
      assert s[1..][i..] == s[i + 1..];
      assert s[..i] == [s[0]] + s[1..i];
    }
  }

  /** Removing an id that is not in the roster changes nothing. */
  lemma {:induction false} WithoutAbsent(s: seq<UserId>, u: UserId)
    requires u !in s
    ensures Without(s, u) == s
  {
    if s != [] {
      WithoutAbsent(s[1..], u);
      assert s == [s[0]] + s[1..];
    }
  }

  /**
   `del users[u]`: `u` is gone, every other binding is as it was, and the
   roster loses `u` and nothing else, keeping its order.
   */
  function Remove(room: Room, u: UserId): (r: Room)
    requires WellFormed(room)
    ensures WellFormed(r) && r.name == room.name
    ensures u !in r.users
    ensures forall v :: v != u ==> (v in r.users <==> v in room.users)
    ensures forall v :: v != u && v in room.users ==> r.users[v] == room.users[v]
    ensures r.order == Without(room.order, u)
  {
    Room(room.name, Without(room.order, u), room.users - {u})
  }

  /** The distinct ids of `s`, each where it first occurs. */
  function FirstOccurrences(s: seq<UserId>): (t: seq<UserId>)
    ensures forall v :: v in t <==> v in s
    ensures Distinct(t)
  {
    if s == [] then []
    else
      var seen := FirstOccurrences(s[..|s| - 1]);
      assert forall v :: v in s <==> v in s[..|s| - 1] || v == s[|s| - 1] by {
        assert s == s[..|s| - 1] + [s[|s| - 1]];
      }
      if s[|s| - 1] in seen then seen else seen + [s[|s| - 1]]
  }

  /** A further id is kept at the end if it is new and dropped if it was seen. */
  lemma FirstOccurrencesSnoc(s: seq<UserId>, u: UserId)
    ensures FirstOccurrences(s + [u]) ==
      if u in FirstOccurrences(s) then FirstOccurrences(s) else FirstOccurrences(s) + [u]
  {
    assert (s + [u])[..|s + [u]| - 1] == s;
  }

  /** Further ids never reorder the ones already seen: the first occurrences of `s` start those of `s + t`. */
  lemma {:induction false} FirstOccurrencesPrefix(s: seq<UserId>, t: seq<UserId>)
    ensures FirstOccurrences(s) <= FirstOccurrences(s + t)
  {
    if t == [] {
      assert s + t == s;
    } else {
      var init := t[..|t| - 1];
      FirstOccurrencesPrefix(s, init);
      assert s + t == (s + init) + [t[|t| - 1]];
      FirstOccurrencesSnoc(s + init, t[|t| - 1]);
    }
  }

  /** A roster without repetitions is its own first occurrences. */
  lemma {:induction false} FirstOccurrencesOfDistinct(s: seq<UserId>)
    requires Distinct(s)
    ensures FirstOccurrences(s) == s
  {
    if s != [] {
      var init := s[..|s| - 1];
      assert Distinct(init);
      FirstOccurrencesOfDistinct(init);
      assert s[|s| - 1] !in init;
      assert s == init + [s[|s| - 1]];
    }
  }

  /** The user ids of a series of bindings, in order. */
  function Ids(binds: seq<(UserId, ConnId)>): (ids: seq<UserId>)
    ensures |ids| == |binds| && forall i :: 0 <= i < |binds| ==> ids[i] == binds[i].0
  {
    seq(|binds|, i requires 0 <= i < |binds| => binds[i].0)
  }

  /** The ids of a series of bindings end with the id of its last binding. */
  lemma IdsSnoc(binds: seq<(UserId, ConnId)>)
    requires binds != []
    ensures Ids(binds) == Ids(binds[..|binds| - 1]) + [binds[|binds| - 1].0]
  {
  }

  /** The room after the bindings `users[u] = c` of `binds`, one after another. */
  function PutAll(room: Room, binds: seq<(UserId, ConnId)>): (r: Room)
    requires WellFormed(room)
    ensures WellFormed(r) && r.name == room.name
  {
    if binds == [] then room
    else Put(PutAll(room, binds[..|binds| - 1]), binds[|binds| - 1].0, binds[|binds| - 1].1)
  }

  /**
   After a series of bindings the roster is the earlier roster followed by
   the newly bound ids, each once, in the order of its first binding.
   */
  lemma {:induction false} PutAllRoster(room: Room, binds: seq<(UserId, ConnId)>)
    requires WellFormed(room)
    ensures PutAll(room, binds).order == FirstOccurrences(room.order + Ids(binds))
  {
    var all := room.order + Ids(binds);
    if binds == [] {
      assert all == room.order;
      FirstOccurrencesOfDistinct(room.order);
    } else {
      var prefix := binds[..|binds| - 1];
      var u := binds[|binds| - 1].0;
      PutAllRoster(room, prefix);
      var before := PutAll(room, prefix);
      var seen := FirstOccurrences(room.order + Ids(prefix));
      assert before.order == seen;
      IdsSnoc(binds);
      assert all == (room.order + Ids(prefix)) + [u];
      FirstOccurrencesSnoc(room.order + Ids(prefix), u);
      assert PutAll(room, binds).order == Put(before, u, binds[|binds| - 1].1).order;
      assert u in before.users <==> u in seen;
    }
  }

  /** Last writer wins: after a series of bindings each id is bound to the channel of its own last binding. */
  lemma {:induction false} PutAllLastWriterWins(room: Room, binds: seq<(UserId, ConnId)>, i: nat)
    requires WellFormed(room) && i < |binds|
    requires forall j :: i < j < |binds| ==> binds[j].0 != binds[i].0
    ensures binds[i].0 in PutAll(room, binds).users
    ensures PutAll(room, binds).users[binds[i].0] == binds[i].1
  {
    var prefix := binds[..|binds| - 1];
    if i < |binds| - 1 {
      assert prefix[i] == binds[i];
      PutAllLastWriterWins(room, prefix, i);
    }
  }

  /** The channels bound to `keys`, in the order of `keys`. */
  function Channels(keys: seq<UserId>, users: map<UserId, ConnId>): (cs: seq<ConnId>)
    requires forall k :: k in keys ==> k in users
    ensures |cs| == |keys|
    ensures forall i :: 0 <= i < |keys| ==> cs[i] == users[keys[i]]
  {
    if keys == [] then [] else [users[keys[0]]] + Channels(keys[1..], users)
  }

  /** `users.values()`: the channels in roster order. */
  function Values(room: Room): (cs: seq<ConnId>)
    requires WellFormed(room)
    ensures |cs| == |room.order|
    ensures forall i :: 0 <= i < |cs| ==> cs[i] == room.users[room.order[i]]
  {
    Channels(room.order, room.users)
  }

  /** `users.values()` lists exactly the channels registered in the room. */
  lemma ValuesAreRegistered(room: Room)
    requires WellFormed(room)
    ensures forall c :: c in Values(room) <==> c in room.users.Values
  {
    var cs := Values(room);
    forall c | c in room.users.Values
      ensures c in cs
    {
      var u :| u in room.users && room.users[u] == c;
      var i :| 0 <= i < |room.order| && room.order[i] == u;
      assert cs[i] == c;
    }
    forall c | c in cs
      ensures c in room.users.Values
    {
      var i :| 0 <= i < |cs| && cs[i] == c;
      assert room.order[i] in room.users;
    }
  }
}
