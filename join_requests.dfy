/**
 * The owner's join-request list of src/pages/JoinRequests.jsx: the rooms
 * this user owns are looked up one by one and their requesters flattened
 * into one list of entries; each entry's Accept/Reject posts to a URL
 * built from the room, the action and the requester.
 */
module JoinRequests {
  import opened Wire

  datatype Action = Accept | Reject

  /** One row of the list. */
  datatype Entry = Entry(roomId: Id, roomName: string, userId: Id, username: string)

  /** `res.data.filter(room => room.owner?._id === user?._id)`; when there
      is no user, the rooms without an owner match (both sides undefined). */
  function Owned(rooms: seq<Room>, userId: Option<Id>): (r: seq<Room>)
    ensures |r| <= |rooms|
    ensures forall k :: 0 <= k < |r| ==> r[k] in rooms && r[k].owner == userId
    ensures forall k :: 0 <= k < |rooms| && rooms[k].owner == userId ==> rooms[k] in r
  {
    if rooms == [] then []
    else (if rooms[0].owner == userId then [rooms[0]] else []) + Owned(rooms[1..], userId)
  }

  /** One room is kept exactly when its owner is the user. */
  lemma OwnedSingle(room: Room, userId: Option<Id>)
    ensures Owned([room], userId) == if room.owner == userId then [room] else []
  {
    assert [room][1..] == [];
  }

  /** The filter keeps order and repeats: it splits over concatenation, so
      the result is the subsequence of the user's rooms. */
  lemma {:induction false} OwnedAppend(a: seq<Room>, b: seq<Room>, userId: Option<Id>)
    ensures Owned(a + b, userId) == Owned(a, userId) + Owned(b, userId)
  {
    if a == [] {
      assert a + b == b;
    } else {
      assert (a + b)[0] == a[0];
      assert (a + b)[1..] == a[1..] + b;
      OwnedAppend(a[1..], b, userId);
    }
  }

  /** When the user owns every room, all of them are kept, in order; when
      none, nothing is. */
  lemma {:induction false} OwnedAllOrNone(rooms: seq<Room>, userId: Option<Id>)
    ensures (forall k :: 0 <= k < |rooms| ==> rooms[k].owner == userId) ==> Owned(rooms, userId) == rooms
    ensures (forall k :: 0 <= k < |rooms| ==> rooms[k].owner != userId) ==> Owned(rooms, userId) == []
  {
    if rooms != [] {
      OwnedAllOrNone(rooms[1..], userId);
      assert forall k :: 0 <= k < |rooms[1..]| ==> rooms[1..][k] == rooms[k + 1];
    }
  }

  /** The entries one room contributes, in the order of its requests. */
  function EntriesFor(room: Room, requesters: seq<Requester>): (r: seq<Entry>)
    ensures |r| == |requesters|
    ensures forall j :: 0 <= j < |r| ==>
      r[j] == Entry(room.id, room.name, requesters[j].id, requesters[j].username)
  {
    if requesters == [] then []
    else
      var n := |requesters| - 1;
      EntriesFor(room, requesters[..n]) + [Entry(room.id, room.name, requesters[n].id, requesters[n].username)]
  }

  /** Every owned room's details were fetched: `details` maps a room id to
      the `requests` of `GET /rooms/:id`; a missing id is a failed fetch. */
  predicate AllFetched(owned: seq<Room>, details: map<Id, seq<Requester>>)
  {
    forall k :: 0 <= k < |owned| ==> owned[k].id in details
  }

  /** The list the loop builds: room by room, request by request. */
  function Flatten(owned: seq<Room>, details: map<Id, seq<Requester>>): seq<Entry>
    requires AllFetched(owned, details)
  {
    if owned == [] then []
    else
      var n := |owned| - 1;
      Flatten(owned[..n], details) + EntriesFor(owned[n], details[owned[n].id])
  }

  /** The number of requests over the owned rooms. */
  function RequestCount(owned: seq<Room>, details: map<Id, seq<Requester>>): nat
    requires AllFetched(owned, details)
  {
    if owned == [] then 0
    else
      var n := |owned| - 1;
      RequestCount(owned[..n], details) + |details[owned[n].id]|
  }

  /** One entry per (room, requester) pair: the length is the request count. */
  lemma {:induction false} FlattenLength(owned: seq<Room>, details: map<Id, seq<Requester>>)
    requires AllFetched(owned, details)
    ensures |Flatten(owned, details)| == RequestCount(owned, details)
  {
    if owned != [] {
      var n := |owned| - 1;
      assert AllFetched(owned[..n], details);
      FlattenLength(owned[..n], details);
    }
  }

  /** Fetched rooms stay fetched under concatenation and truncation. */
  lemma AllFetchedAppend(a: seq<Room>, b: seq<Room>, details: map<Id, seq<Requester>>)
    requires AllFetched(a, details) && AllFetched(b, details)
    ensures AllFetched(a + b, details)
  {
    forall k | 0 <= k < |a + b| ensures (a + b)[k].id in details {
      if k >= |a| { assert (a + b)[k] == b[k - |a|]; }
    }
  }

  /** Rooms come in their order: the list for `a + b` is `a`'s then `b`'s. */
  lemma {:induction false} FlattenAppend(a: seq<Room>, b: seq<Room>, details: map<Id, seq<Requester>>)
    requires AllFetched(a, details) && AllFetched(b, details)
    ensures AllFetched(a + b, details)
    ensures Flatten(a + b, details) == Flatten(a, details) + Flatten(b, details)
    decreases |b|
  {
    AllFetchedAppend(a, b, details);
    if b == [] {
      assert a + b == a;
    } else {
      var n := |b| - 1;
      var ab := a + b;
      var front := b[..n];
      assert ab[..|ab| - 1] == a + front;
      assert ab[|ab| - 1] == b[n];
      assert AllFetched(front, details);
      FlattenAppend(a, front, details);
      var tail := EntriesFor(b[n], details[b[n].id]);
      assert Flatten(ab, details) == Flatten(a + front, details) + tail;
      assert Flatten(b, details) == Flatten(front, details) + tail;
    }
  }

  /** A single room's part is its requesters, in order. */
  lemma FlattenSingle(room: Room, details: map<Id, seq<Requester>>)
    requires room.id in details
    ensures AllFetched([room], details)
    ensures Flatten([room], details) == EntriesFor(room, details[room.id])
  {
    assert [room][..0] == [];
  }

  /** The order is by room, then by request: the `j`-th requester of the
      `i`-th owned room sits after all requests of the rooms before it. */
  lemma FlattenIndex(owned: seq<Room>, details: map<Id, seq<Requester>>, i: int, j: int)
    requires AllFetched(owned, details)
    requires 0 <= i < |owned| && 0 <= j < |details[owned[i].id]|
    ensures AllFetched(owned[..i], details)
    ensures RequestCount(owned[..i], details) + j < |Flatten(owned, details)|
    ensures Flatten(owned, details)[RequestCount(owned[..i], details) + j] ==
      Entry(owned[i].id, owned[i].name, details[owned[i].id][j].id, details[owned[i].id][j].username)
  {
    var before, rest := owned[..i], owned[i..];
    var after := owned[i + 1..];
    assert owned == before + rest;
    assert rest == [owned[i]] + after;
    assert AllFetched(before, details) && AllFetched(rest, details) && AllFetched(after, details);
    FlattenSingle(owned[i], details);
    FlattenAppend([owned[i]], after, details);
    FlattenAppend(before, rest, details);
    FlattenLength(before, details);
    var entries := EntriesFor(owned[i], details[owned[i].id]);
    assert Flatten(owned, details) == Flatten(before, details) + (entries + Flatten(after, details));
  }

  /** `e` is the entry of the `j`-th requester of the `i`-th owned room. */
  predicate PairedAt(owned: seq<Room>, details: map<Id, seq<Requester>>, e: Entry, i: int, j: int)
    requires AllFetched(owned, details)
  {
    && 0 <= i < |owned|
    && 0 <= j < |details[owned[i].id]|
    && e == Entry(owned[i].id, owned[i].name, details[owned[i].id][j].id, details[owned[i].id][j].username)
  }

  /** Every entry of the list pairs an owned room with one of its requesters. */
  lemma {:induction false} FlattenSound(owned: seq<Room>, details: map<Id, seq<Requester>>, e: Entry)
    requires AllFetched(owned, details)
    requires e in Flatten(owned, details)
    ensures exists i, j :: PairedAt(owned, details, e, i, j)
  {
    var n := |owned| - 1;
    var front := owned[..n];
    assert AllFetched(front, details);
    var last := EntriesFor(owned[n], details[owned[n].id]);
    if e in Flatten(front, details) {
      FlattenSound(front, details, e);
      var i, j :| PairedAt(front, details, e, i, j);
      assert front[i] == owned[i];
      assert PairedAt(owned, details, e, i, j);
    } else {
      assert e in last;
      var j :| 0 <= j < |last| && last[j] == e;
      assert PairedAt(owned, details, e, n, j);
    }
  }

  /** Every pair of an owned room and one of its requesters is in the list. */
  lemma {:induction false} FlattenComplete(owned: seq<Room>, details: map<Id, seq<Requester>>, e: Entry, i: int, j: int)
    requires AllFetched(owned, details)
    requires PairedAt(owned, details, e, i, j)
    ensures e in Flatten(owned, details)
  {
    var n := |owned| - 1;
    var front := owned[..n];
    assert AllFetched(front, details);
    var last := EntriesFor(owned[n], details[owned[n].id]);
    assert Flatten(owned, details) == Flatten(front, details) + last;
    if i < n {
      assert front[i] == owned[i];
      assert PairedAt(front, details, e, i, j);
      FlattenComplete(front, details, e, i, j);
    } else {
      assert last[j] == e;
    }
  }

  /** An entry is in the list exactly when it pairs an owned room with one
      of that room's requesters, carrying their ids and names. */
  lemma FlattenMembers(owned: seq<Room>, details: map<Id, seq<Requester>>, e: Entry)
    requires AllFetched(owned, details)
    ensures e in Flatten(owned, details) <==> exists i, j :: PairedAt(owned, details, e, i, j)
  {
    if e in Flatten(owned, details) {
      FlattenSound(owned, details, e);
    }
    if exists i, j :: PairedAt(owned, details, e, i, j) {
      var i, j :| PairedAt(owned, details, e, i, j);
      FlattenComplete(owned, details, e, i, j);
    }
  }

  /** Only rooms this user owns contribute: every entry names a room of the
      fetched list whose owner is the user. */
  lemma OnlyOwnedRoomsContribute(rooms: seq<Room>, userId: Option<Id>, details: map<Id, seq<Requester>>, e: Entry)
    requires AllFetched(Owned(rooms, userId), details)
    requires e in Flatten(Owned(rooms, userId), details)
    ensures exists room :: room in rooms && room.owner == userId && room.id == e.roomId && room.name == e.roomName
  {
    var owned := Owned(rooms, userId);
    FlattenSound(owned, details, e);
    var i, j :| PairedAt(owned, details, e, i, j);
    assert owned[i] in rooms && owned[i].owner == userId;
  }

  /** The `for ... of` over the owned rooms with its inner `forEach`: `None`
      as soon as a room's details cannot be fetched (the `await` throws),
      otherwise the flattened list. */
  method CollectPending(owned: seq<Room>, details: map<Id, seq<Requester>>) returns (result: Option<seq<Entry>>)
    ensures result.Some? <==> AllFetched(owned, details)
    ensures result.Some? ==> result.value == Flatten(owned, details)
  {
    var pending: seq<Entry> := [];
    var i := 0;
    while i < |owned|
      invariant 0 <= i <= |owned|
      invariant AllFetched(owned[..i], details)
      invariant pending == Flatten(owned[..i], details)
    {
      var room := owned[i];
      if room.id !in details {
        return None;
      }
      var requesters := details[room.id];
      var j := 0;
      while j < |requesters|
        invariant 0 <= j <= |requesters|
        invariant pending == Flatten(owned[..i], details) + EntriesFor(room, requesters[..j])
      {
        assert requesters[..j + 1][..j] == requesters[..j];
        pending := pending + [Entry(room.id, room.name, requesters[j].id, requesters[j].username)];
        j := j + 1;
      }
      assert requesters[..j] == requesters;
      assert owned[..i + 1][..i] == owned[..i];
      assert AllFetched(owned[..i + 1], details);
      i := i + 1;
    }
    assert owned[..i] == owned;
    result := Some(pending);
  }

  class Page {
    var requests: seq<Entry>
    var loading: bool
    /** The action URLs posted so far. */
    var posts: seq<string>

    constructor ()
      ensures requests == [] && loading && posts == []
    {
      requests := [];
      loading := true;
      posts := [];
    }

    /** `fetchRequests`: `rooms` is the response of `GET /rooms` (`None`
        when it throws). Any failure keeps the stored list; loading ends in
        every case. */
    method FetchRequests(user: Option<User>, rooms: Option<seq<Room>>, details: map<Id, seq<Requester>>)
      modifies this`requests, this`loading
      ensures !loading
      ensures rooms.None? ==> requests == old(requests)
      ensures rooms.Some? ==>
        var owned := Owned(rooms.value, UserId(user));
        && (AllFetched(owned, details) ==> requests == Flatten(owned, details))
        && (!AllFetched(owned, details) ==> requests == old(requests))
    {
      if rooms.Some? {
        var owned := Owned(rooms.value, UserId(user));
        var pending := CollectPending(owned, details);
        if pending.Some? {
          requests := pending.value;
        }
      }
      loading := false;
    }

    /** `handleAction`: posts the action's URL; once the post succeeds the
        list is fetched again, and a failed post changes nothing more. */
    method HandleAction(roomId: Id, userId: Id, action: Action, posted: bool,
                        user: Option<User>, rooms: Option<seq<Room>>, details: map<Id, seq<Requester>>)
      modifies this
      ensures posts == old(posts) + [ActionUrl(roomId, action, userId)]
      ensures !posted ==> requests == old(requests) && loading == old(loading)
      ensures posted ==> !loading
      ensures posted && rooms.Some? && AllFetched(Owned(rooms.value, UserId(user)), details) ==>
        requests == Flatten(Owned(rooms.value, UserId(user)), details)
      ensures posted && (rooms.None? || !AllFetched(Owned(rooms.value, UserId(user)), details)) ==>
        requests == old(requests)
    {
      posts := posts + [ActionUrl(roomId, action, userId)];
      if posted {
        FetchRequests(user, rooms, details);
      }
    }
  }

  function ActionName(action: Action): string
  {
    match action
    case Accept => "accept"
    case Reject => "reject"
  }

  /** `/rooms/${roomId}/${action}/${userId}`. */
  function ActionUrl(roomId: Id, action: Action, userId: Id): string
  {
    "/rooms/" + roomId + "/" + ActionName(action) + "/" + userId
  }

  datatype ActionTarget = ActionTarget(roomId: Id, action: Action, userId: Id)

  /** The first index of `c` in `s`, or `|s|` when there is none. */
  function IndexOf(s: string, c: char): (r: nat)
    ensures r <= |s|
    ensures r < |s| ==> s[r] == c
    ensures forall k :: 0 <= k < r ==> s[k] != c
  {
    if s == [] then 0 else if s[0] == c then 0 else 1 + IndexOf(s[1..], c)
  }

  /** The text before and after the first slash, if there is one. */
  function SplitAtSlash(s: string): (r: Option<(string, string)>)
    ensures r.Some? ==> s == r.value.0 + "/" + r.value.1
  {
    var i := IndexOf(s, '/');
    if i == |s| then None
    else
      assert s == s[..i] + "/" + s[i + 1..];
      Some((s[..i], s[i + 1..]))
  }

  function ParseAction(name: string): Option<Action>
  {
    if name == "accept" then Some(Accept) else if name == "reject" then Some(Reject) else None
  }

  /** Reads a URL of the shape `/rooms/:roomId/:action/:userId` back, as a
      route with those three parameters would. */
  function ParseActionUrl(url: string): Option<ActionTarget>
  {
    if |url| < 7 || url[..7] != "/rooms/" then None
    else
      var first := SplitAtSlash(url[7..]);
      if first.None? then None
      else
        var second := SplitAtSlash(first.value.1);
        if second.None? then None
        else
          var action := ParseAction(second.value.0);
          if action.None? then None
          else Some(ActionTarget(first.value.0, action.value, second.value.1))
  }

  /** The first slash of `s + "/" + t` follows `s` when `s` has none. */
  lemma {:induction false} IndexOfSlash(s: string, t: string)
    requires forall k :: 0 <= k < |s| ==> s[k] != '/'
    ensures IndexOf(s + "/" + t, '/') == |s|
  {
    if s != [] {
      assert (s + "/" + t)[1..] == s[1..] + "/" + t;
      IndexOfSlash(s[1..], t);
    }
  }

  /** Splitting `s + "/" + t` gives `s` and `t` back when `s` has no slash. */
  lemma SplitJoined(s: string, t: string)
    requires forall k :: 0 <= k < |s| ==> s[k] != '/'
    ensures SplitAtSlash(s + "/" + t) == Some((s, t))
  {
    IndexOfSlash(s, t);
    var u := s + "/" + t;
    assert u[..|s|] == s;
    assert u[|s| + 1..] == t;
  }

  /** The URL names its room, action and requester unambiguously: reading
      it back gives them again, for any room id without a slash. */
  lemma ActionUrlRoundTrip(roomId: Id, action: Action, userId: Id)
    requires forall k :: 0 <= k < |roomId| ==> roomId[k] != '/'
    ensures ParseActionUrl(ActionUrl(roomId, action, userId)) == Some(ActionTarget(roomId, action, userId))
  {
    var name := ActionName(action);
    var tail := name + "/" + userId;
    var url := ActionUrl(roomId, action, userId);
    assert url[..7] == "/rooms/";
    assert url[7..] == roomId + "/" + tail;
    SplitJoined(roomId, tail);
    assert forall k :: 0 <= k < |name| ==> name[k] != '/';
    SplitJoined(name, userId);
    assert ParseAction(name) == Some(action);
  }
}
