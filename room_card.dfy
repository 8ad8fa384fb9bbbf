/**
 * The decisions of src/components/RoomCard.jsx: ownership, membership,
 * the Enter-or-Request-Join control and the displayed member count.
 */
module RoomCard {
  import opened Wire

  /** `room.owner?._id === user._id`: false when the room has no owner. */
  function IsOwner(room: Room, user: User): (r: bool)
    ensures r <==> room.owner == Some(user.id)
  {
    room.owner.Some? && room.owner.value == user.id
  }

  /** The key a member is compared by: `m._id ? m._id.toString() :
      m.toString()`. A populated member whose `_id` is the empty string
      (falsy) falls back to the object's own text, "[object Object]". */
  function MemberKey(m: Member): string
  {
    match m
    case Populated(id) => if id != "" then id else "[object Object]"
    case Bare(ref) => ref
  }

  /** `members.some(m => MemberKey(m) === id)`. */
  function AnyMemberHasKey(members: seq<Member>, id: Id): (r: bool)
    ensures r <==> exists k :: 0 <= k < |members| && MemberKey(members[k]) == id
  {
    if members == [] then false
    else MemberKey(members[0]) == id || AnyMemberHasKey(members[1..], id)
  }

  /** `room.members?.some(...)`: false (undefined) without a member list. */
  function IsMember(room: Room, user: User): (r: bool)
    ensures room.members.None? ==> !r
    ensures room.members.Some? ==>
      (r <==> exists k :: 0 <= k < |room.members.value| && MemberKey(room.members.value[k]) == user.id)
  {
    room.members.Some? && AnyMemberHasKey(room.members.value, user.id)
  }

  /** For any real user id (neither empty nor "[object Object]"),
      membership is "some member, populated or bare, carries this id". */
  lemma IsMemberById(room: Room, user: User)
    requires user.id != "" && user.id != "[object Object]" && room.members.Some?
    ensures IsMember(room, user) <==>
      exists k :: 0 <= k < |room.members.value| &&
        (match room.members.value[k]
         case Populated(id) => id == user.id
         case Bare(ref) => ref == user.id)
  {
    var ms := room.members.value;
    if IsMember(room, user) {
      var k :| 0 <= k < |ms| && MemberKey(ms[k]) == user.id;
      assert match ms[k] case Populated(id) => id == user.id case Bare(ref) => ref == user.id;
    }
  }

  /** The control the card offers. */
  datatype Control = Enter(link: string) | RequestJoin

  /** `isMember || isOwner ? <Link to="/room/:id">Enter</Link> : Request Join`. */
  function EntryControl(room: Room, user: User): (r: Control)
    ensures r.Enter? <==> IsMember(room, user) || IsOwner(room, user)
    ensures r.Enter? ==> r.link == "/room/" + room.id
  {
    if IsMember(room, user) || IsOwner(room, user) then Enter("/room/" + room.id) else RequestJoin
  }

  /** `room.members?.length || 1`: an absent or empty list shows 1. */
  function MemberCount(room: Room): (r: nat)
    ensures r >= 1
    ensures room.members.Some? && |room.members.value| > 0 ==> r == |room.members.value|
    ensures room.members.None? || |room.members.value| == 0 ==> r == 1
  {
    if room.members.None? || |room.members.value| == 0 then 1 else |room.members.value|
  }
}
