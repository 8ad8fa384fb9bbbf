/**
 * The socket provider of src/context/SocketContext.jsx: it owns the
 * device's socket and the `isHost` role register, which only the server's
 * "host-status" event sets.
 */
module SocketContext {
  import opened Wire

  /** What the provider reacts to: a change of logged-in user (its effect),
      and the events it subscribes to on the socket. */
  datatype Event =
    | UserChanged(user: Option<User>)
    | HostStatus(status: bool)
    | Connected
    | ConnectError

  /** The role after one event: only "host-status" writes it, verbatim. */
  function StepRole(isHost: bool, e: Event): bool
  {
    if e.HostStatus? then e.status else isHost
  }

  /** The role after a sequence of events, starting from `init`. */
  function RoleAfter(init: bool, es: seq<Event>): bool
  {
    if es == [] then init else StepRole(RoleAfter(init, es[..|es| - 1]), es[|es| - 1])
  }

  /** Without any "host-status" event the role keeps its value. */
  lemma {:induction false} RoleWithoutHostStatus(init: bool, es: seq<Event>)
    requires forall k :: 0 <= k < |es| ==> !es[k].HostStatus?
    ensures RoleAfter(init, es) == init
  {
    if es != [] {
      RoleWithoutHostStatus(init, es[..|es| - 1]);
    }
  }

  /** After events whose last "host-status" is at index `i`, the role is the
      value that event carried, whatever came before it. */
  lemma {:induction false} RoleIsLastHostStatus(init: bool, es: seq<Event>, i: nat)
    requires i < |es| && es[i].HostStatus?
    requires forall k :: i < k < |es| ==> !es[k].HostStatus?
    ensures RoleAfter(init, es) == es[i].status
  {
    if i < |es| - 1 {
      RoleIsLastHostStatus(init, es[..|es| - 1], i);
    }
  }

  class SocketProvider {
    /** `socket !== null`: a socket has been created. */
    var hasSocket: bool
    /** The role register `isHost`. */
    var isHost: bool
    /** Every message this device has emitted on its socket, in order. */
    var outbox: seq<Msg>

    /** A role can only have come from a socket. */
    ghost predicate Valid()
      reads this
    {
      isHost ==> hasSocket
    }

    /** `useState(null)` and `useState(false)`: no socket, not host. */
    constructor ()
      ensures Valid()
      ensures !hasSocket && !isHost && outbox == []
    {
      hasSocket := false;
      isHost := false;
      outbox := [];
    }

    /** The effect keyed on `user`: with no user it returns before creating
        a socket; otherwise it creates one (the previous one, if any, is
        disconnected by the effect's cleanup; the role register is kept). */
    method OnUser(user: Option<User>)
      requires Valid()
      modifies this`hasSocket
      ensures Valid()
      ensures user.None? ==> hasSocket == old(hasSocket)
      ensures user.Some? ==> hasSocket
    {
      if user.None? {
        return;
      }
      hasSocket := true;
    }

    /** The "host-status" handler: `setIsHost(status)`. */
    method OnHostStatus(status: bool)
      requires Valid() && hasSocket
      modifies this`isHost
      ensures Valid()
      ensures isHost == status
    {
      isHost := status;
    }

    /** Dispatches one event to the provider; "connect" and "connect_error"
        only log. The role follows `StepRole`. */
    method Handle(e: Event)
      requires Valid()
      requires e.HostStatus? ==> hasSocket
      modifies this`hasSocket, this`isHost
      ensures Valid()
      ensures isHost == StepRole(old(isHost), e)
      ensures hasSocket == (old(hasSocket) || (e.UserChanged? && e.user.Some?))
    {
      match e
      case UserChanged(u) => OnUser(u);
      case HostStatus(s) => OnHostStatus(s);
      case Connected =>
      case ConnectError =>
    }

    /** `socket.emit(...)`: appends exactly one message. */
    method Emit(m: Msg)
      requires hasSocket
      modifies this`outbox
      ensures outbox == old(outbox) + [m]
    {
      outbox := outbox + [m];
    }
  }
}
