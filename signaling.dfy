/**
 * The signaling server (services/signaling): the session directory kept in
 * the shared store, the point-to-point relay of call set-up messages, and
 * presence. Each event handler is one atomic step on the server state; what
 * the handlers emit is appended to `outbox` in order.
 *
 * SDP offers and answers (RFC 3264) and ICE candidates (RFC 8445) are relayed
 * without being looked at, so they are the type parameters `Sdp` and `Ice`.
 */
module Signaling {
  import opened Wrappers
  import opened KeyValueStore
  import opened SocketAuth

  const SessionTtl: nat := 3600
  const StatusTtl: nat := 3600
  const UserNotAvailable: string := "User not available"
  const FailedToInitiate: string := "Failed to initiate call"
  const FailedToAnswer: string := "Failed to answer call"
  const OfflineStatus: string := "offline"

  /** `user:<id>:socket`, the key of a user's live connection. */
  function SocketKey(userId: string): string {
    "user:" + userId + ":socket"
  }

  /** `user:<id>:status`, the key of a user's presence status. */
  function StatusKey(userId: string): string {
    "user:" + userId + ":status"
  }

  lemma SocketKeyInjective(a: string, b: string)
    requires SocketKey(a) == SocketKey(b)
    ensures a == b
  {
    assert |a| == |b|;
    assert a == SocketKey(a)[5..5 + |a|];
    assert b == SocketKey(b)[5..5 + |b|];
  }

  lemma StatusKeyInjective(a: string, b: string)
    requires StatusKey(a) == StatusKey(b)
    ensures a == b
  {
    assert |a| == |b|;
    assert a == StatusKey(a)[5..5 + |a|];
    assert b == StatusKey(b)[5..5 + |b|];
  }

  /** No session key is ever a status key: they end in different letters. */
  lemma SessionAndStatusKeysDiffer(a: string, b: string)
    ensures SocketKey(a) != StatusKey(b)
  {
    var k1, k2 := SocketKey(a), StatusKey(b);
    assert k1[|k1| - 1] == 't';
    assert k2[|k2| - 1] == 's';
  }

  // ---------------------------------------------------------------------------
  // The session directory, as transformations of the store.

  /** The connection handler's `setEx(user:<id>:socket, 3600, socket.id)`. */
  function Register(m: Store, now: int, userId: string, socketId: string): Store {
    SetEx(m, now, SocketKey(userId), SessionTtl, socketId)
  }

  /** The disconnect handler's `del(user:<id>:socket)`, unconditional. */
  function Unregister(m: Store, userId: string): Store {
    Del(m, SocketKey(userId))
  }

  /** Removes the session only while it still names this connection. */
  function UnregisterIfOwner(m: Store, now: int, userId: string, socketId: string): Store {
    if Get(m, now, SocketKey(userId)) == Some(socketId) then Del(m, SocketKey(userId)) else m
  }

  /** `status || 'offline'` for the live value of `user:<id>:status`. */
  function ReadStatus(m: Store, now: int, userId: string): (status: string)
    ensures status != ""
    ensures status != OfflineStatus ==> Get(m, now, StatusKey(userId)) == Some(status)
    ensures Truthy(Get(m, now, StatusKey(userId))) ==> status == Get(m, now, StatusKey(userId)).value
  {
    var v := Get(m, now, StatusKey(userId));
    if Truthy(v) then v.value else OfflineStatus
  }

  /** After a connection registers, its user resolves to it until the TTL runs out. */
  lemma RegisterThenLookup(m: Store, now: int, userId: string, socketId: string, t: int)
    ensures Get(Register(m, now, userId, socketId), t, SocketKey(userId))
         == if t < now + SessionTtl then Some(socketId) else None
  {
  }

  /** A later connection of the same user overwrites the earlier one: the last write wins. */
  lemma SecondRegistrationWins(m: Store, now1: int, now2: int, userId: string, s1: string, s2: string)
    requires now1 <= now2
    ensures Get(Register(Register(m, now1, userId, s1), now2, userId, s2), now2, SocketKey(userId)) == Some(s2)
  {
  }

  /** Disconnecting never touches any user's status entry. */
  lemma UnregisterKeepsStatus(m: Store, userId: string, other: string, t: int)
    ensures Get(Unregister(m, userId), t, StatusKey(other)) == Get(m, t, StatusKey(other))
  {
    SessionAndStatusKeysDiffer(userId, other);
    GetAfterDelOther(m, SocketKey(userId), t, StatusKey(other));
  }

  /** Disconnecting one user leaves every other user's session as it was. */
  lemma UnregisterKeepsOtherSessions(m: Store, userId: string, other: string, t: int)
    requires userId != other
    ensures Get(Unregister(m, userId), t, SocketKey(other)) == Get(m, t, SocketKey(other))
  {
    if SocketKey(userId) == SocketKey(other) {
      SocketKeyInjective(userId, other);
    }
    GetAfterDelOther(m, SocketKey(userId), t, SocketKey(other));
  }

  /** A status update never touches any user's session entry. */
  lemma StatusWriteKeepsSessions(m: Store, now: int, userId: string, status: string, other: string, t: int)
    ensures Get(SetEx(m, now, StatusKey(userId), StatusTtl, status), t, SocketKey(other))
         == Get(m, t, SocketKey(other))
  {
    SessionAndStatusKeysDiffer(other, userId);
    GetAfterSetExOther(m, now, StatusKey(userId), StatusTtl, status, t, SocketKey(other));
  }

  /** A stored non-empty status is read back until it expires, then "offline". */
  lemma StatusRoundTrip(m: Store, now: int, userId: string, status: string, t: int)
    requires status != ""
    ensures ReadStatus(SetEx(m, now, StatusKey(userId), StatusTtl, status), t, userId)
         == if t < now + StatusTtl then status else OfflineStatus
  {
  }

  /**
   * As written, a connection that closes after the same user has connected
   * again deletes the NEWER session: the user becomes unreachable although
   * its newest connection is open.
   */
  lemma StaleDisconnectEvictsNewerSession(m: Store, now: int, userId: string, s1: string, s2: string)
    requires s1 != s2
    ensures var m2 := Register(Register(m, now, userId, s1), now, userId, s2);
      Get(m2, now, SocketKey(userId)) == Some(s2)
      && Get(Unregister(m2, userId), now, SocketKey(userId)) == None
  {
  }

  /** With the ownership guard, the stale disconnect leaves the newer session in place. */
  lemma GuardedDisconnectKeepsNewerSession(m: Store, now: int, userId: string, s1: string, s2: string)
    requires s1 != s2
    ensures var m2 := Register(Register(m, now, userId, s1), now, userId, s2);
      Get(UnregisterIfOwner(m2, now, userId, s1), now, SocketKey(userId)) == Some(s2)
  {
  }

  /** With the ownership guard, a connection that still owns its session removes it. */
  lemma GuardedDisconnectRemovesOwnSession(m: Store, now: int, userId: string, socketId: string, t: int)
    requires Get(m, now, SocketKey(userId)) == Some(socketId)
    ensures Get(UnregisterIfOwner(m, now, userId, socketId), t, SocketKey(userId)) == None
  {
  }

  // ---------------------------------------------------------------------------
  // Emitted events and Socket.IO delivery.

  /** `socket.emit`, `socket.to(room).emit` and `socket.broadcast.emit`. */
  datatype Destination = ToSender | ToRoom(room: string) | ToOthers

  datatype Message<Sdp, Ice> =
    | CallError(message: string)
    | Offer(offer: Sdp, from: string)
    | Answer(answer: Sdp, from: string)
    | IceCandidate(candidate: Ice, from: string)
    | CallEnded(from: string)
    | UserStatusChanged(userId: string, status: string)

  /** One emitted event: the emitting socket, where it goes, and what it carries. */
  datatype Emission<Sdp, Ice> = Emission(origin: string, dest: Destination, message: Message<Sdp, Ice>)

  /**
   * Whether the socket with id `socketId` receives `e`. Every socket is in
   * the room named by its own id, and both `to(room)` and `broadcast` leave
   * out the emitting socket.
   */
  predicate Delivers<Sdp, Ice>(e: Emission<Sdp, Ice>, socketId: string) {
    match e.dest
    case ToSender => socketId == e.origin
    case ToRoom(room) => socketId == room && socketId != e.origin
    case ToOthers => socketId != e.origin
  }

  lemma ToSenderReachesOnlySender<Sdp, Ice>(origin: string, m: Message<Sdp, Ice>, socketId: string)
    ensures Delivers(Emission(origin, ToSender, m), socketId) <==> socketId == origin
  {
  }

  lemma ToRoomReachesOnlyThatSocket<Sdp, Ice>(origin: string, room: string, m: Message<Sdp, Ice>, socketId: string)
    requires room != origin
    ensures Delivers(Emission(origin, ToRoom(room), m), socketId) <==> socketId == room
  {
  }

  /** A relay addressed to the sender's own connection reaches no one. */
  lemma RelayToSelfReachesNobody<Sdp, Ice>(origin: string, m: Message<Sdp, Ice>, socketId: string)
    ensures !Delivers(Emission(origin, ToRoom(origin), m), socketId)
  {
  }

  datatype StatusReply = StatusReply(userId: string, status: string)

  /** Start-up: `Starting` until the store connection settles, then listening or exited. */
  datatype Phase = Starting | Listening | Exited

  class SignalingServer<Sdp, Ice> {
    var store: Store
    var now: int
    var storeUp: bool
    var phase: Phase
    var outbox: seq<Emission<Sdp, Ice>>

    constructor ()
      ensures store == map[] && now == 0 && !storeUp && phase == Starting && outbox == []
    {
      store := map[];
      now := 0;
      storeUp := false;
      phase := Starting;
      outbox := [];
    }

    /** The connection a user is reachable at: the live, truthy value of its session key. */
    function Resolve(userId: string): (r: Option<string>)
      reads this
      ensures r.Some? ==> r.value != "" && Get(store, now, SocketKey(userId)) == r
      ensures Truthy(Get(store, now, SocketKey(userId))) ==> r == Get(store, now, SocketKey(userId))
    {
      var v := Get(store, now, SocketKey(userId));
      if Truthy(v) then v else None
    }

    /**
     * `startServer`: connect to the store first; listen only once that
     * succeeded, exit the process otherwise.
     */
    method Start(connects: bool)
      requires phase == Starting
      modifies this
      ensures storeUp == connects
      ensures phase == if connects then Listening else Exited
      ensures store == old(store) && now == old(now) && outbox == old(outbox)
    {
      storeUp := connects;
      if connects {
        phase := Listening;
      } else {
        phase := Exited;
      }
    }

    /** The passing of time, which expires store entries. */
    method Tick(seconds: nat)
      modifies this`now
      ensures now == old(now) + seconds
    {
      now := now + seconds;
    }

    /** The store becoming unreachable or reachable again while the server runs. */
    method SetStoreReachable(up: bool)
      modifies this`storeUp
      ensures storeUp == up
    {
      storeUp := up;
    }

    /**
     * A new connection: the authentication middleware runs first, and the
     * connection handler (which registers the session) only when it let the
     * connection through. The write is not awaited, so an unreachable store
     * loses it silently.
     */
    method Accept(socket: Socket, hs: Handshake, verify: string -> Option<Claims>)
      returns (err: Option<string>)
      requires phase == Listening
      modifies this`store, socket
      ensures err.None? <==> Authenticate(hs, verify).Success?
      ensures err.Some? ==> err.value == Authenticate(hs, verify).error
      ensures err.Some? ==> store == old(store)
      ensures err.Some? ==> socket.userId == old(socket.userId) && socket.email == old(socket.email)
      ensures err.None? ==> socket.userId == Some(Authenticate(hs, verify).value.userId)
      ensures err.None? ==>
        store == if storeUp then Register(old(store), now, socket.userId.value, socket.id) else old(store)
    {
      err := AuthenticateSocket(socket, hs, verify);
      if err.None? && storeUp {
        store := Register(store, now, socket.userId.value, socket.id);
      }
    }

    /** The disconnect handler: deletes the user's session key, whatever it points at. */
    method Disconnect(socket: Socket)
      requires socket.Authenticated()
      modifies this`store
      ensures store == if storeUp then Unregister(old(store), socket.userId.value) else old(store)
    {
      if storeUp {
        store := Unregister(store, socket.userId.value);
      }
    }

    /** The disconnect handler with the ownership guard it evidently needs. */
    method DisconnectGuarded(socket: Socket)
      requires socket.Authenticated()
      modifies this`store
      ensures store == if storeUp then UnregisterIfOwner(old(store), now, socket.userId.value, socket.id)
                       else old(store)
    {
      if storeUp {
        store := UnregisterIfOwner(store, now, socket.userId.value, socket.id);
      }
    }

    /**
     * `call {target, offer}`: forwards `offer {offer, from}` to the target's
     * connection, or reports `call-error` to the sender.
     */
    method Call(socket: Socket, target: string, offer: Sdp)
      requires socket.Authenticated()
      modifies this`outbox
      ensures store == old(store)
      ensures !storeUp ==>
        outbox == old(outbox) + [Emission(socket.id, ToSender, CallError(FailedToInitiate))]
      ensures storeUp && Resolve(target).None? ==>
        outbox == old(outbox) + [Emission(socket.id, ToSender, CallError(UserNotAvailable))]
      ensures storeUp && Resolve(target).Some? ==>
        outbox == old(outbox)
                  + [Emission(socket.id, ToRoom(Resolve(target).value), Offer(offer, socket.userId.value))]
    {
      if !storeUp {
        outbox := outbox + [Emission(socket.id, ToSender, CallError(FailedToInitiate))];
        return;
      }
      var targetSocket := Resolve(target);
      if targetSocket.None? {
        outbox := outbox + [Emission(socket.id, ToSender, CallError(UserNotAvailable))];
        return;
      }
      outbox := outbox + [Emission(socket.id, ToRoom(targetSocket.value), Offer(offer, socket.userId.value))];
    }

    /** `answer {to, answer}`: forwards `answer {answer, from}`, or reports `call-error`. */
    method Answer(socket: Socket, to: string, answer: Sdp)
      requires socket.Authenticated()
      modifies this`outbox
      ensures store == old(store)
      ensures !storeUp ==>
        outbox == old(outbox) + [Emission(socket.id, ToSender, CallError(FailedToAnswer))]
      ensures storeUp && Resolve(to).None? ==>
        outbox == old(outbox) + [Emission(socket.id, ToSender, CallError(UserNotAvailable))]
      ensures storeUp && Resolve(to).Some? ==>
        outbox == old(outbox)
                  + [Emission(socket.id, ToRoom(Resolve(to).value), Message.Answer(answer, socket.userId.value))]
    {
      if !storeUp {
        outbox := outbox + [Emission(socket.id, ToSender, CallError(FailedToAnswer))];
        return;
      }
      var targetSocket := Resolve(to);
      if targetSocket.None? {
        outbox := outbox + [Emission(socket.id, ToSender, CallError(UserNotAvailable))];
        return;
      }
      outbox := outbox + [Emission(socket.id, ToRoom(targetSocket.value), Message.Answer(answer, socket.userId.value))];
    }

    /** `ice-candidate {to, candidate}`: forwarded when the target resolves, silently dropped otherwise. */
    method RelayIceCandidate(socket: Socket, to: string, candidate: Ice)
      requires socket.Authenticated()
      modifies this`outbox
      ensures store == old(store)
      ensures !(storeUp && Resolve(to).Some?) ==> outbox == old(outbox)
      ensures storeUp && Resolve(to).Some? ==>
        outbox == old(outbox)
                  + [Emission(socket.id, ToRoom(Resolve(to).value), IceCandidate(candidate, socket.userId.value))]
    {
      if !storeUp {
        return;
      }
      var targetSocket := Resolve(to);
      if targetSocket.None? {
        return;
      }
      outbox := outbox + [Emission(socket.id, ToRoom(targetSocket.value), IceCandidate(candidate, socket.userId.value))];
    }

    /** `end-call {to}`: `call-ended {from}` to the target when it resolves, nothing otherwise. */
    method EndCall(socket: Socket, to: string)
      requires socket.Authenticated()
      modifies this`outbox
      ensures store == old(store)
      ensures !(storeUp && Resolve(to).Some?) ==> outbox == old(outbox)
      ensures storeUp && Resolve(to).Some? ==>
        outbox == old(outbox) + [Emission(socket.id, ToRoom(Resolve(to).value), CallEnded(socket.userId.value))]
    {
      if !storeUp {
        return;
      }
      var targetSocket := Resolve(to);
      if targetSocket.None? {
        return;
      }
      outbox := outbox + [Emission(socket.id, ToRoom(targetSocket.value), CallEnded(socket.userId.value))];
    }

    /**
     * `status-update {status}`: stores the status for an hour and broadcasts
     * `user-status-changed` to every other connection; when the write fails
     * nothing is broadcast. The status is not checked against the declared
     * values.
     */
    method StatusUpdate(socket: Socket, status: string)
      requires socket.Authenticated()
      modifies this`store, this`outbox
      ensures !storeUp ==> store == old(store) && outbox == old(outbox)
      ensures storeUp ==>
        store == SetEx(old(store), now, StatusKey(socket.userId.value), StatusTtl, status)
      ensures storeUp ==>
        outbox == old(outbox)
                  + [Emission(socket.id, ToOthers, UserStatusChanged(socket.userId.value, status))]
    {
      if !storeUp {
        return;
      }
      store := SetEx(store, now, StatusKey(socket.userId.value), StatusTtl, status);
      outbox := outbox + [Emission(socket.id, ToOthers, UserStatusChanged(socket.userId.value, status))];
    }

    /** `get-user-status {userId}`: the acknowledgement sent back to the asker. */
    method GetUserStatus(userId: string) returns (reply: StatusReply)
      ensures reply.userId == userId
      ensures reply.status == if storeUp then ReadStatus(store, now, userId) else OfflineStatus
    {
      if !storeUp {
        return StatusReply(userId, OfflineStatus);
      }
      reply := StatusReply(userId, ReadStatus(store, now, userId));
    }
  }
}
