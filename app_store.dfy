/** The front end's global store (vitereact/src/store/main.tsx): the signed-in user and
    their token, the notification list, the real-time socket and a few UI flags. Every
    action replaces some fields with `set()`; the store is persisted to local storage
    without its volatile members. */
module AppStore {
  import opened Common
  import ServerData

  datatype AuthUser = AuthUser(id: string, email: string, role: ServerData.Role, verified: bool)

  datatype ScreenSize = XS | SM | MD | LG | XL

  datatype NoticeKind = Success | Failure | Info

  /** `NotificationItem`; `push_notification` receives one without its `id`. */
  datatype Notice = Notice(kind: NoticeKind, title: string, body: string, autoClose: Option<int>)
  datatype NotificationItem = NotificationItem(id: string, notice: Notice)

  /** A socket.io client: the token it authenticated with, and whether its connection
      is up (which happens later than `io()` returns). */
  datatype Socket = Socket(token: string, connected: bool)

  // ---------------------------------------------------------------------------
  // The notification list

  /** `[...notifications, { ...item, id }]` (lines 104-109). */
  function Pushed(ns: seq<NotificationItem>, item: Notice, id: string): (r: seq<NotificationItem>)
    ensures |r| == |ns| + 1 && r[..|ns|] == ns
    ensures r[|ns|].id == id && r[|ns|].notice == item
  {
    ns + [NotificationItem(id, item)]
  }

  /** `notifications.filter((n) => n.id !== id)` (lines 110-113). */
  function Popped(ns: seq<NotificationItem>, id: string): (r: seq<NotificationItem>)
    ensures |r| <= |ns|
    ensures forall n :: n in r <==> n in ns && n.id != id
  {
    Filter(ns, (n: NotificationItem) => n.id != id)
  }

  predicate IdUsed(ns: seq<NotificationItem>, id: string) {
    exists i :: 0 <= i < |ns| && ns[i].id == id
  }

  /** Dismissing a notification that was just pushed under a fresh id restores the
      list exactly, order included. */
  lemma PopUndoesPush(ns: seq<NotificationItem>, item: Notice, id: string)
    requires !IdUsed(ns, id)
    ensures Popped(Pushed(ns, item, id), id) == ns
  {
    var p := (n: NotificationItem) => n.id != id;
    FilterConcat(ns, [NotificationItem(id, item)], p);
    FilterAll(ns, p);
    assert Filter([NotificationItem(id, item)], p) == [];
  }

  /** Dismissing keeps the other notifications in order: dismissing an id that is not
      in the list changes nothing, and dismissing twice is dismissing once. */
  lemma PopUnknownAndTwice(ns: seq<NotificationItem>, id: string)
    ensures !IdUsed(ns, id) ==> Popped(ns, id) == ns
    ensures Popped(Popped(ns, id), id) == Popped(ns, id)
  {
    var p := (n: NotificationItem) => n.id != id;
    if !IdUsed(ns, id) {
      FilterAll(ns, p);
    }
    var r := Popped(ns, id);
    assert forall i :: 0 <= i < |r| ==> r[i] in r;
    FilterAll(r, p);
  }

  /** Dismissing removes as many items as carry the id, and pushing another id does
      not change which items a later dismissal removes. */
  lemma PopCommutesWithPush(ns: seq<NotificationItem>, item: Notice, id: string, other: string)
    requires id != other
    ensures Popped(Pushed(ns, item, other), id) == Pushed(Popped(ns, id), item, other)
  {
    var p := (n: NotificationItem) => n.id != id;
    FilterConcat(ns, [NotificationItem(other, item)], p);
  }

  // ---------------------------------------------------------------------------
  // Persistence

  const Volatile: seq<string> := ["api_client", "ws_socket"]

  /** `partialize` (lines 134-141): the entries of the state whose key is not volatile,
      in their original order. */
  function Partialize(keys: seq<string>): (r: seq<string>)
    ensures |r| <= |keys|
    ensures forall k :: k in r <==> k in keys && k !in Volatile
  {
    Filter(keys, (k: string) => k !in Volatile)
  }

  const DataKeys: seq<string> := ["auth_user", "access_token", "screen_size", "notifications", "stripe_script_loaded"]
  const ActionKeys: seq<string> := ["set_auth_user", "clear_auth_user", "set_screen_size", "push_notification",
                                    "pop_notification", "mark_stripe_loaded", "open_ws_connection", "close_ws_connection"]
  const SessionKeys: seq<string> := ["ws_socket", "api_client"]

  /** The members of the store object, in the order it declares them (lines 72-130):
      the data fields, the socket and the API client, then the actions. */
  const StoreKeys: seq<string> := DataKeys + SessionKeys + ActionKeys

  lemma DataKeysKept()
    ensures Partialize(DataKeys) == DataKeys
  {
    assert forall i :: 0 <= i < |DataKeys| ==> DataKeys[i] !in Volatile;
    FilterAll(DataKeys, (k: string) => k !in Volatile);
  }

  lemma ActionKeysKept()
    ensures Partialize(ActionKeys) == ActionKeys
  {
    assert forall i :: 0 <= i < |ActionKeys| ==> ActionKeys[i] !in Volatile;
    FilterAll(ActionKeys, (k: string) => k !in Volatile);
  }

  lemma PartializeConcat(a: seq<string>, b: seq<string>)
    ensures Partialize(a + b) == Partialize(a) + Partialize(b)
  {
    FilterConcat(a, b, (k: string) => k !in Volatile);
  }

  lemma SessionKeysDropped()
    ensures Partialize(SessionKeys) == []
  {
    assert SessionKeys[0] in Volatile && SessionKeys[1] in Volatile;
    assert SessionKeys[1..][1..] == [];
  }

  /** `partialize` drops exactly the API client and the socket and keeps every other
      member in order; the actions it keeps are functions, which the JSON storage leaves
      out, so only the data keys reach localStorage. */
  lemma PersistedKeys()
    ensures Partialize(StoreKeys) == DataKeys + ActionKeys
    ensures |StoreKeys| - |Partialize(StoreKeys)| == |SessionKeys|
  {
    DataKeysKept();
    ActionKeysKept();
    SessionKeysDropped();
    PartializeDropsMiddle(DataKeys, SessionKeys, ActionKeys);
  }

  lemma PartializeDropsMiddle(a: seq<string>, b: seq<string>, c: seq<string>)
    requires Partialize(a) == a && Partialize(b) == [] && Partialize(c) == c
    ensures Partialize(a + b + c) == a + c
    ensures |a + b + c| - |Partialize(a + b + c)| == |b|
  {
    PartializeConcat(a, b);
    assert Partialize(a + b) == a + [] == a;
    PartializeConcat(a + b, c);
  }

  // ---------------------------------------------------------------------------
  // The store

  class Store {
    var authUser: Option<AuthUser>
    var accessToken: Option<string>
    var screenSize: ScreenSize
    var notifications: seq<NotificationItem>
    var stripeLoaded: bool
    var socket: Option<Socket>
    /** Tokens of the sockets opened so far, oldest first. */
    var sockets: seq<string>

    /** A user is signed in exactly when there is a token; an open socket always
        carries a token that was handed to `io()`. */
    predicate Valid()
      reads this
    {
      (authUser.Some? <==> accessToken.Some?)
      && (socket.Some? ==> |sockets| > 0 && socket.value.token == sockets[|sockets| - 1])
    }

    /** The defaults (lines 72-77). */
    constructor()
      ensures Valid()
      ensures authUser == None && accessToken == None && screenSize == LG && notifications == []
      ensures !stripeLoaded && socket == None && sockets == []
    {
      authUser := None;
      accessToken := None;
      screenSize := LG;
      notifications := [];
      stripeLoaded := false;
      socket := None;
      sockets := [];
    }

    /** `set_auth_user` (lines 87-95) sets the user and the token together. */
    method SetAuthUser(user: AuthUser, token: string)
      requires Valid()
      modifies this`authUser, this`accessToken
      ensures Valid() && authUser == Some(user) && accessToken == Some(token)
    {
      authUser := Some(user);
      accessToken := Some(token);
    }

    /** `clear_auth_user` (lines 96-100) forgets the user and the token and drops the
        socket. */
    method ClearAuthUser()
      requires Valid()
      modifies this`authUser, this`accessToken, this`socket
      ensures Valid() && authUser == None && accessToken == None && socket == None
    {
      authUser := None;
      accessToken := None;
      CloseWs();
    }

    method SetScreenSize(s: ScreenSize)
      modifies this`screenSize
      ensures screenSize == s
    {
      screenSize := s;
    }

    /** `push_notification` (lines 104-109), with `id` the UUID the browser draws. */
    method PushNotification(item: Notice, id: string)
      requires Valid()
      modifies this`notifications
      ensures Valid() && notifications == Pushed(old(notifications), item, id)
    {
      notifications := notifications + [NotificationItem(id, item)];
    }

    /** `pop_notification` (lines 110-113). */
    method PopNotification(id: string)
      requires Valid()
      modifies this`notifications
      ensures Valid() && notifications == Popped(old(notifications), id)
    {
      notifications := Filter(notifications, (n: NotificationItem) => n.id != id);
    }

    method MarkStripeLoaded()
      modifies this`stripeLoaded
      ensures stripeLoaded
    {
      stripeLoaded := true;
    }

    /** `open_ws_connection` (lines 119-126): nothing happens while a socket is
        connected or without a token; otherwise a new socket authenticated with the
        token replaces the current one. */
    method OpenWs()
      requires Valid()
      modifies this`socket, this`sockets
      ensures Valid()
      ensures (old(socket).Some? && old(socket).value.connected) || accessToken.None? || accessToken == Some("") ==>
                socket == old(socket) && sockets == old(sockets)
      ensures !(old(socket).Some? && old(socket).value.connected) && accessToken.Some? && accessToken != Some("") ==>
                socket == Some(Socket(accessToken.value, false)) && sockets == old(sockets) + [accessToken.value]
    {
      if (socket.Some? && socket.value.connected) || accessToken.None? || accessToken.value == "" {
        return;
      }
      var token := accessToken.value;
      sockets := sockets + [token];
      socket := Some(Socket(token, false));
    }

    /** The socket's connection came up. */
    method SocketConnected()
      requires Valid() && socket.Some?
      modifies this`socket
      ensures Valid() && socket == Some(old(socket).value.(connected := true))
    {
      socket := Some(socket.value.(connected := true));
    }

    /** `close_ws_connection` (lines 127-130). */
    method CloseWs()
      requires Valid()
      modifies this`socket
      ensures Valid() && socket == None
    {
      socket := None;
    }
  }
}
