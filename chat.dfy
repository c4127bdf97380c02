/** The chat-room example built on the engine: every connection gets a
    `ChatClient`, and the callbacks move clients between rooms, relay chat
    and private messages, and let administrators mute, unmute, kick and
    list users.

    A handler gets the registry snapshot `GetClients` would return as the
    sequence `clients` (in the order `Range` visited it) and returns the
    messages it hands to `sendMessageToClient`, in order. Payloads arrive
    already decoded; `None` stands for a payload that failed to decode. */
module ChatServer {
  import opened Wire
  import Engine

  /** A client built by `NewChatClient`. */
  class ChatClient {
    const conn: Engine.Connection
    var id: string
    var nickname: string
    var room: string
    var isAdmin: bool
    var isMuted: bool
    var messagesSent: int

    /** `NewChatClient`: a guest in the lobby, neither admin nor muted,
        with nothing sent; the id is the one the base client assigns. */
    constructor (c: Engine.Connection, baseId: string)
      ensures conn == c && id == baseId
      ensures nickname == "Guest" && room == "lobby"
      ensures !isAdmin && !isMuted && messagesSent == 0
    {
      conn, id := c, baseId;
      nickname, room := "Guest", "lobby";
      isAdmin, isMuted, messagesSent := false, false, 0;
    }

    /** `CanSendMessage`: only an unmuted client may chat. */
    method CanSendMessage() returns (r: bool)
      ensures r <==> !isMuted
    {
      r := !isMuted;
    }

    /** `IncrementMessages`. */
    method IncrementMessages()
      modifies this`messagesSent
      ensures messagesSent == old(messagesSent) + 1
    {
      messagesSent := messagesSent + 1;
    }
  }

  /** Why a request was refused. */
  datatype Refusal = Muted | UserNotFound(nickname: string) | NotAdmin

  /** One row of the `list_users` reply (the join time is not modelled). */
  datatype UserEntry = UserEntry(nickname: string, room: string, messagesSent: int, isMuted: bool)

  /** What a message says, without its JSON text or timestamp. */
  datatype ChatMsg =
    | Welcome(nickname: string, room: string)
    | UserLeft(nickname: string, room: string)
    | UserJoined(nickname: string, room: string)
    | RoomChanged(oldRoom: string, newRoom: string)
    | ChatLine(nickname: string, text: string, room: string)
    | PrivateLine(fromNickname: string, text: string)
    | PrivateSent(toNickname: string, text: string)
    | NicknameChanged(oldNickname: string, newNickname: string)
    | UserList(users: seq<UserEntry>)
    | Error(refusal: Refusal)

  /** One call of `sendMessageToClient`. */
  datatype Send = Send(to: ChatClient, msg: ChatMsg)

  /** Decoded `private_message` payload. */
  datatype PrivateRequest = PrivateRequest(toNickname: string, text: string)

  /** Decoded `admin_command` payload. */
  datatype AdminRequest = AdminRequest(command: string, target: string)

  /** The same message to each of `to`, in order. */
  function SendAll(to: seq<ChatClient>, msg: ChatMsg): (r: seq<Send>)
    ensures |r| == |to|
    ensures forall i :: 0 <= i < |r| ==> r[i] == Send(to[i], msg)
  {
    seq(|to|, i requires 0 <= i < |to| => Send(to[i], msg))
  }

  /** The clients of `clients` in `room` other than `except`, in order. */
  function RoomRecipients(clients: seq<ChatClient>, room: string, except: ChatClient?): (r: seq<ChatClient>)
    reads clients
    decreases |clients|
    ensures |r| <= |clients|
    ensures forall x :: x in r ==> x in clients && x.room == room && x != except
    ensures forall i :: 0 <= i < |clients| && clients[i].room == room && clients[i] != except ==> clients[i] in r
  {
    if clients == [] then []
    else
      var last := clients[|clients| - 1];
      RoomRecipients(clients[..|clients| - 1], room, except) + (if last.room == room && last != except then [last] else [])
  }

  /** The positions of the snapshot that qualify for a room broadcast, in
      increasing order. */
  ghost function QualifyingIndices(clients: seq<ChatClient>, room: string, except: ChatClient?): (idx: seq<nat>)
    reads clients
    decreases |clients|
    ensures forall i :: 0 <= i < |idx| ==> idx[i] < |clients|
    ensures forall i, j :: 0 <= i < j < |idx| ==> idx[i] < idx[j]
  {
    if clients == [] then []
    else
      var n := |clients| - 1;
      QualifyingIndices(clients[..n], room, except) + (if clients[n].room == room && clients[n] != except then [n] else [])
  }

  /** A position is listed exactly when its client is in `room` and is not
      `except`. */
  lemma {:induction false} QualifyingExactly(clients: seq<ChatClient>, room: string, except: ChatClient?)
    ensures var idx := QualifyingIndices(clients, room, except);
      forall j :: 0 <= j < |clients| ==> (j in idx <==> clients[j].room == room && clients[j] != except)
    decreases |clients|
  {
    if clients != [] {
      var n := |clients| - 1;
      QualifyingExactly(clients[..n], room, except);
    }
  }

  /** The recipients are the snapshot restricted to the qualifying
      positions, in snapshot order: each qualifying entry is sent to once,
      and no other. */
  lemma {:induction false} RecipientsInOrder(clients: seq<ChatClient>, room: string, except: ChatClient?)
    ensures var r := RoomRecipients(clients, room, except);
      var idx := QualifyingIndices(clients, room, except);
      |r| == |idx| && forall i :: 0 <= i < |r| ==> r[i] == clients[idx[i]]
    decreases |clients|
  {
    if clients != [] {
      var n := |clients| - 1;
      var prefix := clients[..n];
      RecipientsInOrder(prefix, room, except);
      var rp, ip := RoomRecipients(prefix, room, except), QualifyingIndices(prefix, room, except);
      var r, idx := RoomRecipients(clients, room, except), QualifyingIndices(clients, room, except);
      var qualifies := clients[n].room == room && clients[n] != except;
      assert r == rp + (if qualifies then [clients[n]] else []);
      assert idx == ip + (if qualifies then [n] else []);
      forall i | 0 <= i < |rp|
        ensures r[i] == clients[idx[i]]
      {
        assert prefix[ip[i]] == clients[ip[i]];
      }
    }
  }

  /** A client occurs among the recipients as often as in the snapshot when
      it qualifies, and not at all otherwise. */
  lemma {:induction false} RecipientsCount(clients: seq<ChatClient>, room: string, except: ChatClient?)
    ensures forall x ::
      multiset(RoomRecipients(clients, room, except))[x]
        == (if x in clients && x.room == room && x != except then multiset(clients)[x] else 0)
    decreases |clients|
  {
    if clients != [] {
      var n := |clients| - 1;
      var prefix := clients[..n];
      RecipientsCount(prefix, room, except);
      assert clients == prefix + [clients[n]];
      assert multiset(clients) == multiset(prefix) + multiset{clients[n]};
      forall x | true
        ensures multiset(RoomRecipients(clients, room, except))[x]
          == (if x in clients && x.room == room && x != except then multiset(clients)[x] else 0)
      {
        if x !in clients {
          assert x !in prefix;
        }
      }
    }
  }

  /** Index of the first client called `nickname`, or `|clients|`. */
  function FindByNickname(clients: seq<ChatClient>, nickname: string): (k: nat)
    reads clients
    ensures k <= |clients|
    ensures forall j :: 0 <= j < k ==> clients[j].nickname != nickname
    ensures k < |clients| ==> clients[k].nickname == nickname
  {
    if clients == [] then 0
    else if clients[0].nickname == nickname then 0
    else 1 + FindByNickname(clients[1..], nickname)
  }

  /** Extending the snapshot by one client extends the recipients by that
      client if it qualifies. */
  lemma RecipientsSnoc(clients: seq<ChatClient>, i: nat, room: string, except: ChatClient?)
    requires i < |clients|
    ensures RoomRecipients(clients[..i + 1], room, except)
      == RoomRecipients(clients[..i], room, except)
         + (if clients[i].room == room && clients[i] != except then [clients[i]] else [])
  {
    assert clients[..i + 1][..i] == clients[..i];
  }

  lemma SendAllSnoc(to: seq<ChatClient>, extra: seq<ChatClient>, msg: ChatMsg)
    ensures SendAll(to + extra, msg) == SendAll(to, msg) + SendAll(extra, msg)
  {
  }

  /** `broadcastToRoom`: one message to every client of the snapshot that
      is in `room` and is not `except` (`null` leaves nobody out). */
  method BroadcastToRoom(clients: seq<ChatClient>, room: string, msg: ChatMsg, except: ChatClient?)
    returns (sent: seq<Send>)
    ensures sent == SendAll(RoomRecipients(clients, room, except), msg)
  {
    sent := [];
    for i := 0 to |clients|
      invariant sent == SendAll(RoomRecipients(clients[..i], room, except), msg)
    {
      var x := clients[i];
      var extra := if x.room == room && x != except then [x] else [];
      RecipientsSnoc(clients, i, room, except);
      SendAllSnoc(RoomRecipients(clients[..i], room, except), extra, msg);
      sent := sent + SendAll(extra, msg);
    }
    assert clients[..|clients|] == clients;
  }

  /** The scan `muteUser`, `unmuteUser`, `kickUser` and
      `handlePrivateMessage` share: the first client called `nickname`. */
  method FirstWithNickname(clients: seq<ChatClient>, nickname: string) returns (k: nat)
    ensures k == FindByNickname(clients, nickname)
  {
    k := 0;
    while k < |clients|
      invariant k <= |clients|
      invariant forall j :: 0 <= j < k ==> clients[j].nickname != nickname
    {
      if clients[k].nickname == nickname {
        break;
      }
      k := k + 1;
    }
  }

  /** Between the two states, no client of `clients` changed. */
  twostate predicate Untouched(clients: seq<ChatClient>)
    reads clients
  {
    forall x :: x in clients ==> unchanged(x)
  }

  /** Between the two states, only the mute flag of the first client called
      `nickname` changed, to `muted`; if there is none, nothing changed. */
  twostate predicate MuteApplied(clients: seq<ChatClient>, nickname: string, muted: bool)
    reads clients
  {
    var k := old(FindByNickname(clients, nickname));
    && (k < |clients| ==> clients[k].isMuted == muted)
    && (forall x :: x in clients ==>
          && x.nickname == old(x.nickname) && x.room == old(x.room) && x.id == old(x.id)
          && x.isAdmin == old(x.isAdmin) && x.messagesSent == old(x.messagesSent))
    && (forall x :: x in clients && (k == |clients| || x != clients[k]) ==> x.isMuted == old(x.isMuted))
  }

  /** `muteUser` (`muted`) and `unmuteUser` (`!muted`). */
  method SetMuted(clients: seq<ChatClient>, nickname: string, muted: bool)
    modifies clients
    ensures MuteApplied(clients, nickname, muted)
  {
    var k := FirstWithNickname(clients, nickname);
    if k < |clients| {
      clients[k].isMuted := muted;
    }
  }

  /** `kickUser`: the connection that is closed, if any client is called
      `nickname`. */
  method KickUser(clients: seq<ChatClient>, nickname: string) returns (closed: Option<Engine.Connection>)
    ensures closed.Some? <==> exists x :: x in clients && x.nickname == nickname
    ensures closed.Some? ==> closed.value == clients[FindByNickname(clients, nickname)].conn
  {
    var k := FirstWithNickname(clients, nickname);
    if k < |clients| {
      closed := Some(clients[k].conn);
    } else {
      closed := None;
    }
  }

  /** The `list_users` row for one client. */
  function EntryOf(x: ChatClient): (e: UserEntry)
    reads x
  {
    UserEntry(x.nickname, x.room, x.messagesSent, x.isMuted)
  }

  /** `listUsers`: one row per client, in snapshot order, sent to the
      administrator who asked. */
  method ListUsers(clients: seq<ChatClient>, admin: ChatClient) returns (sent: seq<Send>)
    ensures |sent| == 1 && sent[0].to == admin && sent[0].msg.UserList?
    ensures |sent[0].msg.users| == |clients|
    ensures forall i :: 0 <= i < |clients| ==> sent[0].msg.users[i] == EntryOf(clients[i])
  {
    var users: seq<UserEntry> := [];
    for i := 0 to |clients|
      invariant |users| == i
      invariant forall j :: 0 <= j < i ==> users[j] == EntryOf(clients[j])
    {
      users := users + [EntryOf(clients[i])];
    }
    sent := [Send(admin, UserList(users))];
  }

  /** `handleChatMessage`: a muted sender only gets an error; a payload
      that does not decode changes nothing; otherwise the sender's count
      goes up and the line goes to the whole room, sender included. */
  method HandleChatMessage(clients: seq<ChatClient>, c: ChatClient, text: Option<string>)
    returns (sent: seq<Send>)
    modifies c`messagesSent
    ensures old(c.isMuted) ==> sent == [Send(c, Error(Muted))] && c.messagesSent == old(c.messagesSent)
    ensures !old(c.isMuted) && text.None? ==> sent == [] && c.messagesSent == old(c.messagesSent)
    ensures !old(c.isMuted) && text.Some? ==>
      && c.messagesSent == old(c.messagesSent) + 1
      && sent == SendAll(RoomRecipients(clients, c.room, null), ChatLine(c.nickname, text.value, c.room))
  {
    var ok := c.CanSendMessage();
    if !ok {
      return [Send(c, Error(Muted))];
    }
    if text.None? {
      return [];
    }
    c.IncrementMessages();
    sent := BroadcastToRoom(clients, c.room, ChatLine(c.nickname, text.value, c.room), null);
  }

  /** `handleJoinRoom`: the client moves to the requested room; the old
      room hears that it left and the new room that it joined, both
      without the mover, who gets one confirmation. */
  method HandleJoinRoom(clients: seq<ChatClient>, c: ChatClient, room: Option<string>)
    returns (sent: seq<Send>)
    modifies c`room
    ensures room.None? ==> sent == [] && c.room == old(c.room)
    ensures room.Some? ==>
      && c.room == room.value
      && sent ==
           SendAll(RoomRecipients(clients, old(c.room), c), UserLeft(c.nickname, old(c.room)))
         + SendAll(RoomRecipients(clients, room.value, c), UserJoined(c.nickname, room.value))
         + [Send(c, RoomChanged(old(c.room), room.value))]
    ensures room.Some? ==>
      && |sent| > 0 && sent[|sent| - 1].to == c
      && forall i :: 0 <= i < |sent| - 1 ==> sent[i].to != c
  {
    if room.None? {
      return [];
    }
    var oldRoom := c.room;
    c.room := room.value;
    var left := BroadcastToRoom(clients, oldRoom, UserLeft(c.nickname, oldRoom), c);
    var joined := BroadcastToRoom(clients, c.room, UserJoined(c.nickname, c.room), c);
    sent := left + joined + [Send(c, RoomChanged(oldRoom, c.room))];
    forall i | 0 <= i < |sent| - 1 ensures sent[i].to != c {
      if i < |left| {
        assert sent[i].to in RoomRecipients(clients, oldRoom, c);
      } else {
        assert sent[i].to == joined[i - |left|].to;
        assert sent[i].to in RoomRecipients(clients, c.room, c);
      }
    }
  }

  /** `handlePrivateMessage`: the first client with the requested nickname
      gets the message and the sender a confirmation; if there is none, the
      sender gets an error. */
  method HandlePrivateMessage(clients: seq<ChatClient>, c: ChatClient, req: Option<PrivateRequest>)
    returns (sent: seq<Send>)
    ensures req.None? ==> sent == []
    ensures req.Some? && !(exists x :: x in clients && x.nickname == req.value.toNickname) ==>
      sent == [Send(c, Error(UserNotFound(req.value.toNickname)))]
    ensures req.Some? && (exists x :: x in clients && x.nickname == req.value.toNickname) ==>
      sent == [Send(clients[FindByNickname(clients, req.value.toNickname)], PrivateLine(c.nickname, req.value.text)),
               Send(c, PrivateSent(req.value.toNickname, req.value.text))]
  {
    if req.None? {
      return [];
    }
    var k := FirstWithNickname(clients, req.value.toNickname);
    if k == |clients| {
      return [Send(c, Error(UserNotFound(req.value.toNickname)))];
    }
    sent := [Send(clients[k], PrivateLine(c.nickname, req.value.text)),
             Send(c, PrivateSent(req.value.toNickname, req.value.text))];
  }

  /** `handleAdminCommand`: a non-administrator gets an error; otherwise
      `mute`, `unmute`, `kick` and `list_users` act on the snapshot and any
      other command, like an undecodable payload, does nothing. */
  method HandleAdminCommand(clients: seq<ChatClient>, c: ChatClient, req: Option<AdminRequest>)
    returns (sent: seq<Send>, kicked: Option<Engine.Connection>)
    modifies clients
    ensures !old(c.isAdmin) ==> sent == [Send(c, Error(NotAdmin))] && kicked == None && Untouched(clients)
    ensures old(c.isAdmin) && req.None? ==> sent == [] && kicked == None && Untouched(clients)
    ensures old(c.isAdmin) && req.Some? ==> match req.value.command
      case "mute" => sent == [] && kicked == None && MuteApplied(clients, req.value.target, true)
      case "unmute" => sent == [] && kicked == None && MuteApplied(clients, req.value.target, false)
      case "kick" =>
        && sent == [] && Untouched(clients)
        && (kicked.Some? <==> exists x :: x in clients && x.nickname == req.value.target)
        && (kicked.Some? ==> kicked.value == clients[FindByNickname(clients, req.value.target)].conn)
      case "list_users" =>
        && kicked == None && Untouched(clients)
        && |sent| == 1 && sent[0].to == c && sent[0].msg.UserList?
        && |sent[0].msg.users| == |clients|
        && forall i :: 0 <= i < |clients| ==> sent[0].msg.users[i] == EntryOf(clients[i])
      case _ => sent == [] && kicked == None && Untouched(clients)
  {
    sent, kicked := [], None;
    if !c.isAdmin {
      sent := [Send(c, Error(NotAdmin))];
      return;
    }
    if req.None? {
      return;
    }
    match req.value.command {
      case "mute" => SetMuted(clients, req.value.target, true);
      case "unmute" => SetMuted(clients, req.value.target, false);
      case "kick" => kicked := KickUser(clients, req.value.target);
      case "list_users" => sent := ListUsers(clients, c);
      case _ =>
    }
  }

  /** `handleSetNickname`: the new nickname, confirmed to the client. */
  method HandleSetNickname(c: ChatClient, nickname: Option<string>) returns (sent: seq<Send>)
    modifies c`nickname
    ensures nickname.None? ==> sent == [] && c.nickname == old(c.nickname)
    ensures nickname.Some? ==>
      c.nickname == nickname.value && sent == [Send(c, NicknameChanged(old(c.nickname), nickname.value))]
  {
    if nickname.None? {
      return [];
    }
    var oldNickname := c.nickname;
    c.nickname := nickname.value;
    sent := [Send(c, NicknameChanged(oldNickname, c.nickname))];
  }

  /** A non-empty string of decimal digits. */
  predicate IsDigits(s: string)
  {
    |s| > 0 && forall i :: 0 <= i < |s| ==> '0' <= s[i] <= '9'
  }

  /** Decimal digits of `n`, without leading zeros. */
  function NatToDecimal(n: nat): (s: string)
    ensures IsDigits(s)
    ensures s[0] != '0' || s == "0"
  {
    var d := ['0' + (n % 10) as char];
    if n < 10 then d else NatToDecimal(n / 10) + d
  }

  /** The number a string of decimal digits denotes. */
  function DecimalValue(s: string): nat
    requires forall i :: 0 <= i < |s| ==> '0' <= s[i] <= '9'
    decreases |s|
  {
    if s == [] then 0
    else DecimalValue(s[..|s| - 1]) * 10 + (s[|s| - 1] - '0') as nat
  }

  /** Reading back the digits gives the number. */
  lemma {:induction false} DecimalRoundTrip(n: nat)
    ensures DecimalValue(NatToDecimal(n)) == n
  {
    if n >= 10 {
      var s := NatToDecimal(n);
      var prefix := NatToDecimal(n / 10);
      assert s[..|s| - 1] == prefix;
      DecimalRoundTrip(n / 10);
    }
  }

  /** A digit string whose first digit is not zero denotes a positive
      number. */
  lemma {:induction false} LeadingDigitPositive(s: string)
    requires IsDigits(s) && s[0] != '0'
    ensures DecimalValue(s) > 0
    decreases |s|
  {
    if |s| > 1 {
      LeadingDigitPositive(s[..|s| - 1]);
    }
  }

  /** The digits are the only decimal text for `n`: any digit string
      without a leading zero that reads back as `n` is `NatToDecimal(n)`. */
  lemma {:induction false} DecimalUnique(t: string, n: nat)
    requires IsDigits(t) && (t[0] != '0' || t == "0")
    requires DecimalValue(t) == n
    ensures t == NatToDecimal(n)
    decreases |t|
  {
    var last := t[|t| - 1];
    if |t| == 1 {
      assert n == (last - '0') as nat;
    } else {
      var prefix := t[..|t| - 1];
      LeadingDigitPositive(prefix);
      assert n / 10 == DecimalValue(prefix);
      DecimalUnique(prefix, n / 10);
      assert t == prefix + [last];
    }
  }

  /** `%d` of an integer: a minus sign exactly for a negative number, then
      the digits of its magnitude without leading zeros. */
  function IntToDecimal(n: int): (s: string)
    ensures |s| > 0 && (s[0] == '-' <==> n < 0)
    ensures var digits := if n < 0 then s[1..] else s;
      && IsDigits(digits) && (digits[0] != '0' || digits == "0")
      && DecimalValue(digits) == if n < 0 then -n else n
  {
    if n >= 0 then
      DecimalRoundTrip(n);
      NatToDecimal(n)
    else
      DecimalRoundTrip(-n);
      assert ("-" + NatToDecimal(-n))[1..] == NatToDecimal(-n);
      "-" + NatToDecimal(-n)
  }

  /** The `OnConn` callback: the id becomes `user_<unix seconds>` and the
      client is welcomed into its room. */
  method OnConnect(c: ChatClient, unixSeconds: int) returns (sent: seq<Send>)
    modifies c`id
    ensures c.id == "user_" + IntToDecimal(unixSeconds)
    ensures sent == [Send(c, Welcome(c.nickname, c.room))]
  {
    c.id := "user_" + IntToDecimal(unixSeconds);
    sent := [Send(c, Welcome(c.nickname, c.room))];
  }

  /** The `OnDisc` callback: the client's room hears that it left. It runs
      while the client is still registered, so the snapshot may hold it;
      it is left out by name. */
  method OnDisconnect(clients: seq<ChatClient>, c: ChatClient) returns (sent: seq<Send>)
    ensures sent == SendAll(RoomRecipients(clients, c.room, c), UserLeft(c.nickname, c.room))
    ensures forall s :: s in sent ==> s.to != c && s.to in clients && s.to.room == c.room
  {
    sent := BroadcastToRoom(clients, c.room, UserLeft(c.nickname, c.room), c);
  }

  /** The room of every client of the snapshot, in order. */
  function RoomsOf(clients: seq<ChatClient>): (rooms: seq<string>)
    reads clients
    ensures |rooms| == |clients|
    ensures forall i :: 0 <= i < |clients| ==> rooms[i] == clients[i].room
  {
    seq(|clients|, i reads clients requires 0 <= i < |clients| => clients[i].room)
  }

  /** Sum of the values of `m` at `keys`. */
  ghost function SumOver(keys: seq<string>, m: map<string, nat>): int
    requires forall k :: k in keys ==> k in m
  {
    if keys == [] then 0 else SumOver(keys[..|keys| - 1], m) + m[keys[|keys| - 1]]
  }

  /** Changing the value of a key not in `keys` does not change the sum. */
  lemma {:induction false} SumIgnores(keys: seq<string>, m: map<string, nat>, k: string, v: nat)
    requires forall j :: j in keys ==> j in m
    requires k !in keys
    ensures SumOver(keys, m[k := v]) == SumOver(keys, m)
  {
    if keys != [] {
      SumIgnores(keys[..|keys| - 1], m, k, v);
    }
  }

  /** Raising the value of one of the distinct `keys` by one raises the
      sum by one. */
  lemma {:induction false} SumIncrement(keys: seq<string>, m: map<string, nat>, k: string)
    requires forall j :: j in keys ==> j in m
    requires forall i, j :: 0 <= i < j < |keys| ==> keys[i] != keys[j]
    requires k in keys
    ensures SumOver(keys, m[k := m[k] + 1]) == SumOver(keys, m) + 1
  {
    var init := keys[..|keys| - 1];
    if keys[|keys| - 1] == k {
      assert k !in init;
      SumIgnores(init, m, k, m[k] + 1);
    } else {
      assert k in init;
      SumIncrement(init, m, k);
    }
  }

  /** `stats` counts the rooms of `seen`, and `rooms` lists each counted
      room once. */
  ghost predicate Tallies(stats: map<string, nat>, rooms: seq<string>, seen: seq<string>)
  {
    && (forall r :: r in stats <==> r in seen)
    && (forall r :: r in stats ==> stats[r] == multiset(seen)[r])
    && (forall i, j :: 0 <= i < j < |rooms| ==> rooms[i] != rooms[j])
    && (forall r :: r in rooms <==> r in stats)
    && SumOver(rooms, stats) == |seen|
  }

  /** Counting a room already seen raises its count, and the sum, by one. */
  lemma TallySeen(stats: map<string, nat>, rooms: seq<string>, seen: seq<string>, r: string)
    requires Tallies(stats, rooms, seen) && r in stats
    ensures Tallies(stats[r := stats[r] + 1], rooms, seen + [r])
  {
    assert multiset(seen + [r]) == multiset(seen) + multiset{r};
    SumIncrement(rooms, stats, r);
  }

  /** Counting a new room gives it a count of one and lists it. */
  lemma TallyNew(stats: map<string, nat>, rooms: seq<string>, seen: seq<string>, r: string)
    requires Tallies(stats, rooms, seen) && r !in stats
    ensures Tallies(stats[r := 1], rooms + [r], seen + [r])
  {
    NewRoomCounted(stats, seen, r);
    NewRoomListed(stats, rooms, r);
    NewRoomSum(stats, rooms, seen, r);
  }

  lemma NewRoomCounted(stats: map<string, nat>, seen: seq<string>, r: string)
    requires forall q :: q in stats <==> q in seen
    requires forall q :: q in stats ==> stats[q] == multiset(seen)[q]
    requires r !in stats
    ensures forall q :: q in stats[r := 1] <==> q in seen + [r]
    ensures forall q :: q in stats[r := 1] ==> stats[r := 1][q] == multiset(seen + [r])[q]
  {
    assert multiset(seen + [r]) == multiset(seen) + multiset{r};
  }

  lemma NewRoomListed(stats: map<string, nat>, rooms: seq<string>, r: string)
    requires forall i, j :: 0 <= i < j < |rooms| ==> rooms[i] != rooms[j]
    requires forall q :: q in rooms <==> q in stats
    requires r !in stats
    ensures forall i, j :: 0 <= i < j < |rooms + [r]| ==> (rooms + [r])[i] != (rooms + [r])[j]
    ensures forall q :: q in rooms + [r] <==> q in stats[r := 1]
  {
  }

  lemma NewRoomSum(stats: map<string, nat>, rooms: seq<string>, seen: seq<string>, r: string)
    requires forall q :: q in rooms ==> q in stats
    requires r !in rooms
    requires SumOver(rooms, stats) == |seen|
    ensures SumOver(rooms + [r], stats[r := 1]) == |seen + [r]|
  {
    SumIgnores(rooms, stats, r, 1);
    assert (rooms + [r])[..|rooms|] == rooms;
  }

  /** The per-room statistics of `TickFn`: for every room a client is in,
      the number of clients in it, and nothing for other rooms. The counts
      add up to the number of clients; `rooms` lists each room once. */
  method RoomStats(clients: seq<ChatClient>) returns (stats: map<string, nat>, ghost rooms: seq<string>)
    ensures forall r :: r in stats <==> r in RoomsOf(clients)
    ensures forall r :: r in stats ==> stats[r] == multiset(RoomsOf(clients))[r]
    ensures forall i, j :: 0 <= i < j < |rooms| ==> rooms[i] != rooms[j]
    ensures forall r :: r in rooms <==> r in stats
    ensures SumOver(rooms, stats) == |clients|
  {
    ghost var all := RoomsOf(clients);
    stats, rooms := map[], [];
    for i := 0 to |clients|
      invariant Tallies(stats, rooms, all[..i])
    {
      var r := clients[i].room;
      assert all[..i + 1] == all[..i] + [r];
      if r in stats {
        TallySeen(stats, rooms, all[..i], r);
        stats := stats[r := stats[r] + 1];
      } else {
        TallyNew(stats, rooms, all[..i], r);
        stats := stats[r := 1];
        rooms := rooms + [r];
      }
    }
    assert all[..|clients|] == all;
  }

  /** `TickFn`: when some client is online and the clock is on a multiple
      of thirty seconds, the room statistics are reported. */
  method Tick(clients: seq<ChatClient>, second: nat) returns (report: Option<map<string, nat>>)
    ensures report.Some? <==> |clients| > 0 && second % 30 == 0
    ensures report.Some? ==>
      && (forall r :: r in report.value <==> r in RoomsOf(clients))
      && (forall r :: r in report.value ==> report.value[r] == multiset(RoomsOf(clients))[r])
  {
    if |clients| > 0 && second % 30 == 0 {
      var stats, _ := RoomStats(clients);
      report := Some(stats);
    } else {
      report := None;
    }
  }
}
