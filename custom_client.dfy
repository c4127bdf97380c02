/** The two client types of the custom-client example: `CustomClient`, a
    base client extended with a user name, a level and a permission list,
    and `GameClient`, a client written from scratch with health, a team, an
    inventory and a metadata map. Both are built by the factory the engine
    calls for every accepted connection, and both are updated in place by
    the example's callbacks. */
module CustomClientUsage {
  import opened Wire
  import Engine

  /** The permission list after granting `p`: unchanged if `p` is already
      held, otherwise `p` appended at the end. */
  function Granted(perms: seq<string>, p: string): (r: seq<string>)
    ensures p in r
    ensures forall q :: q in r <==> q in perms || q == p
    ensures |perms| <= |r| <= |perms| + 1 && r[..|perms|] == perms
    ensures p in perms <==> r == perms
  {
    if p in perms then perms else perms + [p]
  }

  /** Granting twice is granting once. */
  lemma GrantIdempotent(perms: seq<string>, p: string)
    ensures Granted(Granted(perms, p), p) == Granted(perms, p)
  {
  }

  /** A client built by `NewCustomClient` (which embeds the base client,
      holding the connection and the id the base client assigns). */
  class CustomClient {
    const conn: Engine.Connection
    var id: string
    var username: string
    var level: int
    var permissions: seq<string>

    /** `NewCustomClient`: an anonymous level-1 user who may only read. */
    constructor (c: Engine.Connection, baseId: string)
      ensures conn == c && id == baseId
      ensures username == "anonymous" && level == 1 && permissions == ["read"]
    {
      conn, id := c, baseId;
      username, level, permissions := "anonymous", 1, ["read"];
    }

    /** Reaching level ten brings the admin permission with it. */
    ghost predicate AdminFromLevelTen()
      reads this
    {
      level >= 10 ==> "admin" in permissions
    }

    /** `HasPermission`: a linear search of the permission list. */
    method HasPermission(perm: string) returns (r: bool)
      ensures r <==> perm in permissions
    {
      var i := 0;
      while i < |permissions|
        invariant 0 <= i <= |permissions|
        invariant perm !in permissions[..i]
      {
        if permissions[i] == perm {
          return true;
        }
        i := i + 1;
      }
      assert permissions[..i] == permissions;
      return false;
    }

    /** `GrantPermission`: appends `perm` unless it is already held. */
    method GrantPermission(perm: string)
      modifies this`permissions
      ensures permissions == Granted(old(permissions), perm)
    {
      var held := HasPermission(perm);
      if !held {
        permissions := permissions + [perm];
      }
    }

    /** The `OnConn` callback: the user name is derived from the id. */
    method OnConnect()
      modifies this`username
      ensures username == "player_" + id
    {
      username := "player_" + id;
    }

    /** The `level_up` branch of `OnMsg`. */
    method LevelUp()
      modifies this`level, this`permissions
      ensures level == old(level) + 1
      ensures permissions == if level >= 10 then Granted(old(permissions), "admin") else old(permissions)
      ensures AdminFromLevelTen()
    {
      level := level + 1;
      if level >= 10 {
        GrantPermission("admin");
      }
    }

    /** `OnMsg`: `level_up` levels up; `admin_command` without the admin
        permission gets an error reply, written if a stream could be opened
        (`openOk`); an admin's `admin_command` and every other type do
        nothing. */
    method OnMessage(msgType: string, openOk: bool) returns (reply: Reply)
      modifies this`level, this`permissions
      ensures old(AdminFromLevelTen()) ==> AdminFromLevelTen()
      ensures msgType == "level_up" ==>
        && reply == NoReply && level == old(level) + 1 && AdminFromLevelTen()
        && permissions == if level >= 10 then Granted(old(permissions), "admin") else old(permissions)
      ensures msgType == "admin_command" ==>
        && level == old(level) && permissions == old(permissions)
        && reply == if "admin" in permissions then NoReply else PermissionDenied(openOk)
      ensures msgType != "level_up" && msgType != "admin_command" ==>
        reply == NoReply && level == old(level) && permissions == old(permissions)
    {
      reply := NoReply;
      if msgType == "admin_command" {
        var admin := HasPermission("admin");
        if !admin {
          reply := PermissionDenied(openOk);
        }
      } else if msgType == "level_up" {
        LevelUp();
      }
    }
  }

  /** The reply `OnMsg` sends back: none, or the "Permission denied" error,
      which reaches the client only if a stream could be opened. */
  datatype Reply = NoReply | PermissionDenied(written: bool)

  /** A metadata value; the example stores only the connection time. */
  datatype Value = Timestamp(unixNanos: int) | Text(text: string)

  /** One inventory slot. */
  datatype Item = Item(id: string, name: string, quantity: int)

  /** Index of the first slot holding `id`, or `|inv|` if none does. */
  function FindItem(inv: seq<Item>, id: string): (k: nat)
    ensures k <= |inv|
    ensures forall j :: 0 <= j < k ==> inv[j].id != id
    ensures k < |inv| ==> inv[k].id == id
  {
    if inv == [] then 0
    else if inv[0].id == id then 0
    else 1 + FindItem(inv[1..], id)
  }

  /** The inventory after picking up `item`: the quantity of the first slot
      with the same id grows, or the item takes a new slot at the end. */
  function Merged(inv: seq<Item>, item: Item): (r: seq<Item>)
    ensures FindItem(inv, item.id) < |inv| ==>
      && |r| == |inv|
      && r[FindItem(inv, item.id)] == inv[FindItem(inv, item.id)].(quantity := inv[FindItem(inv, item.id)].quantity + item.quantity)
      && (forall j :: 0 <= j < |inv| && j != FindItem(inv, item.id) ==> r[j] == inv[j])
    ensures FindItem(inv, item.id) == |inv| ==> r == inv + [item]
  {
    var k := FindItem(inv, item.id);
    if k < |inv| then inv[k := inv[k].(quantity := inv[k].quantity + item.quantity)]
    else inv + [item]
  }

  /** Sum of the quantities in `inv`. */
  function Total(inv: seq<Item>): int
  {
    if inv == [] then 0 else inv[0].quantity + Total(inv[1..])
  }

  lemma {:induction false} TotalAppend(inv: seq<Item>, item: Item)
    ensures Total(inv + [item]) == Total(inv) + item.quantity
  {
    if inv != [] {
      assert (inv + [item])[1..] == inv[1..] + [item];
      TotalAppend(inv[1..], item);
    }
  }

  lemma {:induction false} TotalUpdate(inv: seq<Item>, k: nat, slot: Item)
    requires k < |inv|
    ensures Total(inv[k := slot]) == Total(inv) - inv[k].quantity + slot.quantity
  {
    if k > 0 {
      assert inv[k := slot][1..] == inv[1..][k - 1 := slot];
      TotalUpdate(inv[1..], k - 1, slot);
    }
  }

  /** Picking up an item adds its quantity to the inventory total, and
      adds a slot exactly when no slot had its id. */
  lemma MergedTotal(inv: seq<Item>, item: Item)
    ensures Total(Merged(inv, item)) == Total(inv) + item.quantity
    ensures |Merged(inv, item)| == |inv| + (if HasId(inv, item.id) then 0 else 1)
  {
    var k := FindItem(inv, item.id);
    if k < |inv| {
      TotalUpdate(inv, k, inv[k].(quantity := inv[k].quantity + item.quantity));
    } else {
      TotalAppend(inv, item);
    }
  }

  /** Whether some slot of `inv` holds `id`. */
  predicate HasId(inv: seq<Item>, id: string)
  {
    exists j :: 0 <= j < |inv| && inv[j].id == id
  }

  /** The slot ids after a pick-up are the old ids plus the item's. */
  lemma MergedIds(inv: seq<Item>, item: Item)
    ensures forall id :: HasId(Merged(inv, item), id) <==> id == item.id || HasId(inv, id)
  {
    var r := Merged(inv, item);
    var k := FindItem(inv, item.id);
    forall id | HasId(r, id) ensures id == item.id || HasId(inv, id) {
      var j :| 0 <= j < |r| && r[j].id == id;
      if j < |inv| {
        assert r[j].id == inv[j].id;
      }
    }
    forall id | id == item.id || HasId(inv, id) ensures HasId(r, id) {
      if id == item.id {
        if k < |inv| {
          assert r[k].id == id;
        } else {
          assert r[|inv|].id == id;
        }
      } else {
        var j :| 0 <= j < |inv| && inv[j].id == id;
        assert r[j].id == id;
      }
    }
  }

  /** Health after taking `damage`: reduced by it, but never below zero. */
  function AfterDamage(health: int, damage: int): (r: int)
    ensures r >= 0 && r >= health - damage
    ensures r == health - damage || r == 0
    ensures health - damage >= 0 ==> r == health - damage
  {
    if health - damage < 0 then 0 else health - damage
  }

  /** A client built by `NewGameClient`. `meta` is `None` for a nil map. */
  class GameClient {
    var id: string
    const conn: Engine.Connection
    var meta: Option<map<string, Value>>
    var health: int
    var team: string
    var inventory: seq<Item>

    /** `NewGameClient`: full health, neutral team, nothing carried, an
        empty metadata map and no id yet. */
    constructor (c: Engine.Connection)
      ensures conn == c && id == ""
      ensures meta == Some(map[]) && health == 100 && team == "neutral" && inventory == []
    {
      conn, id := c, "";
      meta, health, team, inventory := Some(map[]), 100, "neutral", [];
    }

    method GetID() returns (r: string)
      ensures r == id
    {
      r := id;
    }

    method GetConn() returns (r: Engine.Connection)
      ensures r == conn
    {
      r := conn;
    }

    method GetMeta() returns (r: Option<map<string, Value>>)
      ensures r == meta
    {
      r := meta;
    }

    /** `SetID`: a later `GetID` returns `newId`. */
    method SetID(newId: string)
      modifies this`id
      ensures id == newId
    {
      id := newId;
    }

    /** `SetMeta`: creates the map if it is nil, then sets `key`; every
        other key keeps its value. */
    method SetMeta(key: string, value: Value)
      modifies this`meta
      ensures meta.Some? && key in meta.value && meta.value[key] == value
      ensures old(meta).Some? ==> forall k :: k in old(meta).value && k != key ==>
        k in meta.value && meta.value[k] == old(meta).value[k]
      ensures meta.value.Keys == (if old(meta).Some? then old(meta).value.Keys else {}) + {key}
    {
      if meta.None? {
        meta := Some(map[]);
      }
      meta := Some(meta.value[key := value]);
    }

    /** `TakeDamage`: health drops by `damage`, clamped at zero. */
    method TakeDamage(damage: int)
      modifies this`health
      ensures health == AfterDamage(old(health), damage)
    {
      health := health - damage;
      if health < 0 {
        health := 0;
      }
    }

    /** `AddItem`: searches the inventory for a slot with the item's id;
        the first one found absorbs the quantity, otherwise the item is
        appended. */
    method AddItem(item: Item)
      modifies this`inventory
      ensures inventory == Merged(old(inventory), item)
    {
      var i := 0;
      while i < |inventory|
        invariant 0 <= i <= |inventory|
        invariant inventory == old(inventory)
        invariant forall j :: 0 <= j < i ==> inventory[j].id != item.id
      {
        if inventory[i].id == item.id {
          inventory := inventory[i := inventory[i].(quantity := inventory[i].quantity + item.quantity)];
          return;
        }
        i := i + 1;
      }
      inventory := inventory + [item];
    }

    /** The `OnConn` callback: records the connection time. */
    method OnConnect(nowNanos: int)
      modifies this`meta
      ensures meta.Some?
      ensures meta.value == (if old(meta).Some? then old(meta).value else map[])["connected_at" := Timestamp(nowNanos)]
    {
      SetMeta("connected_at", Timestamp(nowNanos));
    }

    /** `OnMsg`: an attack costs ten health and a pick-up adds one iron
        sword; nothing else changes health or inventory. */
    method OnMessage(msgType: string)
      modifies this`health, this`inventory
      ensures msgType == "attack" ==> health == AfterDamage(old(health), 10) && inventory == old(inventory)
      ensures msgType == "pickup_item" ==>
        health == old(health) && inventory == Merged(old(inventory), Item("sword", "Iron Sword", 1))
      ensures msgType != "attack" && msgType != "pickup_item" ==>
        health == old(health) && inventory == old(inventory)
    {
      if msgType == "attack" {
        TakeDamage(10);
      } else if msgType == "pickup_item" {
        AddItem(Item("sword", "Iron Sword", 1));
      }
    }
  }
}
