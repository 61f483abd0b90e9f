/** `SecurityManager` of `hikka/security.py` as a class: the identity lists it
    reloads, the bot's own id set by `init`, and the role cache it writes in
    place. `Check` is proved to compute exactly `Policy.Decide`. */
module Manager {
  import opened Bits
  import opened Permissions
  import opened Wrappers
  import opened TtlCache
  import opened Policy
  import CheckLemmas

  predicate NoDuplicates(s: seq<int>)
  {
    forall i, j :: 0 <= i < j < |s| ==> s[i] != s[j]
  }

  /** `list(set(xs))`: the same ids, each once. */
  method Dedup(xs: seq<int>) returns (r: seq<int>)
    ensures NoDuplicates(r)
    ensures Ids(r) == Ids(xs)
    ensures |r| <= |xs|
  {
    r := [];
    var i := 0;
    while i < |xs|
      invariant 0 <= i <= |xs|
      invariant NoDuplicates(r)
      invariant Ids(r) == Ids(xs[..i])
      invariant |r| <= i
    {
      assert xs[..i + 1] == xs[..i] + [xs[i]];
      assert Ids(xs[..i + 1]) == Ids(xs[..i]) + {xs[i]};
      if xs[i] !in r {
        assert Ids(r + [xs[i]]) == Ids(r) + {xs[i]};
        r := r + [xs[i]];
      }
      i := i + 1;
    }
    assert xs[..i] == xs;
  }

  /** The linear search of the basic-group branch: the first participant record
      with the given user id. */
  method FindParticipant(ps: seq<LegacyParticipant>, id: int) returns (r: Option<LegacyKind>)
    ensures r == FirstMatch(ps, id)
  {
    var i := 0;
    while i < |ps|
      invariant 0 <= i <= |ps|
      invariant FirstMatch(ps, id) == FirstMatch(ps[i..], id)
    {
      if ps[i].userId == id {
        return Some(ps[i].kind);
      }
      assert ps[i..][1..] == ps[i + 1..];
      i := i + 1;
    }
    return None;
  }

  class SecurityManager {
    const anyAdmin: bool
    const defaultMask: nat
    var me: Option<int>
    var owner: seq<int>
    var sudo: seq<int>
    var support: seq<int>
    var cache: RoleCache

    /** The lists hold the store's ids, each once, and the owner list also the
        bot's own id once `init` has run. */
    ghost predicate Reloaded(db: Store)
      reads this
    {
      && Ids(owner) == Ids(db.owner) + (if me.Some? then {me.value} else {})
      && Ids(sudo) == Ids(db.sudo)
      && Ids(support) == Ids(db.support)
      && NoDuplicates(owner) && NoDuplicates(sudo) && NoDuplicates(support)
    }

    ghost predicate Valid()
      reads this
    {
      CacheShapes(cache)
    }

    /** `__init__`: read the settings, load the lists, start with an empty cache. */
    constructor (db: Store)
      ensures anyAdmin == db.anyAdmin.GetOr(false)
      ensures defaultMask == db.defaultMask.GetOr(DEFAULT_PERMISSIONS)
      ensures me == None && cache == map[]
      ensures Reloaded(db) && Valid()
    {
      anyAdmin := db.anyAdmin.GetOr(false);
      defaultMask := db.defaultMask.GetOr(DEFAULT_PERMISSIONS);
      me := None;
      cache := map[];
      new;
      ReloadRights(db);
    }

    /** `_reload_rights` */
    method ReloadRights(db: Store)
      modifies this`owner, this`sudo, this`support
      ensures Reloaded(db)
    {
      owner := Dedup(db.owner + (if me.Some? then [me.value] else []));
      sudo := Dedup(db.sudo);
      support := Dedup(db.support);
    }

    /** `init`: remember the bot's own id (the answer of `client.get_me()`). */
    method Init(selfId: int)
      modifies this`me
      ensures me == Some(selfId)
    {
      me := Some(selfId);
    }

    /** The cache read of `_check`: the entry, if present and not expired. */
    method Lookup(key: Key, now: int) returns (hit: Option<Cached>)
      ensures hit.Some? <==> Hit(cache, key, now)
      ensures hit.Some? ==> hit.value == cache[key].value
    {
      if key in cache && cache[key].exp >= now {
        hit := Some(cache[key].value);
      } else {
        hit := None;
      }
    }

    /** The cache write of `_check` after a fetch. The branches below store an
        entry of the shape that `Valid` expects for the key. */
    method Remember(key: Key, v: Cached, now: int)
      modifies this`cache
      ensures cache == old(cache)[key := Entry(v, now + TTL)]
    {
      cache := cache[key := Entry(v, now + TTL)];
    }

    /** The broadcast-channel branch of `_check`. */
    method BroadcastBranch(config: nat, m: Message, now: int, fetched: Role) returns (d: Decision)
      requires Valid()
      modifies this`cache
      ensures d == BroadcastRule(anyAdmin, config, m, old(cache), now, fetched).decision
      ensures cache == BroadcastRule(anyAdmin, config, m, old(cache), now, fetched).cache
      ensures Valid()
    {
      if m.edited {
        return Deny;
      }
      var key := ChatKey(m.chatId);
      var hit := Lookup(key, now);
      var v;
      if hit.Some? {
        v := hit.value;
      } else {
        v := ChatEntry(fetched);
        Remember(key, v, now);
      }
      if !v.ChatEntry? {
        return Raised;
      }
      if !CanPost(v.chat) {
        return Deny;
      }
      if (anyAdmin && AnyAdminFlag(config)) || Has(config, GROUP_ADMIN) {
        return Allow;
      }
      return Deny;
    }

    /** The supergroup participant branch of `_check`. */
    method SupergroupBranch(config: nat, u: int, m: Message, now: int, fetched: Role) returns (d: Decision)
      requires Valid()
      modifies this`cache
      ensures d == SupergroupRule(anyAdmin, config, u, m, old(cache), now, fetched).decision
      ensures cache == SupergroupRule(anyAdmin, config, u, m, old(cache), now, fetched).cache
      ensures Valid()
    {
      var key := UserKey(m.chatId, u);
      var hit := Lookup(key, now);
      var v;
      if hit.Some? {
        v := hit.value;
      } else {
        v := PermissionsEntry(fetched);
        Remember(key, v, now);
      }
      if !v.PermissionsEntry? {
        return Raised;
      }
      if ParticipantAllowed(anyAdmin, config, v.participant) {
        return Allow;
      }
      return Deny;
    }

    /** The basic-group branch of `_check`; the participant list is searched
        only on a cache miss. */
    method LegacyBranch(config: nat, u: int, m: Message, now: int, ps: seq<LegacyParticipant>) returns (d: Decision)
      requires Valid()
      modifies this`cache
      ensures d == LegacyRule(config, u, m, old(cache), now, ps).decision
      ensures cache == LegacyRule(config, u, m, old(cache), now, ps).cache
      ensures Valid()
    {
      var key := UserKey(m.chatId, u);
      var hit := Lookup(key, now);
      var v;
      if hit.Some? {
        v := hit.value;
      } else {
        var record := FindParticipant(ps, m.senderId);
        v := LegacyEntry(record);
        Remember(key, v, now);
      }
      match v
      case LegacyEntry(None) => return NoRecord;
      case LegacyEntry(Some(k)) => return if LegacyAllowed(config, k) then Allow else Deny;
      case PermissionsEntry(_) => return Deny;
      case ChatEntry(_) => return Raised;
    }

    /** The rules of `_check` that need a message. */
    method ChatRules(config: nat, u: int, m: Message, now: int, o: Lookups) returns (d: Decision)
      requires Valid()
      modifies this`cache
      ensures d == DecideInChat(anyAdmin, config, u, m, old(cache), now, o).decision
      ensures cache == DecideInChat(anyAdmin, config, u, m, old(cache), now, o).cache
      ensures Valid()
    {
      if (Has(config, GROUP_MEMBER) && IsGroup(m.kind)) || (Has(config, PM) && IsPrivate(m.kind)) {
        return Allow;
      }
      if IsChannel(m.kind) {
        if !IsGroup(m.kind) {
          d := BroadcastBranch(config, m, now, o.chat);
        } else if AnyAdminFlag(config) || Has(config, GROUP_OWNER) {
          d := SupergroupBranch(config, u, m, now, o.permissions);
        } else {
          d := Deny;
        }
        return;
      }
      if IsGroup(m.kind) && (AnyAdminFlag(config) || Has(config, GROUP_OWNER)) {
        d := LegacyBranch(config, u, m, now, o.participants);
        return;
      }
      return Deny;
    }

    /** `_check` */
    method Check(db: Store, target: Target, message: Option<Message>, user: Option<int>, now: int, o: Lookups)
      returns (d: Decision)
      requires me.Some?
      requires message.Some? || user.Some?
      requires Valid()
      modifies this`owner, this`sudo, this`support, this`cache
      ensures Reloaded(db) && me.value in owner && Valid()
      ensures d == Decide(Settings(anyAdmin, defaultMask), me.value, db, target, message, user, old(cache), now, o).decision
      ensures cache == Decide(Settings(anyAdmin, defaultMask), me.value, db, target, message, user, old(cache), now, o).cache
    {
      CheckLemmas.DecideKeepsCacheShapes(Settings(anyAdmin, defaultMask), me.value, db, target, message, user, cache, now, o);
      ReloadRights(db);
      var config := GetFlags(Settings(anyAdmin, defaultMask), db, target);
      if config == 0 {
        return Deny;
      }
      var u := if user.Some? then user.value else message.value.senderId;
      if u == me.value || (message.Some? && message.value.out) {
        return Allow;
      }
      if || (Has(config, OWNER) && u in owner)
         || (Has(config, SUDO) && u in sudo)
         || (Has(config, SUPPORT) && u in support)
      {
        return Allow;
      }
      assert !AllowListed(config, u, db, me.value);
      if u in db.blacklistUsers {
        return Deny;
      }
      if message.None? {
        return if Has(config, EVERYONE) then Allow else Deny;
      }
      d := ChatRules(config, u, message.value, now, o);
    }
  }
}
