/** Properties of the decision procedure `_check` (`Policy.Decide`): the order
    of its rules, what each branch allows, and how it uses the role cache. */
module CheckLemmas {
  import opened Bits
  import opened Permissions
  import opened Wrappers
  import opened TtlCache
  import opened Policy
  import ResolutionLemmas

  /** The request is not settled by the mask, the identity or the blacklist rules. */
  ghost predicate PastIdentityRules(s: Settings, me: int, db: Store, target: Target, message: Option<Message>, user: Option<int>)
    requires message.Some? || user.Some?
  {
    var config := GetFlags(s, db, target);
    var u := Actor(message, user);
    && config != 0
    && u != me
    && !(message.Some? && message.value.out)
    && !AllowListed(config, u, db, me)
    && u !in db.blacklistUsers
  }

  /** The bit a specific admin right corresponds to; posting has none. */
  function RightBit(r: AdminRight): nat
    requires r != PostMessages
  {
    match r
    case AddAdmins => ADD_ADMINS_BIT
    case ChangeInfo => CHANGE_INFO_BIT
    case BanUsers => BAN_USERS_BIT
    case DeleteMessages => DELETE_MESSAGES_BIT
    case PinMessages => PIN_MESSAGES_BIT
    case InviteUsers => INVITE_USERS_BIT
  }

  // ---------------------------------------------------------------------------
  // Rule order

  /** A resolved mask of 0 denies before any other rule, even for the bot
      itself, and touches no cache entry. */
  lemma ZeroMaskDenies(s: Settings, me: int, db: Store, target: Target, message: Option<Message>,
                       user: Option<int>, cache: RoleCache, now: int, o: Lookups)
    requires message.Some? || user.Some?
    requires GetFlags(s, db, target) == 0
    ensures Decide(s, me, db, target, message, user, cache, now, o) == Outcome(Deny, cache)
  {
  }

  /** With a non-zero mask, the bot's own id and outgoing messages are allowed
      whatever the bits. */
  lemma SelfBypass(s: Settings, me: int, db: Store, target: Target, message: Option<Message>,
                   user: Option<int>, cache: RoleCache, now: int, o: Lookups)
    requires message.Some? || user.Some?
    requires GetFlags(s, db, target) != 0
    requires Actor(message, user) == me || (message.Some? && message.value.out)
    ensures Decide(s, me, db, target, message, user, cache, now, o) == Outcome(Allow, cache)
  {
  }

  /** A user on the owner, sudo or support list whose list's bit is in the
      mask is allowed, blacklisted or not. */
  lemma AllowListBeatsBlacklist(s: Settings, me: int, db: Store, target: Target, message: Option<Message>,
                                user: Option<int>, cache: RoleCache, now: int, o: Lookups)
    requires message.Some? || user.Some?
    requires var config := GetFlags(s, db, target);
             var u := Actor(message, user);
             || (Bit(config, OWNER_BIT) && u in db.owner)
             || (Bit(config, SUDO_BIT) && u in db.sudo)
             || (Bit(config, SUPPORT_BIT) && u in db.support)
    ensures Decide(s, me, db, target, message, user, cache, now, o) == Outcome(Allow, cache)
  {
    var config := GetFlags(s, db, target);
    HasPow2(config, OWNER_BIT);
    HasPow2(config, SUDO_BIT);
    HasPow2(config, SUPPORT_BIT);
    if config == 0 {
      BitOfZero(OWNER_BIT);
      BitOfZero(SUDO_BIT);
      BitOfZero(SUPPORT_BIT);
    }
  }

  /** Any other blacklisted user is denied. */
  lemma BlacklistDenies(s: Settings, me: int, db: Store, target: Target, message: Option<Message>,
                        user: Option<int>, cache: RoleCache, now: int, o: Lookups)
    requires message.Some? || user.Some?
    requires GetFlags(s, db, target) != 0
    requires Actor(message, user) != me && !(message.Some? && message.value.out)
    requires !AllowListed(GetFlags(s, db, target), Actor(message, user), db, me)
    requires Actor(message, user) in db.blacklistUsers
    ensures Decide(s, me, db, target, message, user, cache, now, o) == Outcome(Deny, cache)
  {
  }

  /** Without a message, a user past the identity rules is allowed exactly
      when the mask has `EVERYONE`. */
  lemma ContextFreeCheck(s: Settings, me: int, db: Store, target: Target, user: int,
                         cache: RoleCache, now: int, o: Lookups)
    requires PastIdentityRules(s, me, db, target, None, Some(user))
    ensures Decide(s, me, db, target, None, Some(user), cache, now, o) ==
            Outcome(if Bit(GetFlags(s, db, target), EVERYONE_BIT) then Allow else Deny, cache)
  {
    HasPow2(GetFlags(s, db, target), EVERYONE_BIT);
  }

  /** Every allow is backed by a non-zero mask and by one of the rules: the
      bot itself, the allow-lists, `EVERYONE` without a message, or a chat rule
      for a user who is not blacklisted. */
  lemma AllowNeedsARule(s: Settings, me: int, db: Store, target: Target, message: Option<Message>,
                        user: Option<int>, cache: RoleCache, now: int, o: Lookups)
    requires message.Some? || user.Some?
    requires Decide(s, me, db, target, message, user, cache, now, o).decision == Allow
    ensures GetFlags(s, db, target) != 0
    ensures var u := Actor(message, user);
            || u == me
            || (message.Some? && message.value.out)
            || AllowListed(GetFlags(s, db, target), u, db, me)
            || (u !in db.blacklistUsers && message.None? && Bit(GetFlags(s, db, target), EVERYONE_BIT))
            || (u !in db.blacklistUsers && message.Some?)
  {
    HasPow2(GetFlags(s, db, target), EVERYONE_BIT);
  }

  // ---------------------------------------------------------------------------
  // Member and PM shortcuts

  /** `GROUP_MEMBER` with a group message, or `PM` with a private one, allows. */
  lemma MemberAndPmShortcuts(s: Settings, me: int, db: Store, target: Target, m: Message,
                             user: Option<int>, cache: RoleCache, now: int, o: Lookups)
    requires PastIdentityRules(s, me, db, target, Some(m), user)
    requires var config := GetFlags(s, db, target);
             (Bit(config, GROUP_MEMBER_BIT) && IsGroup(m.kind)) || (Bit(config, PM_BIT) && m.kind == Private)
    ensures Decide(s, me, db, target, Some(m), user, cache, now, o) == Outcome(Allow, cache)
  {
    HasPow2(GetFlags(s, db, target), GROUP_MEMBER_BIT);
    HasPow2(GetFlags(s, db, target), PM_BIT);
  }

  /** In a private chat the `PM` bit decides alone. */
  lemma PrivateChatNeedsPm(s: Settings, me: int, db: Store, target: Target, m: Message,
                           user: Option<int>, cache: RoleCache, now: int, o: Lookups)
    requires PastIdentityRules(s, me, db, target, Some(m), user)
    requires m.kind == Private
    ensures Decide(s, me, db, target, Some(m), user, cache, now, o) ==
            Outcome(if Bit(GetFlags(s, db, target), PM_BIT) then Allow else Deny, cache)
  {
    HasPow2(GetFlags(s, db, target), PM_BIT);
  }

  // ---------------------------------------------------------------------------
  // Broadcast channels

  /** An edited broadcast-channel message is allowed only by the rules before
      the chat rules: the bot itself, or the allow-lists; it never reads the
      cache. */
  lemma EditedBroadcastDenied(s: Settings, me: int, db: Store, target: Target, m: Message,
                              user: Option<int>, cache: RoleCache, now: int, o: Lookups)
    requires m.kind == Broadcast && m.edited
    requires GetFlags(s, db, target) != 0
    ensures var out := Decide(s, me, db, target, Some(m), user, cache, now, o);
            var u := Actor(Some(m), user);
            && out.cache == cache
            && (out.decision == Allow <==> u == me || m.out || AllowListed(GetFlags(s, db, target), u, db, me))
            && (out.decision != Allow ==> out.decision == Deny)
  {
  }

  /** A broadcast-channel message past the identity rules is allowed exactly
      when the chat (cached, or fetched on a miss) gives the bot the right to
      post, and the mask has `GROUP_ADMIN` or, with the any-admin setting, any
      group-admin bit; every other case is denied. */
  lemma BroadcastRuleIff(s: Settings, me: int, db: Store, target: Target, m: Message,
                         user: Option<int>, cache: RoleCache, now: int, o: Lookups)
    requires PastIdentityRules(s, me, db, target, Some(m), user)
    requires m.kind == Broadcast && !m.edited
    requires CacheShapes(cache)
    ensures var out := Decide(s, me, db, target, Some(m), user, cache, now, o);
            var config := GetFlags(s, db, target);
            var chat := if Hit(cache, ChatKey(m.chatId), now) then cache[ChatKey(m.chatId)].value.chat else o.chat;
            && (out.decision == Allow <==>
                  CanPost(chat) && ((s.anyAdmin && Has(config, GROUP_ADMIN_ANY)) || Bit(config, GROUP_ADMIN_BIT)))
            && (out.decision != Allow ==> out.decision == Deny)
  {
    var config := GetFlags(s, db, target);
    ResolutionLemmas.AnyAdminFlagIff(config);
    HasPow2(config, GROUP_ADMIN_BIT);
  }

  /** In a broadcast channel, `GROUP_OWNER` alone never allows: the channel
      branch ends in a denial without looking at the user. */
  lemma BroadcastIgnoresGroupOwner(s: Settings, me: int, db: Store, target: Target, m: Message,
                                   user: Option<int>, cache: RoleCache, now: int, o: Lookups)
    requires PastIdentityRules(s, me, db, target, Some(m), user)
    requires m.kind == Broadcast
    requires forall i: nat :: Bit(GetFlags(s, db, target), i) ==> i == GROUP_OWNER_BIT
    ensures Decide(s, me, db, target, Some(m), user, cache, now, o).decision != Allow
  {
    var config := GetFlags(s, db, target);
    ResolutionLemmas.AnyAdminFlagIff(config);
    HasPow2(config, GROUP_ADMIN_BIT);
  }

  // ---------------------------------------------------------------------------
  // Supergroups

  /** The participant rule, with the bits read one by one: a creator is
      allowed; an admin only through the any-admin setting with some admin bit,
      through `GROUP_ADMIN`, or through a specific right bit the admin holds. */
  lemma ParticipantAllowedIff(anyAdmin: bool, config: nat, p: Role)
    ensures ParticipantAllowed(anyAdmin, config, p) <==>
            || p.Creator?
            || (p.Admin? &&
                (|| (anyAdmin && Has(config, GROUP_ADMIN_ANY))
                 || Bit(config, GROUP_ADMIN_BIT)
                 || exists r :: r in p.rights && r != PostMessages && Bit(config, RightBit(r))))
  {
    ResolutionLemmas.AnyAdminFlagIff(config);
    HasPow2(config, ADD_ADMINS_BIT);
    HasPow2(config, CHANGE_INFO_BIT);
    HasPow2(config, BAN_USERS_BIT);
    HasPow2(config, DELETE_MESSAGES_BIT);
    HasPow2(config, PIN_MESSAGES_BIT);
    HasPow2(config, INVITE_USERS_BIT);
    HasPow2(config, GROUP_ADMIN_BIT);
    if p.Admin? && exists r :: r in p.rights && r != PostMessages && Bit(config, RightBit(r)) {
      var r :| r in p.rights && r != PostMessages && Bit(config, RightBit(r));
      assert SpecificRightHeld(config, p.rights);
    }
  }

  /** A supergroup message past the identity rules and without the
      `GROUP_MEMBER` shortcut: with no group-admin or group-owner bit it is
      denied without a lookup; otherwise the participant (cached, or fetched on
      a miss) decides through the participant rule. */
  lemma SupergroupRule(s: Settings, me: int, db: Store, target: Target, m: Message,
                       user: Option<int>, cache: RoleCache, now: int, o: Lookups)
    requires PastIdentityRules(s, me, db, target, Some(m), user)
    requires m.kind == Supergroup
    requires !Bit(GetFlags(s, db, target), GROUP_MEMBER_BIT)
    ensures var out := Decide(s, me, db, target, Some(m), user, cache, now, o);
            var config := GetFlags(s, db, target);
            var key := UserKey(m.chatId, Actor(Some(m), user));
            var seen := if Hit(cache, key, now) then cache[key].value else PermissionsEntry(o.permissions);
            && (!Has(config, GROUP_ADMIN_ANY) && !Bit(config, GROUP_OWNER_BIT) ==> out == Outcome(Deny, cache))
            && ((Has(config, GROUP_ADMIN_ANY) || Bit(config, GROUP_OWNER_BIT)) && seen.PermissionsEntry? ==>
                  (out.decision == Allow <==> ParticipantAllowed(s.anyAdmin, config, seen.participant)))
  {
    var config := GetFlags(s, db, target);
    ResolutionLemmas.AnyAdminFlagIff(config);
    HasPow2(config, GROUP_MEMBER_BIT);
    HasPow2(config, GROUP_OWNER_BIT);
  }

  /** A supergroup creator is allowed for any mask with a group-admin or
      group-owner bit. */
  lemma SupergroupCreatorAllowed(s: Settings, me: int, db: Store, target: Target, m: Message,
                                 user: Option<int>, cache: RoleCache, now: int, o: Lookups)
    requires PastIdentityRules(s, me, db, target, Some(m), user)
    requires m.kind == Supergroup
    requires Has(GetFlags(s, db, target), GROUP_ADMIN_ANY) || Bit(GetFlags(s, db, target), GROUP_OWNER_BIT)
    requires !Hit(cache, UserKey(m.chatId, Actor(Some(m), user)), now)
    requires o.permissions == Creator
    ensures Decide(s, me, db, target, Some(m), user, cache, now, o).decision == Allow
  {
    var config := GetFlags(s, db, target);
    ResolutionLemmas.AnyAdminFlagIff(config);
    HasPow2(config, GROUP_OWNER_BIT);
  }

  // ---------------------------------------------------------------------------
  // Basic groups

  /** A basic-group message past the identity rules and without the
      `GROUP_MEMBER` shortcut, with a group-admin or group-owner bit: the
      record (cached, or searched and cached on a miss) decides. A missing
      participant record gives the falsy `None`, a creator is allowed, an admin
      only when some group-admin bit is set, a plain participant is denied; a
      cached supergroup participant is denied and a cached chat raises. */
  lemma LegacyGroupRule(s: Settings, me: int, db: Store, target: Target, m: Message,
                        user: Option<int>, cache: RoleCache, now: int, o: Lookups)
    requires PastIdentityRules(s, me, db, target, Some(m), user)
    requires m.kind == LegacyGroup
    requires !Bit(GetFlags(s, db, target), GROUP_MEMBER_BIT)
    requires Has(GetFlags(s, db, target), GROUP_ADMIN_ANY) || Bit(GetFlags(s, db, target), GROUP_OWNER_BIT)
    ensures var out := Decide(s, me, db, target, Some(m), user, cache, now, o);
            var key := UserKey(m.chatId, Actor(Some(m), user));
            var seen := if Hit(cache, key, now) then cache[key].value
                        else LegacyEntry(FirstMatch(o.participants, m.senderId));
            && (!Hit(cache, key, now) ==> out.cache == cache[key := Entry(seen, now + TTL)])
            && (Hit(cache, key, now) ==> out.cache == cache)
            && (seen == LegacyEntry(None) ==> out.decision == NoRecord)
            && (seen == LegacyEntry(Some(LegacyCreator)) ==> out.decision == Allow)
            && (seen == LegacyEntry(Some(LegacyAdmin)) ==>
                  out.decision == if Has(GetFlags(s, db, target), GROUP_ADMIN_ANY) then Allow else Deny)
            && (seen == LegacyEntry(Some(PlainParticipant)) ==> out.decision == Deny)
            && (seen.PermissionsEntry? ==> out.decision == Deny)
            && (seen.ChatEntry? ==> out.decision == Raised)
  {
    var config := GetFlags(s, db, target);
    ResolutionLemmas.AnyAdminFlagIff(config);
    HasPow2(config, GROUP_MEMBER_BIT);
    HasPow2(config, GROUP_OWNER_BIT);
  }

  /** A cached basic-group creator is allowed without any lookup, and the
      cache is left as it was. */
  lemma LegacyCachedCreatorAllowed(s: Settings, me: int, db: Store, target: Target, m: Message,
                                   user: Option<int>, cache: RoleCache, now: int, o: Lookups)
    requires PastIdentityRules(s, me, db, target, Some(m), user)
    requires m.kind == LegacyGroup
    requires !Bit(GetFlags(s, db, target), GROUP_MEMBER_BIT)
    requires Has(GetFlags(s, db, target), GROUP_ADMIN_ANY) || Bit(GetFlags(s, db, target), GROUP_OWNER_BIT)
    requires Hit(cache, UserKey(m.chatId, Actor(Some(m), user)), now)
    requires cache[UserKey(m.chatId, Actor(Some(m), user))].value == LegacyEntry(Some(LegacyCreator))
    ensures Decide(s, me, db, target, Some(m), user, cache, now, o) == Outcome(Allow, cache)
  {
    LegacyGroupRule(s, me, db, target, m, user, cache, now, o);
  }

  /** A basic-group message whose mask has neither a group-admin nor a
      group-owner bit (nor the member shortcut) is denied without a lookup. */
  lemma LegacyGroupWithoutAdminBitsDenied(s: Settings, me: int, db: Store, target: Target, m: Message,
                                          user: Option<int>, cache: RoleCache, now: int, o: Lookups)
    requires PastIdentityRules(s, me, db, target, Some(m), user)
    requires m.kind == LegacyGroup
    requires !Bit(GetFlags(s, db, target), GROUP_MEMBER_BIT)
    requires !Has(GetFlags(s, db, target), GROUP_ADMIN_ANY) && !Bit(GetFlags(s, db, target), GROUP_OWNER_BIT)
    ensures Decide(s, me, db, target, Some(m), user, cache, now, o) == Outcome(Deny, cache)
  {
    var config := GetFlags(s, db, target);
    ResolutionLemmas.AnyAdminFlagIff(config);
    HasPow2(config, GROUP_MEMBER_BIT);
    HasPow2(config, GROUP_OWNER_BIT);
  }

  /** The basic-group branch judges the message's sender, not the checked
      user: on a miss, checks for any two users of the same message reach the
      same decision, and each caches the sender's record under its own key. */
  lemma LegacyJudgesSender(config: nat, u1: int, u2: int, m: Message, cache: RoleCache, now: int,
                           ps: seq<LegacyParticipant>)
    requires !Hit(cache, UserKey(m.chatId, u1), now) && !Hit(cache, UserKey(m.chatId, u2), now)
    ensures LegacyRule(config, u1, m, cache, now, ps).decision == LegacyRule(config, u2, m, cache, now, ps).decision
    ensures LegacyRule(config, u1, m, cache, now, ps).cache[UserKey(m.chatId, u1)].value ==
            LegacyEntry(FirstMatch(ps, m.senderId))
  {
  }

  /** `FirstMatch` is the first record with the id, or `None` when no record has it. */
  lemma {:induction false} FirstMatchIsFirst(ps: seq<LegacyParticipant>, id: int)
    ensures FirstMatch(ps, id).None? <==> forall i :: 0 <= i < |ps| ==> ps[i].userId != id
    ensures FirstMatch(ps, id).Some? ==>
              exists i :: 0 <= i < |ps| && ps[i].userId == id && ps[i].kind == FirstMatch(ps, id).value
                          && forall j :: 0 <= j < i ==> ps[j].userId != id
  {
    if |ps| > 0 && ps[0].userId != id {
      FirstMatchIsFirst(ps[1..], id);
      assert forall i :: 1 <= i < |ps| ==> ps[i] == ps[1..][i - 1];
      if FirstMatch(ps, id).Some? {
        var i :| 0 <= i < |ps[1..]| && ps[1..][i].userId == id && ps[1..][i].kind == FirstMatch(ps, id).value
                 && forall j :: 0 <= j < i ==> ps[1..][j].userId != id;
        assert ps[i + 1].userId == id && forall j :: 0 <= j < i + 1 ==> ps[j].userId != id;
      }
    } else if |ps| > 0 {
      assert ps[0].userId == id;
    }
  }

  // ---------------------------------------------------------------------------
  // The role cache

  /** A check changes at most one cache entry, only on a miss, and stores it
      with expiry `now + TTL`. */
  lemma CacheChangesOnlyOnMiss(s: Settings, me: int, db: Store, target: Target, message: Option<Message>,
                               user: Option<int>, cache: RoleCache, now: int, o: Lookups)
    requires message.Some? || user.Some?
    ensures var out := Decide(s, me, db, target, message, user, cache, now, o);
            || out.cache == cache
            || exists k :: k in out.cache && !Hit(cache, k, now)
                           && out.cache == cache[k := Entry(out.cache[k].value, now + TTL)]
  {
    var out := Decide(s, me, db, target, message, user, cache, now, o);
    if out.cache != cache {
      var m := message.value;
      var u := Actor(message, user);
      var k := if m.kind == Broadcast then ChatKey(m.chatId) else UserKey(m.chatId, u);
      assert k in out.cache && !Hit(cache, k, now)
             && out.cache == cache[k := Entry(out.cache[k].value, now + TTL)];
    }
  }

  /** While the entries a check could read are fresh, the external lookups'
      answers make no difference: nothing is fetched. */
  lemma FreshCacheIgnoresLookups(s: Settings, me: int, db: Store, target: Target, message: Option<Message>,
                                 user: Option<int>, cache: RoleCache, now: int, o1: Lookups, o2: Lookups)
    requires message.Some? || user.Some?
    requires message.Some? ==> Hit(cache, ChatKey(message.value.chatId), now)
    requires message.Some? ==> Hit(cache, UserKey(message.value.chatId, Actor(message, user)), now)
    ensures Decide(s, me, db, target, message, user, cache, now, o1) == Decide(s, me, db, target, message, user, cache, now, o2)
  {
  }

  /** Every check keeps each key shape holding its own kind of entry. */
  lemma DecideKeepsCacheShapes(s: Settings, me: int, db: Store, target: Target, message: Option<Message>,
                               user: Option<int>, cache: RoleCache, now: int, o: Lookups)
    requires message.Some? || user.Some?
    requires CacheShapes(cache)
    ensures CacheShapes(Decide(s, me, db, target, message, user, cache, now, o).cache)
  {
  }
}
