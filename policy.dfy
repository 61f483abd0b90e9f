/** The decision procedure of `SecurityManager` in `hikka/security.py`, as pure
    functions: mask resolution (`get_flags`) and the first-match rule chain of
    `_check`, with the role cache threaded through as a value. The external
    lookups (`message.get_chat`, `client.get_permissions`, `GetFullChatRequest`)
    are the oracle answers in `Lookups`; the clock is the parameter `now`. */
module Policy {
  import opened Bits
  import opened Permissions
  import opened Wrappers
  import opened TtlCache
  import Annotations

  /** What is checked: a raw mask, or a handler together with its `security`
      attribute (absent when no decorator was applied). */
  datatype Target =
    | RawMask(mask: nat)
    | Function(handler: Annotations.Handler, security: Option<nat>)

  /** The policy store values the manager reads. Absent scalar keys fall back to
      the source's defaults; absent lists and maps read as empty. */
  datatype Store = Store(
    anyAdmin: Option<bool>,
    defaultMask: Option<nat>,
    owner: seq<int>,
    sudo: seq<int>,
    support: seq<int>,
    masks: map<string, nat>,
    boundingMask: Option<nat>,
    blacklistUsers: seq<int>)

  /** The two settings the manager reads once, when it is created. */
  datatype Settings = Settings(anyAdmin: bool, defaultMask: nat)

  function SettingsOf(db: Store): Settings
  {
    Settings(db.anyAdmin.GetOr(false), db.defaultMask.GetOr(DEFAULT_PERMISSIONS))
  }

  /** The four kinds of chat a message can come from. */
  datatype ChatKind = Private | LegacyGroup | Supergroup | Broadcast

  /** `message.is_group`: a basic group or a supergroup. */
  predicate IsGroup(k: ChatKind) { k == LegacyGroup || k == Supergroup }

  /** `message.is_private` */
  predicate IsPrivate(k: ChatKind) { k == Private }

  /** `message.is_channel`: a supergroup or a broadcast channel. */
  predicate IsChannel(k: ChatKind) { k == Supergroup || k == Broadcast }

  /** The message attributes `_check` reads. `chatId` is `utils.get_chat_id(message)`. */
  datatype Message = Message(senderId: int, chatId: int, kind: ChatKind, out: bool, edited: bool)

  /** The named admin rights of the messaging API. */
  datatype AdminRight =
    | AddAdmins | ChangeInfo | BanUsers | DeleteMessages | PinMessages | InviteUsers | PostMessages

  /** A role in a supergroup or channel, as the messaging API reports it. */
  datatype Role = Creator | Admin(rights: set<AdminRight>) | Member | NotParticipant

  /** A basic group's participant record kinds. */
  datatype LegacyKind = PlainParticipant | LegacyAdmin | LegacyCreator

  datatype LegacyParticipant = LegacyParticipant(userId: int, kind: LegacyKind)

  /** Oracle answers of the three external lookups, used only on a cache miss:
      the bot's own standing in a broadcast channel (`message.get_chat()`), the
      participant's permissions in a supergroup (`client.get_permissions`) and the
      participant list of a basic group (`GetFullChatRequest`). */
  datatype Lookups = Lookups(chat: Role, permissions: Role, participants: seq<LegacyParticipant>)

  /** Cache keys: a chat id, or the `"{chat_id}/{user}"` string, kept as a pair. */
  datatype Key = ChatKey(chat: int) | UserKey(chat: int, user: int)

  /** What a cache entry holds: the channel (`"chat"`), a supergroup participant's
      permissions or a basic-group participant record, possibly missing (`"user"`). */
  datatype Cached =
    | ChatEntry(chat: Role)
    | PermissionsEntry(participant: Role)
    | LegacyEntry(record: Option<LegacyKind>)

  type RoleCache = map<Key, Entry<Cached>>

  /** The result of `_check`: `True`, `False`, the falsy `None` returned when a
      basic group has no record of the sender, or an exception raised when a
      cache entry of the other kind of group is read as a participant. */
  datatype Decision = Allow | Deny | NoRecord | Raised

  datatype Outcome = Outcome(decision: Decision, cache: RoleCache)

  /** Every key shape holds the value kind the source stores under it. */
  ghost predicate CacheShapes(c: RoleCache)
  {
    forall k :: k in c ==> (k.ChatKey? <==> c[k].value.ChatEntry?)
  }

  // ---------------------------------------------------------------------------
  // get_flags

  /** `f"{func.__module__}.{func.__name__}"` */
  function QualifiedName(h: Annotations.Handler): string
  {
    h.moduleName + "." + h.name
  }

  /** The mask before validation: a raw int as is; for a handler, a stored
      override replaces the annotation, and the manager default applies only
      when there is neither. */
  function CandidateMask(target: Target, masks: map<string, nat>, defaultMask: nat): nat
  {
    match target
    case RawMask(m) => m
    case Function(h, security) =>
      var key := QualifiedName(h);
      if key in masks then masks[key] else security.GetOr(defaultMask)
  }

  /** `config & ~ALL and not config & EVERYONE` */
  predicate UnknownBits(config: nat)
  {
    AndNot(config, ALL) != 0 && !Has(config, EVERYONE)
  }

  function BoundingMask(db: Store): nat
  {
    db.boundingMask.GetOr(DEFAULT_PERMISSIONS)
  }

  /** `get_flags`: a malformed mask resolves to 0 (`False`), any other is ANDed
      with the bounding mask. */
  function GetFlags(s: Settings, db: Store, target: Target): nat
  {
    var config := CandidateMask(target, db.masks, s.defaultMask);
    if UnknownBits(config) then 0 else And(config, BoundingMask(db))
  }

  // ---------------------------------------------------------------------------
  // _check

  /** `f_group_admin_any`: some group-admin flag is set. */
  predicate AnyAdminFlag(config: nat)
  {
    || Has(config, GROUP_ADMIN_ADD_ADMINS)
    || Has(config, GROUP_ADMIN_CHANGE_INFO)
    || Has(config, GROUP_ADMIN_BAN_USERS)
    || Has(config, GROUP_ADMIN_DELETE_MESSAGES)
    || Has(config, GROUP_ADMIN_PIN_MESSAGES)
    || Has(config, GROUP_ADMIN_INVITE_USERS)
    || Has(config, GROUP_ADMIN)
  }

  /** The ids of a list read from the store. */
  function Ids(s: seq<int>): set<int>
  {
    set x | x in s
  }

  /** The owner list after `_reload_rights`: the stored owners and the bot itself. */
  function OwnerIds(db: Store, me: int): set<int>
  {
    Ids(db.owner) + {me}
  }

  /** The allow-list rule: a listed user whose list's flag is in the mask. */
  predicate AllowListed(config: nat, u: int, db: Store, me: int)
  {
    || (Has(config, OWNER) && u in OwnerIds(db, me))
    || (Has(config, SUDO) && u in Ids(db.sudo))
    || (Has(config, SUPPORT) && u in Ids(db.support))
  }

  /** The user checked: the one given, else the message's sender. */
  function Actor(message: Option<Message>, user: Option<int>): int
    requires message.Some? || user.Some?
  {
    if user.Some? then user.value else message.value.senderId
  }

  /** Whether the bot may post in a broadcast channel: creator, or admin with
      the post-messages right. */
  predicate CanPost(chat: Role)
  {
    chat.Creator? || (chat.Admin? && PostMessages in chat.rights)
  }

  /** An admin right required by the mask that the participant holds. */
  predicate SpecificRightHeld(config: nat, rights: set<AdminRight>)
  {
    || (Has(config, GROUP_ADMIN_ADD_ADMINS) && AddAdmins in rights)
    || (Has(config, GROUP_ADMIN_CHANGE_INFO) && ChangeInfo in rights)
    || (Has(config, GROUP_ADMIN_BAN_USERS) && BanUsers in rights)
    || (Has(config, GROUP_ADMIN_DELETE_MESSAGES) && DeleteMessages in rights)
    || (Has(config, GROUP_ADMIN_PIN_MESSAGES) && PinMessages in rights)
    || (Has(config, GROUP_ADMIN_INVITE_USERS) && InviteUsers in rights)
  }

  /** The supergroup participant rule. */
  predicate ParticipantAllowed(anyAdmin: bool, config: nat, p: Role)
  {
    || p.Creator?
    || (p.Admin? &&
        (|| (anyAdmin && AnyAdminFlag(config))
         || Has(config, GROUP_ADMIN)
         || SpecificRightHeld(config, p.rights)))
  }

  /** The basic-group participant rule. */
  predicate LegacyAllowed(config: nat, k: LegacyKind)
  {
    k == LegacyCreator || (k == LegacyAdmin && AnyAdminFlag(config))
  }

  /** `next(p for p in participants if p.user_id == id)`, or `None`. */
  function FirstMatch(ps: seq<LegacyParticipant>, id: int): Option<LegacyKind>
  {
    if |ps| == 0 then None
    else if ps[0].userId == id then Some(ps[0].kind)
    else FirstMatch(ps[1..], id)
  }

  /** The broadcast-channel branch. */
  function BroadcastRule(anyAdmin: bool, config: nat, m: Message, cache: RoleCache, now: int, fetched: Role): Outcome
  {
    if m.edited then Outcome(Deny, cache)
    else
      var (v, c) := GetOrFetch(cache, ChatKey(m.chatId), now, ChatEntry(fetched));
      if !v.ChatEntry? then Outcome(Raised, c)
      else if !CanPost(v.chat) then Outcome(Deny, c)
      else if (anyAdmin && AnyAdminFlag(config)) || Has(config, GROUP_ADMIN) then Outcome(Allow, c)
      else Outcome(Deny, c)
  }

  /** The supergroup participant branch. */
  function SupergroupRule(anyAdmin: bool, config: nat, u: int, m: Message, cache: RoleCache, now: int, fetched: Role): Outcome
  {
    var (v, c) := GetOrFetch(cache, UserKey(m.chatId, u), now, PermissionsEntry(fetched));
    if !v.PermissionsEntry? then Outcome(Raised, c)
    else if ParticipantAllowed(anyAdmin, config, v.participant) then Outcome(Allow, c)
    else Outcome(Deny, c)
  }

  /** The basic-group branch. The record is looked up by the message's sender,
      while the cache key uses the checked user. */
  function LegacyRule(config: nat, u: int, m: Message, cache: RoleCache, now: int, ps: seq<LegacyParticipant>): Outcome
  {
    var (v, c) := GetOrFetch(cache, UserKey(m.chatId, u), now, LegacyEntry(FirstMatch(ps, m.senderId)));
    match v
    case LegacyEntry(None) => Outcome(NoRecord, c)
    case LegacyEntry(Some(k)) => Outcome(if LegacyAllowed(config, k) then Allow else Deny, c)
    case PermissionsEntry(_) => Outcome(Deny, c)
    case ChatEntry(_) => Outcome(Raised, c)
  }

  /** The rules that need a message: the member/PM shortcuts, then the
      channel, supergroup and basic-group branches. */
  function DecideInChat(anyAdmin: bool, config: nat, u: int, m: Message, cache: RoleCache, now: int, o: Lookups): Outcome
  {
    if (Has(config, GROUP_MEMBER) && IsGroup(m.kind)) || (Has(config, PM) && IsPrivate(m.kind)) then
      Outcome(Allow, cache)
    else if IsChannel(m.kind) then
      if !IsGroup(m.kind) then BroadcastRule(anyAdmin, config, m, cache, now, o.chat)
      else if AnyAdminFlag(config) || Has(config, GROUP_OWNER) then
        SupergroupRule(anyAdmin, config, u, m, cache, now, o.permissions)
      else Outcome(Deny, cache)
    else if IsGroup(m.kind) && (AnyAdminFlag(config) || Has(config, GROUP_OWNER)) then
      LegacyRule(config, u, m, cache, now, o.participants)
    else Outcome(Deny, cache)
  }

  /** `_check`, first matching rule wins. */
  function Decide(s: Settings, me: int, db: Store, target: Target, message: Option<Message>,
                  user: Option<int>, cache: RoleCache, now: int, o: Lookups): Outcome
    requires message.Some? || user.Some?
  {
    var config := GetFlags(s, db, target);
    if config == 0 then Outcome(Deny, cache)
    else
      var u := Actor(message, user);
      if u == me || (message.Some? && message.value.out) then Outcome(Allow, cache)
      else if AllowListed(config, u, db, me) then Outcome(Allow, cache)
      else if u in db.blacklistUsers then Outcome(Deny, cache)
      else if message.None? then Outcome(if Has(config, EVERYONE) then Allow else Deny, cache)
      else DecideInChat(s.anyAdmin, config, u, message.value, cache, now, o)
  }
}
