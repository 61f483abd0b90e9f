# Permission engine of a Telegram userbot, in Dafny

This project models the permission engine of `hikka/security.py`. The engine
decides whether one command invocation may run. Its parts are:

- a 14-bit capability mask (`OWNER` … `EVERYONE`) and its composite masks;
- decorators that attach a required mask to a handler (`_sec` and the named
  annotators);
- `SecurityManager`, which holds:
  - the owner, sudo and support lists, reloaded from the policy store on
    every check;
  - the bot's own id, set by `init`;
  - a five-minute role cache;
- `get_flags`, which resolves a handler's effective mask:
  - a raw mask is used as is;
  - a stored override replaces the annotation;
  - the manager default applies only when there is neither;
  - a mask with unknown bits and no `EVERYONE` becomes 0;
  - the result is ANDed with the bounding mask;
- `_check`, a fixed-order chain of first-match rules:
  - zero mask;
  - the bot itself or an outgoing message;
  - the allow-lists;
  - the blacklist;
  - the context-free check;
  - the member and PM shortcuts;
  - the broadcast-channel rules;
  - the supergroup participant rules;
  - the basic-group rules.

Files and modules:

- `bits.dfy` (`Bits`): Python's unbounded `&`, `|` and `& ~` on non-negative
  integers, as recursive functions. Each is characterised bit by bit
  (`BitOfAnd`, `BitOfOr`, `BitOfAndNot`). Extensionality (`BitsEqual`) turns
  per-bit facts into equalities.
- `permissions.dfy` (`Permissions`): the flags as `1 << k`, the name table
  `BITMAP`, and the composites `GROUP_ADMIN_ANY`, `DEFAULT_PERMISSIONS`,
  `PUBLIC_PERMISSIONS` and `ALL`.
- `annotations.dfy` (`Annotations`): `_sec` as `Annotate`, the fifteen
  decorators, and the handlers' `security` attributes. The attributes are kept
  as a side table in the class `HandlerRegistry`.
- `ttl_cache.dfy` (`TtlCache`): the expiry rule shared by both key shapes of
  the role cache.
- `policy.dfy` (`Policy`): `get_flags` and `_check` as pure functions. The
  role cache is threaded through as a value. The result is one of:
  - `Allow`;
  - `Deny`;
  - `NoRecord`: the falsy `None` returned when a basic group has no record of
    the sender;
  - `Raised`: the exception the source hits when it reads a cache entry of the
    wrong kind.
- `manager.dfy` (`Manager`): `SecurityManager` as a class. Its fields are
  `me`, `owner`, `sudo`, `support` and `cache`; `anyAdmin` and `defaultMask`
  are fixed when it is created. `Check` writes the cache in place and is
  proved to return exactly what `Policy.Decide` returns, and to leave the same
  cache. The de-duplicating reload (`Dedup`) and the participant search
  (`FindParticipant`) are loops with invariants.
- `resolution_lemmas.dfy` and `check_lemmas.dfy`: the properties of resolution
  and of the rule chain.

External inputs are parameters:

- the three Telegram lookups are the oracle answers in `Policy.Lookups`;
  a lookup's answer is only used on a cache miss;
- the clock is `now`;
- the policy store is a `Policy.Store` value, passed to each call because it
  can change between checks.

Behaviour of the code worth noting:

- The resolved mask does not always contain `OWNER`. An override or the
  bounding mask can remove it (`ResolutionLemmas.OverrideCanDropOwner`).
- `EVERYONE` is removed by the default bounding mask (`OWNER | SUDO`). So a
  handler asking only for `EVERYONE` is denied unless the bounding mask is
  widened (`ResolutionLemmas.EveryoneNeedsBoundingMask`).
- The basic-group branch does two different things with the user:
  - it caches under the checked user's key (`f"{chat_id}/{user}"`);
  - it looks up the message's sender (`message.sender_id`).

  So when an explicit `user` differs from the sender, the sender's record
  decides. `CheckLemmas.LegacyJudgesSender` proves this.
- A mask with `EVERYONE` passes validation even with bits above 13
  (`ResolutionLemmas.EveryoneExemptsHighBits`).

## Model

| member | source | states |
|---|---|---|
| `Bits.BitOfAnd` | hikka/security.py:194 | bit i of `a & b` is set iff it is set in both `a` and `b` |
| `Bits.BitOfOr` | hikka/security.py:151 | bit i of `a \| b` is set iff it is set in either |
| `Bits.BitOfAndNot` | hikka/security.py:190 | bit i of `a & ~b` is set iff it is set in `a` and clear in `b` |
| `Bits.HasPow2` | hikka/security.py:216-228 | `m & (1 << k)` is truthy iff bit k of `m` is set |
| `Permissions.FlagValues` | hikka/security.py:40-53 | the fourteen flags are 1, 2, 4, … 8192, and `ALL` is 8191 |
| `Permissions.GroupAdminAnyBits` | hikka/security.py:72-80 | `GROUP_ADMIN_ANY` has exactly bits 4 to 10 |
| `Permissions.AllBits` | hikka/security.py:86 | `ALL` has exactly bits 0 to 12 |
| `Permissions.AllExcludesEveryone` | hikka/security.py:86 | `ALL` contains every flag except `EVERYONE` |
| `Permissions.DefaultBits` | hikka/security.py:82 | `DEFAULT_PERMISSIONS` has exactly the `OWNER` and `SUDO` bits |
| `Permissions.PublicBits` | hikka/security.py:84 | `PUBLIC_PERMISSIONS` has exactly bits 3 to 12 |
| `Permissions.CompositeValues` | hikka/security.py:72-84 | the composites equal 2032, 3 and 8184 |
| `Annotations.AnnotateBits` | hikka/security.py:149-152 | after `_sec`, a bit is set iff it was set before, is `OWNER`, or is in `flags` |
| `Annotations.AnnotateKeeps` | hikka/security.py:149-152 | the annotated mask contains `OWNER`, every earlier bit and every new flag |
| `Annotations.AnnotateIdempotent` | hikka/security.py:149-152 | applying the same annotation twice changes nothing |
| `Annotations.AnnotateCommutes` | hikka/security.py:149-152 | stacked decorators give the same mask in either order |
| `Annotations.AnnotatorFlagsBits` | hikka/security.py:89-146 | each decorator sets its own flag; it sets `SUDO` iff it is neither `owner` nor `inline_everyone` |
| `Annotations.HandlerRegistry.Sec` | hikka/security.py:149-152 | the handler's mask becomes `prev \| OWNER \| flags` with `prev` 0 when absent; other handlers unchanged; "every mask has `OWNER`" is kept |
| `Annotations.HandlerRegistry.Apply` | hikka/security.py:89-146 | a named decorator is `_sec` with that decorator's flags |
| `TtlCache.HitIgnoresFetch` | hikka/security.py:265-269 | a present, unexpired entry is returned unchanged and no fetch result is used |
| `TtlCache.MissStores` | hikka/security.py:270-272 | a miss returns the fetched value and overwrites only that key, with expiry `now + 300` |
| `TtlCache.ExpiryWindow` | hikka/security.py:265-272 | an entry stored at t is a hit exactly up to and including t + 300 |
| `ResolutionLemmas.UnknownBitsIff` | hikka/security.py:190-192 | a mask is rejected iff it is at least `1 << 13` and lacks `EVERYONE` |
| `ResolutionLemmas.InsideAllIsValid` | hikka/security.py:190-192 | a mask within `ALL` is never rejected |
| `ResolutionLemmas.EveryoneExemptsHighBits` | hikka/security.py:190 | a mask with `EVERYONE` is never rejected, whatever higher bits it has |
| `ResolutionLemmas.HighFlagRejected` | hikka/security.py:190-192 | a single flag above `EVERYONE` is rejected |
| `ResolutionLemmas.FlagsBits` | hikka/security.py:190-194 | the resolved mask has exactly the bits of candidate and bounding mask, or none if the candidate is malformed |
| `ResolutionLemmas.DefaultBoundingLimitsFlags` | hikka/security.py:194 | with no stored bounding mask the result holds only `OWNER` and `SUDO` |
| `ResolutionLemmas.RawMaskUsedAsIs` | hikka/security.py:178-179 | an int argument is validated and bounded unchanged |
| `ResolutionLemmas.OverrideReplacesAnnotation` | hikka/security.py:185-188 | a stored `module.name` override replaces the annotation instead of merging with it |
| `ResolutionLemmas.DefaultOnlyWithoutAnnotation` | hikka/security.py:185-188 | without an override the annotation is used; the default only when there is no annotation |
| `ResolutionLemmas.AnnotatedHandlerKeepsOwner` | hikka/security.py:185-194 | a decorated, non-overridden handler keeps `OWNER` when the bounding mask has it |
| `ResolutionLemmas.OverrideCanDropOwner` | hikka/security.py:185-194 | an override of `SUDO` alone resolves to `SUDO`, without `OWNER` |
| `ResolutionLemmas.EveryoneNeedsBoundingMask` | hikka/security.py:194 | under the default bounding mask, `EVERYONE` alone resolves to 0 |
| `ResolutionLemmas.AnyAdminFlagIff` | hikka/security.py:230-238 | the `f_group_admin_any` chain is true iff the mask shares a bit with `GROUP_ADMIN_ANY` |
| `Manager.Dedup` | hikka/security.py:164-171 | `list(set(xs))` keeps exactly the ids of `xs`, each once |
| `Manager.FindParticipant` | hikka/security.py:338-345 | the loop returns the first record with the id, or `None` |
| `Manager.SecurityManager.constructor` | hikka/security.py:156-161 | settings read with defaults `False` and `OWNER \| SUDO`, lists loaded, cache empty |
| `Manager.SecurityManager.ReloadRights` | hikka/security.py:163-171 | the lists hold the store's ids, each once, and the owner list also the bot's id once `init` ran |
| `Manager.SecurityManager.Init` | hikka/security.py:173-175 | the bot's own id is recorded |
| `Manager.SecurityManager.Lookup` | hikka/security.py:265-269 | an entry is returned iff its key is present with `exp >= now` |
| `Manager.SecurityManager.Remember` | hikka/security.py:272 | the key's entry is overwritten with expiry `now + 300` |
| `Manager.SecurityManager.BroadcastBranch` | hikka/security.py:260-283 | the broadcast branch's decision and cache equal `Policy.BroadcastRule` |
| `Manager.SecurityManager.SupergroupBranch` | hikka/security.py:284-323 | the supergroup branch's decision and cache equal `Policy.SupergroupRule` |
| `Manager.SecurityManager.LegacyBranch` | hikka/security.py:326-359 | the basic-group branch's decision and cache equal `Policy.LegacyRule` |
| `Manager.SecurityManager.ChatRules` | hikka/security.py:256-361 | the message-dependent rules' decision and cache equal `Policy.DecideInChat` |
| `Manager.SecurityManager.Check` | hikka/security.py:196-361 | `_check` returns `Policy.Decide`'s decision and leaves its cache; lists reloaded, the bot's id among the owners, cache shapes kept |
| `CheckLemmas.ZeroMaskDenies` | hikka/security.py:205-206 | a resolved mask of 0 denies before any other rule, even for the bot itself |
| `CheckLemmas.SelfBypass` | hikka/security.py:208-212 | with a non-zero mask, the bot's id or an outgoing message is allowed whatever the bits |
| `CheckLemmas.AllowListBeatsBlacklist` | hikka/security.py:240-251 | an owner, sudo or support user whose bit is in the mask is allowed even if blacklisted |
| `CheckLemmas.BlacklistDenies` | hikka/security.py:250-251 | any other blacklisted user is denied |
| `CheckLemmas.ContextFreeCheck` | hikka/security.py:253-254 | without a message the result is exactly whether `EVERYONE` is in the mask |
| `CheckLemmas.AllowNeedsARule` | hikka/security.py:196-361 | every allow needs a non-zero mask and the bot, the allow-lists, `EVERYONE` without a message, or a chat rule for a user not blacklisted |
| `CheckLemmas.MemberAndPmShortcuts` | hikka/security.py:256-257 | `GROUP_MEMBER` with a group message, or `PM` with a private one, is allowed |
| `CheckLemmas.PrivateChatNeedsPm` | hikka/security.py:256-361 | in a private chat the `PM` bit alone decides |
| `CheckLemmas.EditedBroadcastDenied` | hikka/security.py:259-262 | an edited broadcast message is allowed only by the bot, outgoing or allow-list rules, and reads no cache |
| `CheckLemmas.BroadcastRuleIff` | hikka/security.py:259-324 | a broadcast message is allowed iff the bot may post and the mask has `GROUP_ADMIN` or, with `any_admin`, any admin bit; otherwise denied |
| `CheckLemmas.BroadcastIgnoresGroupOwner` | hikka/security.py:282-324 | in a broadcast channel `GROUP_OWNER` alone never allows |
| `CheckLemmas.ParticipantAllowedIff` | hikka/security.py:302-321 | creator allowed; admin only via `any_admin` with an admin bit, `GROUP_ADMIN`, or a right bit the admin holds |
| `CheckLemmas.SupergroupRule` | hikka/security.py:284-324 | a supergroup with no admin or owner bit is denied without a lookup; otherwise the participant rule decides |
| `CheckLemmas.SupergroupCreatorAllowed` | hikka/security.py:302-303 | a supergroup creator is allowed for any mask with an admin or owner bit |
| `CheckLemmas.LegacyGroupRule` | hikka/security.py:326-359 | basic group, cached or fetched record: a miss stores the sender's record and a hit leaves the cache; missing gives `None`, creator allowed, admin iff an admin bit, plain participant denied |
| `CheckLemmas.LegacyCachedCreatorAllowed` | hikka/security.py:330-359 | a fresh cached creator record allows with no lookup and no cache change |
| `CheckLemmas.LegacyGroupWithoutAdminBitsDenied` | hikka/security.py:326-361 | a basic group without admin or owner bits is denied without a lookup |
| `CheckLemmas.LegacyJudgesSender` | hikka/security.py:328-342 | on a miss, the basic-group decision depends on the sender's record, not the checked user's |
| `CheckLemmas.FirstMatchIsFirst` | hikka/security.py:338-345 | the search result is the first record with the id, and `None` iff none has it |
| `CheckLemmas.CacheChangesOnlyOnMiss` | hikka/security.py:265-349 | a check changes at most one entry, only on a miss, with expiry `now + 300` |
| `CheckLemmas.FreshCacheIgnoresLookups` | hikka/security.py:265-349 | while the entries a check could read are fresh, nothing is fetched: lookup answers make no difference |
| `CheckLemmas.DecideKeepsCacheShapes` | hikka/security.py:264-349 | chat-id keys keep holding chat entries, and user keys participant entries |

## Left out

- The Telegram calls are oracle values in `Policy.Lookups`, not network
  behaviour. The calls are `client.get_me`, `message.get_chat`,
  `client.get_permissions` and `GetFullChatRequest`. Their faults, which
  propagate to the caller, are not modelled.
- The two `time.time()` reads of a cache miss are one parameter, `now`. The
  expiry is stored as `now + 300` rather than as the later time after the
  awaited fetch. Times are integers, not floats.
- Masks are non-negative. Python also accepts negative integers in the store
  or as a raw argument; for them `config & ~ALL` uses two's complement.
- Python truthiness of ids: `if not user` also replaces a user id of 0 by the
  sender. The model replaces only an absent user.
- Logging is left out (the `logger.error` for unknown bits and the
  `logger.debug` per check).
- The policy store backend is left out; its values are a `Policy.Store` record.
  The blacklist key is read from another module's namespace. That module is
  not part of this model.
- `utils.get_chat_id` is not part of this model. A message carries its chat id
  as a field. The two cache key shapes are distinct constructors. The source's
  keys are an `int` and a `"chat/user"` string, so they never collide either.
- Concurrent checks that miss on the same key are not modelled; checks run
  one after another.
- With a non-zero mask, a check before `init` raises `AttributeError` in the
  source, because `_me` does not exist yet. A zero mask denies before `_me` is
  read. `Manager.SecurityManager.Check` requires `init` to have
  run.
- With a non-zero mask, calling `_check` with neither a message nor a user
  raises in the source. A zero mask denies before `sender_id` is read.
  `Manager.SecurityManager.Check` requires one of them.
- `Manager.Dedup`: `list(set(xs))` leaves the order to Python's set iteration.
  The model keeps first occurrences in order, which is one of the possible
  results. Only membership is used.
- The handler's module and name come from the function object. Here they are
  fields of `Annotations.Handler`.
