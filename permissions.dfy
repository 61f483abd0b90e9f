/** The permission bit vocabulary of `hikka/security.py`: fourteen named flags,
    their name table, and the composite masks built from them. */
module Permissions {
  import opened Bits

  // Bit positions, so that lemmas can speak of "bit k" directly.
  const OWNER_BIT: nat := 0
  const SUDO_BIT: nat := 1
  const SUPPORT_BIT: nat := 2
  const GROUP_OWNER_BIT: nat := 3
  const ADD_ADMINS_BIT: nat := 4
  const CHANGE_INFO_BIT: nat := 5
  const BAN_USERS_BIT: nat := 6
  const DELETE_MESSAGES_BIT: nat := 7
  const PIN_MESSAGES_BIT: nat := 8
  const INVITE_USERS_BIT: nat := 9
  const GROUP_ADMIN_BIT: nat := 10
  const GROUP_MEMBER_BIT: nat := 11
  const PM_BIT: nat := 12
  const EVERYONE_BIT: nat := 13

  // The flags, each `1 << k`.
  const OWNER: nat := Pow2(OWNER_BIT)
  const SUDO: nat := Pow2(SUDO_BIT)
  const SUPPORT: nat := Pow2(SUPPORT_BIT)
  const GROUP_OWNER: nat := Pow2(GROUP_OWNER_BIT)
  const GROUP_ADMIN_ADD_ADMINS: nat := Pow2(ADD_ADMINS_BIT)
  const GROUP_ADMIN_CHANGE_INFO: nat := Pow2(CHANGE_INFO_BIT)
  const GROUP_ADMIN_BAN_USERS: nat := Pow2(BAN_USERS_BIT)
  const GROUP_ADMIN_DELETE_MESSAGES: nat := Pow2(DELETE_MESSAGES_BIT)
  const GROUP_ADMIN_PIN_MESSAGES: nat := Pow2(PIN_MESSAGES_BIT)
  const GROUP_ADMIN_INVITE_USERS: nat := Pow2(INVITE_USERS_BIT)
  const GROUP_ADMIN: nat := Pow2(GROUP_ADMIN_BIT)
  const GROUP_MEMBER: nat := Pow2(GROUP_MEMBER_BIT)
  const PM: nat := Pow2(PM_BIT)
  const EVERYONE: nat := Pow2(EVERYONE_BIT)

  /** Name of each flag, for rendering a mask. */
  const BITMAP: map<string, nat> := map[
    "OWNER" := OWNER,
    "SUDO" := SUDO,
    "SUPPORT" := SUPPORT,
    "GROUP_OWNER" := GROUP_OWNER,
    "GROUP_ADMIN_ADD_ADMINS" := GROUP_ADMIN_ADD_ADMINS,
    "GROUP_ADMIN_CHANGE_INFO" := GROUP_ADMIN_CHANGE_INFO,
    "GROUP_ADMIN_BAN_USERS" := GROUP_ADMIN_BAN_USERS,
    "GROUP_ADMIN_DELETE_MESSAGES" := GROUP_ADMIN_DELETE_MESSAGES,
    "GROUP_ADMIN_PIN_MESSAGES" := GROUP_ADMIN_PIN_MESSAGES,
    "GROUP_ADMIN_INVITE_USERS" := GROUP_ADMIN_INVITE_USERS,
    "GROUP_ADMIN" := GROUP_ADMIN,
    "GROUP_MEMBER" := GROUP_MEMBER,
    "PM" := PM,
    "EVERYONE" := EVERYONE
  ]

  /** Every group-admin capability: the six specific rights and the generic one. */
  const GROUP_ADMIN_ANY: nat :=
    Or(Or(Or(Or(Or(Or(GROUP_ADMIN_ADD_ADMINS, GROUP_ADMIN_CHANGE_INFO), GROUP_ADMIN_BAN_USERS),
      GROUP_ADMIN_DELETE_MESSAGES), GROUP_ADMIN_PIN_MESSAGES), GROUP_ADMIN_INVITE_USERS), GROUP_ADMIN)

  const DEFAULT_PERMISSIONS: nat := Or(OWNER, SUDO)

  const PUBLIC_PERMISSIONS: nat := Or(Or(Or(GROUP_OWNER, GROUP_ADMIN_ANY), GROUP_MEMBER), PM)

  /** `(1 << 13) - 1`: bits 0 to 12, which leaves `EVERYONE` out. */
  const ALL: nat := Pow2(EVERYONE_BIT) - 1

  /** The flags have the values the source writes as `1 << k`. */
  lemma FlagValues()
    ensures OWNER == 1 && SUDO == 2 && SUPPORT == 4 && GROUP_OWNER == 8
    ensures GROUP_ADMIN_ADD_ADMINS == 16 && GROUP_ADMIN_CHANGE_INFO == 32
    ensures GROUP_ADMIN_BAN_USERS == 64 && GROUP_ADMIN_DELETE_MESSAGES == 128
    ensures GROUP_ADMIN_PIN_MESSAGES == 256 && GROUP_ADMIN_INVITE_USERS == 512
    ensures GROUP_ADMIN == 1024 && GROUP_MEMBER == 2048 && PM == 4096 && EVERYONE == 8192
    ensures ALL == 8191
  {
  }

  /** `GROUP_ADMIN_ANY` is exactly bits 4 to 10. */
  lemma GroupAdminAnyBits(i: nat)
    ensures Bit(GROUP_ADMIN_ANY, i) <==> ADD_ADMINS_BIT <= i <= GROUP_ADMIN_BIT
  {
    var m1 := Or(GROUP_ADMIN_ADD_ADMINS, GROUP_ADMIN_CHANGE_INFO);
    var m2 := Or(m1, GROUP_ADMIN_BAN_USERS);
    var m3 := Or(m2, GROUP_ADMIN_DELETE_MESSAGES);
    var m4 := Or(m3, GROUP_ADMIN_PIN_MESSAGES);
    var m5 := Or(m4, GROUP_ADMIN_INVITE_USERS);
    BitOfOr(GROUP_ADMIN_ADD_ADMINS, GROUP_ADMIN_CHANGE_INFO, i);
    BitOfOr(m1, GROUP_ADMIN_BAN_USERS, i);
    BitOfOr(m2, GROUP_ADMIN_DELETE_MESSAGES, i);
    BitOfOr(m3, GROUP_ADMIN_PIN_MESSAGES, i);
    BitOfOr(m4, GROUP_ADMIN_INVITE_USERS, i);
    BitOfOr(m5, GROUP_ADMIN, i);
    BitOfPow2(ADD_ADMINS_BIT, i);
    BitOfPow2(CHANGE_INFO_BIT, i);
    BitOfPow2(BAN_USERS_BIT, i);
    BitOfPow2(DELETE_MESSAGES_BIT, i);
    BitOfPow2(PIN_MESSAGES_BIT, i);
    BitOfPow2(INVITE_USERS_BIT, i);
    BitOfPow2(GROUP_ADMIN_BIT, i);
  }

  /** `ALL` is exactly bits 0 to 12. */
  lemma AllBits(i: nat)
    ensures Bit(ALL, i) <==> i < EVERYONE_BIT
  {
    BitOfLowMask(EVERYONE_BIT, i);
  }

  /** `ALL` leaves out `EVERYONE`, and covers every other flag. */
  lemma AllExcludesEveryone()
    ensures !Has(ALL, EVERYONE)
    ensures forall k: nat :: k < EVERYONE_BIT ==> Has(ALL, Pow2(k))
  {
    HasPow2(ALL, EVERYONE_BIT);
    AllBits(EVERYONE_BIT);
    forall k: nat | k < EVERYONE_BIT ensures Has(ALL, Pow2(k)) {
      HasPow2(ALL, k);
      AllBits(k);
    }
  }

  /** `DEFAULT_PERMISSIONS` is exactly `OWNER` and `SUDO`. */
  lemma DefaultBits(i: nat)
    ensures Bit(DEFAULT_PERMISSIONS, i) <==> i == OWNER_BIT || i == SUDO_BIT
  {
    BitOfOr(OWNER, SUDO, i);
    BitOfPow2(OWNER_BIT, i);
    BitOfPow2(SUDO_BIT, i);
  }

  /** `PUBLIC_PERMISSIONS` is exactly bits 3 to 12: everything but the three
      allow-list flags and `EVERYONE`. */
  lemma PublicBits(i: nat)
    ensures Bit(PUBLIC_PERMISSIONS, i) <==> GROUP_OWNER_BIT <= i <= PM_BIT
  {
    BitOfOr(Or(Or(GROUP_OWNER, GROUP_ADMIN_ANY), GROUP_MEMBER), PM, i);
    BitOfOr(Or(GROUP_OWNER, GROUP_ADMIN_ANY), GROUP_MEMBER, i);
    BitOfOr(GROUP_OWNER, GROUP_ADMIN_ANY, i);
    GroupAdminAnyBits(i);
    BitOfPow2(GROUP_OWNER_BIT, i);
    BitOfPow2(GROUP_MEMBER_BIT, i);
    BitOfPow2(PM_BIT, i);
  }

  /** The composites have the values the source computes. */
  lemma CompositeValues()
    ensures GROUP_ADMIN_ANY == 2032
    ensures DEFAULT_PERMISSIONS == 3
    ensures PUBLIC_PERMISSIONS == 8184
  {
    OrFlagAbove(Pow2(4), 5);
    OrFlagAbove(48, 6);
    OrFlagAbove(112, 7);
    OrFlagAbove(240, 8);
    OrFlagAbove(496, 9);
    OrFlagAbove(1008, 10);
    OrFlagAbove(Pow2(0), 1);
    forall i: nat ensures !(Bit(GROUP_OWNER, i) && Bit(GROUP_ADMIN_ANY, i)) {
      BitOfPow2(GROUP_OWNER_BIT, i);
      GroupAdminAnyBits(i);
    }
    OrDisjoint(GROUP_OWNER, GROUP_ADMIN_ANY);
    OrFlagAbove(2040, 11);
    OrFlagAbove(4088, 12);
  }
}
