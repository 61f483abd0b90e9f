/** Properties of mask resolution (`get_flags`): which mask is chosen, when it
    is rejected, and how the bounding mask limits it. */
module ResolutionLemmas {
  import opened Bits
  import opened Permissions
  import opened Wrappers
  import opened Policy
  import Annotations

  /** The validity test rejects exactly the masks with a bit at 13 or above and
      without `EVERYONE`; with `EVERYONE` set, any higher bits pass. */
  lemma UnknownBitsIff(config: nat)
    ensures UnknownBits(config) <==> config >= Pow2(EVERYONE_BIT) && !Bit(config, EVERYONE_BIT)
  {
    HasPow2(config, EVERYONE_BIT);
    BelowPow2(config, EVERYONE_BIT);
    ZeroIffNoBit(AndNot(config, ALL));
    forall i: nat ensures Bit(AndNot(config, ALL), i) == (Bit(config, i) && EVERYONE_BIT <= i) {
      BitOfAndNot(config, ALL, i);
      AllBits(i);
    }
    if config >= Pow2(EVERYONE_BIT) {
      var i :| EVERYONE_BIT <= i && Bit(config, i);
      assert Bit(AndNot(config, ALL), i);
    }
  }

  /** A mask within `ALL` is always valid. */
  lemma InsideAllIsValid(config: nat)
    requires config <= ALL
    ensures !UnknownBits(config)
  {
    UnknownBitsIff(config);
  }

  /** A mask holding `EVERYONE` is never rejected, whatever higher bits it has. */
  lemma EveryoneExemptsHighBits(config: nat)
    requires Bit(config, EVERYONE_BIT)
    ensures !UnknownBits(config)
  {
    UnknownBitsIff(config);
  }

  /** A single flag above `EVERYONE` is rejected. */
  lemma HighFlagRejected(k: nat)
    requires k > EVERYONE_BIT
    ensures UnknownBits(Pow2(k))
  {
    BitOfPow2(k, EVERYONE_BIT);
    BelowPow2(Pow2(k), EVERYONE_BIT);
    BitOfPow2(k, k);
    UnknownBitsIff(Pow2(k));
  }

  /** The resolved mask has exactly the bits shared by the candidate and the
      bounding mask, or none at all when the candidate is malformed: it is a
      submask of both. */
  lemma FlagsBits(s: Settings, db: Store, target: Target, i: nat)
    ensures var config := CandidateMask(target, db.masks, s.defaultMask);
            Bit(GetFlags(s, db, target), i) <==>
              !UnknownBits(config) && Bit(config, i) && Bit(BoundingMask(db), i)
  {
    var config := CandidateMask(target, db.masks, s.defaultMask);
    if UnknownBits(config) {
      BitOfZero(i);
    } else {
      BitOfAnd(config, BoundingMask(db), i);
    }
  }

  /** Without a stored bounding mask, the resolved mask holds at most `OWNER`
      and `SUDO`. */
  lemma DefaultBoundingLimitsFlags(s: Settings, db: Store, target: Target)
    requires db.boundingMask.None?
    ensures forall i: nat :: Bit(GetFlags(s, db, target), i) ==> i == OWNER_BIT || i == SUDO_BIT
    ensures GetFlags(s, db, target) < 4
  {
    forall i: nat ensures Bit(GetFlags(s, db, target), i) ==> i == OWNER_BIT || i == SUDO_BIT {
      FlagsBits(s, db, target, i);
      DefaultBits(i);
    }
    BelowPow2(GetFlags(s, db, target), 2);
  }

  /** A raw int is used as the candidate unchanged. */
  lemma RawMaskUsedAsIs(s: Settings, db: Store, m: nat)
    ensures GetFlags(s, db, RawMask(m)) == if UnknownBits(m) then 0 else And(m, BoundingMask(db))
  {
  }

  /** A stored override replaces the annotation: the handler then resolves
      like its override given as a raw int, whatever it was annotated with. */
  lemma OverrideReplacesAnnotation(s: Settings, db: Store, h: Annotations.Handler, security: Option<nat>)
    requires QualifiedName(h) in db.masks
    ensures GetFlags(s, db, Function(h, security)) == GetFlags(s, db, RawMask(db.masks[QualifiedName(h)]))
  {
  }

  /** Without an override, the annotation is used and the manager default is
      ignored; the default applies only when there is neither. */
  lemma DefaultOnlyWithoutAnnotation(s: Settings, db: Store, h: Annotations.Handler, security: Option<nat>)
    requires QualifiedName(h) !in db.masks
    ensures security.Some? ==> GetFlags(s, db, Function(h, security)) == GetFlags(s, db, RawMask(security.value))
    ensures security.None? ==> GetFlags(s, db, Function(h, security)) == GetFlags(s, db, RawMask(s.defaultMask))
  {
  }

  /** A handler annotated by the decorators and not overridden keeps `OWNER`
      whenever the bounding mask does. */
  lemma AnnotatedHandlerKeepsOwner(s: Settings, db: Store, h: Annotations.Handler, prev: nat, flags: nat)
    requires QualifiedName(h) !in db.masks
    requires Bit(BoundingMask(db), OWNER_BIT)
    requires !UnknownBits(Annotations.Annotate(prev, flags))
    ensures Has(GetFlags(s, db, Function(h, Some(Annotations.Annotate(prev, flags)))), OWNER)
  {
    var target := Function(h, Some(Annotations.Annotate(prev, flags)));
    Annotations.AnnotateBits(prev, flags, OWNER_BIT);
    FlagsBits(s, db, target, OWNER_BIT);
    HasPow2(GetFlags(s, db, target), OWNER_BIT);
  }

  /** An override need not contain `OWNER`, so a handler's resolved mask does
      not always include it: an override of `SUDO` alone, under the default
      bounding mask, resolves to `SUDO` alone. */
  lemma OverrideCanDropOwner(s: Settings, h: Annotations.Handler)
    ensures var db := Store(None, None, [], [], [], map[QualifiedName(h) := SUDO], None, []);
            GetFlags(s, db, Function(h, Some(OWNER))) == SUDO && !Has(SUDO, OWNER)
  {
    var db := Store(None, None, [], [], [], map[QualifiedName(h) := SUDO], None, []);
    InsideAllIsValid(SUDO);
    forall i: nat ensures Bit(GetFlags(s, db, Function(h, Some(OWNER))), i) == Bit(SUDO, i) {
      FlagsBits(s, db, Function(h, Some(OWNER)), i);
      DefaultBits(i);
      BitOfPow2(SUDO_BIT, i);
    }
    BitsEqual(GetFlags(s, db, Function(h, Some(OWNER))), SUDO);
    HasPow2(SUDO, OWNER_BIT);
    BitOfPow2(SUDO_BIT, OWNER_BIT);
  }

  /** Under the default bounding mask `EVERYONE` is ANDed away, so a handler
      asking for `EVERYONE` alone resolves to 0. */
  lemma EveryoneNeedsBoundingMask(s: Settings, db: Store)
    requires db.boundingMask.None?
    ensures GetFlags(s, db, RawMask(EVERYONE)) == 0
  {
    var r := GetFlags(s, db, RawMask(EVERYONE));
    forall i: nat ensures !Bit(r, i) {
      FlagsBits(s, db, RawMask(EVERYONE), i);
      DefaultBits(i);
      BitOfPow2(EVERYONE_BIT, i);
    }
    ZeroIffNoBit(r);
  }

  /** The `or` chain `f_group_admin_any` is the test of `GROUP_ADMIN_ANY`: some
      bit from 4 to 10 is set. */
  lemma AnyAdminFlagIff(config: nat)
    ensures AnyAdminFlag(config) <==> Has(config, GROUP_ADMIN_ANY)
    ensures AnyAdminFlag(config) <==> exists i: nat :: ADD_ADMINS_BIT <= i <= GROUP_ADMIN_BIT && Bit(config, i)
  {
    HasIff(config, GROUP_ADMIN_ANY);
    forall i: nat ensures Bit(GROUP_ADMIN_ANY, i) <==> ADD_ADMINS_BIT <= i <= GROUP_ADMIN_BIT {
      GroupAdminAnyBits(i);
    }
    HasPow2(config, ADD_ADMINS_BIT);
    HasPow2(config, CHANGE_INFO_BIT);
    HasPow2(config, BAN_USERS_BIT);
    HasPow2(config, DELETE_MESSAGES_BIT);
    HasPow2(config, PIN_MESSAGES_BIT);
    HasPow2(config, INVITE_USERS_BIT);
    HasPow2(config, GROUP_ADMIN_BIT);
    if exists i: nat :: ADD_ADMINS_BIT <= i <= GROUP_ADMIN_BIT && Bit(config, i) {
      var i: nat :| ADD_ADMINS_BIT <= i <= GROUP_ADMIN_BIT && Bit(config, i);
      assert i == 4 || i == 5 || i == 6 || i == 7 || i == 8 || i == 9 || i == 10;
    }
  }
}
