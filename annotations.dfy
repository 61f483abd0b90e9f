/** The handler annotators of `hikka/security.py` (`_sec` and the named
    decorators). The `security` attribute the source sets on a function object
    is kept here in a side table from handler to mask. */
module Annotations {
  import opened Bits
  import opened Permissions
  import opened Wrappers

  /** A handler, known by its module and function name. */
  datatype Handler = Handler(moduleName: string, name: string)

  /** The mask `_sec` stores: `prev | OWNER | flags`. */
  function Annotate(prev: nat, flags: nat): nat
  {
    Or(Or(prev, OWNER), flags)
  }

  /** The named decorators, one per flag, plus `unrestricted` and `inline_everyone`. */
  datatype Annotator =
    | OwnerOnly | Sudo | Support | GroupOwner
    | AddAdmins | ChangeInfo | BanUsers | DeleteMessages | PinMessages | InviteUsers
    | GroupAdmin | GroupMember | Pm | Unrestricted | InlineEveryone

  /** The flags each decorator passes to `_sec`. */
  function AnnotatorFlags(a: Annotator): nat
  {
    match a
    case OwnerOnly => OWNER
    case Sudo => SUDO
    case Support => Or(SUDO, SUPPORT)
    case GroupOwner => Or(SUDO, GROUP_OWNER)
    case AddAdmins => Or(SUDO, GROUP_ADMIN_ADD_ADMINS)
    case ChangeInfo => Or(SUDO, GROUP_ADMIN_CHANGE_INFO)
    case BanUsers => Or(SUDO, GROUP_ADMIN_BAN_USERS)
    case DeleteMessages => Or(SUDO, GROUP_ADMIN_DELETE_MESSAGES)
    case PinMessages => Or(SUDO, GROUP_ADMIN_PIN_MESSAGES)
    case InviteUsers => Or(SUDO, GROUP_ADMIN_INVITE_USERS)
    case GroupAdmin => Or(SUDO, GROUP_ADMIN)
    case GroupMember => Or(SUDO, GROUP_MEMBER)
    case Pm => Or(SUDO, PM)
    case Unrestricted => ALL
    case InlineEveryone => EVERYONE
  }

  /** The flag a decorator is named after (`ALL` for `unrestricted`). */
  function NamedFlag(a: Annotator): nat
  {
    match a
    case OwnerOnly => OWNER
    case Sudo => SUDO
    case Support => SUPPORT
    case GroupOwner => GROUP_OWNER
    case AddAdmins => GROUP_ADMIN_ADD_ADMINS
    case ChangeInfo => GROUP_ADMIN_CHANGE_INFO
    case BanUsers => GROUP_ADMIN_BAN_USERS
    case DeleteMessages => GROUP_ADMIN_DELETE_MESSAGES
    case PinMessages => GROUP_ADMIN_PIN_MESSAGES
    case InviteUsers => GROUP_ADMIN_INVITE_USERS
    case GroupAdmin => GROUP_ADMIN
    case GroupMember => GROUP_MEMBER
    case Pm => PM
    case Unrestricted => ALL
    case InlineEveryone => EVERYONE
  }

  /** The mask a handler carries: its `security` attribute, absent until annotated. */
  function SecurityOf(table: map<Handler, nat>, h: Handler): Option<nat>
  {
    if h in table then Some(table[h]) else None
  }

  /** Every annotated handler requires at least `OWNER`. */
  ghost predicate OwnerAlwaysSet(table: map<Handler, nat>)
  {
    forall h :: h in table ==> Bit(table[h], OWNER_BIT)
  }

  /** The bits after `_sec` are the previous bits, `OWNER` and the new flags. */
  lemma AnnotateBits(prev: nat, flags: nat, i: nat)
    ensures Bit(Annotate(prev, flags), i) <==> Bit(prev, i) || i == OWNER_BIT || Bit(flags, i)
  {
    BitOfOr(Or(prev, OWNER), flags, i);
    BitOfOr(prev, OWNER, i);
    BitOfPow2(OWNER_BIT, i);
  }

  /** The annotated mask always contains `OWNER`, every earlier bit and every new flag. */
  lemma AnnotateKeeps(prev: nat, flags: nat)
    ensures Has(Annotate(prev, flags), OWNER)
    ensures forall i: nat :: Bit(prev, i) ==> Bit(Annotate(prev, flags), i)
    ensures forall i: nat :: Bit(flags, i) ==> Bit(Annotate(prev, flags), i)
  {
    forall i: nat ensures Bit(Annotate(prev, flags), i) <==> Bit(prev, i) || i == OWNER_BIT || Bit(flags, i) {
      AnnotateBits(prev, flags, i);
    }
    HasPow2(Annotate(prev, flags), OWNER_BIT);
  }

  /** Applying the same annotation twice changes nothing. */
  lemma AnnotateIdempotent(prev: nat, flags: nat)
    ensures Annotate(Annotate(prev, flags), flags) == Annotate(prev, flags)
  {
    var once := Annotate(prev, flags);
    forall i: nat ensures Bit(Annotate(once, flags), i) == Bit(once, i) {
      AnnotateBits(once, flags, i);
      AnnotateBits(prev, flags, i);
    }
    BitsEqual(Annotate(once, flags), once);
  }

  /** Stacked decorators give the same mask in either order. */
  lemma AnnotateCommutes(prev: nat, f: nat, g: nat)
    ensures Annotate(Annotate(prev, f), g) == Annotate(Annotate(prev, g), f)
  {
    forall i: nat ensures Bit(Annotate(Annotate(prev, f), g), i) == Bit(Annotate(Annotate(prev, g), f), i) {
      AnnotateBits(Annotate(prev, f), g, i);
      AnnotateBits(prev, f, i);
      AnnotateBits(Annotate(prev, g), f, i);
      AnnotateBits(prev, g, i);
    }
    BitsEqual(Annotate(Annotate(prev, f), g), Annotate(Annotate(prev, g), f));
  }

  /** Every decorator sets the flag it is named after, and all but `owner` and
      `inline_everyone` also set `SUDO` (`unrestricted` through `ALL`). */
  lemma AnnotatorFlagsBits(a: Annotator)
    ensures forall i: nat :: Bit(NamedFlag(a), i) ==> Bit(AnnotatorFlags(a), i)
    ensures Bit(AnnotatorFlags(a), SUDO_BIT) <==> a != OwnerOnly && a != InlineEveryone
  {
    BitOfPow2(SUDO_BIT, SUDO_BIT);
    forall i: nat ensures Bit(Or(SUDO, NamedFlag(a)), i) <==> i == SUDO_BIT || Bit(NamedFlag(a), i) {
      BitOfOr(SUDO, NamedFlag(a), i);
      BitOfPow2(SUDO_BIT, i);
    }
    match a
    case OwnerOnly => BitOfPow2(OWNER_BIT, SUDO_BIT);
    case Unrestricted => AllBits(SUDO_BIT);
    case InlineEveryone => BitOfPow2(EVERYONE_BIT, SUDO_BIT);
    case _ =>
  }

  /** The handlers' `security` attributes. */
  class HandlerRegistry {
    var security: map<Handler, nat>

    constructor ()
      ensures security == map[]
    {
      security := map[];
    }

    /** `_sec(func, flags)`: OR `OWNER` and `flags` into the handler's mask. */
    method Sec(h: Handler, flags: nat)
      modifies this
      ensures security == old(security)[h := Annotate(SecurityOf(old(security), h).GetOr(0), flags)]
      ensures OwnerAlwaysSet(old(security)) ==> OwnerAlwaysSet(security)
    {
      var prev := SecurityOf(security, h).GetOr(0);
      AnnotateKeeps(prev, flags);
      HasPow2(Annotate(prev, flags), OWNER_BIT);
      security := security[h := Annotate(prev, flags)];
    }

    /** Applying one of the named decorators. */
    method Apply(h: Handler, a: Annotator)
      modifies this
      ensures security == old(security)[h := Annotate(SecurityOf(old(security), h).GetOr(0), AnnotatorFlags(a))]
      ensures OwnerAlwaysSet(old(security)) ==> OwnerAlwaysSet(security)
    {
      Sec(h, AnnotatorFlags(a));
    }
  }
}
