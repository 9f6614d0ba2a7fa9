/** Permission words, overrides and the mutable permission accumulator. */
module Permissions {
  import opened Bits
  import opened Wrappers

  // Channel permission flags and masks
  const MANAGE_CHANNEL: bv64 := 0x1
  const MANAGE_PERMISSIONS: bv64 := 0x4
  const MANAGE_ROLE: bv64 := 0x8
  const VIEW_CHANNEL: bv64 := 0x10_0000
  const READ_MESSAGE_HISTORY: bv64 := 0x20_0000
  const SEND_MESSAGE: bv64 := 0x40_0000
  const MANAGE_MESSAGES: bv64 := 0x80_0000
  const INVITE_OTHERS: bv64 := 0x200_0000
  const SEND_EMBEDS: bv64 := 0x400_0000
  const UPLOAD_FILES: bv64 := 0x800_0000
  const MASQUERADE: bv64 := 0x1000_0000
  const REACT: bv64 := 0x2000_0000
  const CONNECT: bv64 := 0x4000_0000
  const SPEAK: bv64 := 0x8000_0000
  const VIDEO: bv64 := 0x1_0000_0000
  const LISTEN: bv64 := 0x10_0000_0000
  const GRANT_ALL_SAFE: bv64 := 0x000F_FFFF_FFFF_FFFF
  const GRANT_ALL: bv64 := 0xFFFF_FFFF_FFFF_FFFF

  const ALLOW_IN_TIMEOUT: bv64 := VIEW_CHANNEL | READ_MESSAGE_HISTORY
  const DEFAULT_PERMISSION_VIEW_ONLY: bv64 := VIEW_CHANNEL | READ_MESSAGE_HISTORY
  const DEFAULT_PERMISSION: bv64 :=
    DEFAULT_PERMISSION_VIEW_ONLY | SEND_MESSAGE | INVITE_OTHERS | SEND_EMBEDS | UPLOAD_FILES
    | CONNECT | SPEAK | LISTEN | VIDEO
  const DEFAULT_PERMISSION_DIRECT_MESSAGE: bv64 := DEFAULT_PERMISSION | MANAGE_CHANNEL | REACT | MASQUERADE

  // User permission flags
  const USER_ACCESS: bv64 := 0x1
  const USER_VIEW_PROFILE: bv64 := 0x2
  const USER_SEND_MESSAGE: bv64 := 0x4

  datatype Override = Override(allow: bv64, deny: bv64)

  const NO_OVERRIDE := Override(0, 0)

  /** An override adds its allowed flags and then removes its denied ones. */
  ghost function Applied(p: iset<bv64>, o: Override): iset<bv64> {
    p + Flags(o.allow) - Flags(o.deny)
  }

  /** Overrides applied from left to right. */
  ghost function Folded(p: iset<bv64>, os: seq<Override>): iset<bv64> {
    if os == [] then p else Applied(Folded(p, os[..|os| - 1]), os[|os| - 1])
  }

  /**
    An editor holding `editor` may replace `current` by `next`: every newly
    allowed flag, and every flag no longer denied, is one the editor holds.
   */
  ghost predicate MayGrant(editor: iset<bv64>, current: Option<Override>, next: Override) {
    match current
    case None => Flags(next.allow) <= editor
    case Some(c) =>
      && Flags(next.allow) - Flags(c.allow) <= editor
      && Flags(c.deny) - Flags(next.deny) <= editor
  }

  /** The flags of `a` that `b` lacks, as a word. */
  method Difference(a: bv64, b: bv64) returns (w: bv64)
    ensures Flags(w) == Flags(a) - Flags(b)
  {
    FlagsOfAndNot(a, b);
    w := a & !b;
  }

  class PermissionValue {
    var raw: bv64

    ghost function Held(): iset<bv64>
      reads this
    {
      Flags(raw)
    }

    constructor (value: bv64)
      ensures raw == value
    {
      raw := value;
    }

    method Apply(v: Override)
      modifies this
      ensures Held() == Applied(old(Held()), v)
    {
      Allow(v.allow);
      Revoke(v.deny);
    }

    method Allow(v: bv64)
      modifies this
      ensures Held() == old(Held()) + Flags(v)
    {
      FlagsOfOr(raw, v);
      raw := raw | v;
    }

    method Revoke(v: bv64)
      modifies this
      ensures Held() == old(Held()) - Flags(v)
    {
      FlagsOfAndNot(raw, v);
      raw := raw & !v;
    }

    method RevokeAll()
      modifies this
      ensures Held() == iset{}
    {
      FlagsOfZero();
      raw := 0;
    }

    method Restrict(v: bv64)
      modifies this
      ensures Held() == old(Held()) * Flags(v)
    {
      FlagsOfAnd(raw, v);
      raw := raw & v;
    }

    /** Whether every flag of `v` is held. */
    method Has(v: bv64) returns (r: bool)
      ensures r <==> Flags(v) <= Held()
    {
      CoversIsSuperset(raw, v);
      r := raw & v == v;
    }

    method ThrowIfLacking(permission: bv64) returns (r: Result<()>)
      ensures r.Success? <==> Flags(permission) <= Held()
      ensures r.Failure? ==> r.error == MissingPermission
    {
      var has := Has(permission);
      r := if has then Success(()) else Failure(MissingPermission);
    }

    method ThrowPermissionOverride(current: Option<Override>, next: Override) returns (r: Result<()>)
      ensures r.Success? <==> MayGrant(Held(), current, next)
      ensures r.Failure? ==> r.error == CannotGiveMissingPermissions
    {
      match current
      case Some(c) =>
        var allowsAdded := Difference(next.allow, c.allow);
        var deniesRemoved := Difference(c.deny, next.deny);
        var maySetAllows := Has(allowsAdded);
        var mayDropDenies := Has(deniesRemoved);
        if !maySetAllows || !mayDropDenies {
          return Failure(CannotGiveMissingPermissions);
        }
        return Success(());
      case None =>
        var has := Has(next.allow);
        if !has {
          return Failure(CannotGiveMissingPermissions);
        }
        return Success(());
    }
  }

  lemma TimeoutMaskFacts()
    ensures Flags(VIEW_CHANNEL) <= Flags(ALLOW_IN_TIMEOUT)
    ensures Flags(ALLOW_IN_TIMEOUT) !! Flags(SPEAK) + Flags(VIDEO) + Flags(LISTEN)
    ensures Flags(VIEW_CHANNEL) !! Flags(SPEAK) + Flags(VIDEO) + Flags(LISTEN)
  {
    CoversIsSuperset(ALLOW_IN_TIMEOUT, VIEW_CHANNEL);
    FlagsOfAnd(ALLOW_IN_TIMEOUT, SPEAK | VIDEO | LISTEN);
    FlagsOfZero();
    FlagsOfOr(SPEAK | VIDEO, LISTEN);
    FlagsOfOr(SPEAK, VIDEO);
  }

  /** The view flag is a single flag, and it is covered by the view-only mask. */
  lemma ViewFacts()
    ensures Flags(VIEW_CHANNEL) == iset{VIEW_CHANNEL}
    ensures Flags(VIEW_CHANNEL) <= Flags(DEFAULT_PERMISSION_VIEW_ONLY)
    ensures Flags(VIEW_CHANNEL) <= Flags(DEFAULT_PERMISSION_DIRECT_MESSAGE)
    ensures Flags(VIEW_CHANNEL) <= Flags(GRANT_ALL_SAFE)
  {
    FlagsOfFlag(VIEW_CHANNEL);
    CoversIsSuperset(DEFAULT_PERMISSION_VIEW_ONLY, VIEW_CHANNEL);
    CoversIsSuperset(DEFAULT_PERMISSION_DIRECT_MESSAGE, VIEW_CHANNEL);
    CoversIsSuperset(GRANT_ALL_SAFE, VIEW_CHANNEL);
  }
}
