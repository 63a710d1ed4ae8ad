/** The two validators of `src/utils.js`: the permission check and the
    length-bounds check. Both either pass silently or fail with an error. */
module Utils {
  import opened Wrappers
  import opened Schema

  /** `held` and `needed` have at least one label in common. */
  predicate Shares(held: seq<Permission>, needed: seq<Permission>) {
    exists p :: p in held && p in needed
  }

  /** `held.filter(p => needed.includes(p))`: the held labels that are also
      needed, in their original order and with their repetitions. */
  function Matched(held: seq<Permission>, needed: seq<Permission>): (r: seq<Permission>)
    ensures forall p :: p in r <==> p in held && p in needed
    ensures multiset(r) <= multiset(held)
  {
    if held == [] then []
    else
      assert held == [held[0]] + held[1..];
      if held[0] in needed then [held[0]] + Matched(held[1..], needed)
      else Matched(held[1..], needed)
  }

  /** `hasPermission(user, permissionsNeeded)`: fails unless the user holds
      at least one of the needed labels. */
  function HasPermission(user: User, needed: seq<Permission>): (r: Outcome<Error>)
    ensures r.Pass? <==> Shares(user.permissions, needed)
    ensures r.Fail? ==> r.error == InsufficientPermissions(needed, user.permissions)
  {
    var matched := Matched(user.permissions, needed);
    if |matched| == 0 then Fail(InsufficientPermissions(needed, user.permissions))
    else assert matched[0] in matched; Pass
  }

  /** ANY-of: one shared label is enough, whatever else is missing. */
  lemma HasPermissionAnyOf(user: User, needed: seq<Permission>, p: Permission)
    requires p in user.permissions && p in needed
    ensures HasPermission(user, needed).Pass?
  {
  }

  /** An empty required list, or a user with no labels, never passes. */
  lemma HasPermissionEmptyFails(user: User, needed: seq<Permission>)
    requires needed == [] || user.permissions == []
    ensures HasPermission(user, needed) == Fail(InsufficientPermissions(needed, user.permissions))
  {
  }

  /** Passing survives adding labels to the user or to the required list. */
  lemma HasPermissionMonotone(user: User, more: User, needed: seq<Permission>, wider: seq<Permission>)
    requires HasPermission(user, needed).Pass?
    requires forall p :: p in user.permissions ==> p in more.permissions
    requires forall p :: p in needed ==> p in wider
    ensures HasPermission(more, wider).Pass?
  {
  }

  const DEFAULT_MIN: int := 5
  const DEFAULT_MAX: int := 15

  /** A number argument is truthy when present and non-zero. */
  predicate Truthy(x: Option<int>) {
    x.Some? && x.value != 0
  }

  /** `x || d` for a number argument. */
  function OrDefault(x: Option<int>, d: int): int {
    if Truthy(x) then x.value else d
  }

  /** `checkCharacters(value, min, max, toCheck)`: the length must lie
      strictly between the (defaulted) bounds; the minimum is tested first. */
  function CheckCharacters(value: string, min: Option<int>, max: Option<int>, toCheck: string): (r: Outcome<Error>)
    ensures var lo, hi := OrDefault(min, DEFAULT_MIN), OrDefault(max, DEFAULT_MAX);
      (r.Pass? <==> lo < |value| < hi) &&
      (|value| <= lo ==> r == Fail(TooShort(toCheck, lo))) &&
      (lo < |value| && hi <= |value| ==> r == Fail(TooLong(toCheck, hi)))
  {
    var lo := OrDefault(min, DEFAULT_MIN);
    var hi := OrDefault(max, DEFAULT_MAX);
    if |value| <= lo then Fail(TooShort(toCheck, lo))
    else if |value| >= hi then Fail(TooLong(toCheck, hi))
    else Pass
  }

  /** An absent bound and a zero bound both mean the default. */
  lemma CheckCharactersZeroIsAbsent(value: string, min: Option<int>, max: Option<int>, toCheck: string)
    ensures CheckCharacters(value, Some(0), max, toCheck) == CheckCharacters(value, None, max, toCheck)
    ensures CheckCharacters(value, min, Some(0), toCheck) == CheckCharacters(value, min, None, toCheck)
  {
  }

  /** With both bounds defaulted, exactly the lengths 6 to 14 are accepted;
      5 is reported as too short and 15 as too long. */
  lemma CheckCharactersDefaults(value: string, min: Option<int>, max: Option<int>, toCheck: string)
    requires !Truthy(min) && !Truthy(max)
    ensures CheckCharacters(value, min, max, toCheck).Pass? <==> 6 <= |value| <= 14
    ensures |value| == 5 ==> CheckCharacters(value, min, max, toCheck) == Fail(TooShort(toCheck, 5))
    ensures |value| == 15 ==> CheckCharacters(value, min, max, toCheck) == Fail(TooLong(toCheck, 15))
  {
  }

  /** A length equal to either bound is rejected. */
  lemma CheckCharactersBoundsExclusive(value: string, min: Option<int>, max: Option<int>, toCheck: string)
    requires |value| == OrDefault(min, DEFAULT_MIN) || |value| == OrDefault(max, DEFAULT_MAX)
    ensures CheckCharacters(value, min, max, toCheck).Fail?
  {
  }

  /** When both bounds are violated the minimum-length error is reported. */
  lemma CheckCharactersMinimumFirst(value: string, min: Option<int>, max: Option<int>, toCheck: string)
    requires |value| <= OrDefault(min, DEFAULT_MIN) && |value| >= OrDefault(max, DEFAULT_MAX)
    ensures CheckCharacters(value, min, max, toCheck) == Fail(TooShort(toCheck, OrDefault(min, DEFAULT_MIN)))
  {
  }
}
