/** `ensurePerms`: the bot must hold every guild permission the "Create game"
    button and `/end` rely on, or the handler raises MISSING_PERMS. */
module Permissions {
  import opened Types

  /** The permissions asked for, in the order they are checked. */
  const Needed: seq<Permission> := [ManageChannels, MoveMembers, ViewChannel, Connect]

  const MissingPermsError: string := "MISSING_PERMS"

  datatype Outcome = Pass | Fail(message: string)

  /** The needed permissions that are not held. */
  function Missing(need: seq<Permission>, held: set<Permission>): (r: seq<Permission>)
    ensures |r| <= |need|
    ensures forall p :: p in r <==> p in need && p !in held
  {
    if need == [] then []
    else (if need[0] in held then [] else [need[0]]) + Missing(need[1..], held)
  }

  /** `held` is the set of permissions the bot's guild member reports holding.
      The check passes exactly when all four needed permissions are held, and
      otherwise fails with the MISSING_PERMS error. */
  function EnsurePerms(held: set<Permission>): (r: Outcome)
    ensures r.Pass? <==> ManageChannels in held && MoveMembers in held && ViewChannel in held && Connect in held
    ensures r.Fail? ==> r.message == MissingPermsError
  {
    var missing := Missing(Needed, held);
    assert ManageChannels !in held ==> ManageChannels in missing;
    assert MoveMembers !in held ==> MoveMembers in missing;
    assert ViewChannel !in held ==> ViewChannel in missing;
    assert Connect !in held ==> Connect in missing;
    assert |missing| > 0 ==> missing[0] in Needed && missing[0] !in held;
    if |missing| > 0 then Fail(MissingPermsError) else Pass
  }
}
