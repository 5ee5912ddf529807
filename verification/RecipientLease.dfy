/** The per-recipient lease key of the group consumer, and the three scripts that work on it. */
module RecipientLease {
  import opened Wrappers

  datatype Key = Held(owner: nat) | Delivered

  datatype Claim = Claimed | Busy | AlreadyDone

  function ClaimScript(current: Option<Key>, owner: nat): (Option<Key>, Claim)
  {
    match current
    case None => (Some(Held(owner)), Claimed)
    case Some(Delivered) => (current, AlreadyDone)
    case Some(Held(other)) => if other == owner then (current, Claimed) else (current, Busy)
  }

  function CompleteScript(current: Option<Key>, owner: nat): (Option<Key>, bool)
  {
    if current == Some(Held(owner)) then (Some(Delivered), true) else (current, false)
  }

  function ReleaseScript(current: Option<Key>, owner: nat): Option<Key>
  {
    if current == Some(Held(owner)) then None else current
  }
}
