/**
 * The guard of the shared WinEvent callback: which notifications make the
 * owning instance resize its window again.
 */
module Dispatch {
  import opened Native

  /** Notifications this soon after the owner's own Resize are taken as its echo. */
  const SuppressionMs: nat := 3000

  /**
   * Whether the callback resizes the owner. owner is the lastResize of the
   * instance registered under the notified window, None when the window is
   * not registered. An event must be about the window itself (object and
   * child identifiers zero), be a move/size end, have an owner, and come
   * strictly more than SuppressionMs after the owner's last Resize.
   */
  predicate ShouldResize(eventType: int, idObject: int, idChild: int, owner: Option<Instant>, now: Instant)
  {
    if idObject != 0 || idChild != 0 then false
    else if eventType != EventSystemMoveSizeEnd then false
    else owner.Some? && owner.value + SuppressionMs < now
  }

  /** Notifications about sub-elements are dropped, whatever the registry holds. */
  lemma SubElementIgnored(eventType: int, idObject: int, idChild: int, owner: Option<Instant>, now: Instant)
    requires idObject != 0 || idChild != 0
    ensures !ShouldResize(eventType, idObject, idChild, owner, now)
  {
  }

  /** Only a move/size end can trigger a resize. */
  lemma OtherEventsIgnored(eventType: int, idObject: int, idChild: int, owner: Option<Instant>, now: Instant)
    requires eventType != EventSystemMoveSizeEnd
    ensures !ShouldResize(eventType, idObject, idChild, owner, now)
  {
  }

  /** A window that is not in the registry triggers nothing. */
  lemma UnregisteredIgnored(eventType: int, idObject: int, idChild: int, now: Instant)
    ensures !ShouldResize(eventType, idObject, idChild, None, now)
  {
  }

  /**
   * The echo of a Resize made at lastResize is suppressed up to and including
   * SuppressionMs later, so the callback cannot feed itself.
   */
  lemma EchoSuppressed(eventType: int, idObject: int, idChild: int, lastResize: Instant, now: Instant)
    requires now <= lastResize + SuppressionMs
    ensures !ShouldResize(eventType, idObject, idChild, Some(lastResize), now)
  {
  }

  /** A top-level move/size end for a registered window later than that is honoured. */
  lemma ExternalMoveHonoured(lastResize: Instant, now: Instant)
    requires lastResize + SuppressionMs < now
    ensures ShouldResize(EventSystemMoveSizeEnd, 0, 0, Some(lastResize), now)
  {
  }

  /** Once a notification would be honoured, the same one later would be too. */
  lemma ShouldResizeMonotone(eventType: int, idObject: int, idChild: int, owner: Option<Instant>,
                             now: Instant, later: Instant)
    requires ShouldResize(eventType, idObject, idChild, owner, now) && now <= later
    ensures ShouldResize(eventType, idObject, idChild, owner, later)
  {
  }
}
