/**
 * What sequences of events do to one DraggableFloatingIcon: each method runs
 * the handlers in the order the browser delivers them and states the outcome
 * that follows from their contracts alone.
 */
module FloatingIconSessions {
  import opened Wrappers
  import opened FloatingGeometry
  import opened FloatingIcon

  /**
   * A drag start followed by a drag end gives the page back its overflow,
   * removes the listeners the start added and leaves transitions on.
   */
  method DragSessionRestoresPage(icon: DraggableFloatingIcon, rect: Rect, scrollWidth: real, innerWidth: real)
    requires icon.Valid() && !icon.disableDragFeature
    modifies icon
    ensures icon.Valid()
    ensures icon.bodyOverflow == old(icon.bodyOverflow)
    ensures icon.bodyListeners == old(icon.bodyListeners) - Suppressors
    ensures icon.style.transition == RetractTransition
  {
    icon.HandleDragStart();
    icon.HandleDragEnd(rect, scrollWidth, innerWidth);
  }

  /**
   * A second drag start before the end saves the already hidden overflow, so
   * the end leaves the page's overflow hidden.
   */
  method RepeatedStartKeepsPageHidden(icon: DraggableFloatingIcon, rect: Rect, scrollWidth: real, innerWidth: real)
    requires icon.Valid() && !icon.disableDragFeature
    modifies icon
    ensures icon.Valid()
    ensures icon.bodyOverflow == HiddenOverflow
    ensures icon.backupOverflow == Some(HiddenOverflow)
  {
    icon.HandleDragStart();
    icon.HandleDragStart();
    icon.HandleDragEnd(rect, scrollWidth, innerWidth);
  }

  /**
   * A drag start does not clear the retract timer: a timer scheduled by the
   * previous drag end still fires while the new drag runs, switching the
   * transition back on and moving the element half off-screen.
   */
  method RetractFiresDuringNextDrag(icon: DraggableFloatingIcon, t: Timer, rect: Rect, scrollWidth: real, innerWidth: real)
    requires icon.Valid() && !icon.disableDragFeature
    requires icon.pendingTimer == Some(t)
    modifies icon
    ensures icon.Valid()
    ensures icon.pendingTimer == None
    ensures icon.bodyOverflow == HiddenOverflow
    ensures icon.style == RetractedStyle(old(icon.style).(transition := DraggingTransition),
                                         SideOf(rect.left, scrollWidth, innerWidth), scrollWidth)
    ensures icon.style.transition == RetractTransition
  {
    icon.HandleDragStart();
    icon.FireTimer(t, rect, scrollWidth, innerWidth);
  }

  /**
   * A drag end that retracts replaces the pending timer: the timer it
   * replaced never fires, and the new one is the only one pending.
   */
  method RedockCancelsStaleTimer(icon: DraggableFloatingIcon, stale: Timer, rect: Rect, scrollWidth: real, innerWidth: real)
    requires icon.Valid() && !icon.disableDragFeature
    requires icon.pendingTimer == Some(stale)
    requires ShowAHalf(icon.showFullSizeOpt, innerWidth)
    modifies icon
    ensures icon.Valid()
    ensures icon.pendingTimer.Some? && icon.pendingTimer.value.id != stale.id
    ensures icon.pendingTimer.value.delayMs == RetractDelayMs
    ensures icon.style == DockedStyle(old(icon.style).(transition := RetractTransition),
                                      SideOf(rect.left, scrollWidth, innerWidth))
  {
    icon.HandleDragEnd(rect, scrollWidth, innerWidth);
    icon.FireTimer(stale, rect, scrollWidth, innerWidth);
  }

  /**
   * Without retraction a drag end docks the element and leaves the timer as
   * it was: an earlier timer still fires afterwards.
   */
  method FullSizeDockKeepsEarlierTimer(icon: DraggableFloatingIcon, t: Timer, rect: Rect, scrollWidth: real, innerWidth: real)
    requires icon.Valid() && !icon.disableDragFeature
    requires icon.pendingTimer == Some(t)
    requires !ShowAHalf(icon.showFullSizeOpt, innerWidth)
    modifies icon
    ensures icon.Valid()
    ensures icon.pendingTimer == None
    ensures icon.style.transition == RetractTransition && icon.style.transformOrigin == "center center"
  {
    icon.HandleDragEnd(rect, scrollWidth, innerWidth);
    icon.FireTimer(t, rect, scrollWidth, innerWidth);
  }

  /** With the drag feature disabled, a whole session changes nothing. */
  method DisabledSessionChangesNothing(icon: DraggableFloatingIcon, e: PointerEvent, rect: Rect,
                                       scrollWidth: real, scrollHeight: real, innerWidth: real, innerHeight: real)
    requires icon.Valid() && icon.disableDragFeature
    modifies icon
    ensures unchanged(icon)
  {
    icon.HandleDragStart();
    icon.HandleDrag(e, rect, scrollWidth, scrollHeight, innerWidth, innerHeight);
    icon.HandleDragEnd(rect, scrollWidth, innerWidth);
  }

  /** Docking twice with the same measurements gives the same style. */
  method DockTwice(icon: DraggableFloatingIcon, rect: Rect, scrollWidth: real, innerWidth: real)
    requires icon.Valid()
    modifies icon
    ensures icon.Valid()
    ensures icon.style == DockedStyle(old(icon.style), SideOf(rect.left, scrollWidth, innerWidth))
  {
    icon.MoveToEdge(rect, scrollWidth, innerWidth, false);
    icon.MoveToEdge(rect, scrollWidth, innerWidth, false);
    DockIdempotent(old(icon.style), SideOf(rect.left, scrollWidth, innerWidth));
  }
}
