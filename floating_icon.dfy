/**
 * `createDraggableFloatingIcon` of src/components/draggable-floating-icon.tsx
 * as one object: the two closure variables (`backupOverflow` and the retract
 * `timeout`), the configuration the factory captures, the element's inline
 * style, and the page state the handlers reach (`document.body.style.overflow`
 * and the two suppressor listeners on `document.body`).
 *
 * The browser measurements each handler reads (`getBoundingClientRect()`,
 * `scrollWidth`/`scrollHeight`, `window.innerWidth`/`innerHeight`) are
 * parameters, measured when the handler runs. `setTimeout` is a pending timer
 * record and an explicit FireTimer step that the event loop may take later.
 */
module FloatingIcon {
  import opened Wrappers
  import opened FloatingGeometry

  /** The two page-level listeners the handlers add and remove. */
  datatype BodyListener = DragOver | TouchMove

  /** A scheduled `setTimeout` callback: its handle and its delay. */
  datatype Timer = Timer(id: nat, delayMs: nat)

  const Suppressors: set<BodyListener> := {DragOver, TouchMove}

  class DraggableFloatingIcon {
    // the factory's options
    const disableDragFeature: bool
    const showFullSizeOpt: ShowFullSizeOpt

    // the element and the page
    var style: Style
    var bodyOverflow: string
    /** This instance's `dropHandler` registrations; adding a registered listener again adds nothing. */
    var bodyListeners: set<BodyListener>

    // the closure
    /** `backupOverflow`; None while it is still `undefined`. */
    var backupOverflow: Option<string>
    /** `timeout` while its callback has neither run nor been cleared. */
    var pendingTimer: Option<Timer>
    /** The handle the next `setTimeout` returns; handles are never reused. */
    var nextTimerId: nat

    ghost predicate Valid()
      reads this
    {
      pendingTimer.Some? ==> pendingTimer.value.id < nextTimerId && pendingTimer.value.delayMs == RetractDelayMs
    }

    constructor (disableDragFeature: bool, showFullSizeOpt: ShowFullSizeOpt, initialStyle: Style, pageOverflow: string)
      ensures Valid()
      ensures this.disableDragFeature == disableDragFeature && this.showFullSizeOpt == showFullSizeOpt
      ensures style == initialStyle && bodyOverflow == pageOverflow && bodyListeners == {}
      ensures backupOverflow == None && pendingTimer == None
    {
      this.disableDragFeature := disableDragFeature;
      this.showFullSizeOpt := showFullSizeOpt;
      style := initialStyle;
      bodyOverflow := pageOverflow;
      bodyListeners := {};
      backupOverflow := None;
      pendingTimer := None;
      nextTimerId := 1;
    }

    /**
     * `handleDragStart`: install the suppressors, switch transitions off, save
     * the page's overflow and hide it. A pending retract timer is NOT cleared.
     */
    method HandleDragStart()
      requires Valid()
      modifies this
      ensures Valid()
      ensures disableDragFeature ==> unchanged(this)
      ensures !disableDragFeature ==>
        bodyListeners == old(bodyListeners) + Suppressors
        && style == old(style).(transition := DraggingTransition)
        && backupOverflow == Some(old(bodyOverflow))
        && bodyOverflow == HiddenOverflow
      ensures pendingTimer == old(pendingTimer) && nextTimerId == old(nextTimerId)
    {
      if disableDragFeature {
        return;
      }
      bodyListeners := bodyListeners + {DragOver};
      bodyListeners := bodyListeners + {TouchMove};
      style := style.(transition := DraggingTransition);
      backupOverflow := Some(bodyOverflow);
      bodyOverflow := HiddenOverflow;
    }

    /**
     * `handleDrag`: put the element's centre under the pointer, clamped to the
     * viewport, written as `top` and `left` or `right` by the side the box
     * was on before the move. `rect` is the box before the move.
     */
    method HandleDrag(e: PointerEvent, rect: Rect, scrollWidth: real, scrollHeight: real,
                      innerWidth: real, innerHeight: real)
      requires Valid()
      modifies this
      ensures Valid()
      ensures disableDragFeature ==> unchanged(this)
      ensures !disableDragFeature ==>
        style == DraggedStyle(old(style), GetClients(e), rect, scrollWidth, scrollHeight, innerWidth, innerHeight)
      ensures bodyOverflow == old(bodyOverflow) && bodyListeners == old(bodyListeners)
      ensures backupOverflow == old(backupOverflow)
      ensures pendingTimer == old(pendingTimer) && nextTimerId == old(nextTimerId)
    {
      if disableDragFeature {
        return;
      }
      var clients := GetClients(e);
      var currentLeft := rect.left;
      var currentTop := rect.top;
      var width := innerWidth - scrollWidth;
      var height := innerHeight - scrollHeight;

      var left := DragOffset(currentLeft, rect.right, clients.clientX, width);
      var top := DragOffset(currentTop, rect.bottom, clients.clientY, height);

      style := style.(top := AssignPx(style.top, top));
      style := style.(bottom := Auto);
      style := style.(zIndex := DraggingZIndex);

      if IsInLeft(rect.left, scrollWidth, innerWidth) {
        style := style.(left := AssignPx(style.left, left));
        style := style.(right := Auto);
      } else {
        style := style.(right := AssignPx(style.right, Mirrored(width, left)));
        style := style.(left := Auto);
      }
    }

    /**
     * `moveToEdge`: dock to the side the box is on, and when `showAHalf`
     * replace any pending retract timer by a new one of 1500 ms.
     */
    method MoveToEdge(rect: Rect, scrollWidth: real, innerWidth: real, showAHalf: bool)
      requires Valid()
      modifies this
      ensures Valid()
      ensures style == DockedStyle(old(style), SideOf(rect.left, scrollWidth, innerWidth))
      ensures showAHalf ==>
        pendingTimer == Some(Timer(old(nextTimerId), RetractDelayMs)) && nextTimerId == old(nextTimerId) + 1
      ensures !showAHalf ==> pendingTimer == old(pendingTimer) && nextTimerId == old(nextTimerId)
      ensures bodyOverflow == old(bodyOverflow) && bodyListeners == old(bodyListeners)
      ensures backupOverflow == old(backupOverflow)
    {
      if IsInLeft(rect.left, scrollWidth, innerWidth) {
        style := style.(left := Px(0.0));
        style := style.(right := Auto);
        style := style.(transformOrigin := "left center");
      } else {
        style := style.(right := Px(0.0));
        style := style.(left := Auto);
        style := style.(transformOrigin := "right center");
      }

      if showAHalf {
        pendingTimer := None;
        pendingTimer := Some(Timer(nextTimerId, RetractDelayMs));
        nextTimerId := nextTimerId + 1;
      }
    }

    /**
     * `handleDragEnd`: remove the suppressors, restore the saved overflow,
     * switch transitions on, then dock and maybe schedule the retract. An
     * overflow never saved is `undefined`, which the browser rejects.
     */
    method HandleDragEnd(rect: Rect, scrollWidth: real, innerWidth: real)
      requires Valid()
      modifies this
      ensures Valid()
      ensures disableDragFeature ==> unchanged(this)
      ensures !disableDragFeature ==>
        bodyListeners == old(bodyListeners) - Suppressors
        && bodyOverflow == (if old(backupOverflow).Some? then old(backupOverflow).value else old(bodyOverflow))
        && style == DockedStyle(old(style).(transition := RetractTransition), SideOf(rect.left, scrollWidth, innerWidth))
        && (ShowAHalf(showFullSizeOpt, innerWidth) ==>
              pendingTimer == Some(Timer(old(nextTimerId), RetractDelayMs)) && nextTimerId == old(nextTimerId) + 1)
        && (!ShowAHalf(showFullSizeOpt, innerWidth) ==>
              pendingTimer == old(pendingTimer) && nextTimerId == old(nextTimerId))
      ensures backupOverflow == old(backupOverflow)
    {
      if disableDragFeature {
        return;
      }
      bodyListeners := bodyListeners - {DragOver};
      bodyListeners := bodyListeners - {TouchMove};
      if backupOverflow.Some? {
        bodyOverflow := backupOverflow.value;
      }

      style := style.(transition := RetractTransition);

      var showAHalf := ShowAHalf(showFullSizeOpt, innerWidth);
      MoveToEdge(rect, scrollWidth, innerWidth, showAHalf);
    }

    /**
     * The retract callback, run by the event loop once the delay of timer `t`
     * has passed. A timer that was cleared or replaced never runs; the one
     * pending re-measures the side and slides half the element past that edge.
     */
    method FireTimer(t: Timer, rect: Rect, scrollWidth: real, innerWidth: real)
      requires Valid()
      modifies this
      ensures Valid()
      ensures old(pendingTimer) != Some(t) ==> unchanged(this)
      ensures old(pendingTimer) == Some(t) ==>
        style == RetractedStyle(old(style), SideOf(rect.left, scrollWidth, innerWidth), scrollWidth)
        && pendingTimer == None
        && bodyOverflow == old(bodyOverflow) && bodyListeners == old(bodyListeners)
        && backupOverflow == old(backupOverflow) && nextTimerId == old(nextTimerId)
    {
      if pendingTimer != Some(t) {
        return;
      }
      pendingTimer := None;
      var position := Px(-scrollWidth / 2.0);
      style := style.(transition := RetractTransition);
      if IsInLeft(rect.left, scrollWidth, innerWidth) {
        style := style.(left := position);
        // `(isScaled as any)` tests the function object, which is truthy
        style := style.(transformOrigin := "center center");
      } else {
        style := style.(right := position);
        style := style.(transformOrigin := "center center");
      }
    }
  }
}
