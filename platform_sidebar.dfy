/** The platform sidebar (components/PlatformSidebar.tsx): a column of
    platform buttons that a horizontal pan shows or hides. Its only state is
    the visibility flag; every pan-move sample compares the gesture's
    horizontal distance from its start against a fixed threshold. */
module PlatformSidebar {
  import Colors

  /** The part of a pan gesture's state the sidebar reads: the horizontal
      distance the finger has travelled since the gesture began. */
  datatype GestureState = GestureState(dx: real)

  datatype Platform = Platform(
    id: string,
    name: string,
    icon: string,
    color: string,
    unreadCount: int,
    isActive: bool)

  /** The platforms listed in the sidebar, top to bottom. */
  const Platforms: seq<Platform> := [
    Platform("whatsapp", "WhatsApp", "https://i.postimg.cc/4yxn32T9/whatsapp.png",
      Colors.Whatsapp, 3, true),
    Platform("telegram", "Telegram", "https://i.postimg.cc/C1NzST90/telegram.png",
      Colors.Telegram, 0, false),
    Platform("messenger", "Messenger", "https://i.postimg.cc/qvPtGG2P/messenger.png",
      Colors.Messenger, 5, false),
    Platform("instagram", "Instagram", "https://i.postimg.cc/bNv2YrzB/insta.png",
      Colors.Instagram, 2, false),
    Platform("slack", "Slack", "https://i.postimg.cc/0NtQx7gg/281-2810396-paper-icon-png.png",
      Colors.Slack, 0, false)
  ]

  /** Horizontal distance a move must exceed, in either direction, to change
      the visibility. */
  const Threshold: real := 50.0

  /** A move sample that decides the visibility: strictly beyond the
      threshold to the right or to the left. */
  predicate Decisive(dx: real)
  {
    dx > Threshold || dx < -Threshold
  }

  // ---------------------------------------------------------------------------
  // One move sample
  // ---------------------------------------------------------------------------

  /** The move-capture predicate: the sidebar claims every move gesture. */
  function MoveShouldSetResponder(g: GestureState): (claim: bool)
    ensures claim
  {
    true
  }

  /** Visibility after one move sample: a swipe right past the threshold
      shows the sidebar, a swipe left past it hides the sidebar, and anything
      in between keeps the current visibility. */
  function AfterMove(visible: bool, dx: real): (r: bool)
    ensures dx > Threshold ==> r
    ensures dx < -Threshold ==> !r
    ensures !Decisive(dx) ==> r == visible
  {
    if dx > Threshold then true
    else if dx < -Threshold then false
    else visible
  }

  /** The boundaries belong to the dead zone: a move of exactly 50 to either
      side changes nothing. */
  lemma BoundariesAreInert(visible: bool)
    ensures AfterMove(visible, Threshold) == visible
    ensures AfterMove(visible, -Threshold) == visible
  {
  }

  /** A decisive move sets the visibility regardless of what it was. */
  lemma DecisiveIgnoresPrior(dx: real)
    requires Decisive(dx)
    ensures AfterMove(true, dx) == AfterMove(false, dx) == (dx > Threshold)
  {
  }

  /** A sample is decisive exactly when the visibility it leaves does not
      depend on the visibility before it. */
  lemma DecisiveIffPriorIrrelevant(dx: real)
    ensures Decisive(dx) <==> AfterMove(true, dx) == AfterMove(false, dx)
  {
  }

  /** Repeating a move sample changes nothing further. */
  lemma MoveIdempotent(visible: bool, dx: real)
    ensures AfterMove(AfterMove(visible, dx), dx) == AfterMove(visible, dx)
  {
  }

  // ---------------------------------------------------------------------------
  // A sequence of move samples
  // ---------------------------------------------------------------------------

  /** Visibility after the move samples `gs`, applied in arrival order. */
  function AfterMoves(visible: bool, gs: seq<GestureState>): (r: bool)
    ensures (forall k :: 0 <= k < |gs| ==> !Decisive(gs[k].dx)) ==> r == visible
    decreases gs
  {
    if gs == [] then visible
    else AfterMoves(AfterMove(visible, gs[0].dx), gs[1..])
  }

  /** The last decisive sample decides: after a sequence of moves the sidebar
      is visible exactly when the last sample beyond the threshold went to
      the right. */
  lemma {:induction false} LastDecisiveDecides(visible: bool, gs: seq<GestureState>, k: nat)
    requires k < |gs| && Decisive(gs[k].dx)
    requires forall j :: k < j < |gs| ==> !Decisive(gs[j].dx)
    ensures AfterMoves(visible, gs) == (gs[k].dx > Threshold)
    decreases gs
  {
    var tail := gs[1..];
    if k == 0 {
      assert forall j :: 0 <= j < |tail| ==> !Decisive(tail[j].dx) by {
        forall j | 0 <= j < |tail| ensures !Decisive(tail[j].dx) {
          assert tail[j] == gs[j + 1];
        }
      }
    } else {
      assert forall j :: k - 1 < j < |tail| ==> !Decisive(tail[j].dx) by {
        forall j | k - 1 < j < |tail| ensures !Decisive(tail[j].dx) {
          assert tail[j] == gs[j + 1];
        }
      }
      assert tail[k - 1] == gs[k];
      LastDecisiveDecides(AfterMove(visible, gs[0].dx), tail, k - 1);
    }
  }

  /** Feeding two runs of samples one after the other is feeding their
      concatenation. */
  lemma {:induction false} AfterMovesAppend(visible: bool, a: seq<GestureState>, b: seq<GestureState>)
    ensures AfterMoves(visible, a + b) == AfterMoves(AfterMoves(visible, a), b)
    decreases a
  {
    if a == [] {
      assert a + b == b;
    } else {
      assert (a + b)[1..] == a[1..] + b;
      AfterMovesAppend(AfterMove(visible, a[0].dx), a[1..], b);
    }
  }

  /** Replaying the same gesture changes nothing further: either some sample
      was decisive, and the last one decides both times, or none was, and the
      visibility never changed. */
  lemma ReplayIdempotent(visible: bool, gs: seq<GestureState>)
    ensures AfterMoves(AfterMoves(visible, gs), gs) == AfterMoves(visible, gs)
  {
    if k :| 0 <= k < |gs| && Decisive(gs[k].dx) {
      var last := LastDecisiveFrom(gs, k);
      LastDecisiveDecides(visible, gs, last);
      LastDecisiveDecides(AfterMoves(visible, gs), gs, last);
    }
  }

  /** The position of the last decisive sample, given that the one at `k` is
      decisive. */
  lemma {:induction false} LastDecisiveFrom(gs: seq<GestureState>, k: nat) returns (last: nat)
    requires k < |gs| && Decisive(gs[k].dx)
    ensures k <= last < |gs| && Decisive(gs[last].dx)
    ensures forall j :: last < j < |gs| ==> !Decisive(gs[j].dx)
    decreases |gs| - k
  {
    if j :| k < j < |gs| && Decisive(gs[j].dx) {
      last := LastDecisiveFrom(gs, j);
    } else {
      last := k;
    }
  }

  // ---------------------------------------------------------------------------
  // The component's state
  // ---------------------------------------------------------------------------

  /** The mounted sidebar: the visibility flag that decides whether the
      platform column is rendered. */
  class Sidebar {
    var isVisible: bool

    /** A freshly mounted sidebar is visible. */
    constructor ()
      ensures isVisible
    {
      isVisible := true;
    }

    /** The pan-move handler, run once per move sample. */
    method OnPanResponderMove(g: GestureState)
      modifies this
      ensures isVisible == AfterMove(old(isVisible), g.dx)
      ensures g.dx > Threshold ==> isVisible
      ensures g.dx < -Threshold ==> !isVisible
      ensures !Decisive(g.dx) ==> isVisible == old(isVisible)
    {
      if g.dx > Threshold {
        isVisible := true;
      } else if g.dx < -Threshold {
        isVisible := false;
      }
    }

    /** One gesture session: the samples reach the handler in arrival order.
        The capture predicate always claims, so every sample reaches the
        handler. */
    method OnGesture(gs: seq<GestureState>)
      modifies this
      ensures isVisible == AfterMoves(old(isVisible), gs)
    {
      var i := 0;
      while i < |gs|
        invariant 0 <= i <= |gs|
        invariant AfterMoves(isVisible, gs[i..]) == AfterMoves(old(isVisible), gs)
      {
        assert gs[i..][1..] == gs[i + 1..];
        if MoveShouldSetResponder(gs[i]) {
          OnPanResponderMove(gs[i]);
        }
        i := i + 1;
      }
    }
  }

  // ---------------------------------------------------------------------------
  // The platform buttons
  // ---------------------------------------------------------------------------

  /** A platform button carries an unread badge when it has unread messages. */
  predicate ShowsBadge(p: Platform)
  {
    p.unreadCount > 0
  }

  /** Of the listed platforms, WhatsApp, Messenger and Instagram carry a
      badge, and Telegram and Slack do not. */
  lemma BadgedPlatforms()
    ensures forall k :: 0 <= k < |Platforms| ==>
      (ShowsBadge(Platforms[k]) <==> Platforms[k].id in {"whatsapp", "messenger", "instagram"})
  {
  }
}
