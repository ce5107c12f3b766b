/**
 * The demo selector screen: four buttons, one of them highlighted; the
 * D-pad moves the highlight round the ring and CENTER/ENTER opens the
 * screen of the highlighted button.
 */
module DemoSelector {
  import opened Wrappers
  import KotlinMath

  /** The screens the selector can open. */
  datatype Screen = AmbientVisualizer | HandTracking | Bluetooth | ObjectLabels

  /** The buttons, in the order of the `buttons` list; each opens the screen named here. */
  const Buttons: seq<Screen> := [AmbientVisualizer, HandTracking, Bluetooth, ObjectLabels]
  const ButtonCount: int := 4

  /** Android key codes the selector reacts to. */
  const KeyDpadLeft: int := 21
  const KeyDpadRight: int := 22
  const KeyDpadCenter: int := 23
  const KeyEnter: int := 66

  /** The look `updateSelection` gives a button (stroke, fill, elevation and alpha together). */
  datatype ButtonStyle = Highlighted | Dimmed

  /** `(selectedIndex + delta + buttons.size) % buttons.size`, with Kotlin's `%`. */
  function Moved(index: int, delta: int): (r: int)
    ensures index + delta + ButtonCount >= 0 ==> 0 <= r < ButtonCount && r == (index + delta) % ButtonCount
  {
    KotlinMath.Rem(index + delta + ButtonCount, ButtonCount)
  }

  /** A single step of either direction keeps the index on the ring, one place further along. */
  lemma MovedStep(index: int, delta: int)
    requires 0 <= index < ButtonCount && (delta == 1 || delta == -1)
    ensures 0 <= Moved(index, delta) < ButtonCount
    ensures Moved(index, delta) == (index + delta) % ButtonCount
  {
    var s := index + delta;
    if s == -1 {
      KotlinMath.ModUnique(s + ButtonCount, ButtonCount, 0, 3);
      KotlinMath.ModUnique(s, ButtonCount, -1, 3);
    } else if s == ButtonCount {
      KotlinMath.ModUnique(s + ButtonCount, ButtonCount, 2, 0);
      KotlinMath.ModUnique(s, ButtonCount, 1, 0);
    } else {
      KotlinMath.ModUnique(s + ButtonCount, ButtonCount, 1, s);
      KotlinMath.ModUnique(s, ButtonCount, 0, s);
    }
  }

  /** The index after a series of moves, applied in order. */
  function MoveAll(index: int, deltas: seq<int>): int
    decreases deltas
  {
    if deltas == [] then index else MoveAll(Moved(index, deltas[0]), deltas[1..])
  }

  function Sum(deltas: seq<int>): int {
    if deltas == [] then 0 else deltas[0] + Sum(deltas[1..])
  }

  /**
   * Any series of single steps lands where the net displacement, taken
   * modulo the number of buttons, says: the ring has no ends.
   */
  lemma {:induction false} MoveAllIsNetDisplacement(index: int, deltas: seq<int>)
    requires 0 <= index < ButtonCount
    requires forall k :: 0 <= k < |deltas| ==> deltas[k] == 1 || deltas[k] == -1
    ensures MoveAll(index, deltas) == (index + Sum(deltas)) % ButtonCount
    decreases deltas
  {
    if deltas != [] {
      var next := Moved(index, deltas[0]);
      MovedStep(index, deltas[0]);
      MoveAllIsNetDisplacement(next, deltas[1..]);
      var s := Sum(deltas[1..]);
      KotlinMath.ModUnique(index + deltas[0], ButtonCount, (index + deltas[0]) / ButtonCount, next);
      assert (next + s) % ButtonCount == (index + deltas[0] + s) % ButtonCount by {
        var q := (index + deltas[0]) / ButtonCount;
        assert index + deltas[0] + s == next + s + q * ButtonCount;
        ShiftMod(next + s, q);
      }
    }
  }

  lemma {:induction false} ShiftMod(x: int, q: int)
    ensures (x + q * ButtonCount) % ButtonCount == x % ButtonCount
  {
    var r := x % ButtonCount;
    assert x == (x / ButtonCount) * ButtonCount + r;
    KotlinMath.ModUnique(x + q * ButtonCount, ButtonCount, x / ButtonCount + q, r);
  }

  /** Right at the last button wraps to the first, left at the first wraps to the last. */
  lemma MovedWrapsAround()
    ensures Moved(ButtonCount - 1, 1) == 0
    ensures Moved(0, -1) == ButtonCount - 1
  {
  }

  /** A right move undone by a left move, and four right moves, both come back to the start. */
  lemma MovesReturnToStart(index: int)
    requires 0 <= index < ButtonCount
    ensures MoveAll(index, [1, -1]) == index
    ensures MoveAll(index, [1, 1, 1, 1]) == index
  {
    MoveAllIsNetDisplacement(index, [1, -1]);
    MoveAllIsNetDisplacement(index, [1, 1, 1, 1]);
  }

  /** `launchSelected`: the screen opened for an index; none for an index off the ring. */
  function LaunchTarget(index: int): (r: Option<Screen>)
    ensures r.Some? <==> 0 <= index < ButtonCount
  {
    match index
    case 0 => Some(AmbientVisualizer)
    case 1 => Some(HandTracking)
    case 2 => Some(Bluetooth)
    case 3 => Some(ObjectLabels)
    case _ => None
  }

  /** The key launches exactly the screen of the button at the selected index. */
  lemma LaunchTargetMatchesButtons(index: int)
    ensures 0 <= index < ButtonCount ==> LaunchTarget(index) == Some(Buttons[index])
    ensures !(0 <= index < ButtonCount) ==> LaunchTarget(index) == None
  {
  }

  /** Exactly the button at `selected` is highlighted. */
  ghost predicate HighlightsOnly(styles: seq<ButtonStyle>, selected: int) {
    forall i :: 0 <= i < |styles| ==> (styles[i] == Highlighted <==> i == selected)
  }

  class Selector {
    var selectedIndex: int
    const styles: array<ButtonStyle>

    ghost predicate Valid()
      reads this, styles
    {
      styles.Length == ButtonCount && 0 <= selectedIndex < ButtonCount
      && HighlightsOnly(styles[..], selectedIndex)
    }

    /** `onCreate`: the first button is selected and the buttons are styled. */
    constructor ()
      ensures Valid() && fresh(styles)
      ensures selectedIndex == 0
    {
      selectedIndex := 0;
      styles := new ButtonStyle[ButtonCount](_ => Dimmed);
      new;
      UpdateSelection();
    }

    /** `updateSelection`: restyles every button from the selected index. */
    method UpdateSelection()
      requires styles.Length == ButtonCount
      modifies styles
      ensures HighlightsOnly(styles[..], selectedIndex)
    {
      var index := 0;
      while index < styles.Length
        invariant 0 <= index <= styles.Length
        invariant forall i :: 0 <= i < index ==> (styles[i] == Highlighted <==> i == selectedIndex)
      {
        styles[index] := if index == selectedIndex then Highlighted else Dimmed;
        index := index + 1;
      }
    }

    /** `moveSelection`, called with one step left or right. */
    method MoveSelection(delta: int)
      requires Valid() && (delta == 1 || delta == -1)
      modifies this, styles
      ensures Valid()
      ensures selectedIndex == Moved(old(selectedIndex), delta)
    {
      MovedStep(selectedIndex, delta);
      selectedIndex := Moved(selectedIndex, delta);
      UpdateSelection();
    }

    /**
     * `onKeyDown`: RIGHT and LEFT move the selection, CENTER and ENTER
     * launch the selected screen, and all three report the key handled;
     * any other key changes nothing and reports what the platform's own
     * handler (`superHandled`) reports.
     */
    method OnKeyDown(keyCode: int, superHandled: bool) returns (handled: bool, launched: Option<Screen>)
      requires Valid()
      modifies this, styles
      ensures Valid()
      ensures keyCode == KeyDpadRight ==>
        handled && launched == None && selectedIndex == Moved(old(selectedIndex), 1)
      ensures keyCode == KeyDpadLeft ==>
        handled && launched == None && selectedIndex == Moved(old(selectedIndex), -1)
      ensures keyCode == KeyDpadCenter || keyCode == KeyEnter ==>
        handled && launched == Some(Buttons[selectedIndex]) && selectedIndex == old(selectedIndex)
      ensures keyCode !in {KeyDpadRight, KeyDpadLeft, KeyDpadCenter, KeyEnter} ==>
        handled == superHandled && launched == None && selectedIndex == old(selectedIndex)
        && styles[..] == old(styles[..])
    {
      launched := None;
      if keyCode == KeyDpadRight {
        MoveSelection(1);
        handled := true;
      } else if keyCode == KeyDpadLeft {
        MoveSelection(-1);
        handled := true;
      } else if keyCode == KeyDpadCenter || keyCode == KeyEnter {
        launched := LaunchTarget(selectedIndex);
        LaunchTargetMatchesButtons(selectedIndex);
        handled := true;
      } else {
        handled := superHandled;
      }
    }
  }
}
