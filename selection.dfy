/** The selection index: which slide the controller is steered to, changed by
    the arrow keys and kept inside the row of slides. */
module Selection {

  /** Number of slides in the row. */
  const SlideN: int := 15

  /** openFrameworks key codes of the arrow keys. */
  const KeyLeft: int := 356
  const KeyRight: int := 358

  /** The selection after a key press: RIGHT moves one slide up, LEFT one slide
      down, and the result is clamped to the row, upper bound first. */
  function AfterKey(sel: int, key: int): (r: int)
    ensures 0 <= r <= SlideN - 1
    ensures key == KeyRight && 0 <= sel < SlideN - 1 ==> r == sel + 1
    ensures key == KeyLeft && 0 < sel <= SlideN - 1 ==> r == sel - 1
    ensures key != KeyRight && key != KeyLeft && 0 <= sel <= SlideN - 1 ==> r == sel
    ensures key == KeyRight && sel >= SlideN - 1 ==> r == SlideN - 1
    ensures key == KeyLeft && sel <= 0 ==> r == 0
    ensures 0 <= sel <= SlideN - 1 ==> -1 <= r - sel <= 1
  {
    var moved := sel + (if key == KeyRight then 1 else if key == KeyLeft then -1 else 0);
    if moved > SlideN - 1 then SlideN - 1
    else if moved < 0 then 0
    else moved
  }

  /** From a slide short of the right end, RIGHT then LEFT comes back to it;
      from a slide short of the left end, LEFT then RIGHT does. */
  lemma KeyRoundTrip(sel: int)
    ensures 0 <= sel < SlideN - 1 ==> AfterKey(AfterKey(sel, KeyRight), KeyLeft) == sel
    ensures 0 < sel <= SlideN - 1 ==> AfterKey(AfterKey(sel, KeyLeft), KeyRight) == sel
  {
  }
}
