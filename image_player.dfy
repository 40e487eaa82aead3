/**
 * The image player (`image-player.tsx`): the index of the shown image, which
 * an interval timer advances while there are at least two images, wrapping
 * around when `loop` is set and otherwise stopping at the last image and
 * reporting completion on every later tick. A tick of the timer is an
 * explicit event; `onComplete` is counted rather than called.
 */
module ImagePlayer {
  import opened Common

  /** The index a tick sets, and whether it called `onComplete`. */
  datatype Step = Step(index: nat, completed: bool)

  /** The updater passed to `setCurrentIndex` by the interval. */
  function Tick(prev: nat, length: nat, loop: bool): (r: Step)
    ensures prev < length ==> r.index < length
    ensures r.completed ==> r.index == prev
  {
    if prev + 1 >= length then
      if loop then Step(0, false) else Step(prev, true)
    else Step(prev + 1, false)
  }

  /** The shown index and the number of `onComplete` calls after `n` ticks from the start. */
  datatype Playback = Playback(index: nat, completions: nat)

  function Run(length: nat, loop: bool, n: nat): Playback
  {
    if n == 0 then Playback(0, 0)
    else
      var p := Run(length, loop, n - 1);
      var s := Tick(p.index, length, loop);
      Playback(s.index, p.completions + if s.completed then 1 else 0)
  }

  /** Starting at 0, the index always names one of the images. */
  lemma {:induction false} RunInRange(length: nat, loop: bool, n: nat)
    requires length >= 1
    ensures Run(length, loop, n).index < length
  {
    if n > 0 {
      RunInRange(length, loop, n - 1);
    }
  }

  /** With `loop`, the first pass shows the images in order and never completes. */
  lemma {:induction false} RunLoopingFirstPass(length: nat, n: nat)
    requires n < length
    ensures Run(length, true, n) == Playback(n, 0)
  {
    if n > 0 {
      RunLoopingFirstPass(length, n - 1);
    }
  }

  /** With `loop`, the player comes back to the same image after every `length` ticks. */
  lemma {:induction false} RunLoopingPeriodic(length: nat, n: nat)
    requires length >= 1
    ensures Run(length, true, n + length) == Run(length, true, n)
  {
    if n == 0 {
      RunLoopingFirstPass(length, length - 1);
    } else {
      RunLoopingPeriodic(length, n - 1);
      assert n + length - 1 == (n - 1) + length;
    }
  }

  /** Without `loop`, the player stops at the last image and completes once per tick after reaching it. */
  lemma {:induction false} RunOnce(length: nat, n: nat)
    requires length >= 1
    ensures Run(length, false, n) ==
      if n < length then Playback(n, 0) else Playback(length - 1, n - (length - 1))
  {
    if n > 0 {
      RunOnce(length, n - 1);
    }
  }

  /** What the player renders. */
  datatype View = NoImages | Showing(src: string, index: nat)

  class Player {
    var images: seq<string>
    const loop: bool
    var currentIndex: nat
    /** How often `onComplete` has been called. */
    var completions: nat

    /** The index names an image whenever there is one. */
    predicate Valid()
      reads this
    {
      currentIndex == 0 || currentIndex < |images|
    }

    /** `loop` defaults to true. */
    constructor(images: seq<string>, loop: Option<bool>)
      ensures this.images == images && this.loop == (loop.None? || loop.value)
      ensures currentIndex == 0 && completions == 0 && Valid()
    {
      this.images := images;
      this.loop := loop.None? || loop.value;
      currentIndex := 0;
      completions := 0;
    }

    /** An interval tick; the interval exists only while there are at least two images. */
    method OnTick()
      requires |images| > 1
      modifies this
      ensures images == old(images)
      ensures currentIndex == Tick(old(currentIndex), |images|, loop).index
      ensures completions == old(completions) + if Tick(old(currentIndex), |images|, loop).completed then 1 else 0
      ensures old(Valid()) ==> Valid()
    {
      var nextIndex := currentIndex + 1;
      if nextIndex >= |images| {
        if loop {
          currentIndex := 0;
        } else {
          completions := completions + 1;
        }
      } else {
        currentIndex := nextIndex;
      }
    }

    /** New images: the effect on `[images]` resets the index. */
    method SetImages(newImages: seq<string>)
      modifies this
      ensures images == newImages && currentIndex == 0 && completions == old(completions) && Valid()
    {
      images := newImages;
      currentIndex := 0;
    }

    /** The rendered output: a message for no images, otherwise the current image. */
    method Render() returns (view: View)
      requires Valid()
      ensures |images| == 0 <==> view == NoImages
      ensures view.Showing? ==> view.index == currentIndex && view.index < |images| && view.src == images[currentIndex]
    {
      if |images| == 0 {
        view := NoImages;
      } else {
        view := Showing(images[currentIndex], currentIndex);
      }
    }
  }
}
