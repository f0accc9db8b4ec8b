/** The project gallery and its image lightbox (src/components/ProjectsSection.tsx):
    clicking a card opens a drawer on the project's first image, and the two
    chevron buttons step cyclically through the project's images. */
module ProjectsSection {
  import opened Wrappers
  import opened Projects

  /** Number of images of the selected project; no project or no list counts as 0. */
  function ImageCount(selected: Option<Project>): nat {
    if selected.Some? then |ImageList(selected.value)| else 0
  }

  /** The index the lightbox may hold: 0 while there are no images, otherwise
      a position in the image list. */
  predicate IndexInRange(count: nat, index: int) {
    0 <= index && (index == 0 || index < count)
  }

  /** `handlePrevImage`: one image back, wrapping from the first to the last;
      nothing happens when there are no images. On an in-range index it is
      subtraction modulo the image count. */
  function PrevIndex(count: nat, index: int): (r: int)
    ensures count == 0 ==> r == index
    ensures 0 <= index < count ==> 0 <= r < count && r == (index - 1) % count
  {
    if count > 0 then (if index == 0 then count - 1 else index - 1) else index
  }

  /** `handleNextImage`: one image forward, wrapping from the last to the first;
      nothing happens when there are no images. On an in-range index it is
      addition modulo the image count. */
  function NextIndex(count: nat, index: int): (r: int)
    ensures count == 0 ==> r == index
    ensures 0 <= index < count ==> 0 <= r < count && r == (index + 1) % count
  {
    if count > 0 then (if index == count - 1 then 0 else index + 1) else index
  }

  /** Both buttons keep a valid lightbox index valid. */
  lemma StepsPreserveRange(count: nat, index: int)
    requires IndexInRange(count, index)
    ensures IndexInRange(count, PrevIndex(count, index))
    ensures IndexInRange(count, NextIndex(count, index))
  {
  }

  /** "Previous" undoes "next" and "next" undoes "previous". */
  lemma PrevNextInverse(count: nat, index: int)
    requires 0 <= index < count
    ensures PrevIndex(count, NextIndex(count, index)) == index
    ensures NextIndex(count, PrevIndex(count, index)) == index
  {
  }

  /** `k` presses of "next". */
  function NextTimes(count: nat, index: int, k: nat): int
    decreases k
  {
    if k == 0 then index else NextIndex(count, NextTimes(count, index, k - 1))
  }

  /** `k` presses of "previous". */
  function PrevTimes(count: nat, index: int, k: nat): int
    decreases k
  {
    if k == 0 then index else PrevIndex(count, PrevTimes(count, index, k - 1))
  }

  /** `k` presses of "next" advance the index by `k` modulo the image count. */
  lemma {:induction false} NextTimesModulo(count: nat, index: int, k: nat)
    requires 0 <= index < count
    ensures NextTimes(count, index, k) == (index + k) % count
  {
    if k > 0 {
      NextTimesModulo(count, index, k - 1);
      var j := NextTimes(count, index, k - 1);
      assert j == (index + k - 1) % count && 0 <= j < count;
      assert NextTimes(count, index, k) == NextIndex(count, j);
      assert NextIndex(count, j) == (j + 1) % count;
      ModStep(count, index + k - 1, 1);
    }
  }

  /** `k` presses of "previous" move the index back by `k` modulo the image count. */
  lemma {:induction false} PrevTimesModulo(count: nat, index: int, k: nat)
    requires 0 <= index < count
    ensures PrevTimes(count, index, k) == (index - k) % count
  {
    if k > 0 {
      PrevTimesModulo(count, index, k - 1);
      var j := PrevTimes(count, index, k - 1);
      assert j == (index - (k - 1)) % count && 0 <= j < count;
      assert PrevTimes(count, index, k) == PrevIndex(count, j);
      assert PrevIndex(count, j) == (j - 1) % count;
      ModStep(count, index - (k - 1), -1);
    }
  }

  /** Taking the remainder first does not change the remainder of a sum. */
  lemma ModStep(count: nat, x: int, d: int)
    requires count > 0
    ensures (x % count + d) % count == (x + d) % count
  {
    var q, r := x / count, x % count;
    assert x == q * count + r;
    var q2, r2 := (r + d) / count, (r + d) % count;
    assert r + d == q2 * count + r2;
    assert x + d == (q + q2) * count + r2 by {
      assert (q + q2) * count == q * count + q2 * count;
    }
    ModUnique(count, x + d, q + q2, r2);
  }

  /** A remainder in `[0, count)` is the remainder. */
  lemma ModUnique(count: nat, y: int, a: int, r: int)
    requires count > 0 && 0 <= r < count
    requires y == a * count + r
    ensures y % count == r
  {
    var b, s := y / count, y % count;
    assert y == b * count + s;
    var m := a - b;
    assert m * count == s - r by {
      assert m * count == a * count - b * count;
    }
    if m >= 1 {
      MulAtLeast(m, count);
    } else if m <= -1 {
      MulAtLeast(-m, count);
    }
  }

  /** A positive multiple of `count` is at least `count`. */
  lemma MulAtLeast(m: int, count: int)
    requires m >= 1 && count > 0
    ensures m * count >= count
  {
  }

  /** Pressing "next" as many times as there are images, or "previous" as many
      times, brings the lightbox back to the image it started on. */
  lemma FullCycle(count: nat, index: int)
    requires 0 <= index < count
    ensures NextTimes(count, index, count) == index
    ensures PrevTimes(count, index, count) == index
  {
    NextTimesModulo(count, index, count);
    PrevTimesModulo(count, index, count);
    ModUnique(count, index + count, 1, index);
    ModUnique(count, index - count, -1, index);
  }

  /** The thumbnail on a gallery card: the first image when the list is not
      empty, otherwise the default picture. */
  function Thumbnail(p: Project): (r: ImageSrc)
    ensures r != Undefined
    ensures r == DefaultImage <==> ImageList(p) == []
    ensures r.Asset? ==> r.path == ImageList(p)[0]
  {
    if p.images.Some? && |p.images.value| > 0 then Asset(p.images.value[0]) else DefaultImage
  }

  /** The large picture in the drawer: the image at the current index when the
      selected project has images (`undefined` when the index is past the
      list), otherwise the default picture (also when no project is selected). */
  function DrawerImage(selected: Option<Project>, index: int): (r: ImageSrc)
    ensures r == Undefined <==> ImageCount(selected) > 0 && !(0 <= index < ImageCount(selected))
    ensures r == DefaultImage <==> ImageCount(selected) == 0
    ensures r.Asset? ==> r.path in ImageList(selected.value)
  {
    if selected.Some? && selected.value.images.Some? && |selected.value.images.value| > 0 then
      var images := selected.value.images.value;
      if 0 <= index < |images| then Asset(images[index]) else Undefined
    else DefaultImage
  }

  /** From a valid lightbox state the drawer never shows `undefined`. */
  lemma DrawerImageDefined(selected: Option<Project>, index: int)
    requires IndexInRange(ImageCount(selected), index)
    ensures DrawerImage(selected, index) != Undefined
    ensures ImageCount(selected) > 0 ==> DrawerImage(selected, index) == Asset(ImageList(selected.value)[index])
  {
  }

  /** Right after a card is clicked, the drawer shows the card's thumbnail. */
  lemma OpenShowsThumbnail(p: Project)
    ensures DrawerImage(Some(p), 0) == Thumbnail(p)
  {
  }

  /** The chevrons and the "i / n" counter appear only for more than one image;
      the counter reads one-based position over image count. */
  function Counter(selected: Option<Project>, index: int): (r: Option<(int, nat)>)
    ensures r.Some? <==> ImageCount(selected) > 1
    ensures r.Some? ==> r.value == (index + 1, ImageCount(selected))
    ensures r.Some? && IndexInRange(ImageCount(selected), index) ==> 1 <= r.value.0 <= r.value.1
  {
    if selected.Some? && selected.value.images.Some? && |selected.value.images.value| > 1 then
      Some((index + 1, |selected.value.images.value|))
    else None
  }

  /** The state of the component: which project the drawer shows, whether the
      drawer is open, and the index of the image on display. */
  class Lightbox {
    var selected: Option<Project>
    var open: bool
    var index: int

    predicate Valid()
      reads this
    {
      IndexInRange(ImageCount(selected), index)
    }

    /** The initial state: nothing selected, drawer closed, index 0. */
    constructor ()
      ensures Valid()
      ensures selected == None && !open && index == 0
    {
      selected := None;
      open := false;
      index := 0;
    }

    /** `openProjectDrawer`: select the project, rewind to its first image and
        open the drawer. */
    method Open(project: Project)
      modifies this
      ensures Valid()
      ensures selected == Some(project) && index == 0 && open
    {
      selected := Some(project);
      index := 0;
      open := true;
    }

    /** The drawer's `onOpenChange`: the drawer widget opens or closes itself;
        the selection and the index stay as they are. */
    method SetOpen(b: bool)
      modifies this`open
      ensures open == b
    {
      open := b;
    }

    /** `handlePrevImage`. */
    method Prev()
      modifies this`index
      ensures index == PrevIndex(ImageCount(selected), old(index))
      ensures old(Valid()) ==> Valid()
    {
      if selected.Some? && selected.value.images.Some? && |selected.value.images.value| > 0 {
        var count := |selected.value.images.value|;
        index := if index == 0 then count - 1 else index - 1;
      }
      if old(Valid()) {
        StepsPreserveRange(ImageCount(selected), old(index));
      }
    }

    /** `handleNextImage`. */
    method Next()
      modifies this`index
      ensures index == NextIndex(ImageCount(selected), old(index))
      ensures old(Valid()) ==> Valid()
    {
      if selected.Some? && selected.value.images.Some? && |selected.value.images.value| > 0 {
        var count := |selected.value.images.value|;
        index := if index == count - 1 then 0 else index + 1;
      }
      if old(Valid()) {
        StepsPreserveRange(ImageCount(selected), old(index));
      }
    }

    /** The picture the drawer shows now; never `undefined` in a valid state. */
    function Shown(): (r: ImageSrc)
      reads this
      ensures Valid() ==> r != Undefined
    {
      DrawerImage(selected, index)
    }
  }
}
