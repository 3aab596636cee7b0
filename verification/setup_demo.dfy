/**
 * The demo-dataset generator: colour jitter with clamping, the contrasting
 * text colour, centring of the label, file naming, and the loop that makes
 * twenty placeholder images for each of three classes. The random draws and
 * the font's measured text box are parameters.
 */
module SetupDemo {
  import opened Text

  datatype Rgb = Rgb(r: int, g: int, b: int)

  predicate IsChannel(v: int) {
    0 <= v <= 255
  }

  predicate IsColour(c: Rgb) {
    IsChannel(c.r) && IsChannel(c.g) && IsChannel(c.b)
  }

  function Min(a: int, b: int): int {
    if a <= b then a else b
  }

  function Max(a: int, b: int): int {
    if a >= b then a else b
  }

  /** `max(0, min(255, v))`. */
  function Clamp(v: int): (c: int)
    ensures IsChannel(c)
    ensures IsChannel(v) ==> c == v
    ensures v < 0 ==> c == 0
    ensures v > 255 ==> c == 255
  {
    Max(0, Min(255, v))
  }

  /** One channel moved by a random offset and clamped back into range. */
  function Jitter(c: int, offset: int): int {
    Clamp(c + offset)
  }

  /** Clamping never moves a channel further than the offset did. */
  lemma JitterStaysClose(c: int, offset: int)
    requires IsChannel(c) && -30 <= offset <= 30
    ensures IsChannel(Jitter(c, offset))
    ensures c - 30 <= Jitter(c, offset) <= c + 30
    ensures offset >= 0 ==> c <= Jitter(c, offset)
    ensures offset <= 0 ==> Jitter(c, offset) <= c
  {
  }

  /** The random choices made for one image: a palette entry and an offset per channel. */
  datatype Draw = Draw(pick: nat, dr: int, dg: int, db: int)

  predicate ValidDraw(d: Draw) {
    d.pick < 3 && -30 <= d.dr <= 30 && -30 <= d.dg <= 30 && -30 <= d.db <= 30
  }

  function JitterColour(c: Rgb, d: Draw): (j: Rgb)
    ensures IsColour(j)
  {
    Rgb(Jitter(c.r, d.dr), Jitter(c.g, d.dg), Jitter(c.b, d.db))
  }

  const Black: Rgb := Rgb(0, 0, 0)
  const White: Rgb := Rgb(255, 255, 255)

  function Sum(c: Rgb): int {
    c.r + c.g + c.b
  }

  /** Black text on light backgrounds (channel sum above 384), white text otherwise. */
  function TextColour(c: Rgb): (t: Rgb)
    ensures t == Black <==> Sum(c) > 384
    ensures t == White <==> Sum(c) <= 384
  {
    if Sum(c) > 384 then Black else White
  }

  /**
   * Python's `//`, rounding toward negative infinity. Dafny's `/` agrees
   * with it whenever the divisor is positive.
   */
  function FloorDiv(a: int, b: int): (q: int)
    requires b > 0
    ensures q * b <= a < q * b + b
  {
    a / b
  }

  /** The text's top-left corner: the image's free space halved, rounding down. */
  function TextOrigin(width: int, height: int, textWidth: int, textHeight: int): (int, int) {
    (FloorDiv(width - textWidth, 2), FloorDiv(height - textHeight, 2))
  }

  /**
   * The label is centred: the margin on the left (top) is the one on the
   * right (bottom), or one less when the free space is odd. This also holds
   * when the text is wider than the image and the margins are negative.
   */
  lemma TextCentred(width: int, height: int, textWidth: int, textHeight: int)
    ensures var (x, y) := TextOrigin(width, height, textWidth, textHeight);
      x <= width - textWidth - x <= x + 1 && y <= height - textHeight - y <= y + 1
  {
  }

  /** What `create_sample_image` draws, minus the pixels: size, fill, label, its colour and position. */
  datatype SampleImage = SampleImage(
    width: int, height: int, fill: Rgb, text: string, textColour: Rgb, origin: (int, int))

  function CreateSampleImage(width: int, height: int, colour: Rgb, text: string,
                             textWidth: int, textHeight: int): (img: SampleImage)
    ensures img.fill == colour && img.text == text
    ensures img.textColour == Black || img.textColour == White
  {
    SampleImage(width, height, colour, text, TextColour(colour),
                TextOrigin(width, height, textWidth, textHeight))
  }

  // ---------------------------------------------------------------------
  // The dataset
  // ---------------------------------------------------------------------

  const ClassNames: seq<string> := ["cats", "dogs", "birds"]

  /** Three tones per class: red for cats, green for dogs, blue for birds. */
  function Palette(classIndex: nat): (p: seq<Rgb>)
    requires classIndex < 3
    ensures |p| == 3
  {
    if classIndex == 0 then [Rgb(255, 200, 200), Rgb(255, 150, 150), Rgb(255, 100, 100)]
    else if classIndex == 1 then [Rgb(200, 255, 200), Rgb(150, 255, 150), Rgb(100, 255, 100)]
    else [Rgb(200, 200, 255), Rgb(150, 150, 255), Rgb(100, 100, 255)]
  }

  const ImagesPerClass: nat := 20

  const DatasetDir: string := "dataset"

  /** `f"{class_name}_{i+1:02d}.png"`. */
  function FileName(cls: string, i: nat): string {
    cls + "_" + Pad2(i + 1) + ".png"
  }

  /** `os.path.join(os.path.join(dataset_dir, class_name), file_name)` with "/" as separator. */
  function ImagePath(cls: string, i: nat): string {
    DatasetDir + "/" + cls + "/" + FileName(cls, i)
  }

  function Label(cls: string, i: nat): string {
    cls + "\n#" + NatToString(i + 1)
  }

  /** One saved file: where it went, for which class and index, and what it shows. */
  datatype SavedImage = SavedImage(path: string, cls: string, index: nat, image: SampleImage)

  /** The image the script saves for class `classIndex`, number `i`, given the draws and the text box. */
  function Sample(classIndex: nat, i: nat, d: Draw, textWidth: int, textHeight: int): SavedImage
    requires classIndex < 3 && d.pick < 3
  {
    var cls := ClassNames[classIndex];
    var colour := JitterColour(Palette(classIndex)[d.pick], d);
    SavedImage(ImagePath(cls, i), cls, i,
               CreateSampleImage(128, 128, colour, Label(cls, i), textWidth, textHeight))
  }

  /** The draws and text boxes one class consumes, one per image. */
  predicate ValidClassDraws(draws: seq<Draw>, boxes: seq<(int, int)>) {
    |draws| == ImagesPerClass && |boxes| == ImagesPerClass
    && forall i :: 0 <= i < |draws| ==> ValidDraw(draws[i])
  }

  /** The twenty files of one class, numbered from one. */
  function ClassImages(c: nat, draws: seq<Draw>, boxes: seq<(int, int)>): (s: seq<SavedImage>)
    requires c < 3 && ValidClassDraws(draws, boxes)
    ensures |s| == 20
  {
    seq(20, i requires 0 <= i < 20 => Sample(c, i, draws[i], boxes[i].0, boxes[i].1))
  }

  /** The inner loop: one class's twenty images, each from its own palette pick and jitter. */
  method CreateClassImages(c: nat, draws: seq<Draw>, boxes: seq<(int, int)>) returns (saved: seq<SavedImage>)
    requires c < 3 && ValidClassDraws(draws, boxes)
    ensures saved == ClassImages(c, draws, boxes)
  {
    ghost var expected := ClassImages(c, draws, boxes);
    saved := [];
    var i := 0;
    while i < ImagesPerClass
      invariant 0 <= i <= 20
      invariant saved == expected[..i]
    {
      var image := Sample(c, i, draws[i], boxes[i].0, boxes[i].1);
      ClassImagesStep(c, draws, boxes, i);
      saved := saved + [image];
      i := i + 1;
    }
  }

  lemma ClassImagesStep(c: nat, draws: seq<Draw>, boxes: seq<(int, int)>, i: nat)
    requires c < 3 && ValidClassDraws(draws, boxes) && i < 20
    ensures ClassImages(c, draws, boxes)[..i + 1]
      == ClassImages(c, draws, boxes)[..i] + [Sample(c, i, draws[i], boxes[i].0, boxes[i].1)]
  {
  }

  /** The images of the first `n` classes, in class order. */
  function Created(draws: seq<seq<Draw>>, boxes: seq<seq<(int, int)>>, n: nat): seq<SavedImage>
    requires n <= 3 && ValidDraws(draws, boxes)
  {
    if n == 0 then [] else Created(draws, boxes, n - 1) + ClassImages(n - 1, draws[n - 1], boxes[n - 1])
  }

  predicate ValidDraws(draws: seq<seq<Draw>>, boxes: seq<seq<(int, int)>>) {
    |draws| == |ClassNames| && |boxes| == |ClassNames|
    && forall c :: 0 <= c < |draws| ==> ValidClassDraws(draws[c], boxes[c])
  }

  /** The outer loop: the classes in order, each class's images after the previous ones. */
  method SetupDemoDataset(draws: seq<seq<Draw>>, boxes: seq<seq<(int, int)>>) returns (saved: seq<SavedImage>)
    requires ValidDraws(draws, boxes)
    ensures saved == Created(draws, boxes, 3)
  {
    saved := [];
    var c := 0;
    while c < |ClassNames|
      invariant 0 <= c <= 3
      invariant saved == Created(draws, boxes, c)
    {
      var images := CreateClassImages(c, draws[c], boxes[c]);
      saved := saved + images;
      c := c + 1;
    }
  }

  /** Every file lands in its class's directory under the dataset directory, as a PNG. */
  lemma SampleInClassDir(classIndex: nat, i: nat, d: Draw, tw: int, th: int)
    requires classIndex < 3 && d.pick < 3
    ensures StartsWith(Sample(classIndex, i, d, tw, th).path, DatasetDir + "/" + ClassNames[classIndex] + "/")
    ensures EndsWith(Sample(classIndex, i, d, tw, th).path, ".png")
  {
    var cls := ClassNames[classIndex];
    var p := DatasetDir + "/" + cls + "/";
    StartsWithConcat(p, FileName(cls, i));
    EndsWithConcat(cls + "_" + Pad2(i + 1), ".png");
    EndsWithLonger(p, FileName(cls, i), ".png");
  }

  /** A file's colour is a valid colour within 30 of the palette tone it was drawn from, channel by channel. */
  lemma SampleColourNearPalette(classIndex: nat, i: nat, d: Draw, tw: int, th: int)
    requires classIndex < 3 && ValidDraw(d)
    ensures var fill := Sample(classIndex, i, d, tw, th).image.fill;
      var tone := Palette(classIndex)[d.pick];
      IsColour(fill)
      && tone.r - 30 <= fill.r <= tone.r + 30
      && tone.g - 30 <= fill.g <= tone.g + 30
      && tone.b - 30 <= fill.b <= tone.b + 30
  {
    var tone := Palette(classIndex)[d.pick];
    JitterStaysClose(tone.r, d.dr);
    JitterStaysClose(tone.g, d.dg);
    JitterStaysClose(tone.b, d.db);
  }

  lemma CharAfterPrefix(a: string, b: string, r: string, t: string)
    requires |b| > 0
    ensures (a + b + r + t)[|a|] == b[0]
  {
    assert (a + b + r + t)[|a|] == (a + b)[|a|];
  }

  lemma MiddleCancel(a: string, b: string, p: string, q: string, e: string)
    requires |p| == |q| && a + (b + p + e) == a + (b + q + e)
    ensures p == q
  {
    assert (a + (b + p + e))[|a| + |b|..|a| + |b| + |p|] == p;
    assert (a + (b + q + e))[|a| + |b|..|a| + |b| + |q|] == q;
  }

  /** The ninth character of a path is the first letter of the class. */
  lemma PathClassLetter(cls: string, i: nat)
    requires |cls| > 0
    ensures ImagePath(cls, i)[8] == cls[0]
  {
    CharAfterPrefix(DatasetDir + "/", cls, "/", FileName(cls, i));
  }

  /** Distinct (class, number) pairs give distinct paths: no file overwrites another. */
  lemma ImagePathInjective(c1: nat, i1: nat, c2: nat, i2: nat)
    requires c1 < 3 && c2 < 3 && i1 < 20 && i2 < 20
    requires ImagePath(ClassNames[c1], i1) == ImagePath(ClassNames[c2], i2)
    ensures c1 == c2 && i1 == i2
  {
    PathClassLetter(ClassNames[c1], i1);
    PathClassLetter(ClassNames[c2], i2);
    assert c1 == c2;
    var cls := ClassNames[c1];
    Pad2Digits(i1 + 1);
    Pad2Digits(i2 + 1);
    MiddleCancel(DatasetDir + "/" + cls + "/", cls + "_", Pad2(i1 + 1), Pad2(i2 + 1), ".png");
  }

  /** Twenty images per class. */
  lemma {:induction false} CreatedLength(draws: seq<seq<Draw>>, boxes: seq<seq<(int, int)>>, n: nat)
    requires n <= 3 && ValidDraws(draws, boxes)
    ensures |Created(draws, boxes, n)| == 20 * n
  {
    if n > 0 {
      CreatedLength(draws, boxes, n - 1);
    }
  }

  /** Image `i` of class `c` sits at position `20 * c + i` of the run. */
  lemma {:induction false} CreatedAt(draws: seq<seq<Draw>>, boxes: seq<seq<(int, int)>>, n: nat, c: nat, i: nat)
    requires n <= 3 && ValidDraws(draws, boxes) && c < n && i < 20
    ensures 20 * c + i < |Created(draws, boxes, n)|
    ensures Created(draws, boxes, n)[20 * c + i] == Sample(c, i, draws[c][i], boxes[c][i].0, boxes[c][i].1)
  {
    CreatedLength(draws, boxes, n);
    CreatedLength(draws, boxes, n - 1);
    if c < n - 1 {
      CreatedAt(draws, boxes, n - 1, c, i);
    }
  }

  /**
   * The whole run: sixty images, class by class and twenty each, and no two
   * of them saved under the same path.
   */
  lemma DatasetShape(draws: seq<seq<Draw>>, boxes: seq<seq<(int, int)>>)
    requires ValidDraws(draws, boxes)
    ensures |Created(draws, boxes, 3)| == 60
    ensures forall k :: 0 <= k < 60 ==>
      Created(draws, boxes, 3)[k].cls == ClassNames[k / 20] && Created(draws, boxes, 3)[k].index == k % 20
    ensures forall j, k :: 0 <= j < k < 60 ==> Created(draws, boxes, 3)[j].path != Created(draws, boxes, 3)[k].path
  {
    var saved := Created(draws, boxes, 3);
    CreatedLength(draws, boxes, 3);
    forall k | 0 <= k < 60
      ensures saved[k].cls == ClassNames[k / 20] && saved[k].index == k % 20
    {
      DatasetPosition(draws, boxes, k);
    }
    forall j, k | 0 <= j < k < 60
      ensures saved[j].path != saved[k].path
    {
      DatasetPosition(draws, boxes, j);
      DatasetPosition(draws, boxes, k);
      if saved[j].path == saved[k].path {
        ImagePathInjective(j / 20, j % 20, k / 20, k % 20);
      }
    }
  }

  /** Position `k` of the run holds image `k % 20` of class `k / 20`. */
  lemma DatasetPosition(draws: seq<seq<Draw>>, boxes: seq<seq<(int, int)>>, k: nat)
    requires ValidDraws(draws, boxes) && k < 60
    ensures k < |Created(draws, boxes, 3)|
    ensures var saved := Created(draws, boxes, 3)[k];
      saved.cls == ClassNames[k / 20] && saved.index == k % 20 && saved.path == ImagePath(ClassNames[k / 20], k % 20)
  {
    var c, i := k / 20, k % 20;
    assert k == 20 * c + i;
    CreatedAt(draws, boxes, 3, c, i);
  }
}
