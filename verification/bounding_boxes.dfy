/** The bounding-box script: for each line of the S3 scanner's JSONL
    results that carries `pii_bounding_box`, it downloads the image, draws a
    red rectangle and a label for every box whose corners are in order, and
    saves the image as `<stem>_boundingbox<ext>` under the output directory.
    S3, PIL and the file system are the environment; the ImageDraw object
    is the class `Canvas`, whose drawing calls are recorded in order. */
module BoundingBoxes {
  import opened Common
  import Paths

  // ----- Boxes -----

  /** x1, y1, x2, y2 = bbox. Coordinates are normalised to 0..1000. */
  datatype Box = Box(x1: real, y1: real, x2: real, y2: real)

  /** A coordinate as Python compares and divides it: a JSON number, or a
      boolean, which Python treats as 0 or 1. */
  function Coordinate(v: Json): Option<real>
  {
    match v
    case JNum(n) => Some(n)
    case JBool(b) => Some(if b then 1.0 else 0.0)
    case _ => None
  }

  /** The unpacking `x1, y1, x2, y2 = bbox`: a list of four coordinates. */
  function BoxOf(v: Json): (b: Option<Box>)
    ensures b.Some? ==> v.JArr? && |v.items| == 4
  {
    if v.JArr? && |v.items| == 4 then
      var c := v.items;
      if Coordinate(c[0]).Some? && Coordinate(c[1]).Some? && Coordinate(c[2]).Some? && Coordinate(c[3]).Some? then
        Some(Box(Coordinate(c[0]).value, Coordinate(c[1]).value, Coordinate(c[2]).value, Coordinate(c[3]).value))
      else None
    else None
  }

  /** A box is drawn only when x1 < x2 and y1 < y2; any other box is skipped,
      neither clamped nor reordered. */
  predicate IsValidBox(b: Box)
  {
    b.x1 < b.x2 && b.y1 < b.y2
  }

  /** x / 1000 * w and y / 1000 * h: the box in pixels of a w×h image. */
  function Scale(b: Box, w: nat, h: nat): Box
  {
    Box(b.x1 / 1000.0 * w as real, b.y1 / 1000.0 * h as real,
        b.x2 / 1000.0 * w as real, b.y2 / 1000.0 * h as real)
  }

  lemma ScaleKeepsOrder(a: real, c: real, w: nat)
    requires a < c && w > 0
    ensures a / 1000.0 * w as real < c / 1000.0 * w as real
  {
    var d := c / 1000.0 - a / 1000.0;
    assert d > 0.0;
    assert d * w as real > 0.0;
    assert c / 1000.0 * w as real - a / 1000.0 * w as real == d * w as real;
  }

  /** On an image of positive size, a box in order stays in order in pixels. */
  lemma ScaledValid(b: Box, w: nat, h: nat)
    requires IsValidBox(b) && w > 0 && h > 0
    ensures IsValidBox(Scale(b, w, h))
  {
    ScaleKeepsOrder(b.x1, b.x2, w);
    ScaleKeepsOrder(b.y1, b.y2, h);
  }

  /** A drawing call: draw.rectangle on a box, or draw.text at a point. */
  datatype Draw = Rect(box: Box) | Label(x: real, y: real, text: string)

  /** The two calls for one kept box: its rectangle, then its category
      20 pixels above its top-left corner. */
  function BoxDraws(category: string, b: Box, w: nat, h: nat): seq<Draw>
  {
    var s := Scale(b, w, h);
    [Rect(s), Label(s.x1, s.y1 - 20.0, category)]
  }

  // ----- The boxes of a detection, in order -----

  /** The boxes of one category's list; None when an entry is not a box,
      where the unpacking or the comparison raises. */
  function CategoryBoxes(items: seq<Json>): (bs: Option<seq<Box>>)
    ensures bs.Some? ==> |bs.value| == |items|
  {
    if items == [] then Some([])
    else
      match CategoryBoxes(items[..|items| - 1])
      case None => None
      case Some(bs) =>
        match BoxOf(items[|items| - 1])
        case None => None
        case Some(b) => Some(bs + [b])
  }

  /** Each box tagged with its category. */
  function Tag(category: string, bs: seq<Box>): (ts: seq<(string, Box)>)
    ensures |ts| == |bs|
    ensures forall k :: 0 <= k < |bs| ==> ts[k] == (category, bs[k])
  {
    seq(|bs|, k requires 0 <= k < |bs| => (category, bs[k]))
  }

  /** Every box of `pii_bounding_box.items()`, category by category in key
      order and in list order within a category; None when a category's
      value is not a list or one of its entries is not a box. */
  function BoxesOf(entries: seq<(string, Json)>): Option<seq<(string, Box)>>
  {
    if entries == [] then Some([])
    else
      var e := entries[|entries| - 1];
      match BoxesOf(entries[..|entries| - 1])
      case None => None
      case Some(bs) =>
        if !e.1.JArr? then None
        else
          match CategoryBoxes(e.1.items)
          case None => None
          case Some(more) => Some(bs + Tag(e.0, more))
  }

  /** The boxes that are drawn, in the order they come. */
  function Kept(bs: seq<(string, Box)>): (ks: seq<(string, Box)>)
    ensures |ks| <= |bs|
  {
    if bs == [] then []
    else
      var b := bs[|bs| - 1];
      Kept(bs[..|bs| - 1]) + (if IsValidBox(b.1) then [b] else [])
  }

  /** The drawing calls for a list of kept boxes. */
  function DrawList(ks: seq<(string, Box)>, w: nat, h: nat): seq<Draw>
  {
    if ks == [] then []
    else
      var k := ks[|ks| - 1];
      DrawList(ks[..|ks| - 1], w, h) + BoxDraws(k.0, k.1, w, h)
  }

  /** The drawing calls for the boxes of a detection on a w×h image. */
  function Drawing(entries: seq<(string, Json)>, w: nat, h: nat): Option<seq<Draw>>
  {
    match BoxesOf(entries)
    case None => None
    case Some(bs) => Some(DrawList(Kept(bs), w, h))
  }

  /** A box is kept exactly when it is one of the boxes and it is in order. */
  lemma {:induction false} KeptMembers(bs: seq<(string, Box)>)
    ensures forall b :: b in Kept(bs) <==> b in bs && IsValidBox(b.1)
  {
    if bs != [] {
      var init := bs[..|bs| - 1];
      KeptMembers(init);
      assert bs == init + [bs[|bs| - 1]];
    }
  }

  /** Kept keeps the order of the boxes: kept box j is box idx[j], the
      indices increase, and every box left out is out of order. */
  lemma {:induction false} KeptOrder(bs: seq<(string, Box)>) returns (idx: seq<nat>)
    ensures |idx| == |Kept(bs)|
    ensures forall j :: 0 <= j < |idx| ==> idx[j] < |bs| && bs[idx[j]] == Kept(bs)[j]
    ensures forall j, j' :: 0 <= j < j' < |idx| ==> idx[j] < idx[j']
    ensures forall i :: 0 <= i < |bs| && i !in idx ==> !IsValidBox(bs[i].1)
  {
    if bs == [] {
      idx := [];
    } else {
      var init := bs[..|bs| - 1];
      var last := |bs| - 1;
      var idx' := KeptOrder(init);
      assert forall i :: 0 <= i < |init| ==> init[i] == bs[i];
      if IsValidBox(bs[last].1) {
        idx := idx' + [last];
        forall i | 0 <= i < |bs| && i !in idx
          ensures !IsValidBox(bs[i].1)
        {
          assert i !in idx' && i < last;
        }
      } else {
        idx := idx';
      }
    }
  }

  /** Every kept box gives a rectangle at call 2k and its label at call 2k+1,
      and nothing else is drawn. */
  lemma {:induction false} DrawListShape(ks: seq<(string, Box)>, w: nat, h: nat)
    ensures |DrawList(ks, w, h)| == 2 * |ks|
    ensures forall k :: 0 <= k < |ks| ==>
      && DrawList(ks, w, h)[2 * k] == Rect(Scale(ks[k].1, w, h))
      && DrawList(ks, w, h)[2 * k + 1] == Label(Scale(ks[k].1, w, h).x1, Scale(ks[k].1, w, h).y1 - 20.0, ks[k].0)
  {
    if ks != [] {
      var init := ks[..|ks| - 1];
      DrawListShape(init, w, h);
      assert forall k :: 0 <= k < |init| ==> init[k] == ks[k];
    }
  }

  /** On an image of positive size every rectangle drawn has its corners in
      order. */
  lemma DrawnRectsValid(entries: seq<(string, Json)>, w: nat, h: nat)
    requires Drawing(entries, w, h).Some? && w > 0 && h > 0
    ensures forall d :: d in Drawing(entries, w, h).value && d.Rect? ==> IsValidBox(d.box)
  {
    var ks := Kept(BoxesOf(entries).value);
    var ds := DrawList(ks, w, h);
    DrawListShape(ks, w, h);
    KeptMembers(BoxesOf(entries).value);
    forall d | d in ds && d.Rect?
      ensures IsValidBox(d.box)
    {
      var i :| 0 <= i < |ds| && ds[i] == d;
      var k := i / 2;
      assert i == 2 * k || i == 2 * k + 1;
      assert ks[k] in ks;
      ScaledValid(ks[k].1, w, h);
    }
  }

  /** One more box of a category: the tagged boxes grow by that box. */
  lemma TagStep(category: string, bs: seq<Box>, b: Box)
    ensures Tag(category, bs + [b]) == Tag(category, bs) + [(category, b)]
  {
  }

  lemma KeptStep(bs: seq<(string, Box)>, b: (string, Box))
    ensures Kept(bs + [b]) == Kept(bs) + (if IsValidBox(b.1) then [b] else [])
  {
    assert (bs + [b])[..|bs|] == bs;
  }

  lemma DrawListStep(ks: seq<(string, Box)>, k: (string, Box), w: nat, h: nat)
    ensures DrawList(ks + [k], w, h) == DrawList(ks, w, h) + BoxDraws(k.0, k.1, w, h)
  {
    assert (ks + [k])[..|ks|] == ks;
  }

  lemma CategoryBoxesStep(items: seq<Json>, j: nat)
    requires j < |items|
    ensures CategoryBoxes(items[..j + 1]) ==
      (match CategoryBoxes(items[..j])
       case None => None
       case Some(bs) => if BoxOf(items[j]).None? then None else Some(bs + [BoxOf(items[j]).value]))
  {
    assert items[..j + 1][..j] == items[..j];
  }

  lemma BoxesOfStep(entries: seq<(string, Json)>, i: nat)
    requires i < |entries|
    ensures BoxesOf(entries[..i + 1]) ==
      (match BoxesOf(entries[..i])
       case None => None
       case Some(bs) =>
         if !entries[i].1.JArr? || CategoryBoxes(entries[i].1.items).None? then None
         else Some(bs + Tag(entries[i].0, CategoryBoxes(entries[i].1.items).value)))
  {
    assert entries[..i + 1][..i] == entries[..i];
  }

  // ----- The image being drawn on -----

  /** ImageDraw.Draw(image): the calls made on an image of a given size. */
  class Canvas {
    const width: nat
    const height: nat
    var ops: seq<Draw>

    constructor (w: nat, h: nat)
      ensures width == w && height == h && ops == []
    {
      width := w;
      height := h;
      ops := [];
    }

    /** draw.rectangle([x1, y1, x2, y2], outline="red", width=2) */
    method Rectangle(b: Box)
      modifies this
      ensures ops == old(ops) + [Rect(b)]
    {
      ops := ops + [Rect(b)];
    }

    /** draw.text((x, y), text, fill="red", font=font) */
    method Text(x: real, y: real, text: string)
      modifies this
      ensures ops == old(ops) + [Label(x, y, text)]
    {
      ops := ops + [Label(x, y, text)];
    }

    /** The scaling of one box to pixels and its rectangle and label. */
    method DrawBox(category: string, b: Box)
      modifies this
      ensures ops == old(ops) + BoxDraws(category, b, width, height)
    {
      var x1 := b.x1 / 1000.0 * width as real;
      var x2 := b.x2 / 1000.0 * width as real;
      var y1 := b.y1 / 1000.0 * height as real;
      var y2 := b.y2 / 1000.0 * height as real;
      Rectangle(Box(x1, y1, x2, y2));
      Text(x1, y1 - 20.0, category);
      AppendAssoc(old(ops), [Rect(Box(x1, y1, x2, y2))], [Label(x1, y1 - 20.0, category)]);
      assert Scale(b, width, height) == Box(x1, y1, x2, y2);
      assert [Rect(Box(x1, y1, x2, y2))] + [Label(x1, y1 - 20.0, category)] == BoxDraws(category, b, width, height);
    }

    /** The two loops of process_pii_detections over the categories and
        their boxes. `ok` is false where a malformed entry raises. */
    method DrawBoxes(entries: seq<(string, Json)>) returns (ok: bool)
      modifies this
      ensures ok <==> Drawing(entries, width, height).Some?
      ensures ok ==> ops == old(ops) + Drawing(entries, width, height).value
    {
      var i := 0;
      while i < |entries|
        invariant 0 <= i <= |entries|
        invariant BoxesOf(entries[..i]).Some?
        invariant ops == old(ops) + DrawList(Kept(BoxesOf(entries[..i]).value), width, height)
      {
        var category := entries[i].0;
        var bboxes := entries[i].1;
        BoxesOfStep(entries, i);
        if !bboxes.JArr? {
          BoxesOfAbort(entries, i + 1);
          return false;
        }
        ghost var before := BoxesOf(entries[..i]).value;
        ghost var mid := ops;
        var drawn := DrawCategory(category, bboxes.items);
        if !drawn {
          BoxesOfAbort(entries, i + 1);
          return false;
        }
        ghost var more := Tag(category, CategoryBoxes(bboxes.items).value);
        KeptAppend(before, more);
        DrawListAppend(Kept(before), Kept(more), width, height);
        AppendAssoc(old(ops), DrawList(Kept(before), width, height), DrawList(Kept(more), width, height));
        i := i + 1;
      }
      assert entries[..i] == entries;
      ok := true;
    }

    /** The inner loop over the boxes of one category: `continue` past a box
        out of order, a rectangle and a label for every other. */
    method DrawCategory(category: string, bboxes: seq<Json>) returns (ok: bool)
      modifies this
      ensures ok <==> CategoryBoxes(bboxes).Some?
      ensures ok ==> ops == old(ops) + DrawList(Kept(Tag(category, CategoryBoxes(bboxes).value)), width, height)
    {
      var j := 0;
      while j < |bboxes|
        invariant 0 <= j <= |bboxes|
        invariant CategoryBoxes(bboxes[..j]).Some?
        invariant ops == old(ops) + DrawList(Kept(Tag(category, CategoryBoxes(bboxes[..j]).value)), width, height)
      {
        var box := BoxOf(bboxes[j]);
        if box.None? {
          CategoryBoxesStep(bboxes, j);
          CategoryBoxesAbort(bboxes, j + 1);
          return false;
        }
        var b := box.value;
        ghost var done := Tag(category, CategoryBoxes(bboxes[..j]).value);
        CategoryKeptStep(category, bboxes, j);
        if b.x1 >= b.x2 || b.y1 >= b.y2 {
          j := j + 1;
          continue;
        }
        DrawListStep(Kept(done), (category, b), width, height);
        DrawBox(category, b);
        AppendAssoc(old(ops), DrawList(Kept(done), width, height), BoxDraws(category, b, width, height));
        j := j + 1;
      }
      assert bboxes[..j] == bboxes;
      ok := true;
    }
  }

  /** One more well-formed box of a category: it is kept, and drawn, exactly
      when it is in order. */
  lemma CategoryKeptStep(category: string, bboxes: seq<Json>, j: nat)
    requires j < |bboxes|
    requires CategoryBoxes(bboxes[..j]).Some? && BoxOf(bboxes[j]).Some?
    ensures CategoryBoxes(bboxes[..j + 1]).Some?
    ensures var b := BoxOf(bboxes[j]).value;
      IsValidBox(b) ==>
        Kept(Tag(category, CategoryBoxes(bboxes[..j + 1]).value)) ==
          Kept(Tag(category, CategoryBoxes(bboxes[..j]).value)) + [(category, b)]
    ensures var b := BoxOf(bboxes[j]).value;
      !IsValidBox(b) ==>
        Kept(Tag(category, CategoryBoxes(bboxes[..j + 1]).value)) ==
          Kept(Tag(category, CategoryBoxes(bboxes[..j]).value))
  {
    var b := BoxOf(bboxes[j]).value;
    var bs := CategoryBoxes(bboxes[..j]).value;
    CategoryBoxesStep(bboxes, j);
    assert CategoryBoxes(bboxes[..j + 1]).value == bs + [b];
    TagStep(category, bs, b);
    KeptStep(Tag(category, bs), (category, b));
    assert Kept(Tag(category, bs)) + [] == Kept(Tag(category, bs));
  }

  lemma {:induction false} KeptAppend(a: seq<(string, Box)>, b: seq<(string, Box)>)
    ensures Kept(a + b) == Kept(a) + Kept(b)
    decreases |b|
  {
    if b != [] {
      var init := b[..|b| - 1];
      var last := b[|b| - 1];
      KeptAppend(a, init);
      assert a + b == (a + init) + [last];
      KeptStep(a + init, last);
      KeptStep(init, last);
      assert b == init + [last];
    } else {
      assert a + b == a;
    }
  }

  lemma {:induction false} DrawListAppend(a: seq<(string, Box)>, b: seq<(string, Box)>, w: nat, h: nat)
    ensures DrawList(a + b, w, h) == DrawList(a, w, h) + DrawList(b, w, h)
    decreases |b|
  {
    if b != [] {
      var init := b[..|b| - 1];
      var last := b[|b| - 1];
      DrawListAppend(a, init, w, h);
      assert a + b == (a + init) + [last];
      DrawListStep(a + init, last, w, h);
      DrawListStep(init, last, w, h);
      assert b == init + [last];
    } else {
      assert a + b == a;
    }
  }

  /** A malformed entry leaves every longer list of entries without boxes. */
  lemma {:induction false} CategoryBoxesAbort(items: seq<Json>, n: nat)
    requires 0 < n <= |items|
    requires CategoryBoxes(items[..n]).None?
    ensures CategoryBoxes(items).None?
    decreases |items| - n
  {
    if n < |items| {
      assert items[..n + 1][..n] == items[..n];
      CategoryBoxesAbort(items, n + 1);
    } else {
      assert items[..n] == items;
    }
  }

  lemma {:induction false} BoxesOfAbort(entries: seq<(string, Json)>, n: nat)
    requires 0 < n <= |entries|
    requires BoxesOf(entries[..n]).None?
    ensures BoxesOf(entries).None?
    decreases |entries| - n
  {
    if n < |entries| {
      assert entries[..n + 1][..n] == entries[..n];
      BoxesOfAbort(entries, n + 1);
    } else {
      assert entries[..n] == entries;
    }
  }

  // ----- File names -----

  /** object_key.split('/')[-1]: where the image is downloaded. */
  function LocalName(objectKey: string): string
  {
    Paths.Basename(objectKey)
  }

  const SUFFIX: string := "_boundingbox"

  /** os.path.join(output_dir, f"{stem}_boundingbox{ext}") with stem and ext
      from os.path.splitext of the local name. */
  function OutputName(outputDir: string, objectKey: string): string
  {
    var parts := Paths.SplitExt(LocalName(objectKey));
    Paths.Join(outputDir, parts.0 + SUFFIX + parts.1)
  }

  /** The file name: the local name with `_boundingbox` before its
      extension, which holds no '/'. */
  lemma OutputFileFlat(objectKey: string)
    ensures var parts := Paths.SplitExt(LocalName(objectKey));
      '/' !in parts.0 + SUFFIX + parts.1
  {
    var parts := Paths.SplitExt(LocalName(objectKey));
    assert '/' !in SUFFIX;
    CharNotInInsert(parts.0, SUFFIX, parts.1, '/');
  }

  /** A character absent from a + b and from t is absent from a + t + b. */
  lemma CharNotInInsert(a: string, t: string, b: string, c: char)
    requires c !in a + b && c !in t
    ensures c !in a + t + b
  {
    assert forall x :: x in a + t + b ==> x in a || x in t || x in b;
    assert forall x :: x in a || x in b ==> x in a + b;
  }

  /** The saved file sits directly in the output directory. */
  lemma OutputNameInDir(outputDir: string, objectKey: string)
    ensures var parts := Paths.SplitExt(LocalName(objectKey));
      var file := parts.0 + SUFFIX + parts.1;
      OutputName(outputDir, objectKey) == outputDir + file ||
      OutputName(outputDir, objectKey) == outputDir + "/" + file
  {
    var parts := Paths.SplitExt(LocalName(objectKey));
    var file := parts.0 + SUFFIX + parts.1;
    OutputFileFlat(objectKey);
    assert file == [] || file[0] in file;
  }

  /** The last component of the saved path is the file name. */
  lemma OutputNameBase(outputDir: string, objectKey: string)
    ensures var parts := Paths.SplitExt(LocalName(objectKey));
      Paths.Basename(OutputName(outputDir, objectKey)) == parts.0 + SUFFIX + parts.1
  {
    var parts := Paths.SplitExt(LocalName(objectKey));
    OutputFileFlat(objectKey);
    Paths.JoinBasename(outputDir, parts.0 + SUFFIX + parts.1);
  }

  /** The saved file sits directly in the output directory, its name is the
      local name with `_boundingbox` before the extension, and splitext of
      it gives back the same extension. */
  lemma OutputNameParts(outputDir: string, objectKey: string)
    ensures var parts := Paths.SplitExt(LocalName(objectKey));
      var file := parts.0 + SUFFIX + parts.1;
      && (OutputName(outputDir, objectKey) == outputDir + file ||
          OutputName(outputDir, objectKey) == outputDir + "/" + file)
      && Paths.Basename(OutputName(outputDir, objectKey)) == file
      && Paths.SplitExt(Paths.Basename(OutputName(outputDir, objectKey))) == (parts.0 + SUFFIX, parts.1)
  {
    OutputNameInDir(outputDir, objectKey);
    OutputNameBase(outputDir, objectKey);
    assert '.' !in SUFFIX && '/' !in SUFFIX;
    Paths.SplitExtInsert(LocalName(objectKey), SUFFIX);
  }

  // ----- The lines of the results file -----

  /** The value of `pii_bounding_box`: a JSON object, its entries in key
      order as json.loads keeps them, or any other JSON value. */
  datatype BoxField = Categories(entries: seq<(string, Json)>) | NotObject(v: Json)

  /** A line of the results file parsed as a JSON object: the three keys the
      script reads, each possibly missing. */
  datatype Line = Line(bucket: Option<Json>, objectKey: Option<Json>, boxes: Option<BoxField>)

  /** Python truthiness of a JSON value. */
  predicate JsonTruthy(v: Json)
  {
    match v
    case JNull => false
    case JBool(b) => b
    case JNum(n) => n != 0.0
    case JStr(s) => s != []
    case JArr(items) => items != []
    case JObj(fields) => fields != map[]
  }

  /** `data.get('pii_bounding_box')` is truthy. */
  predicate HasBoxes(l: Line)
  {
    match l.boxes
    case None => false
    case Some(Categories(entries)) => entries != []
    case Some(NotObject(v)) => JsonTruthy(v)
  }

  /** An image saved by the script: the object it came from, the file it was
      saved to and the calls drawn on it. */
  datatype SavedImage = SavedImage(bucket: string, objectKey: string, output: string, draws: seq<Draw>)

  /** What one line does: nothing, an exception, or a saved image. */
  datatype LineResult = Skipped | LineCrashed | Annotated(image: SavedImage)

  /** The size of each object's image, None when the download or the
      opening of the image fails. */
  type ImageSizes = (string, string) -> Option<(nat, nat)>

  /** One iteration of the loop over the lines; None for a line that is not
      a JSON object, which json.loads or data.get rejects. */
  function LineOutcome(line: Option<Line>, images: ImageSizes, outputDir: string): LineResult
  {
    match line
    case None => LineCrashed
    case Some(l) =>
      if !HasBoxes(l) then Skipped
      else if l.bucket.None? || l.objectKey.None? || !l.bucket.value.JStr? || !l.objectKey.value.JStr? then
        LineCrashed
      else
        var bucket := l.bucket.value.s;
        var key := l.objectKey.value.s;
        match images(bucket, key)
        case None => LineCrashed
        case Some(size) => ImageOutcome(bucket, key, l.boxes.value, size.0, size.1, outputDir)
  }

  /** The drawing on a downloaded w×h image and its saving: `.items()`
      raises unless the field is a JSON object. */
  function ImageOutcome(bucket: string, key: string, field: BoxField, w: nat, h: nat, outputDir: string): LineResult
  {
    match field
    case NotObject(_) => LineCrashed
    case Categories(entries) =>
      match Drawing(entries, w, h)
      case None => LineCrashed
      case Some(ds) => Annotated(SavedImage(bucket, key, OutputName(outputDir, key), ds))
  }

  /** The images saved by process_pii_detections, and whether it raised:
      the first line that raises ends the run, and the images saved before
      it stay saved. */
  function ProcessLines(lines: seq<Option<Line>>, images: ImageSizes, outputDir: string): (r: (seq<SavedImage>, bool))
    ensures |r.0| <= |lines|
  {
    if lines == [] then ([], false)
    else
      var prev := ProcessLines(lines[..|lines| - 1], images, outputDir);
      if prev.1 then prev
      else
        match LineOutcome(lines[|lines| - 1], images, outputDir)
        case Skipped => prev
        case LineCrashed => (prev.0, true)
        case Annotated(img) => (prev.0 + [img], false)
  }

  /** A JSON-object line is skipped exactly when its `pii_bounding_box` is
      missing or falsy. */
  lemma SkippedIff(l: Line, images: ImageSizes, outputDir: string)
    ensures LineOutcome(Some(l), images, outputDir) == Skipped <==> !HasBoxes(l)
  {
  }

  /** An annotated image is saved under OutputName of its key, and holds
      the drawing of its boxes at the image's size. */
  lemma AnnotatedImage(l: Line, images: ImageSizes, outputDir: string)
    requires LineOutcome(Some(l), images, outputDir).Annotated?
    ensures var img := LineOutcome(Some(l), images, outputDir).image;
      && HasBoxes(l) && l.boxes.value.Categories?
      && l.objectKey == Some(JStr(img.objectKey)) && l.bucket == Some(JStr(img.bucket))
      && img.output == OutputName(outputDir, img.objectKey)
      && images(img.bucket, img.objectKey).Some?
      && Some(img.draws) == Drawing(l.boxes.value.entries,
                                    images(img.bucket, img.objectKey).value.0,
                                    images(img.bucket, img.objectKey).value.1)
  {
  }

  /** Once a line raises, later lines change nothing. */
  lemma {:induction false} CrashIsFinal(lines: seq<Option<Line>>, images: ImageSizes, outputDir: string, n: nat)
    requires n <= |lines|
    requires ProcessLines(lines[..n], images, outputDir).1
    ensures ProcessLines(lines, images, outputDir) == ProcessLines(lines[..n], images, outputDir)
    decreases |lines| - n
  {
    if n < |lines| {
      assert lines[..n + 1][..n] == lines[..n];
      CrashIsFinal(lines, images, outputDir, n + 1);
    } else {
      assert lines[..n] == lines;
    }
  }

  /** One line of the results file, as the body of the loop does it. */
  method AnnotateLine(line: Option<Line>, images: ImageSizes, outputDir: string) returns (r: LineResult)
    ensures r == LineOutcome(line, images, outputDir)
  {
    if line.None? {
      return LineCrashed;
    }
    var data := line.value;
    if !HasBoxes(data) {
      return Skipped;
    }
    if data.bucket.None? || data.objectKey.None? || !data.bucket.value.JStr? || !data.objectKey.value.JStr? {
      return LineCrashed;
    }
    var bucket := data.bucket.value.s;
    var objectKey := data.objectKey.value.s;
    var size := images(bucket, objectKey);
    if size.None? {
      return LineCrashed;
    }
    r := DrawAndSave(bucket, objectKey, data.boxes.value, size.value.0, size.value.1, outputDir);
  }

  /** The rest of the loop body once the image is open: draw the boxes on
      it and save it under the output name. */
  method DrawAndSave(bucket: string, objectKey: string, field: BoxField, w: nat, h: nat, outputDir: string)
    returns (r: LineResult)
    ensures r == ImageOutcome(bucket, objectKey, field, w, h, outputDir)
  {
    var localFilename := LocalName(objectKey);
    var canvas := new Canvas(w, h);
    if field.NotObject? {
      return LineCrashed;
    }
    var ok := canvas.DrawBoxes(field.entries);
    if !ok {
      return LineCrashed;
    }
    assert [] + Drawing(field.entries, w, h).value == Drawing(field.entries, w, h).value;
    var parts := Paths.SplitExt(localFilename);
    var outputFilename := Paths.Join(outputDir, parts.0 + SUFFIX + parts.1);
    assert outputFilename == OutputName(outputDir, objectKey);
    assert Drawing(field.entries, w, h) == Some(canvas.ops);
    r := Annotated(SavedImage(bucket, objectKey, outputFilename, canvas.ops));
  }

  /** process_pii_detections: the loop over the lines of the results file. */
  method ProcessDetections(lines: seq<Option<Line>>, images: ImageSizes, outputDir: string)
    returns (saved: seq<SavedImage>, crashed: bool)
    ensures (saved, crashed) == ProcessLines(lines, images, outputDir)
  {
    saved := [];
    var i := 0;
    while i < |lines|
      invariant 0 <= i <= |lines|
      invariant ProcessLines(lines[..i], images, outputDir) == (saved, false)
    {
      assert lines[..i + 1][..i] == lines[..i];
      var r := AnnotateLine(lines[i], images, outputDir);
      match r {
        case Skipped =>
        case LineCrashed =>
          CrashIsFinal(lines, images, outputDir, i + 1);
          return saved, true;
        case Annotated(img) =>
          saved := saved + [img];
      }
      i := i + 1;
    }
    assert lines[..i] == lines;
    crashed := false;
  }
}
