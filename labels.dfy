/** The YOLO label file of one image (`convert_supervisely_to_yolo_image`):
    one normalised box per object of the converted class, in object order.
    The records of the file are modelled, not their text. */
module Labels {
  import opened Wrappers
  import opened Annotations

  /** `ANNOTATION_CLASSES_TO_ID`: the class titles that are converted, with their ids. */
  const ClassToId: map<string, nat> := map["sperm" := 0]

  /** The default side of the square box, in pixels. */
  const BoxSide: nat := 80

  /** A decoded image always has at least one row and one column. */
  type Dim = n: nat | n > 0 witness 1

  /** `image.shape[:2]` of the decoded image. */
  datatype Shape = Shape(height: Dim, width: Dim)

  /** One line of a label file: `<class id> <x> <y> <w> <h>`, normalised. */
  datatype LabelLine = LabelLine(classId: nat, x: real, y: real, w: real, h: real)

  /** Reading the first exterior point of a mapped object that has none
      (an `IndexError` in the source). */
  datatype LabelError = MissingExterior

  /** What the writer leaves in the label file, and whether it stopped on an error. */
  datatype Emission = Emission(lines: seq<LabelLine>, fault: Option<LabelError>)

  /** The square box anchored at `anchor` with side `w`, with x and the width
      divided by the image width and y and the height by the image height. */
  function Box(classId: nat, anchor: Point, shape: Shape, w: nat): (line: LabelLine)
    ensures line.classId == classId
    ensures line.x * shape.width as real == anchor.x as real
    ensures line.y * shape.height as real == anchor.y as real
    ensures line.w * shape.width as real == w as real
    ensures line.h * shape.height as real == w as real
  {
    LabelLine(classId,
              anchor.x as real / shape.width as real,
              anchor.y as real / shape.height as real,
              w as real / shape.width as real,
              w as real / shape.height as real)
  }

  /** The lines one well-formed object contributes: a box for an object whose
      class maps to id 0, nothing otherwise. */
  function LineFor(o: Object, classes: map<string, nat>, shape: Shape, w: nat): seq<LabelLine>
    requires o.classTitle in classes ==> o.exterior != []
  {
    if o.classTitle in classes && classes[o.classTitle] == 0 then [Box(0, o.exterior[0], shape, w)] else []
  }

  /** One object contributes at most one line, and only with class id 0. */
  lemma LineForAtMostOne(o: Object, classes: map<string, nat>, shape: Shape, w: nat)
    requires o.classTitle in classes ==> o.exterior != []
    ensures var r := LineFor(o, classes, shape, w);
            r == [] || (|r| == 1 && r[0].classId == 0)
  {
  }

  /** Every object whose class is mapped has an exterior point to anchor its box. */
  predicate Anchored(objects: seq<Object>, classes: map<string, nat>)
  {
    forall i :: 0 <= i < |objects| && objects[i].classTitle in classes ==> objects[i].exterior != []
  }

  /** The label file after the writer has walked `objects` in order: unmapped
      objects are skipped, a mapped object without exterior points stops the
      writer with the lines written so far left in the file. */
  function Emit(objects: seq<Object>, classes: map<string, nat>, shape: Shape, w: nat): Emission
    decreases |objects|
  {
    if objects == [] then Emission([], None)
    else
      var k := |objects| - 1;
      var before := Emit(objects[..k], classes, shape, w);
      var o := objects[k];
      if before.fault.Some? then before
      else if o.classTitle in classes && o.exterior == [] then Emission(before.lines, Some(MissingExterior))
      else Emission(before.lines + LineFor(o, classes, shape, w), None)
  }

  /** The label writer: the loop over the objects, writing one line at a time. */
  method WriteLabels(objects: seq<Object>, classes: map<string, nat>, shape: Shape, w: nat)
    returns (lines: seq<LabelLine>, fault: Option<LabelError>)
    ensures Emission(lines, fault) == Emit(objects, classes, shape, w)
  {
    lines, fault := [], None;
    var i := 0;
    while i < |objects|
      invariant 0 <= i <= |objects|
      invariant Emit(objects[..i], classes, shape, w) == Emission(lines, None)
    {
      var o := objects[i];
      assert objects[..i + 1][..i] == objects[..i];
      if o.classTitle in classes {
        var classId := classes[o.classTitle];
        if o.exterior == [] {
          fault := Some(MissingExterior);
          FaultPersists(objects, classes, shape, w, i + 1);
          return;
        }
        var bbox := Box(classId, o.exterior[0], shape, w);
        if classId == 0 {
          lines := lines + [bbox];
        }
      }
      i := i + 1;
    }
    assert objects[..i] == objects;
  }

  /** Once the writer has stopped, later objects add nothing. */
  lemma {:induction false} FaultPersists(objects: seq<Object>, classes: map<string, nat>, shape: Shape, w: nat, k: nat)
    requires k <= |objects|
    requires Emit(objects[..k], classes, shape, w).fault.Some?
    ensures Emit(objects, classes, shape, w) == Emit(objects[..k], classes, shape, w)
    decreases |objects| - k
  {
    if k < |objects| {
      assert objects[..k + 1][..k] == objects[..k];
      FaultPersists(objects, classes, shape, w, k + 1);
    } else {
      assert objects[..k] == objects;
    }
  }

  /** The writer finishes without error exactly when every mapped object has
      an exterior point. */
  lemma {:induction false} EmitFaultIff(objects: seq<Object>, classes: map<string, nat>, shape: Shape, w: nat)
    ensures Emit(objects, classes, shape, w).fault.None? <==> Anchored(objects, classes)
    decreases |objects|
  {
    if objects != [] {
      var k := |objects| - 1;
      EmitFaultIff(objects[..k], classes, shape, w);
      assert forall i :: 0 <= i < k ==> objects[..k][i] == objects[i];
    }
  }

  /** The first mapped object without exterior points stops the writer: the
      file keeps the lines of the objects before it and nothing after. */
  lemma EmitStopsAtFirstFault(objects: seq<Object>, classes: map<string, nat>, shape: Shape, w: nat, k: nat)
    requires k < |objects|
    requires Anchored(objects[..k], classes)
    requires objects[k].classTitle in classes && objects[k].exterior == []
    ensures Emit(objects, classes, shape, w) == Emission(Emit(objects[..k], classes, shape, w).lines, Some(MissingExterior))
  {
    EmitFaultIff(objects[..k], classes, shape, w);
    assert objects[..k + 1][..k] == objects[..k];
    FaultPersists(objects, classes, shape, w, k + 1);
  }

  /** Walking two runs of objects one after the other writes the lines of the
      first run, then those of the second. */
  lemma {:induction false} EmitConcat(xs: seq<Object>, ys: seq<Object>, classes: map<string, nat>, shape: Shape, w: nat)
    requires Emit(xs, classes, shape, w).fault.None?
    ensures Emit(xs + ys, classes, shape, w)
         == Emission(Emit(xs, classes, shape, w).lines + Emit(ys, classes, shape, w).lines, Emit(ys, classes, shape, w).fault)
    decreases |ys|
  {
    if ys == [] {
      assert xs + ys == xs;
    } else {
      var k := |ys| - 1;
      EmitConcat(xs, ys[..k], classes, shape, w);
      assert (xs + ys)[..|xs + ys| - 1] == xs + ys[..k];
      assert (xs + ys)[|xs + ys| - 1] == ys[k];
    }
  }

  /** An object whose class is not mapped changes nothing, wherever it stands:
      no line and no error. */
  lemma UnmappedObjectSkipped(xs: seq<Object>, o: Object, ys: seq<Object>, classes: map<string, nat>, shape: Shape, w: nat)
    requires o.classTitle !in classes
    ensures Emit(xs + [o] + ys, classes, shape, w) == Emit(xs + ys, classes, shape, w)
  {
    if Emit(xs, classes, shape, w).fault.Some? {
      assert (xs + [o] + ys)[..|xs|] == xs;
      assert (xs + ys)[..|xs|] == xs;
      FaultPersists(xs + [o] + ys, classes, shape, w, |xs|);
      FaultPersists(xs + ys, classes, shape, w, |xs|);
    } else {
      assert [o][..0] == [];
      assert Emit([o], classes, shape, w) == Emission([], None);
      EmitConcat([o], ys, classes, shape, w);
      assert Emit([o] + ys, classes, shape, w) == Emit(ys, classes, shape, w);
      EmitConcat(xs, [o] + ys, classes, shape, w);
      EmitConcat(xs, ys, classes, shape, w);
      assert xs + [o] + ys == xs + ([o] + ys);
    }
  }

  /** An independent description of a complete label file: for each object in
      order, the lines it contributes on its own. */
  function Written(objects: seq<Object>, classes: map<string, nat>, shape: Shape, w: nat): seq<LabelLine>
    requires Anchored(objects, classes)
  {
    if objects == [] then []
    else LineFor(objects[0], classes, shape, w) + Written(objects[1..], classes, shape, w)
  }

  lemma {:induction false} WrittenAppend(xs: seq<Object>, o: Object, classes: map<string, nat>, shape: Shape, w: nat)
    requires Anchored(xs + [o], classes)
    ensures Anchored(xs, classes) && (o.classTitle in classes ==> o.exterior != [])
    ensures Written(xs + [o], classes, shape, w) == Written(xs, classes, shape, w) + LineFor(o, classes, shape, w)
    decreases |xs|
  {
    assert forall i :: 0 <= i < |xs| ==> (xs + [o])[i] == xs[i];
    assert (xs + [o])[|xs|] == o;
    if xs != [] {
      assert (xs + [o])[1..] == xs[1..] + [o];
      WrittenAppend(xs[1..], o, classes, shape, w);
    }
  }

  /** When every mapped object is anchored, the writer's file holds exactly one
      line per object that maps to class id 0, in object order. */
  lemma {:induction false} EmitMatchesWritten(objects: seq<Object>, classes: map<string, nat>, shape: Shape, w: nat)
    requires Anchored(objects, classes)
    ensures Emit(objects, classes, shape, w) == Emission(Written(objects, classes, shape, w), None)
    decreases |objects|
  {
    if objects != [] {
      var k := |objects| - 1;
      assert objects == objects[..k] + [objects[k]];
      WrittenAppend(objects[..k], objects[k], classes, shape, w);
      EmitMatchesWritten(objects[..k], classes, shape, w);
    }
  }

  /** Every line written has class id 0, and there is at most one per object. */
  lemma {:induction false} WrittenOnlyClassZero(objects: seq<Object>, classes: map<string, nat>, shape: Shape, w: nat)
    requires Anchored(objects, classes)
    ensures |Written(objects, classes, shape, w)| <= |objects|
    ensures forall line :: line in Written(objects, classes, shape, w) ==> line.classId == 0
    decreases |objects|
  {
    if objects != [] {
      assert forall i :: 0 <= i < |objects| - 1 ==> objects[1..][i] == objects[i + 1];
      WrittenOnlyClassZero(objects[1..], classes, shape, w);
    }
  }

  /** With the class table of the source, an object contributes a line exactly
      when its class title is "sperm". */
  lemma SpermOnly(o: Object, shape: Shape, w: nat)
    requires o.classTitle in ClassToId ==> o.exterior != []
    ensures |LineFor(o, ClassToId, shape, w)| == (if o.classTitle == "sperm" then 1 else 0)
  {
  }

  /** A worked example: an anchor at (100, 200) in a 1920 by 1200 image with
      side 80 gives the line `0 0.052083 0.166667 0.041667 0.066667` once each value is rounded
      to six decimals. */
  lemma BoxExample()
    ensures Box(0, Point(100, 200), Shape(1200, 1920), BoxSide) == LabelLine(0, 5.0 / 96.0, 1.0 / 6.0, 1.0 / 24.0, 1.0 / 15.0)
    ensures -0.0000005 < 5.0 / 96.0 - 0.052083 < 0.0000005
    ensures -0.0000005 < 1.0 / 6.0 - 0.166667 < 0.0000005
    ensures -0.0000005 < 1.0 / 24.0 - 0.041667 < 0.0000005
    ensures -0.0000005 < 1.0 / 15.0 - 0.066667 < 0.0000005
  {
  }
}
