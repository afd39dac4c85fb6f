/** The conversion driver (`convert_supervisely_to_yolo`): the split check,
    the colour dispatch, the choice of the train or val folder, and the
    output tree `images/{train,val}/<stem>.jpg`, `labels/{train,val}/<stem>.txt`. */
module Conversion {
  import opened Wrappers
  import opened Annotations
  import opened Labels

  /** How the output image is produced from the source image. */
  datatype ColorMode = Bgr | Green | Gray

  datatype Error =
    | WrongColor            // an unknown colour mode (a `ValueError`)
    | SplitFailed           // the splitter cannot leave a stem for training (a `ValueError`)
    | SplitNotCovered       // the split names a stem that was not kept (the assertion)
    | FolderUnset(stem: Stem)  // a kept stem in neither split list
    | NoExterior(stem: Stem)   // a converted object without exterior points

  function ColorName(m: ColorMode): string
  {
    match m
    case Bgr => "bgr"
    case Green => "green"
    case Gray => "gray"
  }

  /** The colour dispatch: the three known names select a mode, anything else
      is an error. */
  function ParseColor(color: string): (r: Result<ColorMode, Error>)
    ensures r.Success? <==> color == "bgr" || color == "green" || color == "gray"
    ensures r.Success? ==> ColorName(r.value) == color
    ensures r.Failure? ==> r.error == WrongColor
  {
    if color == "bgr" then Success(Bgr)
    else if color == "green" then Success(Green)
    else if color == "gray" then Success(Gray)
    else Failure(WrongColor)
  }

  /** Every mode is selected by its own name. */
  lemma ColorRoundTrip(m: ColorMode)
    ensures ParseColor(ColorName(m)) == Success(m)
  {
  }

  datatype Split = Train | Val

  function FolderName(s: Split): string
  {
    match s
    case Train => "train"
    case Val => "val"
  }

  /** The folder of a stem: train when it is in the train list, even if it is
      also in the val list; val when it is only in the val list; none otherwise. */
  function Folder(stem: Stem, train: seq<Stem>, val: seq<Stem>): (r: Option<Split>)
    ensures r == Some(Train) <==> stem in train
    ensures r == Some(Val) <==> stem !in train && stem in val
    ensures r == None <==> stem !in train && stem !in val
  {
    if stem in train then Some(Train)
    else if stem in val then Some(Val)
    else None
  }

  /** The split check: every stem of either list is a kept stem. */
  predicate Covers(train: seq<Stem>, val: seq<Stem>, kept: seq<Stem>)
  {
    forall s :: s in val + train ==> s in kept
  }

  function Stems(paths: seq<ImagePath>): (r: seq<Stem>)
    ensures |r| == |paths|
    ensures forall i :: 0 <= i < |paths| ==> r[i] == paths[i].stem
  {
    seq(|paths|, i requires 0 <= i < |paths| => paths[i].stem)
  }

  /** The train and val stems: those of the reference tree when there is one,
      otherwise what the splitter makes of the kept stems. With a quarter of
      the stems (rounded up) held out for validation, fewer than two stems
      leave none for training, and the splitter refuses them. */
  function SplitOf(reference: Option<(seq<Stem>, seq<Stem>)>, splitter: seq<Stem> -> (seq<Stem>, seq<Stem>), kept: seq<Stem>)
    : (r: Result<(seq<Stem>, seq<Stem>), Error>)
    ensures r.Failure? <==> reference.None? && |kept| < 2
    ensures r.Failure? ==> r.error == SplitFailed
    ensures reference.Some? ==> r == Success(reference.value)
  {
    if reference.Some? then Success(reference.value)
    else if |kept| < 2 then Failure(SplitFailed)
    else Success(splitter(kept))
  }

  /** Where an image's outputs go: its folder and its stem. */
  datatype Slot = Slot(folder: Split, stem: Stem)

  function ImageFile(s: Slot): FilePath
  {
    ["images", FolderName(s.folder), s.stem + ".jpg"]
  }

  function LabelFile(s: Slot): FilePath
  {
    ["labels", FolderName(s.folder), s.stem + ".txt"]
  }

  /** Distinct slots name distinct files, so the tree can be kept by slot. */
  lemma SlotFilesInjective(s: Slot, t: Slot)
    ensures ImageFile(s) == ImageFile(t) <==> s == t
    ensures LabelFile(s) == LabelFile(t) <==> s == t
  {
    if ImageFile(s) == ImageFile(t) {
      assert FolderName(s.folder) == ImageFile(s)[1];
      assert s.stem == (s.stem + ".jpg")[..|s.stem|];
      assert t.stem == (t.stem + ".jpg")[..|t.stem|];
    }
    if LabelFile(s) == LabelFile(t) {
      assert FolderName(s.folder) == LabelFile(s)[1];
      assert s.stem == (s.stem + ".txt")[..|s.stem|];
      assert t.stem == (t.stem + ".txt")[..|t.stem|];
    }
  }

  /** The re-encoded image: the cv2 pixels are not modelled, only which source
      image it comes from and in which colour mode. */
  datatype EncodedImage = EncodedImage(source: ImagePath, mode: ColorMode)

  datatype Tree = Tree(images: map<Slot, EncodedImage>, labels: map<Slot, seq<LabelLine>>)

  const EmptyTree: Tree := Tree(map[], map[])

  /** The two directories the driver returns. */
  const TrainImages: FilePath := ["images", "train"]
  const ValImages: FilePath := ["images", "val"]

  /** What a conversion run needs besides the order of the images: the sidecar
      files, the shape of each decoded image, the colour name and the split. */
  datatype Job = Job(files: map<FilePath, Annotation>, shapes: map<ImagePath, Shape>, color: string, train: seq<Stem>, val: seq<Stem>)

  datatype RunState = RunState(tree: Tree, fault: Option<Error>)

  predicate Decodable(order: seq<ImagePath>, shapes: map<ImagePath, Shape>)
  {
    forall p :: p in order ==> p in shapes
  }

  /** One iteration of the driver loop: dispatch on the colour, choose the
      folder, write the image, then write the label file. */
  function Step(tree: Tree, p: ImagePath, job: Job): (r: RunState)
    requires p in job.shapes
  {
    match ParseColor(job.color)
    case Failure(e) => RunState(tree, Some(e))
    case Success(mode) =>
      match Folder(p.stem, job.train, job.val)
      case None => RunState(tree, Some(FolderUnset(p.stem)))
      case Some(folder) =>
        var slot := Slot(folder, p.stem);
        var e := Emit(Load(job.files, p).objects, ClassToId, job.shapes[p], BoxSide);
        RunState(Tree(tree.images[slot := EncodedImage(p, mode)], tree.labels[slot := e.lines]),
                 if e.fault.Some? then Some(NoExterior(p.stem)) else None)
  }

  /** One iteration only adds files; an unknown colour or a stem without a
      folder leaves the tree as it was, so the tree changes only for a stem
      that has a folder. */
  lemma StepOnlyAdds(tree: Tree, p: ImagePath, job: Job)
    requires p in job.shapes
    ensures var r := Step(tree, p, job);
            tree.images.Keys <= r.tree.images.Keys && tree.labels.Keys <= r.tree.labels.Keys
    ensures var r := Step(tree, p, job);
            r.fault.Some? && !r.fault.value.NoExterior? ==> r.tree == tree
    ensures Step(tree, p, job).tree != tree ==> Folder(p.stem, job.train, job.val).Some?
  {
  }

  /** The driver loop over the images in `order`, stopping at the first error. */
  function Run(tree: Tree, order: seq<ImagePath>, job: Job): (r: RunState)
    requires Decodable(order, job.shapes)
    decreases |order|
  {
    if order == [] then RunState(tree, None)
    else
      var k := |order| - 1;
      var before := Run(tree, order[..k], job);
      if before.fault.Some? then before else Step(before.tree, order[k], job)
  }

  /** A run never removes a file: every image and label file of the starting
      tree is still there at the end. */
  lemma {:induction false} RunOnlyAdds(tree: Tree, order: seq<ImagePath>, job: Job)
    requires Decodable(order, job.shapes)
    ensures tree.images.Keys <= Run(tree, order, job).tree.images.Keys
    ensures tree.labels.Keys <= Run(tree, order, job).tree.labels.Keys
    decreases |order|
  {
    if order != [] {
      var k := |order| - 1;
      RunOnlyAdds(tree, order[..k], job);
      var before := Run(tree, order[..k], job);
      if before.fault.None? {
        StepOnlyAdds(before.tree, order[k], job);
      }
    }
  }

  /** The image and label files come in pairs. */
  predicate Paired(t: Tree)
  {
    t.images.Keys == t.labels.Keys
  }

  /** A run keeps images and labels paired: a record is written whole (its label
      file possibly cut short by an error) or not at all. */
  lemma {:induction false} RunKeepsPairs(tree: Tree, order: seq<ImagePath>, job: Job)
    requires Decodable(order, job.shapes)
    requires Paired(tree)
    ensures Paired(Run(tree, order, job).tree)
    decreases |order|
  {
    if order != [] {
      RunKeepsPairs(tree, order[..|order| - 1], job);
    }
  }

  /** An unknown colour stops the run at its first image, before anything is
      written; with no image to convert, nothing fails. */
  lemma {:induction false} RunWrongColor(tree: Tree, order: seq<ImagePath>, job: Job)
    requires Decodable(order, job.shapes)
    requires ParseColor(job.color).Failure?
    ensures Run(tree, order, job) == RunState(tree, if order == [] then None else Some(WrongColor))
    decreases |order|
  {
    if order != [] {
      RunWrongColor(tree, order[..|order| - 1], job);
    }
  }

  /** A run from an empty tree only writes images of `order`, each under the
      folder chosen for its stem and named after that stem. */
  lemma {:induction false} RunRoutesToFolder(order: seq<ImagePath>, job: Job)
    requires Decodable(order, job.shapes)
    ensures var t := Run(EmptyTree, order, job).tree;
            forall s :: s in t.images ==>
              Folder(s.stem, job.train, job.val) == Some(s.folder) &&
              t.images[s].source in order && t.images[s].source.stem == s.stem
    decreases |order|
  {
    if order != [] {
      var k := |order| - 1;
      RunRoutesToFolder(order[..k], job);
      assert forall p :: p in order[..k] ==> p in order;
    }
  }

  /** One image converts cleanly: its stem has a folder and every converted
      object has an exterior point. */
  predicate Clean(p: ImagePath, job: Job)
  {
    Folder(p.stem, job.train, job.val).Some? && Anchored(Load(job.files, p).objects, ClassToId)
  }

  /** The images of `order` that convert cleanly: known colour, a folder for
      the stem, and an exterior point for every converted object. */
  predicate Convertible(order: seq<ImagePath>, job: Job)
  {
    ParseColor(job.color).Success? && forall p :: p in order ==> Clean(p, job)
  }

  /** One iteration ends without error exactly when the colour is known and the
      image converts cleanly. */
  lemma StepSucceedsIff(tree: Tree, p: ImagePath, job: Job)
    requires p in job.shapes
    ensures Step(tree, p, job).fault.None? <==> ParseColor(job.color).Success? && Clean(p, job)
  {
    EmitFaultIff(Load(job.files, p).objects, ClassToId, job.shapes[p], BoxSide);
  }

  lemma ConvertibleSnoc(order: seq<ImagePath>, job: Job)
    requires order != []
    ensures Convertible(order, job) <==> Convertible(order[..|order| - 1], job) && Clean(order[|order| - 1], job)
  {
    assert order == order[..|order| - 1] + [order[|order| - 1]];
  }

  /** A run finishes without error exactly when there is nothing to convert or
      every image converts cleanly. */
  lemma {:induction false} RunSucceedsIff(tree: Tree, order: seq<ImagePath>, job: Job)
    requires Decodable(order, job.shapes)
    ensures Run(tree, order, job).fault.None? <==> order == [] || Convertible(order, job)
    decreases |order|
  {
    if order != [] {
      var k := |order| - 1;
      var before := Run(tree, order[..k], job);
      RunSucceedsIff(tree, order[..k], job);
      ConvertibleSnoc(order, job);
      if before.fault.None? {
        StepSucceedsIff(before.tree, order[k], job);
      }
    }
  }

  /** After a run without error, every image of `order` has its image and
      label file under the folder of its stem. */
  lemma {:induction false} RunWritesEveryImage(tree: Tree, order: seq<ImagePath>, job: Job)
    requires Decodable(order, job.shapes)
    requires Run(tree, order, job).fault.None?
    ensures var t := Run(tree, order, job).tree;
            forall p :: p in order ==>
              Folder(p.stem, job.train, job.val).Some? &&
              Slot(Folder(p.stem, job.train, job.val).value, p.stem) in t.images &&
              Slot(Folder(p.stem, job.train, job.val).value, p.stem) in t.labels
    decreases |order|
  {
    if order != [] {
      var k := |order| - 1;
      RunWritesEveryImage(tree, order[..k], job);
      assert order == order[..k] + [order[k]];
    }
  }

  predicate DistinctStems(order: seq<ImagePath>)
  {
    forall i, j :: 0 <= i < j < |order| ==> order[i].stem != order[j].stem
  }

  /** `t` holds the files of image `p`: under the folder of its stem, its own
      re-encoded image and exactly the label lines of its objects. */
  predicate Recorded(t: Tree, p: ImagePath, job: Job)
    requires p in job.shapes && ParseColor(job.color).Success?
  {
    Folder(p.stem, job.train, job.val).Some? &&
    var slot := Slot(Folder(p.stem, job.train, job.val).value, p.stem);
    slot in t.images && t.images[slot] == EncodedImage(p, ParseColor(job.color).value) &&
    slot in t.labels && t.labels[slot] == Emit(Load(job.files, p).objects, ClassToId, job.shapes[p], BoxSide).lines
  }

  /** An iteration without error records its own image and keeps the files of
      every image with another stem. */
  lemma StepRecords(tree: Tree, p: ImagePath, job: Job)
    requires p in job.shapes
    requires Step(tree, p, job).fault.None?
    ensures ParseColor(job.color).Success?
    ensures Recorded(Step(tree, p, job).tree, p, job)
    ensures forall q :: q in job.shapes && q.stem != p.stem && Recorded(tree, q, job) ==> Recorded(Step(tree, p, job).tree, q, job)
  {
  }

  /** Two images with the same stem (from two datasets, say) share one slot:
      after a run without error over both, the slot holds the later image and
      its label lines, and the earlier image's files are gone. */
  lemma SharedStemOverwritten(tree: Tree, p: ImagePath, q: ImagePath, job: Job)
    requires p in job.shapes && q in job.shapes && p.stem == q.stem
    requires Run(tree, [p, q], job).fault.None?
    ensures ParseColor(job.color).Success?
    ensures Recorded(Run(tree, [p, q], job).tree, q, job)
    ensures p != q ==> !Recorded(Run(tree, [p, q], job).tree, p, job)
  {
    var pq: seq<ImagePath> := [p, q];
    assert pq[..1] == [p] && [p][..0] == [];
    var before := Run(tree, [p], job);
    assert Run(tree, pq, job) == Step(before.tree, q, job);
    StepRecords(before.tree, q, job);
  }

  /** No later image of `order` has the stem of image `i`. */
  predicate LastOfStem(order: seq<ImagePath>, i: int)
    requires 0 <= i < |order|
  {
    forall j :: i < j < |order| ==> order[j].stem != order[i].stem
  }

  /** A run without error leaves, for each image that is the last of its
      stem, its own re-encoded image and exactly the label lines of its
      objects: the last image with a stem owns that stem's slot. */
  lemma {:induction false} RunRecordContents(tree: Tree, order: seq<ImagePath>, job: Job)
    requires Decodable(order, job.shapes)
    requires Run(tree, order, job).fault.None?
    ensures forall i :: 0 <= i < |order| && LastOfStem(order, i) ==>
              ParseColor(job.color).Success? && Recorded(Run(tree, order, job).tree, order[i], job)
    decreases |order|
  {
    if order != [] {
      var k := |order| - 1;
      var before := Run(tree, order[..k], job);
      RunRecordContents(tree, order[..k], job);
      StepRecords(before.tree, order[k], job);
      forall i | 0 <= i < |order| && LastOfStem(order, i)
        ensures ParseColor(job.color).Success? && Recorded(Run(tree, order, job).tree, order[i], job)
      {
        if i < k {
          assert forall j :: i < j < k ==> order[..k][j] == order[j];
          assert order[..k][i] == order[i] && LastOfStem(order[..k], i);
          assert order[k].stem != order[i].stem;
        }
      }
    }
  }

  /** When no two images share a stem, a run without error leaves for each image
      its own re-encoded image and exactly the label lines of its objects. */
  lemma RunRecordsDistinctStems(tree: Tree, order: seq<ImagePath>, job: Job)
    requires Decodable(order, job.shapes)
    requires DistinctStems(order)
    requires Run(tree, order, job).fault.None?
    ensures forall p :: p in order ==> ParseColor(job.color).Success? && Recorded(Run(tree, order, job).tree, p, job)
  {
    RunRecordContents(tree, order, job);
    forall p | p in order
      ensures ParseColor(job.color).Success? && Recorded(Run(tree, order, job).tree, p, job)
    {
      var i :| 0 <= i < |order| && order[i] == p;
      assert LastOfStem(order, i);
    }
  }

  /** The output directory of the run. */
  class YoloDataDir {
    var images: map<Slot, EncodedImage>
    var labels: map<Slot, seq<LabelLine>>

    function Contents(): Tree
      reads this
    {
      Tree(images, labels)
    }

    constructor ()
      ensures Contents() == EmptyTree
    {
      images, labels := map[], map[];
    }

    /** `shutil.rmtree`: the tree is rebuilt from nothing. */
    method Clear()
      modifies this
      ensures Contents() == EmptyTree
    {
      images, labels := map[], map[];
    }

    /** `convert_supervisely_to_yolo_image`: writes the image, then the label
        file, line by line. */
    method ConvertImage(slot: Slot, image: EncodedImage, shape: Shape, annotation: Annotation)
      returns (fault: Option<LabelError>)
      modifies this
      ensures images == old(images)[slot := image]
      ensures labels == old(labels)[slot := Emit(annotation.objects, ClassToId, shape, BoxSide).lines]
      ensures fault == Emit(annotation.objects, ClassToId, shape, BoxSide).fault
    {
      images := images[slot := image];
      var lines;
      lines, fault := WriteLabels(annotation.objects, ClassToId, shape, BoxSide);
      labels := labels[slot := lines];
    }

    /** One iteration of the driver loop. */
    method ConvertRecord(p: ImagePath, job: Job) returns (fault: Option<Error>)
      requires p in job.shapes && SidecarPath(p) in job.files
      modifies this
      ensures RunState(Contents(), fault) == Step(old(Contents()), p, job)
    {
      var mode := ParseColor(job.color);
      if mode.Failure? {
        return Some(mode.error);
      }
      var folder := Folder(p.stem, job.train, job.val);
      if folder.None? {
        return Some(FolderUnset(p.stem));
      }
      var annotation := job.files[SidecarPath(p)];
      var labelFault := ConvertImage(Slot(folder.value, p.stem), EncodedImage(p, mode.value), job.shapes[p], annotation);
      fault := if labelFault.Some? then Some(NoExterior(p.stem)) else None;
    }

    /** The driver loop, in the order of `order`, up to the first error. */
    method ConvertRecords(order: seq<ImagePath>, job: Job) returns (fault: Option<Error>)
      requires Decodable(order, job.shapes)
      requires forall p :: p in order ==> SidecarPath(p) in job.files
      modifies this
      ensures RunState(Contents(), fault) == Run(old(Contents()), order, job)
    {
      ghost var start := Contents();
      fault := None;
      var i := 0;
      while i < |order|
        invariant 0 <= i <= |order|
        invariant fault == None
        invariant Run(start, order[..i], job) == RunState(Contents(), None)
      {
        assert order[..i + 1][..i] == order[..i];
        assert order[..i + 1][i] == order[i];
        ghost var before := Contents();
        fault := ConvertRecord(order[i], job);
        assert Run(start, order[..i + 1], job) == Step(before, order[i], job);
        if fault.Some? {
          RunStopsAtFault(start, order, job, i + 1);
          return;
        }
        i := i + 1;
      }
      assert order[..i] == order;
    }

    /** `convert_supervisely_to_yolo`: filter the images, clear the output
        tree, take the split, check it, and convert every kept image. */
    method ConvertSuperviselyToYolo(store: SidecarStore, found: seq<ImagePath>, shapes: map<ImagePath, Shape>, color: string,
                                    reference: Option<(seq<Stem>, seq<Stem>)>, splitter: seq<Stem> -> (seq<Stem>, seq<Stem>))
      returns (result: Result<(FilePath, FilePath), Error>, ghost kept: seq<ImagePath>)
      requires Decodable(found, shapes)
      modifies this, store
      ensures store.files == Healed(old(store.files), found)
      ensures forall p :: p in kept <==> p in found && !Discarded(Load(old(store.files), p))
      ensures Distinct(kept)
      ensures var split := SplitOf(reference, splitter, Stems(kept));
              if split.Failure? then
                result == Failure(split.error) && Contents() == EmptyTree
              else
              var (train, val) := split.value;
              if !Covers(train, val, Stems(kept)) then
                result == Failure(SplitNotCovered) && Contents() == EmptyTree
              else
                var run := Run(EmptyTree, kept, Job(store.files, shapes, color, train, val));
                Contents() == run.tree &&
                result == if run.fault.Some? then Failure(run.fault.value) else Success((TrainImages, ValImages))
    {
      var paths := store.FilterImagePathList(found);
      kept := paths;
      HealedProperties(old(store.files), found);
      var stems := Stems(paths);
      Clear();
      var split := SplitOf(reference, splitter, stems);
      if split.Failure? {
        return Failure(split.error), kept;
      }
      var train, val := split.value.0, split.value.1;
      if !Covers(train, val, stems) {
        return Failure(SplitNotCovered), kept;
      }
      var fault := ConvertRecords(paths, Job(store.files, shapes, color, train, val));
      result := if fault.Some? then Failure(fault.value) else Success((TrainImages, ValImages));
    }
  }

  /** Once an iteration has failed, the run ends there. */
  lemma {:induction false} RunStopsAtFault(tree: Tree, order: seq<ImagePath>, job: Job, k: nat)
    requires k <= |order|
    requires Decodable(order, job.shapes)
    requires Run(tree, order[..k], job).fault.Some?
    ensures Run(tree, order, job) == Run(tree, order[..k], job)
    decreases |order| - k
  {
    if k < |order| {
      assert order[..k + 1][..k] == order[..k];
      RunStopsAtFault(tree, order, job, k + 1);
    } else {
      assert order[..k] == order;
    }
  }
}
