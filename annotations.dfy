/** Supervisely annotation records, already parsed from their JSON sidecars,
    and the filter that decides which images of a downloaded project go on
    to conversion (`filter_image_path_list`). */
module Annotations {

  /** A file name without its extension: the identity of an image. */
  type Stem = string

  /** A path, as its components. */
  type FilePath = seq<string>

  /** A `*.png` image found under the project directory:
      `<dataset>/<folder>/<stem>.png`. */
  datatype ImagePath = ImagePath(dataset: FilePath, folder: string, stem: Stem)

  /** The sidecar of an image sits in the `ann` directory next to the image's
      directory and is named after the image file: `<dataset>/ann/<stem>.png.json`. */
  function SidecarPath(p: ImagePath): FilePath
  {
    p.dataset + ["ann", p.stem + ".png.json"]
  }

  datatype Tag = Tag(name: string)

  datatype Point = Point(x: int, y: int)

  /** An annotated object: its class and the points of its exterior polygon. */
  datatype Object = Object(classTitle: string, exterior: seq<Point>)

  datatype Size = Size(height: int, width: int)

  datatype Annotation = Annotation(description: string, tags: seq<Tag>, size: Size, objects: seq<Object>)

  /** The tag that excludes an image from the dataset. */
  const IgnoreTag: string := "To ignore"

  /** The placeholder written for an image that has no sidecar yet:
      no description, no tags, 1920 pixels wide and 1200 high, no objects. */
  function DefaultAnnotation(): Annotation
  {
    Annotation("", [], Size(1200, 1920), [])
  }

  /** An image is left out when it carries the "To ignore" tag, or when it has
      no objects yet (it has not been annotated). */
  predicate Discarded(a: Annotation)
  {
    (exists t :: t in a.tags && t.name == IgnoreTag) || a.objects == []
  }

  /** The discard decision as the source takes it: a scan of the tags that stops
      at the first "To ignore", then the test for an empty object list. */
  method IsDiscarded(a: Annotation) returns (discard: bool)
    ensures discard <==> Discarded(a)
  {
    discard := false;
    var i := 0;
    while i < |a.tags|
      invariant 0 <= i <= |a.tags|
      invariant forall j :: 0 <= j < i ==> a.tags[j].name != IgnoreTag
    {
      if a.tags[i].name == IgnoreTag {
        assert a.tags[i] in a.tags;
        discard := true;
        break;
      }
      i := i + 1;
    }
    if |a.objects| == 0 {
      discard := true;
    }
  }

  /** The annotation an image is judged by: its sidecar, or the placeholder
      when there is none. */
  function Load(files: map<FilePath, Annotation>, p: ImagePath): Annotation
  {
    if SidecarPath(p) in files then files[SidecarPath(p)] else DefaultAnnotation()
  }

  /** The sidecar files after the filter has written a placeholder for every
      image of `paths` that had none, in the order of `paths`. */
  function Healed(files: map<FilePath, Annotation>, paths: seq<ImagePath>): map<FilePath, Annotation>
    decreases |paths|
  {
    if paths == [] then files
    else
      var before := Healed(files, paths[..|paths| - 1]);
      var q := SidecarPath(paths[|paths| - 1]);
      if q in before then before else before[q := DefaultAnnotation()]
  }

  /** The sidecar paths after the filter: those there were, and one for
      every image of `paths`. */
  lemma {:induction false} HealedKeys(files: map<FilePath, Annotation>, paths: seq<ImagePath>)
    ensures Healed(files, paths).Keys == files.Keys + (set p | p in paths :: SidecarPath(p))
    decreases |paths|
  {
    if paths != [] {
      var k := |paths| - 1;
      HealedKeys(files, paths[..k]);
      assert paths == paths[..k] + [paths[k]];
      assert (set p | p in paths :: SidecarPath(p))
          == (set p | p in paths[..k] :: SidecarPath(p)) + {SidecarPath(paths[k])};
    }
  }

  /** The sidecars after the filter: an existing one is unchanged, a new one is
      the placeholder. */
  lemma {:induction false} HealedValues(files: map<FilePath, Annotation>, paths: seq<ImagePath>)
    ensures forall q :: q in Healed(files, paths) ==>
              Healed(files, paths)[q] == if q in files then files[q] else DefaultAnnotation()
    decreases |paths|
  {
    if paths != [] {
      HealedValues(files, paths[..|paths| - 1]);
      HealedKeys(files, paths[..|paths| - 1]);
    }
  }

  /** Writing the placeholders adds exactly the missing sidecars, keeps every
      existing one, and does not change what any image is judged by. */
  lemma {:induction false} HealedProperties(files: map<FilePath, Annotation>, paths: seq<ImagePath>)
    ensures Healed(files, paths).Keys == files.Keys + (set p | p in paths :: SidecarPath(p))
    ensures forall q :: q in files ==> Healed(files, paths)[q] == files[q]
    ensures forall p :: Load(Healed(files, paths), p) == Load(files, p)
  {
    HealedKeys(files, paths);
    HealedValues(files, paths);
  }

  /** An image without a sidecar is judged by the placeholder, which has no
      objects, so the image is always left out. */
  lemma MissingSidecarDiscarded(files: map<FilePath, Annotation>, p: ImagePath)
    requires SidecarPath(p) !in files
    ensures Load(files, p) == DefaultAnnotation()
    ensures Discarded(Load(files, p))
  {
  }

  function Elements(s: seq<ImagePath>): set<ImagePath>
  {
    set p | p in s
  }

  predicate Distinct(s: seq<ImagePath>)
  {
    forall i, j :: 0 <= i < j < |s| ==> s[i] != s[j]
  }

  /** `list(set)`: the elements of a set in an order the model leaves open. */
  method SetToSeq(s: set<ImagePath>) returns (xs: seq<ImagePath>)
    ensures forall p :: p in xs <==> p in s
    ensures Distinct(xs)
  {
    xs := [];
    var rest := s;
    while rest != {}
      invariant rest <= s
      invariant forall p :: p in xs <==> p in s && p !in rest
      invariant Distinct(xs)
      decreases rest
    {
      var p :| p in rest;
      xs := xs + [p];
      rest := rest - {p};
    }
  }

  /** The `ann` directories of the downloaded project: sidecar documents by path. */
  class SidecarStore {
    var files: map<FilePath, Annotation>

    constructor (files: map<FilePath, Annotation>)
      ensures this.files == files
    {
      this.files := files;
    }

    /** Writes a placeholder sidecar for each image that lacks one, collects the
        images to discard, and returns the others, each once and in no
        particular order. */
    method FilterImagePathList(paths: seq<ImagePath>) returns (kept: seq<ImagePath>)
      modifies this
      ensures files == Healed(old(files), paths)
      ensures forall p :: p in kept <==> p in paths && !Discarded(Load(old(files), p))
      ensures Distinct(kept)
    {
      ghost var files0 := files;
      var discarded: seq<ImagePath> := [];
      var i := 0;
      while i < |paths|
        invariant 0 <= i <= |paths|
        invariant files == Healed(files0, paths[..i])
        invariant forall p :: p in discarded <==> p in paths[..i] && Discarded(Load(files0, p))
      {
        var p := paths[i];
        var q := SidecarPath(p);
        assert paths[..i + 1][..i] == paths[..i];
        if q !in files {
          files := files[q := DefaultAnnotation()];
        }
        HealedProperties(files0, paths[..i + 1]);
        assert Load(files, p) == files[q];
        var discard := IsDiscarded(files[q]);
        if discard {
          discarded := discarded + [p];
        }
        assert paths[..i + 1] == paths[..i] + [p];
        i := i + 1;
      }
      assert paths[..i] == paths;
      kept := SetToSeq(Elements(paths) - Elements(discarded));
    }
  }
}
