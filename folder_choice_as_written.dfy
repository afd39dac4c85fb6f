/** The folder choice of the driver loop as the source writes it: `folder` is
    assigned only when the stem is in one of the two lists, so a stem in
    neither reuses the folder of the previous image, or fails with a
    `NameError` on the first one. The rest of the model uses
    `Conversion.Folder`, which reports such a stem as an error. */
module FolderChoiceAsWritten {
  import opened Wrappers
  import opened Annotations
  import opened Conversion

  /** The assignment to `folder` in one iteration, given its previous value. */
  function FolderAsWritten(stem: Stem, train: seq<Stem>, val: seq<Stem>, previous: Option<Split>): Option<Split>
  {
    if stem in train then Some(Train)
    else if stem in val then Some(Val)
    else previous
  }

  /** The folders the loop uses for the stems in order, or the `NameError`
      raised when the first stem is in neither list; later stems in neither
      list reuse the folder before them and never fail. */
  function FoldersAsWritten(stems: seq<Stem>, train: seq<Stem>, val: seq<Stem>): (r: Result<seq<Split>, Error>)
    ensures r.Success? ==> |r.value| == |stems|
    ensures r.Failure? ==> r.error.FolderUnset? && r.error.stem in stems
    ensures r.Failure? ==> stems != [] && r.error == FolderUnset(stems[0]) && stems[0] !in train && stems[0] !in val
    decreases |stems|
  {
    if stems == [] then Success([])
    else
      var k := |stems| - 1;
      var before := FoldersAsWritten(stems[..k], train, val);
      if before.Failure? then before
      else
        var previous := if before.value == [] then None else Some(before.value[|before.value| - 1]);
        match FolderAsWritten(stems[k], train, val, previous)
        case None => Failure(FolderUnset(stems[k]))
        case Some(folder) => Success(before.value + [folder])
  }

  /** A reference tree that lacks a kept stem passes the split check, and the
      stem is then written to the folder of the image before it; in the other
      order the same inputs fail. The corrected choice gives no folder. */
  lemma StaleFolderReused()
    ensures Covers(["a"], [], ["a", "b"])
    ensures FoldersAsWritten(["a", "b"], ["a"], []) == Success([Train, Train])
    ensures FoldersAsWritten(["b", "a"], ["a"], []) == Failure(FolderUnset("b"))
    ensures Folder("b", ["a"], []) == None
  {
    var train: seq<Stem> := ["a"];
    var none: seq<Stem> := [];
    var ab: seq<Stem> := ["a", "b"];
    var ba: seq<Stem> := ["b", "a"];
    var a: seq<Stem> := ["a"];
    var b: seq<Stem> := ["b"];
    assert ab[..1] == a && ba[..1] == b && a[..0] == none && b[..0] == none;
    assert "b" !in train && a[0] in train;
    assert FoldersAsWritten(none, train, none) == Success([]);
    var first := FoldersAsWritten(a, train, none);
    assert first.Success? && first.value == [Train];
    var both := FoldersAsWritten(ab, train, none);
    assert both.Success? && both.value == [Train, Train];
    assert FoldersAsWritten(b, train, none) == Failure(FolderUnset("b"));
  }

  /** When every stem is in one of the lists, the loop as written uses exactly
      the folders `Conversion.Folder` chooses: the defect shows only for stems
      outside both lists. */
  lemma {:induction false} FoldersAgreeWhenCovered(stems: seq<Stem>, train: seq<Stem>, val: seq<Stem>)
    requires forall s :: s in stems ==> s in train || s in val
    ensures FoldersAsWritten(stems, train, val).Success?
    ensures |FoldersAsWritten(stems, train, val).value| == |stems|
    ensures forall i :: 0 <= i < |stems| ==>
              Some(FoldersAsWritten(stems, train, val).value[i]) == Folder(stems[i], train, val)
    decreases |stems|
  {
    if stems != [] {
      var k := |stems| - 1;
      assert forall s :: s in stems[..k] ==> s in stems;
      FoldersAgreeWhenCovered(stems[..k], train, val);
      assert stems[k] in stems;
    }
  }
}
