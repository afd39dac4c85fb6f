# Supervisely to YOLO conversion, modelled in Dafny

The script `make_nanovare_yolo_data.py` turns a downloaded Supervisely
localisation project (PNG images with JSON sidecar annotations in a sibling
`ann` directory) into a YOLO training tree: `images/{train,val}/<stem>.jpg`
and `labels/{train,val}/<stem>.txt`. This project models its three pieces of
logic once file I/O is abstracted away, and proves what they promise.

- `annotations.dfy` (module `Annotations`): the parsed annotation record
  (tags, size, objects with a class title and exterior points), the sidecar
  directory as a class `SidecarStore` whose file map the filter updates, and
  `filter_image_path_list`. A missing sidecar is replaced by a placeholder
  record, which is also written back. An image is discarded when a tag is
  named "To ignore" or when it has no objects. The result is the input set
  minus the discarded images. It comes back in an unspecified order, because
  the source builds it from a Python `set`.
- `labels.dfy` (module `Labels`): the label writer of
  `convert_supervisely_to_yolo_image`. Objects are walked in order. An object
  whose class is not in `ANNOTATION_CLASSES_TO_ID` is skipped. An object
  whose class maps to id 0 gives the 80-pixel square anchored at its first
  exterior point, normalised by the decoded image's shape (not by the
  record's `size`). Records are modelled, not text. Normalisation is exact
  `real` division.
- `conversion.dfy` (module `Conversion`): the driver
  `convert_supervisely_to_yolo`. It covers the split check, the colour
  dispatch, the train/val folder choice (train wins when a stem is in both
  lists) and the output tree. The tree is a class `YoloDataDir` whose image
  and label maps the driver clears and fills. `Run` is the specification of
  the driver loop, and the lemmas about it state what a run leaves behind.
- `folder_choice_as_written.dfy` (module `FolderChoiceAsWritten`): the folder choice as
  the source writes it, with a counterexample (see Findings).
- `wrappers.dfy`: `Option` and `Result`.

Inputs that come from outside the script are parameters:
- the sidecar files;
- the shape of each decoded image;
- the colour name;
- the train and val stem lists, taken either from a reference tree or from a
  splitter function applied to the kept stems.

## Model

| member | source | states |
|---|---|---|
| `Annotations.SidecarPath` | make_nanovare_yolo_data.py:48 | an image's sidecar is in the `ann` directory beside the image's directory, named after the image file with `.json` added: `<dataset>/ann/<stem>.png.json` |
| `Annotations.DefaultAnnotation` | make_nanovare_yolo_data.py:50-58 | the placeholder record: empty description, no tags, height 1200 and width 1920, no objects |
| `Annotations.IsDiscarded` | make_nanovare_yolo_data.py:63-71 | the tag scan that breaks at the first "To ignore", followed by the empty-objects test, decides discard exactly when some tag is named "To ignore" or the object list is empty |
| `Annotations.Discarded` | make_nanovare_yolo_data.py:63-71 | the discard rule: some tag is named "To ignore", or the object list is empty |
| `Annotations.Load` | make_nanovare_yolo_data.py:48-61 | the record an image is judged by: its sidecar, or the 1920×1200 placeholder with no tags and no objects when there is none |
| `Annotations.Healed` | make_nanovare_yolo_data.py:48-59 | the sidecar files after the filter: for each image in order, a placeholder is added when its sidecar path is missing, and existing sidecars are left alone |
| `Annotations.HealedKeys` | make_nanovare_yolo_data.py:48-59 | after the filter, the sidecar paths are those there were plus one for every image |
| `Annotations.HealedValues` | make_nanovare_yolo_data.py:48-59 | after the filter, an existing sidecar is unchanged and a new one is the placeholder |
| `Annotations.HealedProperties` | make_nanovare_yolo_data.py:48-61 | writing placeholders adds exactly the sidecars the images lacked, keeps every existing sidecar unchanged, and does not change the record any image is judged by |
| `Annotations.MissingSidecarDiscarded` | make_nanovare_yolo_data.py:49-59 | an image without a sidecar is judged by the placeholder (no tags, 1920×1200, no objects) and is therefore always discarded |
| `Annotations.SetToSeq` | make_nanovare_yolo_data.py:75 | `list(set)`: the list holds exactly the set's elements, each once, in an order left open |
| `Annotations.SidecarStore.FilterImagePathList` | make_nanovare_yolo_data.py:44-75 | the new sidecar map is the old one plus placeholders for the missing sidecars; a path is kept iff it was in the input and is not discarded; no path is kept twice |
| `Labels.Box` | make_nanovare_yolo_data.py:139-145 | the box keeps the class id; multiplying the normalised x and width by the image width (y and height by the image height) gives back the anchor coordinates and the side `w` |
| `Labels.LineFor` | make_nanovare_yolo_data.py:136-145 | the lines of one object: the box at its first exterior point when its class maps to id 0, nothing otherwise |
| `Labels.LineForAtMostOne` | make_nanovare_yolo_data.py:136-145 | one object contributes at most one line, and only with class id 0 |
| `Labels.Emit` | make_nanovare_yolo_data.py:134-145 | the label file after the object loop: objects in order, unmapped ones skipped, a line added for each id-0 object, and a stop on a mapped object without exterior points, with the earlier lines kept |
| `Labels.WriteLabels` | make_nanovare_yolo_data.py:134-145 | the per-object loop writes exactly the lines of `Emit` and stops with an error exactly where `Emit` does |
| `Labels.FaultPersists` | make_nanovare_yolo_data.py:139-140 | after the writer has failed on an object, the objects that follow add no line |
| `Labels.EmitFaultIff` | make_nanovare_yolo_data.py:136-140 | the writer finishes without error iff every object of a mapped class has an exterior point; unmapped objects never cause an error |
| `Labels.EmitStopsAtFirstFault` | make_nanovare_yolo_data.py:134-140 | at the first mapped object without exterior points the writer stops; the file keeps exactly the lines of the objects before it |
| `Labels.EmitConcat` | make_nanovare_yolo_data.py:135-145 | walking two runs of objects one after the other writes the first run's lines followed by the second's, so lines keep the object order |
| `Labels.UnmappedObjectSkipped` | make_nanovare_yolo_data.py:136-137 | inserting an object of an unmapped class anywhere changes neither the lines nor the error outcome |
| `Labels.EmitMatchesWritten` | make_nanovare_yolo_data.py:135-145 | when every mapped object is anchored, the file holds, in object order, one box line per object whose class maps to id 0 and nothing for any other object |
| `Labels.WrittenOnlyClassZero` | make_nanovare_yolo_data.py:143-145 | every line written has class id 0, and there are at most as many lines as objects |
| `Labels.SpermOnly` | make_nanovare_yolo_data.py:13 | with the source's class table, an object gives a line iff its class title is "sperm" |
| `Labels.BoxExample` | make_nanovare_yolo_data.py:139-145 | a worked example: anchor (100, 200) in a 1920×1200 image with side 80 gives (5/96, 1/6, 1/24, 1/15), which rounds to `0 0.052083 0.166667 0.041667 0.066667` |
| `Conversion.ParseColor` | make_nanovare_yolo_data.py:104-111 | only "bgr", "green" and "gray" select a mode, and each selects the mode of that name; any other name is the `WrongColor` error |
| `Conversion.ColorRoundTrip` | make_nanovare_yolo_data.py:104-111 | each mode's name parses back to that mode |
| `Conversion.Stems` | make_nanovare_yolo_data.py:83 | the stem list has one entry per kept path, the stem of that path, in the same order |
| `Conversion.SplitOf` | make_nanovare_yolo_data.py:88-95 | the reference tree's lists when there is one; otherwise the splitter's result, which is the `SplitFailed` error exactly when fewer than two stems are kept (no stem would be left for training) |
| `Conversion.Covers` | make_nanovare_yolo_data.py:97 | the split check: every stem of the val and train lists is a kept stem |
| `Conversion.FolderName` | make_nanovare_yolo_data.py:112-115 | the folder names: `train` for the train split, `val` for the val split |
| `Conversion.Folder` | make_nanovare_yolo_data.py:112-115 | train iff the stem is in the train list (also when it is in the val list); val iff it is in the val list only; no folder iff it is in neither list |
| `Conversion.ImageFile` | make_nanovare_yolo_data.py:116-117 | an image's output is `images/<folder>/<stem>.jpg` |
| `Conversion.LabelFile` | make_nanovare_yolo_data.py:116-117 | an image's label file is `labels/<folder>/<stem>.txt` |
| `Conversion.SlotFilesInjective` | make_nanovare_yolo_data.py:116-117 | the image path and the label path each determine the folder and the stem; two images share an output file only if they share folder and stem |
| `Conversion.Step` | make_nanovare_yolo_data.py:104-126 | one iteration: the colour is parsed, then the folder is chosen, then the image is written and the label file gets the writer's lines; an image failure is reported under its stem |
| `Conversion.StepOnlyAdds` | make_nanovare_yolo_data.py:104-126 | one iteration adds files and removes none; an unknown colour or a missing folder leaves the tree unchanged; the tree changes only when the stem has a folder |
| `Conversion.StepSucceedsIff` | make_nanovare_yolo_data.py:104-145 | one iteration ends without error iff the colour is known, the stem has a folder and every converted object has an exterior point |
| `Conversion.StepRecords` | make_nanovare_yolo_data.py:116-145 | an iteration without error leaves its own image and label lines under the folder of its stem and keeps the files of every other stem |
| `Conversion.Run` | make_nanovare_yolo_data.py:102-126 | the loop runs `Step` over the images in order and stops at the first error |
| `Conversion.RunOnlyAdds` | make_nanovare_yolo_data.py:102-126 | a run never removes an image or a label file |
| `Conversion.RunKeepsPairs` | make_nanovare_yolo_data.py:116-134 | every image file written has a label file with the same folder and stem, and the reverse |
| `Conversion.RunWrongColor` | make_nanovare_yolo_data.py:102-111 | an unknown colour stops the run at its first image before anything is written; with no image, no error is raised |
| `Conversion.RunRoutesToFolder` | make_nanovare_yolo_data.py:102-117 | every image written comes from the kept list and sits under the folder chosen for its stem, with that stem as its name |
| `Conversion.RunSucceedsIff` | make_nanovare_yolo_data.py:102-145 | a run ends without error iff there is nothing to convert, or the colour is known and every image has a folder and anchored objects |
| `Conversion.RunWritesEveryImage` | make_nanovare_yolo_data.py:102-126 | after a run without error, every kept image has its image and its label file under the folder of its stem |
| `Conversion.SharedStemOverwritten` | make_nanovare_yolo_data.py:116-126 | two kept images with the same stem share one slot; after a clean run over both, the slot holds the later image and its label lines, and the earlier image's files are gone |
| `Conversion.RunRecordContents` | make_nanovare_yolo_data.py:116-145 | after a run without error, the image that is the last of its stem owns that stem's slot: the slot holds its own re-encoded image and exactly the label lines of its objects; images with a shared stem are thus overwritten by the later one |
| `Conversion.RunRecordsDistinctStems` | make_nanovare_yolo_data.py:116-145 | when stems are distinct, a run without error leaves for each image its own re-encoded image and exactly the label lines of its own objects |
| `Conversion.RunStopsAtFault` | make_nanovare_yolo_data.py:102-126 | once one image has failed, the images after it are not converted |
| `Conversion.YoloDataDir.Clear` | make_nanovare_yolo_data.py:85-86 | removing the output tree leaves no image and no label file |
| `Conversion.YoloDataDir.ConvertImage` | make_nanovare_yolo_data.py:131-145 | the image is written at the slot first, then the label file gets the writer's lines (those written before an error, if one occurs) |
| `Conversion.YoloDataDir.ConvertRecord` | make_nanovare_yolo_data.py:104-126 | one loop iteration changes the tree and reports an error exactly as `Step` does |
| `Conversion.YoloDataDir.ConvertRecords` | make_nanovare_yolo_data.py:102-126 | the loop over the kept images leaves the tree and the error that `Run` gives |
| `Conversion.YoloDataDir.ConvertSuperviselyToYolo` | make_nanovare_yolo_data.py:78-128 | sidecars are healed and the images filtered; the tree is cleared; without a reference tree, fewer than two kept stems fail with `SplitFailed` and an empty tree; a split naming an unkept stem fails the assertion with an empty tree; otherwise the tree and outcome are those of `Run` over the kept images, returning the train and val image directories |
| `FolderChoiceAsWritten.FolderAsWritten` | make_nanovare_yolo_data.py:112-115 | one iteration's assignment as written: train for a stem in the train list, else val for a stem in the val list, else the folder of the previous iteration, if there was one |
| `FolderChoiceAsWritten.StaleFolderReused` | make_nanovare_yolo_data.py:97-115 | a split missing a kept stem passes the check; as written, the stem goes to the previous image's folder, or fails when it comes first |
| `FolderChoiceAsWritten.FoldersAsWritten` | make_nanovare_yolo_data.py:112-115 | the folders the source's loop uses, in order: one per stem; the loop fails (the `NameError`) only when the first stem is in neither list, and then with that stem |
| `FolderChoiceAsWritten.FoldersAgreeWhenCovered` | make_nanovare_yolo_data.py:112-115 | when every stem is in one of the lists, the loop as written uses exactly the folders `Conversion.Folder` chooses |

## Left out
- Supervisely API download, merge and project-directory lookup, including the API token read from the environment (lines 16-41): network calls into a foreign client.
- Image decode and encode with cv2, and the channel extraction (lines 105-109, 132): pixel buffers belong to a foreign library. A written image records only its source and colour mode. The decoded image's shape is an input, and decoding is assumed to succeed (`Decodable`), with a shape of at least one row and one column.
- JSON parsing and writing, `glob`, `rmtree`, `mkdir` and file opening (lines 59-61, 79, 85-86, 99-100, 118-119, 123-124): records arrive already parsed; the sidecar directory and the output tree are maps. A malformed sidecar is not modelled. An exterior point always has two coordinates.
- `sklearn.model_selection.train_test_split` (lines 92-95): the splitter is a function parameter, and the reference tree's stems are an input. Only its refusal of fewer than two stems is modelled, as `SplitFailed`. Its seed, ratio and reproducibility are not modelled, and neither is a partition of the kept stems.
- The reference tree is globbed (lines 89-90) after the output tree has been removed (lines 85-86). A `copy_dir` at or inside `yolo_data_dir` would therefore read as empty lists. The model takes the reference lists as an input read beforehand, so it does not capture that case.
- With an empty reference tree and no kept image, the source converts nothing and returns normally, and so does the model. A reference tree that lists any stem fails the split check when nothing is kept (`SplitNotCovered`). Only the splitter fails for having too few stems.
- The `:.6f` formatting of label values (line 145): values are exact reals. Only the worked example's rounding is stated.
- The progress bar and the printed summary (lines 82, 102): user interface only.
- The `yolo_data_dir` root and its `resolve()` (line 98): the tree is modelled relative to the root. The second `rmtree` (lines 99-100) finds the tree already empty.
- `Conversion.YoloDataDir.ConvertRecord`: the annotation is read from the sidecar map that the filter healed. After the filter, every kept image has a sidecar, so the source's file-not-found case cannot occur.

## Findings

| source | as written | input that shows it | evidently intended | confidence | as-written member | corrected member |
|---|---|---|---|---|---|---|
| make_nanovare_yolo_data.py:97-115 | the split check only asks that train ∪ val be a subset of the kept stems. `folder` is assigned only for stems in one of the lists. A kept stem in neither list reuses the previous iteration's folder, or raises `NameError` when it comes first | reference tree with train = {a}, val = {}; kept stems a, b; loop order a, b: b is written to `train`. In order b, a the same inputs fail | a kept stem that is in neither list is rejected, whatever the loop order | not executed; high | `FolderChoiceAsWritten.StaleFolderReused` | `Conversion.RunSucceedsIff` |

The model's driver uses the corrected choice. A kept stem outside both lists
stops the run with `FolderUnset`. `FolderChoiceAsWritten.FoldersAgreeWhenCovered` shows
that the two choices agree whenever every kept stem is in a list. That always
holds with the splitter, which places every kept stem in a list, so the
defect shows only with a reference tree.
