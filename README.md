# Skin-lesion model tooling, modelled in Dafny

This project models the Python tooling of the skin-lesion classifier
repository. The tooling prepares the ISIC image dataset, splits it into
training and validation sets, and repairs the TensorFlow.js `model.json`
that the browser loads. It models five parts:

- **Dataset organisation** (`dataset.py`). Each of the seven ISIC diagnosis
  abbreviations maps to a class directory under `isic_dataset`. For each
  ground-truth row, the first class with the strictly highest probability
  above 0 wins, and the row's image is copied into that class's directory.
  The per-class `.jpg` counts are reported in descending order.
- **Train/validation split** (`train_model.py`, `simplified-training-script.py`).
  Every class directory of `isic_dataset` except `train` and `val` gets its
  `.jpg` images shuffled and cut into a train prefix and a val suffix. Each
  image is linked into `train/<class>` or `val/<class>`, unless a file is
  already there. The split runs only while `train` or `val` is empty. The
  full script also counts images per class, reports them in descending
  order, and stops when there are no classes.
- **Label bookkeeping** (`train_model.py`). The `class_names` map inverts
  Keras's class-to-index map into index-string to class.
- **`save_model` JSON fix-ups** (`train_model.py`). These cover three
  documents:
  - the Keras description, which gets an InputLayer put in front when its
    first layer is not one;
  - the converter's output, where the weight paths are cut to their basenames
    and a missing InputLayer or `batch_input_shape` is added;
  - the fallback description built when the converter is missing.
- **Stand-alone repair scripts**:
  - `fix_model_json.py` repairs the layer list and the input shape;
  - `create_model_json.py` rebuilds a minimal `model.json` and keeps the
    existing manifest and layers;
  - `fix_weights_reference.py` points the first weights manifest at the
    shard files that exist.

JSON documents are values of the datatype `PyJson.Json`. Python's `in`,
`.get`, `[k]`, `[0]`, `len`, item assignment and truthiness each become a
function that returns `Result`. The `KeyError`, `IndexError`, `TypeError` and
`AttributeError` paths are therefore part of the model, and no `requires`
excludes them. A script that edits a loaded dict in place becomes a method
that returns the edited document. The file system is a value
`FileTree.Tree`, made of a set of directories and a map from file path to the
path the content came from. Directory listings and CSV rows are inputs.

Modules:

- `PyText`: path joining, `os.path.basename`, suffix filters and decimal
  strings.
- `PyJson`: the JSON values and Python's dict and list operations on them.
- `KerasLayers`: the literal layers and manifest the scripts write.
- `FixModelJson`, `CreateModelJson`, `FixWeightsReference`: one module per
  repair script.
- `FileTree`: the file-system value.
- `DatasetSplit`: the split steps shared by both training scripts.
- `CountReport`: the sorted count report.
- `TrainModel`, `SimplifiedTraining`, `Dataset`: the three data scripts.

## Model

| member | source | states |
|---|---|---|
| PyText.FilterSuffix | train_model.py:64 | a name is kept iff it is in the listing and ends with the suffix; nothing is added and a duplicate-free listing stays duplicate-free |
| PyText.FilterSuffixAppend | train_model.py:64 | filtering a concatenated listing is filtering each part and concatenating, so the kept names stay in listing order |
| PyText.Basename | train_model.py:348 | the basename holds no `/`, is a suffix of the path, and is preceded by `/` when shorter than the path |
| PyText.BasenameIdempotent | train_model.py:348 | taking the basename twice gives the basename |
| PyText.BasenameOfPlainName | train_model.py:348 | a name without `/` is its own basename |
| PyText.Decimal | train_model.py:160 | `str(v)` of a natural is a non-empty string of digits in canonical form: it starts with `0` iff the value is 0, and only `"0"` itself has a leading zero |
| PyText.DecimalRoundTrip | train_model.py:160 | parsing `str(v)` gives back `v` |
| PyText.DecimalInjective | train_model.py:160 | distinct indices give distinct strings |
| PyText.JoinInjective | train_model.py:84-92 | `os.path.join(d, a) == os.path.join(d, b)` only when `a == b`, so distinct images get distinct link paths |
| PyText.JoinDirInjective | dataset.py:128-131 | one name joined under two directories gives one path only when the directories are equal, so an image's source and target differ unless the class directory is the image directory |
| PyText.PathJoin | dataset.py:128-131 | `os.path.join` with a name that may be absolute: a leading `/` discards the directory |
| PyJson.JStrings | fix_weights_reference.py:33 | a list of strings becomes a JSON array of the same strings in order |
| PyJson.SetPathThenGet | fix_model_json.py:37-44 | after `d[a]...[z] = v` succeeds, `d` is still a dict with the same keys plus the first one, and reading the path gives `v` |
| PyJson.SetPathSame | fix_model_json.py:33-44 | writing back the non-empty value already at a path leaves the document unchanged |
| PyJson.EmptyObjectPathFalsy | fix_model_json.py:26-31 | the `.get(..., {})` chain on an empty dict yields a falsy value |
| FileTree.MakeDirs | train_model.py:33-35 | the file-system primitive `os.makedirs(d, exist_ok=True)`: `d` exists afterwards and the tree is only extended (`Extends`), which is the fact the split and dataset proofs use |
| FileTree.ChildMakesNonEmpty | train_model.py:431 | a directory holding an entry is not empty for `os.listdir` |
| FileTree.JoinInExistingDir | dataset.py:131-135 | a name joined under an existing directory lies in an existing directory, so opening it for writing does not raise FileNotFoundError |
| FixModelJson.Repaired | fix_model_json.py:20-82 | a run that does not raise was given a dict and yields a dict; a run that needs no fix leaves the loaded document unchanged |
| FixModelJson.FixModelJson | fix_model_json.py:12-106 | an unreadable file returns False; a raised error propagates; the file is written only when a fix was needed and saving works, and the result is True unless the save failed |
| FixModelJson.RepairAssignsOnlyLayerList | fix_model_json.py:33-82 | the repaired document is the loaded one with the layer list assigned at its path and nothing else changed |
| FixModelJson.LayerListReplaced | fix_model_json.py:63-82 | a changed non-empty list is stored at its path and the run reports a fix |
| FixModelJson.InsertsInputLayer | fix_model_json.py:47-70 | a first layer that is not an InputLayer gets `input_1` in front; the old layers follow in order; the old first layer is connected to `input_1` exactly when its inbound nodes were present but empty |
| FixModelJson.FillsInputShape | fix_model_json.py:72-82 | an InputLayer config without `batch_input_shape`, or with a null one, gets `[None, 224, 224, 3]` and `input_shape [224, 224, 3]`; every other entry and layer stays |
| FixModelJson.InputLayerKeptAsIs | fix_model_json.py:72-82 | an InputLayer without a config, or with a non-null shape, needs no fix and the document is unchanged |
| FixModelJson.EmptyLayersStayEmpty | fix_model_json.py:33-44 | an empty or missing layer list is reset to `[]` and reported as a fix, with nothing inserted |
| FixModelJson.EmptyLayersWithoutConfigRaise | fix_model_json.py:37-44 | for any document whose `modelTopology` dict (or, without one, the document itself) has no `config`, the empty-list reset raises KeyError |
| FixModelJson.InsertedLayerComplete | fix_model_json.py:52-62 | the inserted InputLayer already has a usable shape |
| FixModelJson.RepairedLayersSettled | fix_model_json.py:47-82 | a layer list the repair changed needs no further repair |
| FixModelJson.RepairedListSettled | fix_model_json.py:33-82 | after a run the layer list is `[]` or needs no further repair |
| FixModelJson.RepairIdempotent | fix_model_json.py:20-82 | a second repair changes nothing, and reports a fix only when the list is `[]` |
| CreateModelJson.ModelJson | create_model_json.py:5-35 | the built document carries the given manifest and the given layer list at `modelTopology.config.layers` |
| CreateModelJson.LayerListAssigned | create_model_json.py:52-54 | assigning a new layer list to the template gives the template with that list |
| CreateModelJson.CreateModelJson | create_model_json.py:38-72 | the written document is the template, with the copied manifest and `input_1` followed by the kept layers |
| CreateModelJson.CopiedManifest | create_model_json.py:42-43 | defines the manifest lookup: `None` without the key, the stored value with it, and the `in` check's TypeError on a non-container; `ManifestCopiedWhenPresent` states its use |
| CreateModelJson.ExistingLayers | create_model_json.py:46-57 | defines the layer lookup through `modelTopology.config.layers`, `[]` when a key is missing, with the errors of each step; `MergesExistingLayers`, `NoExistingLayersKeepsTemplateLayer` and `ManifestSurvivesLayerFailure` state its use |
| CreateModelJson.ManifestCopiedWhenPresent | create_model_json.py:42-43 | the existing `weightsManifest` is used exactly when the file is a dict holding one; otherwise the default one-shard manifest is used |
| CreateModelJson.MergesExistingLayers | create_model_json.py:46-54 | an existing InputLayer first is replaced by `input_1` and the rest follow; otherwise all existing layers follow `input_1` |
| CreateModelJson.NoExistingLayersKeepsTemplateLayer | create_model_json.py:46-54 | an empty existing layer list leaves only the template's `input_1` |
| CreateModelJson.ManifestSurvivesLayerFailure | create_model_json.py:46-57 | an error while reading the existing layers keeps the manifest already copied and adds no layer |
| CreateModelJson.UnusableFileGivesTemplate | create_model_json.py:38-60 | a missing, unreadable or non-container file gives the template unchanged |
| CreateModelJson.TemplateLiteralsKept | create_model_json.py:5-35 | the output has exactly the five top-level keys, the literal format strings, and `input_1` first |
| CreateModelJson.CreatedFileNeedsNoRepair | create_model_json.py:38-72 | the layer repair of `fix_model_json.py` finds nothing to fix in the created file |
| FixWeightsReference.Containing | fix_weights_reference.py:11-12 | a file is kept iff it is in the glob result and contains the pattern |
| FixWeightsReference.ContainingAppend | fix_weights_reference.py:11-12 | filtering a concatenated glob result is filtering each part and concatenating, so the kept files stay in glob order |
| FixWeightsReference.Rewritten | fix_weights_reference.py:23-33 | defines the rewrite: without `weightsManifest` nothing; otherwise `paths` of entry 0 becomes the shard names, with the KeyError, IndexError and TypeError paths of the indexing; its properties are `OnlyFirstPathsChange`, `NoManifestNothingWritten` and `RewriteIdempotent` |
| FixWeightsReference.ShardPattern | fix_weights_reference.py:11-15 | the three-shard naming is chosen iff some weight file contains `shard1of3` |
| FixWeightsReference.ShardNamesNumbered | fix_weights_reference.py:26-30 | the new paths are `group1-shard<i>of<n>.bin` for i = 1..n, with n the shard count of the pattern |
| FixWeightsReference.FixWeightsReference | fix_weights_reference.py:7-41 | the written document is the rewrite of the loaded one under the pattern the weight files show |
| FixWeightsReference.OnlyFirstPathsChange | fix_weights_reference.py:23-39 | a rewrite changes only `paths` of the first manifest entry; every other key and entry stays |
| FixWeightsReference.NoManifestNothingWritten | fix_weights_reference.py:23-41 | without `weightsManifest` nothing is written |
| FixWeightsReference.RewriteIdempotent | fix_weights_reference.py:23-39 | rewriting the rewritten document gives the same document |
| DatasetSplit.ClassDirs | train_model.py:44-46 | a listing entry is a class iff it is a directory not named `train` or `val`; unique names stay unique |
| DatasetSplit.ClassDirsAppend | train_model.py:44-46 | selecting from a concatenated listing is selecting from each part and concatenating, so classes stay in listing order |
| DatasetSplit.SplitImages | train_model.py:74-79 | the split is a permutation of the images cut into a train prefix and a val suffix |
| DatasetSplit.SplitPartitions | train_model.py:77-79 | train and val together hold exactly the images, with multiplicity; with distinct names they are disjoint |
| DatasetSplit.PlaceFiles | train_model.py:84-102 | each file gets a link in the destination; an existing destination is left alone; no directory is added and nothing is removed |
| DatasetSplit.SplitClass | train_model.py:56-102 | the class's count is its number of `.jpg` files; a class without images gets its two directories and no split; otherwise the tree places every image of the split |
| DatasetSplit.SplitsOfStep | train_model.py:54-102 | adding a class's split to the map keeps the invariant that every class with images has a valid split |
| DatasetSplit.SplitTreeStep | train_model.py:54-102 | adding one class's directories and links keeps the tree invariant for the classes so far |
| DatasetSplit.SplitLoopStep | train_model.py:54-102 | one loop iteration keeps both the split invariant and the tree invariant |
| DatasetSplit.InSplitDirs | train_model.py:59-60 | every class gets its `train` and `val` directory |
| DatasetSplit.SplitFillsParts | train_model.py:431 | after the split of at least one class, neither `train` nor `val` is empty |
| CountReport.ByCountDescendingSpec | train_model.py:106 | the report is descending by count, a permutation of the counts, and keeps classes with equal counts in their original order |
| CountReport.InsertByCountStable | train_model.py:106 | insertion puts a new entry after the earlier ones with the same count |
| CountReport.InsertByCountDescending | train_model.py:106 | insertion keeps the report descending |
| CountReport.InsertByCountMultiset | train_model.py:106 | insertion adds exactly the one entry |
| CountReport.ByCountDescending | train_model.py:106 | `sorted(counts, key=count, reverse=True)` as insertion sort; `ByCountDescendingSpec` states that it is descending, a permutation and stable |
| TrainModel.SplitClasses | train_model.py:54-102 | the counts hold each class's `.jpg` count in listing order; every class with images has a split; the tree has exactly the split's directories and links |
| TrainModel.SplitDataIntoTrainVal | train_model.py:37-109 | it succeeds iff there is a class directory; on failure the tree is untouched; otherwise the counts, splits and tree are as in `SplitClasses`, and the report is the stable descending order of the counts |
| TrainModel.PrepareSplit | train_model.py:429-437 | the split runs iff `train` or `val` is empty; without it the tree only gains the output directories; when it runs, the tree is a valid split of every class over those directories (`SplitsOf`, `SplitTree`); the script stops only when it ran and found no class, with the tree untouched; when it goes on after a split, neither part is empty |
| TrainModel.ClassNames | train_model.py:159-160 | every class maps through `str(index)` back to itself, and every key of the result is the string of some class's index |
| TrainModel.ClassNamesInverse | train_model.py:159-160 | a string is a key iff it is `str` of some class's index, and parsing the key gives that class's index |
| TrainModel.DecimalInjectiveAll | train_model.py:160 | distinct indices never collide as keys |
| TrainModel.KerasInputFix | train_model.py:304-321 | defines the Keras fix-up with the error of each lookup; `KerasFixInsertsOnlyBeforeNonInput` states what it does |
| TrainModel.KerasFixInsertsOnlyBeforeNonInput | train_model.py:304-321 | a first layer that is not an InputLayer gets `input_layer` put in front of the unchanged layers; otherwise the description is unchanged |
| TrainModel.BasenamedManifest | train_model.py:346-348 | defines the basename fix of the converted manifest entry by entry, without change when `weightsManifest` is absent; `BasenameManifestPaths`, `BasenamedEntriesPointwise` and `BasenamedManifestIdempotent` state its properties |
| TrainModel.BasenameManifestPaths | train_model.py:346-348 | the loop gives the same result as cutting every manifest entry's paths to basenames, including the first error |
| TrainModel.BasenamedEntriesPointwise | train_model.py:347-348 | the loop succeeds iff every entry succeeds, and then each entry is replaced by its own fix in place |
| TrainModel.BasenamedEntriesFailsAt | train_model.py:347-348 | the first failing entry's error is the loop's error |
| TrainModel.BasenamedEntryShape | train_model.py:348 | an entry with a list of string paths keeps its other keys and gets the basenames of its paths in order |
| TrainModel.BasenamedEntryIdempotent | train_model.py:348 | fixing an entry twice is fixing it once |
| TrainModel.Basenames | train_model.py:348 | `[os.path.basename(p) for p in manifest.get("paths", [])]`, on whatever value is stored: a list gives the basenames of its strings (TypeError on a non-string), a string iterates over its characters, an empty dict gives `[]`, and `None`, a bool or a number raises TypeError; `BasenamedEntryShape` states the list case |
| TrainModel.BasenamedEntriesIdempotent | train_model.py:347-348 | fixing all entries twice is fixing them once |
| TrainModel.BasenamedManifestIdempotent | train_model.py:346-348 | the whole basename fix is idempotent |
| TrainModel.ConvertedInputFix | train_model.py:352-375 | defines the converted-model fix: `None` when nothing needs fixing, the fixed document otherwise, with each lookup's error; the three `ConvertedFix` lemmas state its cases |
| TrainModel.ConvertedFixInsertsInputLayer | train_model.py:353-371 | a converted model whose first layer is not an InputLayer gets `input_layer` in front of the unchanged layers and is written; the written document is the loaded one with only that list replaced: same top-level keys, every key but `modelTopology` unchanged, and writing the old list back gives the loaded document |
| TrainModel.ConvertedFixAddsMissingShape | train_model.py:372-375 | an InputLayer config without `batch_input_shape` gets `[None, 224, 224, 3]`, without `input_shape`, and is written; the rest of the list and of the document is kept as in the row above |
| TrainModel.ConvertedFixKeepsInputLayer | train_model.py:372-379 | an InputLayer with a `batch_input_shape` key, even a null one, needs no fix and nothing is written |
| TrainModel.FallbackFix | train_model.py:392-421 | defines the fallback document: the template with the Keras layers, fixed in their first layer, with each lookup's error; the `Fallback` lemmas state its cases |
| TrainModel.FallbackOverwritesShape | train_model.py:405-408 | in the fallback, an InputLayer first always has its `batch_input_shape` overwritten; the rest of the list follows unchanged, the result is the template with only that list replaced, and its top level is exactly the five template keys with the literal strings and the default manifest |
| TrainModel.FallbackInsertsInputLayer | train_model.py:409-421 | in the fallback, a first layer that is not an InputLayer gets `input_layer` in front of the unchanged layers, with the same frame as the row above |
| TrainModel.FallbackFailsOnEmptyLayers | train_model.py:405-427 | in the fallback, an empty layer list raises IndexError |
| TrainModel.SaveOutcomeOf | train_model.py:298-427 | defines the outcome of `save_model` from the converter's result and the three fix-ups; `BasenameFixLostWithoutLayerFix` and `ConversionFailureKeepsKerasFile` state its cases |
| TrainModel.SaveModel | train_model.py:298-427 | the outcome of `save_model` is the one defined by the converter's result and the three fix-ups |
| TrainModel.BasenameFixLostWithoutLayerFix | train_model.py:346-379 | when the converted model needs no layer fix, the file on disk stays the converter's output, and the basename fix is never written |
| TrainModel.ConversionFailureKeepsKerasFile | train_model.py:381-384 | when conversion fails, the file on disk is the fixed Keras description |
| SimplifiedTraining.SplitDataIntoTrainVal | simplified-training-script.py:33-90 | every class with images has a valid split; the tree has exactly the split's directories and links |
| SimplifiedTraining.PrepareSplit | simplified-training-script.py:93-96 | the split runs iff `train` or `val` is empty; when it runs, the tree is a valid split of every class over the part directories (`SplitsOf`, `SplitTree`); with at least one class neither part is empty afterwards; otherwise the tree only gains `train` and `val` |
| SimplifiedTraining.NoClassesNoChange | simplified-training-script.py:40-44 | a split over no classes leaves the tree as it was |
| Dataset.Keys | dataset.py:121 | iterating the mapping yields its abbreviations in order |
| Dataset.ClassMappingDistinct | dataset.py:96-104 | the seven abbreviations and the seven class names are distinct, and each class directory is a child of `isic_dataset` |
| Dataset.EntrySets | dataset.py:106-111 | an abbreviation or directory is in the built sets iff some mapping entry gives it |
| Dataset.BuildClassDirs | dataset.py:106-111 | each abbreviation maps to `isic_dataset/<full name>`; those directories are created and no file changes |
| Dataset.Prob | dataset.py:122 | a missing CSV cell (`None`) fails like an unparsable one, since `float(None)` raises TypeError; a present cell is parsed |
| Dataset.ImageId | dataset.py:127-128 | a missing image cell formats as `None`, so its paths end in `None.jpg` |
| Dataset.AbsoluteIdSameFile | dataset.py:127-135 | an image id starting with `/` makes source and target the same path `<id>.jpg`, since `os.path.join` discards both directories |
| Dataset.PlainIdTarget | dataset.py:127-135 | an id without `/` lands directly inside its class directory; when that directory exists and is not the image directory, the target is another path in an existing directory |
| Dataset.BestFrom | dataset.py:121-124 | defines the running scan from column k with the best so far; `BestFromPicksFirstMax`, `BestFromRaises` and `BestFromNoRaise` state its properties |
| Dataset.BestClass | dataset.py:118-124 | defines the scan from the first column with no best and probability 0; `BestClassSpec` states what it picks |
| Dataset.SelectBestClass | dataset.py:118-124 | the loop picks what the best-class definition picks |
| Dataset.BestClassSpec | dataset.py:118-124 | parsing fails iff some present column does not parse; no class iff no score is above 0; otherwise the first column with the strictly highest score wins |
| Dataset.BestFromPicksFirstMax | dataset.py:121-124 | from any point of the loop, the first maximum above the running best wins |
| Dataset.FirstMaxExists | dataset.py:121-124 | either no score is above the floor or a first maximum exists |
| Dataset.BestFromRaises | dataset.py:122 | a present column that does not parse makes the row raise |
| Dataset.BestFromNoRaise | dataset.py:122 | a row that does not raise has every present column parsing |
| Dataset.ChosenIsKey | dataset.py:121-124 | a chosen class is one of the mapping's abbreviations |
| Dataset.OrganizeImages | dataset.py:114-135 | the row loop gives the same outcome as the row-by-row definition, including the first row that raises |
| Dataset.RowStep | dataset.py:126-135 | defines one row: no class or an empty one leaves the tree, a missing `image` column raises KeyError, a directory source raises, a missing source is skipped, a target equal to the source raises SameFileError, a target whose directory is missing raises FileNotFoundError, otherwise the copy; `RowStepEffect`, `RowStepCopies` and `RowStepCopyFails` state it |
| Dataset.RowStepEffect | dataset.py:126-135 | a row that does not raise keeps the directories and changes the tree only by copying its existing source image to the target of its chosen class, a different path in an existing directory |
| Dataset.RowStepCopies | dataset.py:126-135 | conversely, a row with a chosen non-empty class, an `image` column, a source that is a file and a target that is another path in an existing directory copies that file's content to the target |
| Dataset.RowStepCopyFails | dataset.py:126-135 | with a source file, a target equal to the source raises `SameFile`, and a target outside any existing directory (an id such as `a/b` without `a` in the class directory) raises `TargetDirMissing` |
| Dataset.OrganizeFrom | dataset.py:114-135 | defines the row loop from row i, stopping at the first row that raises; `OrganizeTouchesOnlyTargets` and `OrganizeCopiesChosen` state its effect |
| Dataset.OrganizeTouchesOnlyTargets | dataset.py:114-135 | organising adds no directory, loses no file, and changes only paths that some row copies to |
| Dataset.OrganizeCopiesChosen | dataset.py:114-135 | when no row raises, every row that chose a class and whose source image was a file at the start leaves a file at its class's target |
| Dataset.CopiedImageListed | dataset.py:137-142 | a copied image is counted in its class directory |
| Dataset.CountClasses | dataset.py:138-142 | each class's count is the number of `.jpg` entries, files or directories, directly in its directory, as `os.listdir` lists them |
| Dataset.ProcessDataset | dataset.py:96-146 | class directories are built, the rows are organised over the tree with them, and a report exists iff no row raised; then the counts are each class's `.jpg` count in mapping order and the report is their stable descending order (`ByCountDescending`), so it is descending, a permutation of the counts, and keeps mapping order among equal counts |

## Left out

- The browser-side guidance and risk heuristics are not part of this model. They are not in these scripts.
- Model construction, training, callbacks, `ImageDataGenerator` and `model.save` (`train_model.py:112-296`, `simplified-training-script.py:98-193`) are left out. They are calls into TensorFlow and floating-point training.
- The download, zip extraction and progress bars of `dataset.py` (lines 26-92) are left out. They are network and archive I/O.
- The `tensorflowjs_converter` subprocess is the input `TrainModel.Converter`: it produced an output document, failed, or was not found.
- `model.to_json()` is the input Keras description.
- JSON is modelled as values. Parsing and printing are left out. A file that cannot be opened or parsed is the input `None`.
- FixWeightsReference.FixWeightsReference: takes the already loaded document, so a missing or unparsable `model/model.json` (`fix_weights_reference.py:19-20`), which ends the script with an exception before any rewrite, is not modelled.
- The backups and the rename in `fix_model_json.py:86-93` and `create_model_json.py:62-68` are left out. The backup of `fix_model_json.py` holds the already modified document, which is an I/O detail.
- The `__main__` block of `fix_model_json.py` (lines 108-123) is left out. It only picks the file name and prints.
- Printing is left out. The count report is returned as the sequence the scripts print.
- `random.shuffle` and `int(n * (1 - VALIDATION_SPLIT))` are left out: the shuffle is any permutation and the split index is any `k` with `0 <= k <= n`. So the 15% and 20% shares are not modelled.
- `os.symlink` and its `shutil.copy2` fallback are left out. Both become a file entry that records its source.
- `shutil.copy2` onto a target that is a directory is not modelled.
- Paths are compared as strings. `//`, `.` and `..` inside an image id are not normalised, so the model looks for the target's directory under the literal text before the last `/`.
- `os.listdir` results and the CSV rows are inputs. Listing order is whatever the input gives.
- The effect of `makedirs` where a file of the same name already exists is not modelled.
- Python's `float()` is the input function `parse`. Its result is a float with positive and negative infinity and NaN, and comparison with NaN is false.
- A CSV row with missing trailing fields gets `None` cells, as `csv.DictReader` gives them. `float(None)` raises TypeError, which the model reports as the same `UnparsableProbability` crash as a ValueError. A `None` image id formats as `None`.
- Dict key order is not modelled, because documents use Dafny maps. Insertion order only affects how the output files print.
- Dataset.ProcessDataset: with two abbreviations sharing one full name, Python's `class_counts` dict keeps one entry for that name, while the model's report has one entry per mapping entry. The script's mapping has distinct full names (`Dataset.ClassMappingDistinct`), so this does not arise for it.
- `Dataset.ProcessDataset` is stated for any mapping with distinct abbreviations. `Dataset.CLASS_MAPPING` is the one the script uses, and `Dataset.ClassMappingDistinct` shows that it qualifies.
- `TrainModel.Basenames`: a non-empty dict under `paths` is modelled as a TypeError, whereas Python would iterate its keys. An empty dict gives `[]`, as in Python.
- `TrainModel.ClassNames`: requires the class indices to be distinct. Keras's `class_indices` always are, and with equal indices the dict comprehension keeps only the last class, which is not modelled.
- The `shard5_pattern` list of `fix_weights_reference.py` (line 12) is not modelled. It is computed but never used.
- The `VALIDATION_SPLIT`, `EPOCHS` and seed constants have no effect in the model.
