/**
 * The data preparation of `simplified-training-script.py`: the same split
 * of `isic_dataset` into `train` and `val` as the full training script,
 * with a 20% validation share, no per-class counts, no report and no
 * failure result when there is no class directory; it runs only when a
 * part is empty.
 */
module SimplifiedTraining {
  import opened PyText
  import opened FileTree
  import opened DatasetSplit

  /**
   * `split_data_into_train_val()`: every class directory in listing order
   * gets its train and val directories, and its `.jpg` images, shuffled,
   * are split and placed; a class without images only gets the directories.
   */
  method SplitDataIntoTrainVal(entries: seq<Entry>, tree: Tree) returns (splits: map<string, ClassSplit>, tree': Tree)
    requires IsListing(entries)
    ensures SplitsOf(ClassDirs(entries), splits)
    ensures SplitTree(tree, tree', ClassDirs(entries), splits)
  {
    var classes := ClassDirs(entries);
    splits := map[];
    tree' := tree;
    for i := 0 to |classes|
      invariant SplitsOf(classes[..i], splits) && SplitTree(tree, tree', classes[..i], splits)
    {
      var t := tree';
      var count, split;
      tree', count, split := SplitClass(tree', classes[i].name, classes[i].listing);
      SplitLoopStep(tree, t, tree', classes, i, splits, split);
      if split.Some? {
        splits := splits[classes[i].name := split.value];
      }
    }
    assert classes[..|classes|] == classes;
  }

  /** The tree after the module-level `os.makedirs` of `train` and `val`. */
  function WithPartDirs(tree: Tree): Tree
  {
    MakeDirs(MakeDirs(MakeDirs(tree, DATASET_DIR), PartDir(Train)), PartDir(Val))
  }

  /**
   * The module-level guard: the split runs only when `train` or `val` is
   * empty, and the script carries on whatever the split found. When it
   * runs and finds a class, neither part is empty afterwards; when it finds
   * none, the tree stays as it was.
   */
  method PrepareSplit(entries: seq<Entry>, tree: Tree) returns (ran: bool, tree': Tree)
    requires IsListing(entries)
    ensures var t := WithPartDirs(tree);
      ran == (IsEmptyDir(t, PartDir(Train)) || IsEmptyDir(t, PartDir(Val)))
    ensures !ran || ClassDirs(entries) == [] ==> tree' == WithPartDirs(tree)
    ensures ran ==> exists splits :: SplitsOf(ClassDirs(entries), splits)
                                   && SplitTree(WithPartDirs(tree), tree', ClassDirs(entries), splits)
    ensures ran && ClassDirs(entries) != [] ==> !IsEmptyDir(tree', PartDir(Train)) && !IsEmptyDir(tree', PartDir(Val))
  {
    var t := WithPartDirs(tree);
    ran := IsEmptyDir(t, PartDir(Train)) || IsEmptyDir(t, PartDir(Val));
    tree' := t;
    if ran {
      var splits;
      splits, tree' := SplitDataIntoTrainVal(entries, t);
      var classes := ClassDirs(entries);
      if classes != [] {
        SplitFillsParts(tree', classes);
      } else {
        NoClassesNoChange(t, tree', splits);
      }
    }
  }

  /** Splitting no classes adds nothing to the tree. */
  lemma NoClassesNoChange(t: Tree, t': Tree, splits: map<string, ClassSplit>)
    requires SplitsOf([], splits) && SplitTree(t, t', [], splits)
    ensures t' == t
  {
    assert splits == map[];
    assert t'.files.Keys == t.files.Keys;
    assert t'.files == t.files;
  }
}
