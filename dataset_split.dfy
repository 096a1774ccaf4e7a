/**
 * The train/validation split shared by both training scripts: every
 * subdirectory of `isic_dataset` other than `train` and `val` is a class;
 * its `.jpg` names are shuffled and cut in two, and each image gets a link
 * (or a copy) under `isic_dataset/train/<class>` or `isic_dataset/val/<class>`
 * unless something already exists at that place.
 *
 * `random.shuffle` is any permutation and the cut `int(n * (1 - VALIDATION_SPLIT))`
 * is any index from 0 to n: the model keeps both arbitrary.
 */
module DatasetSplit {
  import opened PyText
  import opened PyJson
  import opened FileTree

  const DATASET_DIR := "isic_dataset"

  datatype Part = Train | Val

  /** `TRAIN_DIR` or `VAL_DIR`. */
  function PartDir(part: Part): string
  {
    Join(DATASET_DIR, if part == Train then "train" else "val")
  }

  /** `train_class_dir` or `val_class_dir` of a class. */
  function SplitDir(part: Part, c: string): string
  {
    Join(PartDir(part), c)
  }

  /** Where the image `f` of class `c` goes in a part. */
  function Dest(part: Part, c: string, f: string): string
  {
    Join(SplitDir(part, c), f)
  }

  /** Where the image `f` of class `c` comes from. */
  function Source(c: string, f: string): string
  {
    Join(Join(DATASET_DIR, c), f)
  }

  /** One entry of `os.listdir(DATASET_DIR)`; a directory comes with its own listing. */
  datatype Entry = File(name: string) | Dir(name: string, listing: seq<string>)

  predicate UniqueNames(es: seq<Entry>)
  {
    forall i, j :: 0 <= i < j < |es| ==> es[i].name != es[j].name
  }

  /** What `os.listdir` can return: distinct proper names, in every directory. */
  predicate IsListing(es: seq<Entry>)
  {
    && UniqueNames(es)
    && (forall e :: e in es ==> IsName(e.name))
    && (forall e :: e in es && e.Dir? ==> NoDuplicates(e.listing) && forall n :: n in e.listing ==> IsName(n))
  }

  /** `[d for d in os.listdir(DATASET_DIR) if isdir(d) and d not in ['train', 'val']]`. */
  function ClassDirs(es: seq<Entry>): (r: seq<Entry>)
    ensures forall e :: e in r <==> e in es && e.Dir? && e.name != "train" && e.name != "val"
    ensures UniqueNames(es) ==> UniqueNames(r)
  {
    if es == [] then []
    else
      var rest := ClassDirs(es[1..]);
      assert es == [es[0]] + es[1..];
      if es[0].Dir? && es[0].name != "train" && es[0].name != "val" then
        assert UniqueNames(es) ==> forall e :: e in rest ==> e.name != es[0].name;
        [es[0]] + rest
      else rest
  }

  /** The class directories keep the listing's order: a listing in two parts gives the classes of each, in turn. */
  lemma {:induction false} ClassDirsAppend(a: seq<Entry>, b: seq<Entry>)
    ensures ClassDirs(a + b) == ClassDirs(a) + ClassDirs(b)
    decreases |a|
  {
    if a != [] {
      assert (a + b)[1..] == a[1..] + b;
      ClassDirsAppend(a[1..], b);
    } else {
      assert a + b == b;
    }
  }

  predicate IsPermutation(s: seq<string>, t: seq<string>)
  {
    multiset(s) == multiset(t)
  }

  /** One class's images: the shuffled list, and its two pieces. */
  datatype ClassSplit = ClassSplit(shuffled: seq<string>, train: seq<string>, val: seq<string>)

  /** `s` is a shuffle of `images` cut into a train prefix and a validation suffix. */
  predicate IsSplitOf(s: ClassSplit, images: seq<string>)
  {
    IsPermutation(s.shuffled, images) && s.train + s.val == s.shuffled
  }

  /**
   * `random.shuffle(image_files)`, then `image_files[:split_idx]` and
   * `image_files[split_idx:]`; the shuffle's order and the cut are left open.
   */
  method SplitImages(images: seq<string>) returns (s: ClassSplit)
    ensures IsSplitOf(s, images)
  {
    assert IsPermutation(images, images);
    var shuffled :| IsPermutation(shuffled, images);
    var splitIdx :| 0 <= splitIdx <= |shuffled|;
    s := ClassSplit(shuffled, shuffled[..splitIdx], shuffled[splitIdx..]);
    assert s.train + s.val == s.shuffled;
  }

  /** A list without repeats holds each element at most once. */
  lemma {:induction false} NoDuplicatesCount(s: seq<string>, x: string)
    requires NoDuplicates(s)
    ensures multiset(s)[x] <= 1
  {
    if s != [] {
      assert s == [s[0]] + s[1..];
      NoDuplicatesCount(s[1..], x);
      if x == s[0] {
        assert x !in s[1..];
      }
    }
  }

  /**
   * The two pieces of a split: train is the prefix and val the suffix of
   * the shuffled list, together they hold every image as often as before,
   * and when no image name repeats no image is in both.
   */
  lemma SplitPartitions(s: ClassSplit, images: seq<string>)
    requires IsSplitOf(s, images)
    ensures s.train == s.shuffled[..|s.train|] && s.val == s.shuffled[|s.train|..]
    ensures multiset(s.train) + multiset(s.val) == multiset(images)
    ensures forall f :: f in images <==> f in s.train || f in s.val
    ensures NoDuplicates(images) ==> forall f :: f in s.train ==> f !in s.val
  {
    assert multiset(s.train + s.val) == multiset(s.train) + multiset(s.val);
    forall f
      ensures f in images <==> f in s.train || f in s.val
    {
      assert f in images <==> f in multiset(images);
      assert f in s.train || f in s.val <==> f in multiset(s.train) + multiset(s.val);
    }
    if NoDuplicates(images) {
      forall f | f in s.train
        ensures f !in s.val
      {
        NoDuplicatesCount(images, f);
      }
    }
  }

  /** Every file of `t'` that `t` lacks is `dstDir/f`, for some `f` of `files`, holding `srcDir/f`. */
  predicate LinkedFrom(t: Tree, t': Tree, srcDir: string, dstDir: string, files: seq<string>)
  {
    forall p :: p in t'.files && p !in t.files ==>
      exists f :: f in files && p == Join(dstDir, f) && t'.files[p] == Join(srcDir, f)
  }

  /**
   * The loop that links each file of `files` from `srcDir` into `dstDir`
   * unless something already exists at the destination (a symbolic link,
   * or a copy where links are not supported: either way the destination
   * then holds the source's content).
   */
  method PlaceFiles(tree: Tree, srcDir: string, dstDir: string, files: seq<string>) returns (tree': Tree)
    ensures Extends(tree, tree') && tree'.dirs == tree.dirs
    ensures LinkedFrom(tree, tree', srcDir, dstDir, files)
    ensures forall f :: f in files ==> Exists(tree', Join(dstDir, f))
  {
    tree' := tree;
    for i := 0 to |files|
      invariant Extends(tree, tree') && tree'.dirs == tree.dirs
      invariant LinkedFrom(tree, tree', srcDir, dstDir, files[..i])
      invariant forall f :: f in files[..i] ==> Exists(tree', Join(dstDir, f))
    {
      var src := Join(srcDir, files[i]);
      var dst := Join(dstDir, files[i]);
      if !Exists(tree', dst) {
        tree' := Tree(tree'.dirs, tree'.files[dst := src]);
      }
      assert files[..i + 1] == files[..i] + [files[i]];
    }
    assert files[..|files|] == files;
  }

  /** The file `p` holding `v` is one that the split `s` of class `c` placed. */
  predicate PlacedBy(c: string, s: ClassSplit, p: string, v: string)
  {
    || (exists f :: f in s.train && p == Dest(Train, c, f) && v == Source(c, f))
    || (exists f :: f in s.val && p == Dest(Val, c, f) && v == Source(c, f))
  }

  /** Every image of the split `s` of class `c` is present at its destination. */
  predicate AllPlaced(t: Tree, c: string, s: ClassSplit)
  {
    && (forall f :: f in s.train ==> Exists(t, Dest(Train, c, f)))
    && (forall f :: f in s.val ==> Exists(t, Dest(Val, c, f)))
  }

  /** What handling one class does to the tree, given the split it chose (None when it has no image). */
  predicate ClassStep(t: Tree, t': Tree, c: string, split: Option<ClassSplit>)
  {
    && Extends(t, t')
    && t'.dirs == t.dirs + {SplitDir(Train, c), SplitDir(Val, c)}
    && (split.Some? ==> AllPlaced(t', c, split.value))
    && (forall p :: p in t'.files && p !in t.files ==> split.Some? && PlacedBy(c, split.value, p, t'.files[p]))
  }

  /**
   * The body of the loop over class directories: make the class's train
   * and val directories, list its `.jpg` names, and when there are any,
   * split them and place both pieces.
   */
  method SplitClass(tree: Tree, c: string, listing: seq<string>)
    returns (tree': Tree, count: nat, split: Option<ClassSplit>)
    ensures count == |JpgFiles(listing)|
    ensures split.None? <==> JpgFiles(listing) == []
    ensures split.Some? ==> IsSplitOf(split.value, JpgFiles(listing))
    ensures ClassStep(tree, tree', c, split)
  {
    tree' := MakeDirs(MakeDirs(tree, SplitDir(Train, c)), SplitDir(Val, c));
    var imageFiles := JpgFiles(listing);
    count := |imageFiles|;
    if imageFiles == [] {
      return tree', count, None;
    }
    var s := SplitImages(imageFiles);
    var sourceDir := Join(DATASET_DIR, c);
    var afterTrain := PlaceFiles(tree', sourceDir, SplitDir(Train, c), s.train);
    var afterVal := PlaceFiles(afterTrain, sourceDir, SplitDir(Val, c), s.val);
    tree' := afterVal;
    split := Some(s);
  }

  /** The train and val directories of every class in `classes`. */
  function SplitDirs(classes: seq<Entry>): set<string>
  {
    if classes == [] then {}
    else
      var c := classes[|classes| - 1].name;
      SplitDirs(classes[..|classes| - 1]) + {SplitDir(Train, c), SplitDir(Val, c)}
  }

  /** `splits` holds a split for exactly the classes with images, each a split of that class's images. */
  predicate SplitsOf(classes: seq<Entry>, splits: map<string, ClassSplit>)
  {
    && (forall c :: c in splits ==> exists e :: e in classes && e.name == c)
    && (forall e :: e in classes && e.Dir? ==>
          && (e.name in splits <==> JpgFiles(e.listing) != [])
          && (e.name in splits ==> IsSplitOf(splits[e.name], JpgFiles(e.listing))))
  }

  /**
   * What the split of all `classes` does to the tree: it only grows, it
   * gains the train and val directory of each class, each image of each
   * split is at its destination, and each new file is one a split placed.
   */
  predicate SplitTree(tree: Tree, tree': Tree, classes: seq<Entry>, splits: map<string, ClassSplit>)
  {
    && Extends(tree, tree')
    && tree'.dirs == tree.dirs + SplitDirs(classes)
    && (forall c :: c in splits ==> AllPlaced(tree', c, splits[c]))
    && (forall p :: p in tree'.files && p !in tree.files ==>
          exists c :: c in splits && PlacedBy(c, splits[c], p, tree'.files[p]))
  }

  /** One more class handled keeps `SplitsOf`. */
  lemma SplitsOfStep(classes: seq<Entry>, e: Entry, splits: map<string, ClassSplit>, split: Option<ClassSplit>)
    requires e.Dir? && forall d :: d in classes ==> d.name != e.name
    requires SplitsOf(classes, splits)
    requires split.None? <==> JpgFiles(e.listing) == []
    requires split.Some? ==> IsSplitOf(split.value, JpgFiles(e.listing))
    ensures SplitsOf(classes + [e], if split.Some? then splits[e.name := split.value] else splits)
  {
    var splits' := if split.Some? then splits[e.name := split.value] else splits;
    var classes' := classes + [e];
    assert e.name !in splits;
    forall c | c in splits'
      ensures exists d :: d in classes' && d.name == c
    {
      if c != e.name {
        var d :| d in classes && d.name == c;
        assert d in classes';
      } else {
        assert e in classes';
      }
    }
    forall d | d in classes' && d.Dir?
      ensures d.name in splits' <==> JpgFiles(d.listing) != []
      ensures d.name in splits' ==> IsSplitOf(splits'[d.name], JpgFiles(d.listing))
    {
      if d != e {
        assert d in classes;
      }
    }
  }

  /** One more class handled keeps `SplitTree`. */
  lemma SplitTreeStep(tree: Tree, t: Tree, t': Tree, classes: seq<Entry>, e: Entry,
                      splits: map<string, ClassSplit>, split: Option<ClassSplit>)
    requires e.name !in splits
    requires SplitTree(tree, t, classes, splits)
    requires ClassStep(t, t', e.name, split)
    ensures SplitTree(tree, t', classes + [e], if split.Some? then splits[e.name := split.value] else splits)
  {
    var splits' := if split.Some? then splits[e.name := split.value] else splits;
    var classes' := classes + [e];
    assert classes'[..|classes'| - 1] == classes;
    forall c | c in splits'
      ensures AllPlaced(t', c, splits'[c])
    {
      if c != e.name {
        assert AllPlaced(t, c, splits[c]);
      }
    }
    forall p | p in t'.files && p !in tree.files
      ensures exists c :: c in splits' && PlacedBy(c, splits'[c], p, t'.files[p])
    {
      if p !in t.files {
        assert PlacedBy(e.name, splits'[e.name], p, t'.files[p]);
      } else {
        var c :| c in splits && PlacedBy(c, splits[c], p, t.files[p]);
        assert splits'[c] == splits[c];
      }
    }
  }

  /** No split is recorded under a class name before that class is handled. */
  lemma FreshClassName(classes: seq<Entry>, e: Entry, splits: map<string, ClassSplit>)
    requires SplitsOf(classes, splits) && forall d :: d in classes ==> d.name != e.name
    ensures e.name !in splits
  {
  }

  /**
   * The body of the loop over the class directories, handled in listing
   * order: after class `i`, `SplitsOf` and `SplitTree` hold for the
   * classes up to and including it.
   */
  lemma SplitLoopStep(tree: Tree, t: Tree, t': Tree, classes: seq<Entry>, i: nat,
                      splits: map<string, ClassSplit>, split: Option<ClassSplit>)
    requires i < |classes| && UniqueNames(classes) && classes[i].Dir?
    requires SplitsOf(classes[..i], splits) && SplitTree(tree, t, classes[..i], splits)
    requires split.None? <==> JpgFiles(classes[i].listing) == []
    requires split.Some? ==> IsSplitOf(split.value, JpgFiles(classes[i].listing))
    requires ClassStep(t, t', classes[i].name, split)
    ensures var splits' := if split.Some? then splits[classes[i].name := split.value] else splits;
      SplitsOf(classes[..i + 1], splits') && SplitTree(tree, t', classes[..i + 1], splits')
  {
    var e := classes[i];
    forall d | d in classes[..i]
      ensures d.name != e.name
    {
      var j :| 0 <= j < i && classes[j] == d;
    }
    FreshClassName(classes[..i], e, splits);
    SplitsOfStep(classes[..i], e, splits, split);
    SplitTreeStep(tree, t, t', classes[..i], e, splits, split);
    assert classes[..i + 1] == classes[..i] + [e];
  }

  /** The train and val directories of a class are among the split directories of any list holding it. */
  lemma {:induction false} InSplitDirs(classes: seq<Entry>, e: Entry)
    requires e in classes
    ensures SplitDir(Train, e.name) in SplitDirs(classes) && SplitDir(Val, e.name) in SplitDirs(classes)
    decreases |classes|
  {
    if e != classes[|classes| - 1] {
      assert e in classes[..|classes| - 1];
      InSplitDirs(classes[..|classes| - 1], e);
    }
  }

  /**
   * Once at least one class was handled, neither `train` nor `val` is empty,
   * so the "split only if empty" guard of either script does not fire again.
   */
  lemma SplitFillsParts(t: Tree, classes: seq<Entry>)
    requires classes != [] && forall e :: e in classes ==> IsName(e.name)
    requires SplitDirs(classes) <= t.dirs
    ensures !IsEmptyDir(t, PartDir(Train)) && !IsEmptyDir(t, PartDir(Val))
  {
    var e := classes[0];
    InSplitDirs(classes, e);
    ChildMakesNonEmpty(t, PartDir(Train), e.name);
    ChildMakesNonEmpty(t, PartDir(Val), e.name);
  }
}
