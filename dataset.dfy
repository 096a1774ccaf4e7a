/**
 * The organising step of `dataset.py` once the archives are extracted: one
 * directory per diagnosis under `isic_dataset`, each ground-truth row's
 * image copied into the directory of its most probable diagnosis, and the
 * per-class image counts reported from the largest down.
 */
module Dataset {
  import opened PyText
  import opened PyJson
  import opened FileTree
  import opened CountReport

  const OUTPUT_DIR: string := "isic_dataset"
  const TEMP_DIR: string := "temp_downloads"

  /** Where the training images sit once the image archive is extracted. */
  const IMAGE_DIR: string := Join(Join(TEMP_DIR, "images"), "ISIC2018_Task3_Training_input")

  /** `class_mapping`, in the dict's insertion order: abbreviation and full name. */
  const CLASS_MAPPING: seq<(string, string)> := [
    ("MEL", "melanoma"),
    ("NV", "nevus"),
    ("BCC", "basal_cell_carcinoma"),
    ("AKIEC", "actinic_keratosis"),
    ("BKL", "benign_keratosis"),
    ("DF", "dermatofibroma"),
    ("VASC", "vascular_lesion")]

  /** A mapping as a dict literal gives it: no abbreviation twice. */
  predicate DistinctKeys(mapping: seq<(string, string)>)
  {
    forall i, j :: 0 <= i < j < |mapping| ==> mapping[i].0 != mapping[j].0
  }

  /** The keys of a mapping, in order: what `for abbrev in class_mapping` visits. */
  function Keys(mapping: seq<(string, string)>): (r: seq<string>)
    ensures |r| == |mapping| && forall i :: 0 <= i < |r| ==> r[i] == mapping[i].0
  {
    seq(|mapping|, i requires 0 <= i < |mapping| => mapping[i].0)
  }

  /** `os.path.join(OUTPUT_DIR, full_name)`. */
  function ClassDir(fullName: string): string
  {
    Join(OUTPUT_DIR, fullName)
  }

  /**
   * The seven abbreviations are distinct and so are the seven full names,
   * all of them plain directory names: the class directories are seven
   * distinct directories directly inside `isic_dataset`.
   */
  lemma ClassMappingDistinct()
    ensures |CLASS_MAPPING| == 7 && DistinctKeys(CLASS_MAPPING)
    ensures forall i, j :: 0 <= i < j < 7 ==> CLASS_MAPPING[i].1 != CLASS_MAPPING[j].1
    ensures forall i :: 0 <= i < 7 ==> IsName(CLASS_MAPPING[i].1) && ChildOf(OUTPUT_DIR, ClassDir(CLASS_MAPPING[i].1))
  {
    forall i | 0 <= i < 7
      ensures ChildOf(OUTPUT_DIR, ClassDir(CLASS_MAPPING[i].1))
    {
      JoinIsChild(OUTPUT_DIR, CLASS_MAPPING[i].1);
    }
  }

  /** `class_dirs` covers every abbreviation of the mapping. */
  predicate CoversKeys(classDirs: map<string, string>, keys: seq<string>)
  {
    forall j :: 0 <= j < |keys| ==> keys[j] in classDirs
  }

  /** The abbreviations of the first `k` entries. */
  function AbbrevSet(mapping: seq<(string, string)>, k: nat): set<string>
    requires k <= |mapping|
  {
    if k == 0 then {} else AbbrevSet(mapping, k - 1) + {mapping[k - 1].0}
  }

  /** The class directories of the first `k` entries. */
  function ClassDirSet(mapping: seq<(string, string)>, k: nat): set<string>
    requires k <= |mapping|
  {
    if k == 0 then {} else ClassDirSet(mapping, k - 1) + {ClassDir(mapping[k - 1].1)}
  }

  /** The first `k` entries give exactly the abbreviations and directories of those entries. */
  lemma {:induction false} EntrySets(mapping: seq<(string, string)>, k: nat)
    requires k <= |mapping|
    ensures forall a :: a in AbbrevSet(mapping, k) <==> exists i :: 0 <= i < k && mapping[i].0 == a
    ensures forall d :: d in ClassDirSet(mapping, k) <==> exists i :: 0 <= i < k && ClassDir(mapping[i].1) == d
  {
    if k > 0 {
      EntrySets(mapping, k - 1);
    }
  }

  /**
   * The loop of lines 107-111: each class directory is made, and
   * `class_dirs` maps each abbreviation, and nothing else, to its directory.
   */
  method BuildClassDirs(mapping: seq<(string, string)>, tree: Tree) returns (classDirs: map<string, string>, tree': Tree)
    requires DistinctKeys(mapping)
    ensures classDirs.Keys == AbbrevSet(mapping, |mapping|)
    ensures forall i :: 0 <= i < |mapping| ==> mapping[i].0 in classDirs && classDirs[mapping[i].0] == ClassDir(mapping[i].1)
    ensures CoversKeys(classDirs, Keys(mapping))
    ensures tree'.dirs == tree.dirs + ClassDirSet(mapping, |mapping|)
    ensures tree'.files == tree.files
  {
    classDirs := map[];
    tree' := tree;
    for k := 0 to |mapping|
      invariant classDirs.Keys == AbbrevSet(mapping, k)
      invariant forall i :: 0 <= i < k ==> mapping[i].0 in classDirs && classDirs[mapping[i].0] == ClassDir(mapping[i].1)
      invariant tree'.dirs == tree.dirs + ClassDirSet(mapping, k)
      invariant tree'.files == tree.files
    {
      var (abbrev, fullName) := mapping[k];
      var classDir := ClassDir(fullName);
      tree' := MakeDirs(tree', classDir);
      classDirs := classDirs[abbrev := classDir];
    }
    EntrySets(mapping, |mapping|);
  }

  // ---- the most probable diagnosis of a row ----

  /** What `float(cell)` gives: an IEEE double, with its infinities and NaN. */
  datatype Float = Finite(x: real) | PosInf | NegInf | NaN

  /** Python's `a > b` on floats: false whenever either side is NaN. */
  predicate Gt(a: Float, b: Float)
  {
    match a
    case NaN => false
    case NegInf => false
    case PosInf => !b.NaN? && !b.PosInf?
    case Finite(x) => b.NegInf? || (b.Finite? && x > b.x)
  }

  /** Without NaN, `>` is transitive. */
  lemma GtTransitive(a: Float, b: Float, c: Float)
    requires Gt(a, b) && Gt(b, c)
    ensures Gt(a, c)
  {
  }

  /** Without NaN, `>` is a total order: what is above `c` is above anything not above `c`. */
  lemma GtAboveNotAbove(a: Float, b: Float, c: Float)
    requires !b.NaN? && Gt(a, c) && !Gt(b, c)
    ensures Gt(a, b)
  {
  }

  /**
   * A ground-truth row as `csv.DictReader` gives it: column name to cell.
   * A row shorter than the header has None in its missing trailing columns.
   */
  type Row = map<string, Option<string>>

  /** `float(cell)`: None raises TypeError, text that is not a number raises ValueError. */
  function Prob(cell: Option<string>, parse: string -> Option<Float>): Option<Float>
  {
    if cell.None? then None else parse(cell.value)
  }

  /** The image id as `f"{image_id}.jpg"` prints it: None prints as `None`. */
  function ImageId(cell: Option<string>): string
  {
    if cell.None? then "None" else cell.value
  }

  /** `best_prob = 0` compares as the float zero. */
  const ZERO: Float := Finite(0.0)

  /** How the scan over the abbreviations ends: a class, no class above 0, or `float()` raising. */
  datatype Choice = Chosen(abbrev: string) | NoClass | ParseError

  /**
   * The loop of lines 121-124 from key `k` on, with the running best so
   * far: for each abbreviation in order that the row has, its cell is
   * parsed (a failure raises) and replaces the best when strictly greater.
   */
  function BestFrom(keys: seq<string>, row: Row, parse: string -> Option<Float>,
                    k: nat, best: Option<string>, bestProb: Float): Choice
    requires k <= |keys|
    decreases |keys| - k
  {
    if k == |keys| then (if best.Some? then Chosen(best.value) else NoClass)
    else if keys[k] !in row then BestFrom(keys, row, parse, k + 1, best, bestProb)
    else
      match Prob(row[keys[k]], parse)
      case None => ParseError
      case Some(v) =>
        if Gt(v, bestProb) then BestFrom(keys, row, parse, k + 1, Some(keys[k]), v)
        else BestFrom(keys, row, parse, k + 1, best, bestProb)
  }

  /** The class chosen for a row, scanning `keys` from `best_class = None`, `best_prob = 0`. */
  function BestClass(keys: seq<string>, row: Row, parse: string -> Option<Float>): Choice
  {
    BestFrom(keys, row, parse, 0, None, ZERO)
  }

  /** Lines 118-124: the running strict-greater scan over the abbreviations. */
  method SelectBestClass(keys: seq<string>, row: Row, parse: string -> Option<Float>)
    returns (choice: Choice)
    ensures choice == BestClass(keys, row, parse)
  {
    var best: Option<string> := None;
    var bestProb := ZERO;
    for k := 0 to |keys|
      invariant BestFrom(keys, row, parse, k, best, bestProb) == BestClass(keys, row, parse)
    {
      var abbrev := keys[k];
      if abbrev in row {
        var prob := Prob(row[abbrev], parse);
        if prob.None? {
          return ParseError;
        }
        if Gt(prob.value, bestProb) {
          bestProb := prob.value;
          best := Some(abbrev);
        }
      }
    }
    choice := if best.Some? then Chosen(best.value) else NoClass;
  }

  /** Key `j`'s value in the row when the row has it and it parses to a number (not NaN). */
  function Score(keys: seq<string>, row: Row, parse: string -> Option<Float>, j: nat): Option<Float>
    requires j < |keys|
  {
    if keys[j] !in row then None
    else match Prob(row[keys[j]], parse)
      case Some(v) => if v.NaN? then None else Some(v)
      case None => None
  }

  /** Every cell the scan reads parses. */
  predicate AllParse(keys: seq<string>, row: Row, parse: string -> Option<Float>)
  {
    forall j :: 0 <= j < |keys| && keys[j] in row ==> Prob(row[keys[j]], parse).Some?
  }

  /** No score from key `k` on is above `floor`. */
  predicate NoneAbove(keys: seq<string>, row: Row, parse: string -> Option<Float>, k: nat, floor: Float)
  {
    forall l :: k <= l < |keys| && Score(keys, row, parse, l).Some? ==> !Gt(Score(keys, row, parse, l).value, floor)
  }

  /**
   * Among the keys from `k` on, key `j` has the largest score, above
   * `floor`, and is the first key with that score: strictly above every
   * earlier score, and not below any later one.
   */
  predicate FirstMaxAbove(keys: seq<string>, row: Row, parse: string -> Option<Float>,
                          k: nat, j: nat, floor: Float)
  {
    && k <= j < |keys|
    && Score(keys, row, parse, j).Some?
    && Gt(Score(keys, row, parse, j).value, floor)
    && (forall l :: k <= l < j && Score(keys, row, parse, l).Some? ==>
          Gt(Score(keys, row, parse, j).value, Score(keys, row, parse, l).value))
    && (forall l :: j < l < |keys| && Score(keys, row, parse, l).Some? ==>
          !Gt(Score(keys, row, parse, l).value, Score(keys, row, parse, j).value))
  }

  /** A key without a score, or with one not above `floor`, can be dropped from the front. */
  lemma FirstMaxSkip(keys: seq<string>, row: Row, parse: string -> Option<Float>, k: nat, floor: Float)
    requires k < |keys|
    requires Score(keys, row, parse, k).None? || !Gt(Score(keys, row, parse, k).value, floor)
    ensures NoneAbove(keys, row, parse, k, floor) ==> NoneAbove(keys, row, parse, k + 1, floor)
    ensures forall j: nat :: FirstMaxAbove(keys, row, parse, k, j, floor) ==> FirstMaxAbove(keys, row, parse, k + 1, j, floor)
  {
  }

  /** A key with a score above `floor` becomes the new floor for what follows it. */
  lemma FirstMaxRaise(keys: seq<string>, row: Row, parse: string -> Option<Float>, k: nat, floor: Float)
    requires k < |keys|
    requires Score(keys, row, parse, k).Some? && Gt(Score(keys, row, parse, k).value, floor)
    ensures FirstMaxAbove(keys, row, parse, k, k, floor) ==>
      NoneAbove(keys, row, parse, k + 1, Score(keys, row, parse, k).value)
    ensures forall j: nat :: j > k && FirstMaxAbove(keys, row, parse, k, j, floor) ==>
      FirstMaxAbove(keys, row, parse, k + 1, j, Score(keys, row, parse, k).value)
    ensures !NoneAbove(keys, row, parse, k, floor)
  {
  }

  /** The scan from key `k` picks the first maximum above the running best, or keeps the running best. */
  lemma {:induction false} BestFromPicksFirstMax(keys: seq<string>, row: Row, parse: string -> Option<Float>,
                                                 k: nat, best: Option<string>, bestProb: Float)
    requires k <= |keys| && AllParse(keys, row, parse) && !bestProb.NaN?
    ensures NoneAbove(keys, row, parse, k, bestProb) ==>
      BestFrom(keys, row, parse, k, best, bestProb) == (if best.Some? then Chosen(best.value) else NoClass)
    ensures forall j: nat :: FirstMaxAbove(keys, row, parse, k, j, bestProb) ==>
      BestFrom(keys, row, parse, k, best, bestProb) == Chosen(keys[j])
    decreases |keys| - k
  {
    if k < |keys| {
      var s := Score(keys, row, parse, k);
      if s.Some? && Gt(s.value, bestProb) {
        assert BestFrom(keys, row, parse, k, best, bestProb) == BestFrom(keys, row, parse, k + 1, Some(keys[k]), s.value);
        BestFromPicksFirstMax(keys, row, parse, k + 1, Some(keys[k]), s.value);
        FirstMaxRaise(keys, row, parse, k, bestProb);
      } else {
        assert BestFrom(keys, row, parse, k, best, bestProb) == BestFrom(keys, row, parse, k + 1, best, bestProb);
        BestFromPicksFirstMax(keys, row, parse, k + 1, best, bestProb);
        FirstMaxSkip(keys, row, parse, k, bestProb);
      }
    }
  }

  /** From key `k` on, either nothing is above `floor` or some key is the first maximum above it. */
  lemma {:induction false} FirstMaxExists(keys: seq<string>, row: Row, parse: string -> Option<Float>,
                                          k: nat, floor: Float)
    requires k <= |keys| && !floor.NaN?
    ensures NoneAbove(keys, row, parse, k, floor) || exists j: nat :: FirstMaxAbove(keys, row, parse, k, j, floor)
    decreases |keys| - k
  {
    if k < |keys| {
      var s := Score(keys, row, parse, k);
      if s.Some? && Gt(s.value, floor) {
        FirstMaxExists(keys, row, parse, k + 1, s.value);
        if NoneAbove(keys, row, parse, k + 1, s.value) {
          assert FirstMaxAbove(keys, row, parse, k, k, floor);
        } else {
          var j: nat :| FirstMaxAbove(keys, row, parse, k + 1, j, s.value);
          GtTransitive(Score(keys, row, parse, j).value, s.value, floor);
          assert FirstMaxAbove(keys, row, parse, k, j, floor);
        }
      } else {
        FirstMaxExists(keys, row, parse, k + 1, floor);
        if !NoneAbove(keys, row, parse, k + 1, floor) {
          var j: nat :| FirstMaxAbove(keys, row, parse, k + 1, j, floor);
          if s.Some? {
            GtAboveNotAbove(Score(keys, row, parse, j).value, s.value, floor);
          }
          assert FirstMaxAbove(keys, row, parse, k, j, floor);
        }
      }
    }
  }

  /**
   * The chosen class, over the abbreviations in mapping order: the scan
   * raises exactly when some cell the row has does not parse; otherwise it
   * picks the first abbreviation with the largest value when that value is
   * above 0 (ties go to the earlier key; absent keys and NaN cells never
   * win), and no class when no value is above 0.
   */
  lemma BestClassSpec(keys: seq<string>, row: Row, parse: string -> Option<Float>)
    ensures BestClass(keys, row, parse) == ParseError <==> !AllParse(keys, row, parse)
    ensures AllParse(keys, row, parse) ==>
      && (BestClass(keys, row, parse) == NoClass <==> NoneAbove(keys, row, parse, 0, ZERO))
      && (forall j: nat :: FirstMaxAbove(keys, row, parse, 0, j, ZERO) ==> BestClass(keys, row, parse) == Chosen(keys[j]))
      && (BestClass(keys, row, parse).Chosen? ==>
            exists j: nat :: FirstMaxAbove(keys, row, parse, 0, j, ZERO) && keys[j] == BestClass(keys, row, parse).abbrev)
  {
    if AllParse(keys, row, parse) {
      BestFromPicksFirstMax(keys, row, parse, 0, None, ZERO);
      FirstMaxExists(keys, row, parse, 0, ZERO);
    } else {
      var j :| 0 <= j < |keys| && keys[j] in row && Prob(row[keys[j]], parse).None?;
      BestFromRaises(keys, row, parse, 0, None, ZERO, j);
    }
  }

  /** A cell that does not parse makes the scan raise, whatever comes before it. */
  lemma {:induction false} BestFromRaises(keys: seq<string>, row: Row, parse: string -> Option<Float>,
                                          k: nat, best: Option<string>, bestProb: Float, j: nat)
    requires k <= j < |keys| && keys[j] in row && Prob(row[keys[j]], parse).None?
    ensures BestFrom(keys, row, parse, k, best, bestProb) == ParseError
    decreases |keys| - k
  {
    if k < j {
      if keys[k] in row && Prob(row[keys[k]], parse).Some? {
        var v := Prob(row[keys[k]], parse).value;
        BestFromRaises(keys, row, parse, k + 1, Some(keys[k]), v, j);
      }
      BestFromRaises(keys, row, parse, k + 1, best, bestProb, j);
    }
  }

  /** When the scan succeeds, every cell parsed: the result is never an error in disguise. */
  lemma {:induction false} BestFromNoRaise(keys: seq<string>, row: Row, parse: string -> Option<Float>,
                                           k: nat, best: Option<string>, bestProb: Float)
    requires k <= |keys| && BestFrom(keys, row, parse, k, best, bestProb) != ParseError
    ensures forall j :: k <= j < |keys| && keys[j] in row ==> Prob(row[keys[j]], parse).Some?
    decreases |keys| - k
  {
    if k < |keys| {
      if keys[k] !in row {
        BestFromNoRaise(keys, row, parse, k + 1, best, bestProb);
      } else {
        var v := Prob(row[keys[k]], parse).value;
        if Gt(v, bestProb) {
          BestFromNoRaise(keys, row, parse, k + 1, Some(keys[k]), v);
        } else {
          BestFromNoRaise(keys, row, parse, k + 1, best, bestProb);
        }
      }
    }
  }

  // ---- copying the images ----

  /** `os.path.join(image_extract_path, "ISIC2018_Task3_Training_input", f"{image_id}.jpg")`. */
  function SourcePath(imageId: string): string
  {
    PathJoin(IMAGE_DIR, imageId + JPG)
  }

  /** `os.path.join(class_dirs[best_class], f"{image_id}.jpg")`. */
  function TargetPath(classDir: string, imageId: string): string
  {
    PathJoin(classDir, imageId + JPG)
  }

  /** An absolute image id discards both directories, so the copy would go onto its own source. */
  lemma AbsoluteIdSameFile(classDir: string, imageId: string)
    requires |imageId| > 0 && imageId[0] == '/'
    ensures TargetPath(classDir, imageId) == SourcePath(imageId) == imageId + JPG
  {
    assert (imageId + JPG)[0] == '/';
  }

  /**
   * An id without '/' lands directly inside its class directory: when that
   * directory exists and is not the image directory, the copy can be made.
   */
  lemma PlainIdTarget(t: Tree, classDir: string, imageId: string)
    requires '/' !in imageId && classDir in t.dirs && classDir != IMAGE_DIR
    ensures TargetPath(classDir, imageId) == Join(classDir, imageId + JPG)
    ensures InExistingDir(t, TargetPath(classDir, imageId))
    ensures TargetPath(classDir, imageId) != SourcePath(imageId)
  {
    var n := imageId + JPG;
    assert n[0] != '/' by {
      if |imageId| > 0 { assert n[0] == imageId[0]; } else { assert n == JPG; }
    }
    assert '/' !in n by {
      forall i | 0 <= i < |n| ensures n[i] != '/' {
        if i < |imageId| { assert n[i] == imageId[i]; } else { assert n[i] == JPG[i - |imageId|]; }
      }
    }
    JoinInExistingDir(t, classDir, n);
    JoinDirInjective(classDir, IMAGE_DIR, n);
  }

  /** The exception that ends the row loop. */
  datatype Crash =
    | UnparsableProbability           // `float(row[abbrev])` raises ValueError, or TypeError on None
    | MissingImageColumn              // `row['image']` raises KeyError
    | SourceIsDirectory               // `shutil.copy2` cannot read a directory
    | SameFile                        // `shutil.copy2` onto its own source raises SameFileError
    | TargetDirMissing                // the target's directory does not exist: FileNotFoundError

  /** How the row loop ends: every row handled, or an exception at row `row` with the tree as it then was. */
  datatype Organized = Done(tree: Tree) | Raised(crash: Crash, row: nat, tree: Tree)

  /** What one row does: the tree afterwards, or the exception it raises. */
  datatype RowResult = RowOk(tree: Tree) | RowCrash(crash: Crash)

  /**
   * Lines 118-135 for one row: choose the class; with one, read the image
   * id, and copy the image over its target when the source exists.
   */
  function RowStep(keys: seq<string>, classDirs: map<string, string>, row: Row,
                   parse: string -> Option<Float>, t: Tree): RowResult
    requires CoversKeys(classDirs, keys)
  {
    match BestClass(keys, row, parse)
    case ParseError => RowCrash(UnparsableProbability)
    case NoClass => RowOk(t)
    case Chosen(abbrev) =>
      if abbrev == "" then RowOk(t)    // `if best_class:` on an empty key
      else if "image" !in row then RowCrash(MissingImageColumn)
      else
        var source := SourcePath(ImageId(row["image"]));
        if source in t.dirs then RowCrash(SourceIsDirectory)
        else if source !in t.files then RowOk(t)
        else
          ChosenIsKey(keys, row, parse);
          var target := TargetPath(classDirs[abbrev], ImageId(row["image"]));
          if target == source then RowCrash(SameFile)
          else if !InExistingDir(t, target) then RowCrash(TargetDirMissing)
          else RowOk(Tree(t.dirs, t.files[target := t.files[source]]))
  }

  /** A chosen class is one of the keys scanned. */
  lemma ChosenIsKey(keys: seq<string>, row: Row, parse: string -> Option<Float>)
    requires BestClass(keys, row, parse).Chosen?
    ensures BestClass(keys, row, parse).abbrev in keys
  {
    ChosenFromIsKey(keys, row, parse, 0, None, ZERO);
  }

  lemma {:induction false} ChosenFromIsKey(keys: seq<string>, row: Row, parse: string -> Option<Float>,
                                           k: nat, best: Option<string>, bestProb: Float)
    requires k <= |keys| && BestFrom(keys, row, parse, k, best, bestProb).Chosen?
    ensures var a := BestFrom(keys, row, parse, k, best, bestProb).abbrev; a in keys || best == Some(a)
    decreases |keys| - k
  {
    if k < |keys| {
      if keys[k] !in row {
        ChosenFromIsKey(keys, row, parse, k + 1, best, bestProb);
      } else {
        var v := Prob(row[keys[k]], parse).value;
        if Gt(v, bestProb) {
          ChosenFromIsKey(keys, row, parse, k + 1, Some(keys[k]), v);
        } else {
          ChosenFromIsKey(keys, row, parse, k + 1, best, bestProb);
        }
      }
    }
  }

  /** The rows from `i` on, in order; the first exception ends the loop. */
  function OrganizeFrom(keys: seq<string>, classDirs: map<string, string>, rows: seq<Row>, i: nat,
                        parse: string -> Option<Float>, t: Tree): Organized
    requires i <= |rows| && CoversKeys(classDirs, keys)
    decreases |rows| - i
  {
    if i == |rows| then Done(t)
    else
      match RowStep(keys, classDirs, rows[i], parse, t)
      case RowCrash(crash) => Raised(crash, i, t)
      case RowOk(t') => OrganizeFrom(keys, classDirs, rows, i + 1, parse, t')
  }

  /** The loop of lines 116-135 over the ground-truth rows, scanning `keys` in each. */
  method OrganizeImages(keys: seq<string>, classDirs: map<string, string>, rows: seq<Row>,
                        parse: string -> Option<Float>, tree: Tree) returns (outcome: Organized)
    requires CoversKeys(classDirs, keys)
    ensures outcome == OrganizeFrom(keys, classDirs, rows, 0, parse, tree)
  {
    var t := tree;
    for i := 0 to |rows|
      invariant OrganizeFrom(keys, classDirs, rows, i, parse, t) == OrganizeFrom(keys, classDirs, rows, 0, parse, tree)
    {
      var row := rows[i];
      var bestClass := SelectBestClass(keys, row, parse);
      match bestClass {
        case ParseError =>
          return Raised(UnparsableProbability, i, t);
        case NoClass =>
        case Chosen(abbrev) =>
          if abbrev != "" {
            if "image" !in row {
              return Raised(MissingImageColumn, i, t);
            }
            var imageId := ImageId(row["image"]);
            var sourcePath := SourcePath(imageId);
            if Exists(t, sourcePath) {
              if sourcePath in t.dirs {
                return Raised(SourceIsDirectory, i, t);
              }
              ChosenIsKey(keys, row, parse);
              var targetPath := TargetPath(classDirs[abbrev], imageId);
              if targetPath == sourcePath {
                return Raised(SameFile, i, t);
              }
              if !InExistingDir(t, targetPath) {
                return Raised(TargetDirMissing, i, t);
              }
              t := Tree(t.dirs, t.files[targetPath := t.files[sourcePath]]);
            }
          }
      }
    }
    outcome := Done(t);
  }

  /** The target of `row` when that row chose a class and names its image. */
  predicate CopiedBy(keys: seq<string>, classDirs: map<string, string>, row: Row,
                     parse: string -> Option<Float>, p: string)
    requires CoversKeys(classDirs, keys)
  {
    && BestClass(keys, row, parse).Chosen?
    && BestClass(keys, row, parse).abbrev != ""
    && "image" in row
    && BestClass(keys, row, parse).abbrev in classDirs
    && p == TargetPath(classDirs[BestClass(keys, row, parse).abbrev], ImageId(row["image"]))
  }

  /**
   * A row that does not raise leaves the directories alone and, when it
   * changes anything, has a chosen class, an image id and an existing source
   * file, and copies that file's content over the chosen class's target,
   * which is not the source and lies in an existing directory;
   * RowStepCopies gives the converse and RowStepCopyFails the other cases.
   */
  lemma RowStepEffect(keys: seq<string>, classDirs: map<string, string>, row: Row,
                      parse: string -> Option<Float>, t: Tree)
    requires CoversKeys(classDirs, keys) && RowStep(keys, classDirs, row, parse, t).RowOk?
    ensures var t' := RowStep(keys, classDirs, row, parse, t).tree;
      && t'.dirs == t.dirs
      && (t' != t ==>
            exists p :: CopiedBy(keys, classDirs, row, parse, p)
              && SourcePath(ImageId(row["image"])) in t.files
              && p != SourcePath(ImageId(row["image"])) && InExistingDir(t, p)
              && t'.files == t.files[p := t.files[SourcePath(ImageId(row["image"]))]])
  {
    var t' := RowStep(keys, classDirs, row, parse, t).tree;
    if t' != t {
      ChosenIsKey(keys, row, parse);
      var p := TargetPath(classDirs[BestClass(keys, row, parse).abbrev], ImageId(row["image"]));
      assert CopiedBy(keys, classDirs, row, parse, p);
    }
  }

  /**
   * The other direction: a row whose scan chose a class, that has an image
   * column and whose source image exists as a file does copy it, over the
   * chosen class's target, with the source's content, when that target is
   * another path in an existing directory.
   */
  lemma RowStepCopies(keys: seq<string>, classDirs: map<string, string>, row: Row,
                      parse: string -> Option<Float>, t: Tree)
    requires CoversKeys(classDirs, keys)
    requires BestClass(keys, row, parse).Chosen? && BestClass(keys, row, parse).abbrev != ""
    requires "image" in row
    requires SourcePath(ImageId(row["image"])) in t.files && SourcePath(ImageId(row["image"])) !in t.dirs
    requires var abbrev := BestClass(keys, row, parse).abbrev;
      abbrev in classDirs ==>
        var target := TargetPath(classDirs[abbrev], ImageId(row["image"]));
        target != SourcePath(ImageId(row["image"])) && InExistingDir(t, target)
    ensures BestClass(keys, row, parse).abbrev in classDirs
    ensures var source := SourcePath(ImageId(row["image"]));
      var target := TargetPath(classDirs[BestClass(keys, row, parse).abbrev], ImageId(row["image"]));
      RowStep(keys, classDirs, row, parse, t) == RowOk(Tree(t.dirs, t.files[target := t.files[source]]))
  {
    ChosenIsKey(keys, row, parse);
  }
  /**
   * Where `shutil.copy2` raises for an existing source file: the target is
   * the source itself (an absolute id, see AbsoluteIdSameFile), or the
   * target's directory does not exist (an id such as `a/b` whose `a` is not
   * inside the class directory).
   */
  lemma RowStepCopyFails(keys: seq<string>, classDirs: map<string, string>, row: Row,
                         parse: string -> Option<Float>, t: Tree)
    requires CoversKeys(classDirs, keys)
    requires BestClass(keys, row, parse).Chosen? && BestClass(keys, row, parse).abbrev != ""
    requires "image" in row
    requires SourcePath(ImageId(row["image"])) in t.files && SourcePath(ImageId(row["image"])) !in t.dirs
    ensures BestClass(keys, row, parse).abbrev in classDirs
    ensures var source := SourcePath(ImageId(row["image"]));
      var target := TargetPath(classDirs[BestClass(keys, row, parse).abbrev], ImageId(row["image"]));
      && (target == source ==> RowStep(keys, classDirs, row, parse, t) == RowCrash(SameFile))
      && (target != source && !InExistingDir(t, target) ==>
            RowStep(keys, classDirs, row, parse, t) == RowCrash(TargetDirMissing))
  {
    ChosenIsKey(keys, row, parse);
  }


  /**
   * When no row raises, every row that chose a class and whose source image
   * was there from the start leaves a file at its class's target.
   */
  lemma {:induction false} OrganizeCopiesChosen(keys: seq<string>, classDirs: map<string, string>,
                                                rows: seq<Row>, i: nat,
                                                parse: string -> Option<Float>, t: Tree)
    requires i <= |rows| && CoversKeys(classDirs, keys)
    requires OrganizeFrom(keys, classDirs, rows, i, parse, t).Done?
    ensures forall j, p ::
              (i <= j < |rows| && CopiedBy(keys, classDirs, rows[j], parse, p)
               && SourcePath(ImageId(rows[j]["image"])) in t.files) ==>
              p in OrganizeFrom(keys, classDirs, rows, i, parse, t).tree.files
    decreases |rows| - i
  {
    if i < |rows| {
      var step := RowStep(keys, classDirs, rows[i], parse, t);
      assert step.RowOk?;
      var t1 := step.tree;
      RowStepEffect(keys, classDirs, rows[i], parse, t);
      assert t.files.Keys <= t1.files.Keys;
      OrganizeCopiesChosen(keys, classDirs, rows, i + 1, parse, t1);
      OrganizeTouchesOnlyTargets(keys, classDirs, rows, i + 1, parse, t1);
      var t' := OrganizeFrom(keys, classDirs, rows, i, parse, t).tree;
      assert t' == OrganizeFrom(keys, classDirs, rows, i + 1, parse, t1).tree;
      forall j, p | i <= j < |rows| && CopiedBy(keys, classDirs, rows[j], parse, p)
                    && SourcePath(ImageId(rows[j]["image"])) in t.files
        ensures p in t'.files
      {
        if j == i {
          var source := SourcePath(ImageId(rows[i]["image"]));
          assert source !in t.dirs;
          RowStepCopyFails(keys, classDirs, rows[i], parse, t);
          RowStepCopies(keys, classDirs, rows[i], parse, t);
          assert p in t1.files;
        } else {
          assert SourcePath(ImageId(rows[j]["image"])) in t1.files;
        }
      }
    }
  }

  /**
   * Over the whole loop no directory is added or removed, no file goes
   * away, and every file that is new or has new content is the target of a
   * row from `i` on that chose a class.
   */
  lemma {:induction false} OrganizeTouchesOnlyTargets(keys: seq<string>, classDirs: map<string, string>,
                                                      rows: seq<Row>, i: nat,
                                                      parse: string -> Option<Float>, t: Tree)
    requires i <= |rows| && CoversKeys(classDirs, keys)
    ensures var t' := OrganizeFrom(keys, classDirs, rows, i, parse, t).tree;
      && t'.dirs == t.dirs
      && t.files.Keys <= t'.files.Keys
      && forall p :: p in t'.files && (p !in t.files || t'.files[p] != t.files[p]) ==>
           exists j :: i <= j < |rows| && CopiedBy(keys, classDirs, rows[j], parse, p)
    decreases |rows| - i
  {
    if i < |rows| {
      var step := RowStep(keys, classDirs, rows[i], parse, t);
      if step.RowOk? {
        RowStepEffect(keys, classDirs, rows[i], parse, t);
        var t1 := step.tree;
        OrganizeTouchesOnlyTargets(keys, classDirs, rows, i + 1, parse, t1);
        var t' := OrganizeFrom(keys, classDirs, rows, i, parse, t).tree;
        assert t' == OrganizeFrom(keys, classDirs, rows, i + 1, parse, t1).tree;
        forall p | p in t'.files && (p !in t.files || t'.files[p] != t.files[p])
          ensures exists j :: i <= j < |rows| && CopiedBy(keys, classDirs, rows[j], parse, p)
        {
          if p in t1.files && t'.files[p] == t1.files[p] {
            assert CopiedBy(keys, classDirs, rows[i], parse, p);
          } else {
            var j :| i + 1 <= j < |rows| && CopiedBy(keys, classDirs, rows[j], parse, p);
          }
        }
      }
    }
  }

  // ---- the report ----

  /** The `.jpg` entries directly inside `d`: `[f for f in os.listdir(d) if f.endswith('.jpg')]` as paths. */
  function JpgChildren(t: Tree, d: string): set<string>
  {
    (set p | p in t.dirs && ChildOf(d, p) && EndsWith(p, JPG)) + (set p | p in t.files && ChildOf(d, p) && EndsWith(p, JPG))
  }

  /** A copied image whose id has no '/' is one of the `.jpg` entries its class directory lists. */
  lemma CopiedImageListed(t: Tree, classDir: string, imageId: string)
    requires '/' !in imageId && TargetPath(classDir, imageId) in t.files
    ensures TargetPath(classDir, imageId) in JpgChildren(t, classDir)
  {
    assert IsName(imageId + JPG);
    assert (imageId + JPG)[0] != '/' by {
      if |imageId| > 0 { assert (imageId + JPG)[0] == imageId[0]; }
    }
    JoinIsChild(classDir, imageId + JPG);
    var p := TargetPath(classDir, imageId);
    assert p[|p| - |JPG|..] == JPG;
  }

  /** Lines 138-142: the `.jpg` count of each class directory, in mapping order. */
  method CountClasses(mapping: seq<(string, string)>, t: Tree) returns (counts: seq<Count>)
    ensures |counts| == |mapping|
    ensures forall i :: 0 <= i < |mapping| ==> counts[i] == (mapping[i].1, |JpgChildren(t, ClassDir(mapping[i].1))|)
  {
    counts := [];
    for k := 0 to |mapping|
      invariant |counts| == k
      invariant forall i :: 0 <= i < k ==> counts[i] == (mapping[i].1, |JpgChildren(t, ClassDir(mapping[i].1))|)
    {
      var cls := mapping[k].1;
      counts := counts + [(cls, |JpgChildren(t, ClassDir(cls))|)];
    }
  }

  /**
   * `process_dataset` from the ground-truth rows on, for a class mapping
   * such as `CLASS_MAPPING`: `isic_dataset` and the class directories are
   * made, the rows are handled, and when no row raised, every class's count
   * is taken in mapping order and reported from the largest down, classes
   * with equal counts keeping mapping order as the stable `sorted` does.
   */
  method ProcessDataset(mapping: seq<(string, string)>, rows: seq<Row>,
                        parse: string -> Option<Float>, tree: Tree)
    returns (classDirs: map<string, string>, outcome: Organized, counts: seq<Count>, report: Option<seq<Count>>)
    requires DistinctKeys(mapping)
    ensures forall i :: 0 <= i < |mapping| ==> mapping[i].0 in classDirs && classDirs[mapping[i].0] == ClassDir(mapping[i].1)
    ensures CoversKeys(classDirs, Keys(mapping))
    ensures var t := Tree(tree.dirs + {OUTPUT_DIR} + ClassDirSet(mapping, |mapping|), tree.files);
      outcome == OrganizeFrom(Keys(mapping), classDirs, rows, 0, parse, t)
    ensures report.Some? <==> outcome.Done?
    ensures report.Some? ==>
      && |report.value| == |mapping|
      && Descending(report.value)
      && forall i :: 0 <= i < |mapping| ==>
           (mapping[i].1, |JpgChildren(outcome.tree, ClassDir(mapping[i].1))|) in report.value
    ensures report.Some? ==>
      && |counts| == |mapping|
      && (forall i :: 0 <= i < |mapping| ==>
            counts[i] == (mapping[i].1, |JpgChildren(outcome.tree, ClassDir(mapping[i].1))|))
      && report.value == ByCountDescending(counts)
  {
    var t;
    classDirs, t := BuildClassDirs(mapping, MakeDirs(tree, OUTPUT_DIR));
    outcome := OrganizeImages(Keys(mapping), classDirs, rows, parse, t);
    if outcome.Raised? {
      return classDirs, outcome, [], None;
    }
    counts := CountClasses(mapping, outcome.tree);
    var sorted := ByCountDescending(counts);
    ByCountDescendingSpec(counts);
    assert |multiset(sorted)| == |multiset(counts)|;
    forall i | 0 <= i < |mapping|
      ensures counts[i] in sorted
    {
      assert counts[i] in multiset(counts);
    }
    report := Some(sorted);
  }
}
