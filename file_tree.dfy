/**
 * The part of a POSIX filesystem the dataset scripts look at and change,
 * as a value: the set of directory paths, and the regular files (symbolic
 * links and copies among them) each with the path whose content it holds.
 */
module FileTree {
  import opened PyText

  datatype Tree = Tree(dirs: set<string>, files: map<string, string>)

  /** `os.path.exists(p)`. */
  predicate Exists(t: Tree, p: string)
  {
    p in t.dirs || p in t.files
  }

  /** `p` names an entry directly inside the directory `d`. */
  predicate ChildOf(d: string, p: string)
  {
    |p| > |d| + 1 && p[..|d| + 1] == d + "/" && '/' !in p[|d| + 1..]
  }

  /** `not os.listdir(d)`: nothing sits directly inside `d`. */
  predicate IsEmptyDir(t: Tree, d: string)
  {
    && (forall p :: p in t.dirs ==> !ChildOf(d, p))
    && (forall p :: p in t.files ==> !ChildOf(d, p))
  }

  /** A name as `os.listdir` reports it: not empty and without '/'. */
  predicate IsName(n: string)
  {
    n != "" && '/' !in n
  }

  /** The tree grew: no directory went away and no file went away or changed. */
  predicate Extends(t: Tree, t': Tree)
  {
    && t.dirs <= t'.dirs
    && forall p :: p in t.files ==> p in t'.files && t'.files[p] == t.files[p]
  }

  /** `os.makedirs(d, exist_ok=True)`, for a `d` whose parent exists. */
  function MakeDirs(t: Tree, d: string): (t': Tree)
    ensures Extends(t, t') && Exists(t', d)
    ensures t'.dirs == t.dirs + {d} && t'.files == t.files
  {
    Tree(t.dirs + {d}, t.files)
  }

  lemma ExtendsTransitive(t1: Tree, t2: Tree, t3: Tree)
    requires Extends(t1, t2) && Extends(t2, t3)
    ensures Extends(t1, t3)
  {
  }

  /**
   * The directory that would hold `p` exists, so opening `p` for writing
   * raises neither FileNotFoundError nor NotADirectoryError.
   */
  predicate InExistingDir(t: Tree, p: string)
  {
    exists d :: d in t.dirs && ChildOf(d, p)
  }

  /** A name joined under a directory is an entry directly inside it. */
  lemma JoinIsChild(d: string, n: string)
    requires IsName(n)
    ensures ChildOf(d, Join(d, n))
  {
    var p := Join(d, n);
    assert p[..|d| + 1] == d + "/";
    assert p[|d| + 1..] == n;
  }

  /** Something that exists directly inside `d` makes it non-empty. */
  lemma ChildMakesNonEmpty(t: Tree, d: string, n: string)
    requires IsName(n) && Exists(t, Join(d, n))
    ensures !IsEmptyDir(t, d)
  {
    JoinIsChild(d, n);
  }

  /** A name joined under an existing directory can be written. */
  lemma JoinInExistingDir(t: Tree, d: string, n: string)
    requires IsName(n) && d in t.dirs
    ensures InExistingDir(t, Join(d, n))
  {
    JoinIsChild(d, n);
  }
}
