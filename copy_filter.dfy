/**
  The filter `copyer` hands to the recursive copy (index.js:41-46): a staged
  path is copied iff it differs from `tmpDir` joined with every excluded
  item. The comparison is exact string equality on the joined path.
 */
module CopyFilter {
  import opened Wrappers
  import opened Naming

  /** `exclude = exclude || []`: an absent list excludes nothing. */
  function Exclusions(exclude: Option<seq<string>>): seq<string>
  {
    match exclude
    case None => []
    case Some(items) => items
  }

  /** `items.every(item => path.join(tmpDir, item) !== file)`, left to right. */
  function Every(tmpDir: string, items: seq<string>, file: string): (k: bool)
    ensures k <==> forall j :: 0 <= j < |items| ==> Join(tmpDir, items[j]) != file
  {
    items == [] || (Join(tmpDir, items[0]) != file && Every(tmpDir, items[1..], file))
  }

  /** The filter predicate: true means `file` is copied. */
  function Keep(tmpDir: string, exclude: Option<seq<string>>, file: string): (k: bool)
    ensures k <==> forall item :: item in Exclusions(exclude) ==> Join(tmpDir, item) != file
  {
    Every(tmpDir, Exclusions(exclude), file)
  }

  /** With no exclusions, absent or empty, every path is copied. */
  lemma KeepWithoutExclusions(tmpDir: string, file: string)
    ensures Keep(tmpDir, None, file)
    ensures Keep(tmpDir, Some([]), file)
  {
  }

  /**
    A rejected path is `tmpDir + "/"` followed by one of the listed items,
    so the item can be read back from the path itself.
   */
  lemma RejectedIsListed(tmpDir: string, items: seq<string>, file: string)
    requires !Keep(tmpDir, Some(items), file)
    ensures |file| > |tmpDir| && file[..|tmpDir| + 1] == tmpDir + "/"
    ensures file[|tmpDir| + 1..] in items
  {
  }

  /**
    The filter rejects `tmpDir/item` and accepts every path below it: the
    comparison is equality, not prefix matching. Whether the paths below a
    rejected directory are visited at all is up to the copy's traversal,
    which is not modelled.
   */
  lemma ExclusionIsExact(tmpDir: string, item: string, rest: string)
    ensures !Keep(tmpDir, Some([item]), Join(tmpDir, item))
    ensures Keep(tmpDir, Some([item]), Join(Join(tmpDir, item), rest))
  {
  }

  /** Listing more items can only reject more paths; the lists combine by conjunction. */
  lemma KeepConcat(tmpDir: string, a: seq<string>, b: seq<string>, file: string)
    ensures Keep(tmpDir, Some(a + b), file) <==> Keep(tmpDir, Some(a), file) && Keep(tmpDir, Some(b), file)
  {
  }

  /** The exclusion list the generator passes (index.js:79). */
  const ManifestFile := "package.json"

  /** With `['package.json']` exactly the staged manifest is skipped. */
  lemma ManifestExcluded(tmpDir: string, file: string)
    ensures !Keep(tmpDir, Some([ManifestFile]), file) <==> file == Join(tmpDir, ManifestFile)
  {
  }

  /** A `package.json` in any subdirectory of the staging tree is still copied. */
  lemma NestedManifestKept(tmpDir: string, subdir: string)
    ensures Keep(tmpDir, Some([ManifestFile]), Join(Join(tmpDir, subdir), ManifestFile))
  {
  }
}
