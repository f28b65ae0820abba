/**
  The project name as it is used after the first prompt: spaces become
  hyphens (index.js:63) and the result is joined to the invocation directory
  (index.js:66).

  `path.join` is modelled as concatenation with exactly one `/` between the
  two parts; its normalisation of `.`, `..` and repeated separators is not.
 */
module Naming {
  import opened Validators

  /** `path.join(dir, name)` without normalisation. */
  function Join(dir: string, name: string): (p: string)
    ensures |p| == |dir| + 1 + |name|
    ensures p[..|dir|] == dir && p[|dir|] == '/' && p[|dir| + 1..] == name
  {
    dir + "/" + name
  }

  /** The separator position of `Join` gives both parts back. */
  lemma JoinInjective(dir: string, a: string, b: string)
    ensures Join(dir, a) == Join(dir, b) <==> a == b
  {
  }

  /** `name.replace(/ /g, '-')`: every space becomes a hyphen. */
  function Sanitize(s: string): (r: string)
    ensures |r| == |s|
    ensures forall i :: 0 <= i < |s| ==> r[i] == if s[i] == ' ' then '-' else s[i]
  {
    if s == [] then [] else [if s[0] == ' ' then '-' else s[0]] + Sanitize(s[1..])
  }

  /** The sanitised name holds no space. */
  lemma SanitizeHasNoSpace(s: string)
    ensures ' ' !in Sanitize(s)
  {
  }

  /** Sanitising a name that has no space returns it unchanged, and only then. */
  lemma SanitizeFixedPoint(s: string)
    ensures Sanitize(s) == s <==> ' ' !in s
  {
  }

  /** Sanitising twice is the same as sanitising once. */
  lemma SanitizeIdempotent(s: string)
    ensures Sanitize(Sanitize(s)) == Sanitize(s)
  {
  }

  /** Sanitising commutes with concatenation: it works character by character. */
  lemma SanitizeAppend(a: string, b: string)
    ensures Sanitize(a + b) == Sanitize(a) + Sanitize(b)
  {
  }

  /** A hyphen is not reserved, so a valid project name stays valid. */
  lemma SanitizePreservesValidity(s: string)
    requires IsValidProjectName(s)
    ensures IsValidProjectName(Sanitize(s))
  {
  }

  /** The output path: the invocation directory joined with the sanitised name. */
  function OutputPath(cmdDir: string, rawName: string): string
  {
    Join(cmdDir, Sanitize(rawName))
  }

  /**
    For a name the validator accepted, the output path is one non-empty
    component below the invocation directory: the part after `cmdDir + "/"`
    holds neither a separator nor a space.
   */
  lemma OutputPathIsChild(cmdDir: string, rawName: string)
    requires IsValidProjectName(rawName)
    ensures var p := OutputPath(cmdDir, rawName);
      var leaf := p[|cmdDir| + 1..];
      p[..|cmdDir| + 1] == cmdDir + "/" && leaf == Sanitize(rawName) &&
      |leaf| > 0 && '/' !in leaf && ' ' !in leaf
  {
  }

  /** Two raw names lead to the same output path iff their sanitised forms agree. */
  lemma OutputPathCollision(cmdDir: string, a: string, b: string)
    ensures OutputPath(cmdDir, a) == OutputPath(cmdDir, b) <==> Sanitize(a) == Sanitize(b)
  {
  }

  /** Case is kept; only spaces change: "My Project" becomes "My-Project". */
  lemma SanitizeExample()
    ensures Sanitize("My Project") == "My-Project"
  {
  }

  /** The scenario name "demo app" lands in `cmdDir + "/demo-app"`. */
  lemma OutputPathExample()
    ensures Sanitize("demo app") == "demo-app"
    ensures OutputPath("/work", "demo app") == "/work/demo-app"
  {
  }

  /** A name with one space between two space-free words. */
  lemma SplitAtSpace(a: string, b: string)
    requires ' ' !in a && ' ' !in b
    ensures Sanitize(a + " " + b) == a + "-" + b
  {
  }
}
