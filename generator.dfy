/**
  The generator's run after the template is staged (index.js:19-21, 49-90):
  the module-level answers and output path, the confirmation prompt, and the
  copy and manifest write that only a confirmation triggers.

  Inputs the process gets from outside are parameters: the invocation
  directory and the staging directory are given strings, `fs.existsSync` is
  membership in a set of existing paths, the staged files that
  `readFileSync` + `JSON.parse` can read are a map from path to parsed
  manifest, and the user's answers are arguments.
 */
module Generator {
  import opened Wrappers
  import opened Validators
  import opened Naming
  import opened CopyFilter
  import opened Manifest

  const DefaultProjectName := "nail-app"
  const DefaultAuthor := "OwlAford"
  const NewTargetPrompt := "Generate project in current directory?"
  const ExistingTargetPrompt := "Target directory exists. Continue?"

  /** The confirmation wording; it depends on nothing but whether the target exists. */
  function ConfirmMessage(inPlace: bool): (msg: string)
    ensures msg == NewTargetPrompt <==> !inPlace
    ensures msg == ExistingTargetPrompt <==> inPlace
  {
    if !inPlace then NewTargetPrompt else ExistingTargetPrompt
  }

  /** One call `copyer(from, to, exclude)`; its filter is `Keep(tmpDir, exclude, ·)`. */
  datatype CopyCall = CopyCall(from: string, to: string, exclude: Option<seq<string>>)

  /**
    How the confirmation callback ends: the user declined (nothing happens),
    the project was generated, or one of the filesystem calls threw and the
    `.catch` at index.js:88 reported it. `copySync` throwing (index.js:79)
    stops the callback before the manifest is read; reading or parsing the
    staged manifest throwing (index.js:80) stops it after the copy;
    `writeFileSync` throwing (index.js:83) stops it with nothing written.
   */
  datatype Outcome = Declined | Generated | CopyFailed | ManifestUnreadable | WriteFailed

  class Session {
    const cmdDir: string
    const tmpDir: string
    var projectName: string
    var authorName: string
    var outputPath: string
    /** The `copyer` calls made so far, in order. */
    var copies: seq<CopyCall>
    /** The manifests written by `writeFileSync`, by path. */
    var written: map<string, Document>

    constructor (cmdDir: string, tmpDir: string)
      ensures this.cmdDir == cmdDir && this.tmpDir == tmpDir
      ensures projectName == DefaultProjectName && authorName == DefaultAuthor && outputPath == ""
      ensures copies == [] && written == map[]
    {
      this.cmdDir := cmdDir;
      this.tmpDir := tmpDir;
      projectName := DefaultProjectName;
      authorName := DefaultAuthor;
      outputPath := "";
      copies := [];
      written := map[];
    }

    /**
      What holds once the first prompt group has been answered: the stored
      name is a valid, space-free project name, the author passed its
      validator, and the output path is the name below the invocation directory.
     */
    ghost predicate Answered()
      reads this
    {
      IsValidProjectName(projectName) && ' ' !in projectName &&
      IsValidAuthor(authorName) &&
      outputPath == Join(cmdDir, projectName)
    }

    /**
      The first prompt group and its callback (index.js:50-76). Inquirer
      resolves only when both validators accept; until then nothing changes
      and no confirmation is asked (`None`). On acceptance the answers are
      stored and the confirmation wording is returned.
     */
    method TakeAnswers(rawName: string, rawAuthor: string, existing: set<string>)
      returns (prompt: Option<string>)
      modifies this`projectName, this`authorName, this`outputPath
      ensures IsValidProjectName(rawName) && IsValidAuthor(rawAuthor) ==>
        && projectName == Sanitize(rawName)
        && authorName == rawAuthor
        && outputPath == OutputPath(cmdDir, rawName)
        && Answered()
        && prompt == Some(ConfirmMessage(outputPath in existing))
      ensures !(IsValidProjectName(rawName) && IsValidAuthor(rawAuthor)) ==>
        && prompt == None
        && projectName == old(projectName)
        && authorName == old(authorName)
        && outputPath == old(outputPath)
    {
      if !IsValidProjectName(rawName) || !IsValidAuthor(rawAuthor) {
        return None;
      }
      projectName := Sanitize(rawName);
      authorName := rawAuthor;
      outputPath := Join(cmdDir, projectName);
      SanitizePreservesValidity(rawName);
      SanitizeHasNoSpace(rawName);
      var inPlace := outputPath in existing;
      prompt := Some(ConfirmMessage(inPlace));
    }

    /**
      The confirmation callback (index.js:77-87). Only a yes copies the
      staged tree without its manifest and writes the patched manifest into
      the output directory. The existence check of index.js:67 is not an
      input here: only the wording depended on it. Whether `copySync` or
      `writeFileSync` throws is decided by the filesystem (for one, a target
      that exists as a regular file makes the copy throw), so both are inputs.
     */
    method TakeConfirmation(ok: bool, copyThrows: bool, staging: map<string, Document>, writeThrows: bool)
      returns (outcome: Outcome)
      requires Answered()
      modifies this`copies, this`written
      ensures copies != old(copies) <==> ok
      ensures !ok ==> outcome == Declined && copies == old(copies) && written == old(written)
      ensures ok ==> copies == old(copies) + [CopyCall(tmpDir, outputPath, Some([ManifestFile]))]
      ensures ok && copyThrows ==> outcome == CopyFailed && written == old(written)
      ensures ok && !copyThrows && Join(tmpDir, ManifestFile) !in staging ==>
        outcome == ManifestUnreadable && written == old(written)
      ensures ok && !copyThrows && Join(tmpDir, ManifestFile) in staging && writeThrows ==>
        outcome == WriteFailed && written == old(written)
      ensures ok && !copyThrows && Join(tmpDir, ManifestFile) in staging && !writeThrows ==>
        && outcome == Generated
        && written == old(written)[Join(outputPath, ManifestFile) :=
                                   Patch(staging[Join(tmpDir, ManifestFile)], projectName, authorName)]
    {
      if !ok {
        return Declined;
      }
      copies := copies + [CopyCall(tmpDir, outputPath, Some([ManifestFile]))];
      if copyThrows {
        return CopyFailed;
      }
      var source := Join(tmpDir, ManifestFile);
      if source !in staging {
        return ManifestUnreadable;
      }
      var package := new PackageObject(staging[source]);
      package.Set("name", Str(projectName));
      package.Set("author", Str(authorName));
      if writeThrows {
        return WriteFailed;
      }
      written := written[Join(outputPath, ManifestFile) := package.members];
      outcome := Generated;
    }
  }

  /**
    One whole run that the user confirms and in which no filesystem call
    throws: a fresh session takes valid answers, is asked according to
    whether the output path exists, and writes the patched staged manifest
    into the output directory.
   */
  method RunConfirmed(cmdDir: string, tmpDir: string, rawName: string, rawAuthor: string,
                      template: Document, existing: set<string>)
    returns (prompt: Option<string>, outputPath: string, target: string, manifest: Document)
    requires IsValidProjectName(rawName) && IsValidAuthor(rawAuthor)
    ensures outputPath == OutputPath(cmdDir, rawName)
    ensures prompt == Some(ConfirmMessage(outputPath in existing))
    ensures target == Join(outputPath, ManifestFile)
    ensures manifest == Patch(template, Sanitize(rawName), rawAuthor)
  {
    var run := new Session(cmdDir, tmpDir);
    prompt := run.TakeAnswers(rawName, rawAuthor, existing);
    var outcome := run.TakeConfirmation(true, false, map[Join(tmpDir, ManifestFile) := template], false);
    outputPath := run.outputPath;
    target := Join(outputPath, ManifestFile);
    manifest := run.written[target];
  }

  /**
    Running twice into the same place with name "demo app" and author
    "owl_aford", where the only existing path at the second run is the
    output directory the first run produced: the first run is asked the
    "generate" question, the second the "exists" question, and on yes the
    second writes the same manifest to the same place.
   */
  method DemoAppTwice(template: Document)
    returns (prompt1: Option<string>, prompt2: Option<string>, first: Document, second: Document)
    ensures prompt1 == Some(NewTargetPrompt)
    ensures prompt2 == Some(ExistingTargetPrompt)
    ensures first == second
    ensures "name" in first && first["name"] == Str("demo-app")
    ensures "author" in first && first["author"] == Str("owl_aford")
    ensures forall k :: k in template && k != "name" && k != "author" ==> k in first && first[k] == template[k]
  {
    OutputPathExample();
    DemoAnswersValid();
    var out1, target1, out2, target2;
    prompt1, out1, target1, first := RunConfirmed("/work", "/cli/tmp", "demo app", "owl_aford", template, {});
    prompt2, out2, target2, second := RunConfirmed("/work", "/cli/tmp", "demo app", "owl_aford", template, {out1});
    assert target1 == target2;
  }

  lemma DemoAnswersValid()
    ensures IsValidProjectName("demo app") && IsValidAuthor("owl_aford")
  {
  }
}
