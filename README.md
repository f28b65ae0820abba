# nail-cli-init: the generator's decision layer in Dafny

`nail-cli-init` is a scaffolding command: it downloads a project template
into a staging directory `tmp` next to the executable, asks for a project
name and an author, asks for confirmation, then copies the template into
`<invocation directory>/<name>` without its `package.json`, reads the staged
`package.json`, sets its `name` and `author`, and writes the result into the
new directory. This project models the part of `index.js` that decides things:

- the two input validators (`folderReg`, `userReg`), as character classes
  plus a scan that follows the shape of each regular expression;
- the space-to-hyphen sanitiser and the output path;
- the filter that `copyer` gives the recursive copy;
- the manifest patch, with the parsed `package` object as a class whose map
  is assigned field by field;
- the two prompt callbacks, as methods of a `Session` class that holds the
  module-level `projectName`, `authorName` and `outputPath`, and records the
  copies made and the manifests written.

`path.join` is modelled as concatenation with a single `/` separator
(`Naming.Join`). It does no normalisation. The invocation directory
(`process.cwd()`) and the staging directory (`path.join(argv[1], '..', 'tmp')`)
are given strings. `fs.existsSync(outputPath)` becomes membership of the
output path in a given set of existing paths. `readFileSync` plus
`JSON.parse` of the staged manifest becomes a lookup in a given map from
staged path to parsed manifest. A missing entry stands for the exception
that the `.catch` at index.js:88 reports. The user's answers are arguments.

Files: `wrappers.dfy` (Option), `validators.dfy`, `naming.dfy`,
`copy_filter.dfy`, `manifest.dfy`, `generator.dfy`.

Facts about `index.js` that the model keeps:

- On a no, index.js:78-86 does nothing: there is no `else` and nothing is
  printed. `Session.TakeConfirmation` returns `Declined` and changes nothing.
- `replace(/ /g, '-')` replaces every space, leading and trailing ones
  included.
- `index.js` strips no entries from the manifest, excludes nothing but
  `package.json` from the copy, and runs no install step.

## Model

| member | source | states |
|---|---|---|
| Validators.IsValidProjectName | index.js:16 | the project-name pattern accepts a string iff it is non-empty and contains none of `\ / : * ? " < > \|`; spaces and hyphens are allowed |
| Validators.RepeatsAuthorChar | index.js:17 | the bounded repetition `[a-zA-Z0-9_-]{min,max}$` matches iff the length is in `[min, max]` and every character is an ASCII letter, digit, `_` or `-` |
| Validators.IsValidAuthor | index.js:17 | the author pattern accepts iff the length is between 4 and 16 inclusive and every character is in `[a-zA-Z0-9_-]` |
| Naming.Join | index.js:66 | the joined path is `dir`, one `/`, then `name`; both parts can be read back from the result |
| Naming.JoinInjective | index.js:66 | under one directory, two names give the same joined path iff they are equal |
| Naming.Sanitize | index.js:63 | the result has the input's length; each position holds `-` where the input had a space and the input's character otherwise |
| Naming.SanitizeHasNoSpace | index.js:63 | the sanitised name contains no space |
| Naming.SanitizeFixedPoint | index.js:63 | sanitising leaves a name unchanged iff it has no space |
| Naming.SanitizeIdempotent | index.js:63 | sanitising twice equals sanitising once |
| Naming.SanitizeAppend | index.js:63 | sanitising a concatenation is the concatenation of the sanitised parts |
| Naming.SanitizePreservesValidity | index.js:63 | a name the project-name validator accepted is still accepted after sanitising |
| Naming.OutputPath | index.js:63-66 | the invocation directory joined with the sanitised name. Its properties are stated by `Naming.OutputPathIsChild` and `Naming.OutputPathCollision` |
| Naming.OutputPathIsChild | index.js:63-66 | for an accepted name, the output path is `cmdDir + "/"` followed by the sanitised name, a non-empty component with no `/` and no space |
| Naming.OutputPathCollision | index.js:63-66 | two raw names share an output path iff their sanitised forms are equal |
| Naming.SanitizeExample | index.js:63 | `"My Project"` becomes `"My-Project"`: case is kept, only the space changes |
| Naming.SplitAtSpace | index.js:63 | two space-free words around one space sanitise to the words around one hyphen |
| Naming.OutputPathExample | index.js:63-66 | `"demo app"` in `/work` gives the name `demo-app` and the path `/work/demo-app` |
| CopyFilter.Every | index.js:45 | `every` over the exclude list holds iff no item joined to `tmpDir` equals the path |
| CopyFilter.Exclusions | index.js:42 | `exclude \|\| []`: an absent list is empty. Its effect is stated by `CopyFilter.Keep` and `CopyFilter.KeepWithoutExclusions` |
| CopyFilter.Keep | index.js:41-46 | a path is copied iff it differs from `tmpDir` joined with every excluded item; an absent list counts as empty |
| CopyFilter.KeepWithoutExclusions | index.js:42 | with an absent or empty exclude list every path is copied |
| CopyFilter.RejectedIsListed | index.js:45 | a rejected path starts with `tmpDir + "/"` and the rest of it is one of the listed items |
| CopyFilter.ExclusionIsExact | index.js:45 | the filter rejects `tmpDir/item` and accepts every path below it: equality, not prefix matching. Whether those paths are visited is the copy's traversal, which is not modelled |
| CopyFilter.KeepConcat | index.js:45 | the filter for a concatenated exclude list is the conjunction of the filters for the two parts |
| CopyFilter.ManifestExcluded | index.js:79 | with `['package.json']`, a path is rejected iff it is exactly `tmpDir/package.json` |
| CopyFilter.NestedManifestKept | index.js:79 | a `package.json` in any subdirectory of the staging tree is copied |
| Manifest.Patch | index.js:80-82 | after patching, `name` and `author` hold the given strings, the key set is the old one plus those two, and every other key keeps its value |
| Manifest.PatchIdempotent | index.js:81-82 | patching again with the same answers changes nothing |
| Manifest.PackageObject.constructor | index.js:80 | the object holds exactly the parsed manifest |
| Manifest.PackageObject.Set | index.js:81-82 | assigning a property replaces that key's value and leaves the other keys alone |
| Generator.ConfirmMessage | index.js:72-74 | the wording is "Generate project in current directory?" iff the target does not exist, and "Target directory exists. Continue?" iff it does |
| Generator.Session.constructor | index.js:19-21 | a fresh session has the defaults `nail-app`, `OwlAford` and an empty output path, and has copied and written nothing |
| Generator.Session.TakeAnswers | index.js:50-76 | with both answers valid, it stores the sanitised name, the raw author and the output path, and returns the wording chosen by whether that path exists; otherwise it returns no prompt and changes nothing |
| Generator.Session.TakeConfirmation | index.js:77-88 | something is copied iff the user confirmed. On yes it records one copy of the staging tree into the output path excluding `package.json`. If `copySync` throws, nothing is written. If the staged manifest cannot be read, the copy stays and nothing is written. If `writeFileSync` throws, nothing is written. Otherwise the patched staged manifest is written to `outputPath/package.json`. On no, nothing changes. The existence check is not consulted; whether a call throws is an input |
| Generator.RunConfirmed | index.js:62-86 | a confirmed run with valid answers, in which no filesystem call throws, prompts by the existence of the output path and writes `Patch(template, sanitised name, author)` to `<output path>/package.json` |
| Generator.DemoAppTwice | index.js:62-86 | two confirmed runs of `"demo app"` / `"owl_aford"`, the second with the first run's output path as the only existing path: the first is asked "Generate project in current directory?", the second "Target directory exists. Continue?", and both write the same manifest: `name` is `demo-app`, `author` is `owl_aford`, and every other template key is kept |
| Generator.DemoAnswersValid | index.js:16-17 | `"demo app"` passes the project-name validator and `"owl_aford"` passes the author validator |

## Left out

- Template download through `download-git-repo`, the spinner and all
  coloured console output (index.js:11, 23, 25-39, 84-85, 88): network I/O
  and UI. The model starts once the template is staged.
- Inquirer's prompting, its re-prompt loop and the promise chaining
  (index.js:50-61, 69-76, 92): interactive and asynchronous plumbing. Answers
  are arguments. A rejected answer is modelled as a call that changes nothing.
- The recursive traversal of `fs.copySync`, its dereferencing of symbolic
  links and its file writes (index.js:43-46): a library whose source is not
  part of this model. Only the filter predicate is modelled. A copy is
  recorded as a `CopyCall` value.
- `fs.existsSync`, `readFileSync` and `writeFileSync` (index.js:67, 80, 83):
  filesystem calls. They are passed in or recorded, as described above.
  Whether `copySync` or `writeFileSync` throws is a boolean input of
  `Session.TakeConfirmation`, not derived from the filesystem. For example,
  a target that exists as a regular file gets the "exists" wording and then
  makes `copySync` throw; the model represents that only when the caller
  passes `copyThrows`.
- `JSON.parse` and `JSON.stringify(…, null, 2)` (index.js:80, 83): library
  serialisation. The manifest is a map from key to JSON value. Key order and
  formatting are not modelled. A top-level JSON value that is not an object
  is not modelled. How `JSON.parse` and `JSON.stringify` re-format numbers
  (`1.0` written as `1`, integers above 2^53 rounded) is not modelled.
- `path.join` normalisation (index.js:15, 45, 66, 80, 83). With it, a name
  such as `..` (which the validator accepts) would resolve outside the
  invocation directory, and an exclude item `./package.json` would reject
  `tmpDir/package.json`. With plain concatenation neither happens.
- `process.cwd()` and `process.argv` (index.js:12-15): environment. The
  staging directory is a given string, not derived from `argv[1]`.
- `Validators.IsValidProjectName`, `Validators.IsValidAuthor`: characters are
  Unicode scalar values, not JavaScript's UTF-16 code units. The author class
  is ASCII, so lengths agree there. For project names only emptiness matters,
  and that does not depend on the encoding.
- The unused `packageJson` import (index.js:8).
