/**
  The template's `package.json` once parsed: a JSON object, that is a map
  from keys to JSON values. Only `name` and `author` are ever written
  (index.js:80-82); every other value is carried through untouched.
 */
module Manifest {

  /** A JSON value; a number is held as text, and how parsing and printing re-format it is not modelled. */
  datatype Json =
    | Null
    | Bool(b: bool)
    | Number(literal: string)
    | Str(s: string)
    | Array(elements: seq<Json>)
    | Object(members: map<string, Json>)

  type Document = map<string, Json>

  /**
    The manifest after the generator's patch: `name` and `author` hold the
    given strings (added when the template lacked them) and every other key
    keeps its value; no key is removed.
   */
  function Patch(doc: Document, name: string, author: string): (r: Document)
    ensures r.Keys == doc.Keys + {"name", "author"}
    ensures r["name"] == Str(name) && r["author"] == Str(author)
    ensures forall k :: k in doc && k != "name" && k != "author" ==> r[k] == doc[k]
  {
    doc["name" := Str(name)]["author" := Str(author)]
  }

  /** Patching a patched manifest with the same answers changes nothing. */
  lemma PatchIdempotent(doc: Document, name: string, author: string)
    ensures Patch(Patch(doc, name, author), name, author) == Patch(doc, name, author)
  {
  }

  /** The parsed `package` object, whose properties the generator assigns one at a time. */
  class PackageObject {
    var members: Document

    constructor (parsed: Document)
      ensures members == parsed
    {
      members := parsed;
    }

    /** `package[key] = value`. */
    method Set(key: string, value: Json)
      modifies this
      ensures members == old(members)[key := value]
    {
      members := members[key := value];
    }
  }
}
