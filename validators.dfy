/**
  The two input validators of the first prompt group (index.js:16-17, 54, 59).
  Each regular expression is modelled as a character class plus a scan that
  follows the shape of the pattern, not as a regular-expression engine.
 */
module Validators {

  /** The characters the project-name class `[^\/:*?"<>|]` leaves out. */
  predicate IsReservedFileChar(c: char) {
    c == '\\' || c == '/' || c == ':' || c == '*' || c == '?' ||
    c == '"' || c == '<' || c == '>' || c == '|'
  }

  /** The author class `[a-zA-Z0-9_-]`: ASCII letters, digits, underscore, hyphen. */
  predicate IsAuthorChar(c: char) {
    ('a' <= c <= 'z') || ('A' <= c <= 'Z') || ('0' <= c <= '9') || c == '_' || c == '-'
  }

  /**
    The project-name pattern `^[^…]+$`: one allowed character, then either the
    end of the input or one more repetition of the same pattern.
   */
  function IsValidProjectName(s: string): (ok: bool)
    ensures ok <==> |s| > 0 && forall i :: 0 <= i < |s| ==> !IsReservedFileChar(s[i])
  {
    |s| > 0 && !IsReservedFileChar(s[0]) && (|s| == 1 || IsValidProjectName(s[1..]))
  }

  /**
    `[a-zA-Z0-9_-]{min,max}$` matched from the start of `s`: at most `max`
    class characters are consumed, at least `min` of them, and then the input
    must end.
   */
  function RepeatsAuthorChar(s: string, min: nat, max: nat): (ok: bool)
    ensures ok <==> min <= |s| <= max && forall i :: 0 <= i < |s| ==> IsAuthorChar(s[i])
  {
    if s == [] then min == 0
    else max > 0 && IsAuthorChar(s[0]) &&
         RepeatsAuthorChar(s[1..], if min > 0 then min - 1 else 0, max - 1)
  }

  /** The author pattern `^[a-zA-Z0-9_-]{4,16}$`. */
  function IsValidAuthor(s: string): (ok: bool)
    ensures ok <==> 4 <= |s| <= 16 && forall i :: 0 <= i < |s| ==> IsAuthorChar(s[i])
  {
    RepeatsAuthorChar(s, 4, 16)
  }
}
