/** The result codes that the declaration operations return next to their error value. */
module ErrorCodes {

  /** One constructor per `ArguDuckErrorString` constant. */
  datatype ErrorCode = OK | UnknownType | ShortInUse | ArgInUse

  /** The string each code stands for, spelled as the library spells it
      (including the transposed letters of the unknown-type code). */
  function Text(code: ErrorCode): (s: string)
    ensures s == "" <==> code == OK
    ensures code != OK ==> |s| > 0 && 'A' <= s[0] <= 'Z'
  {
    match code
    case OK => ""
    case UnknownType => "UNKNWON TYPE"
    case ShortInUse => "SHORT ALREADY USED"
    case ArgInUse => "ARG ALREADY USED"
  }

  /** Callers can tell the outcomes apart: no two codes share a string. */
  lemma TextInjective(a: ErrorCode, b: ErrorCode)
    ensures Text(a) == Text(b) ==> a == b
  {
  }
}
