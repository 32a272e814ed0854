/** Values shared by the models: optional results and the two text tests that the
    definitions and the turn queue both apply to their strings. */
module Prelude {
  datatype Option<+T> = None | Some(value: T)

  /** The characters that String.prototype.trim removes. */
  predicate IsSpace(c: char) {
    || '\t' <= c <= '\r'
    || c in {' ', '\U{00A0}', '\U{1680}', '\U{2028}', '\U{2029}', '\U{202F}', '\U{205F}', '\U{3000}', '\U{FEFF}'}
    || '\U{2000}' <= c <= '\U{200A}'
  }

  /** A string with something left after trimming. */
  predicate HasText(s: string) {
    exists i :: 0 <= i < |s| && !IsSpace(s[i])
  }
}
