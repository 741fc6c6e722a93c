/** The names that can register a configuration (config/id.go). */
module ConfigID {
  predicate WordChar(c: char) {
    'a' <= c <= 'z' || 'A' <= c <= 'Z' || '0' <= c <= '9' || c == '_'
  }

  /** `ID.Check`. */
  predicate ValidSubID(type_: string, instance: string) {
    && type_ != "" && (forall c :: c in type_ ==> WordChar(c))
    && instance != "" && (forall c :: c in instance ==> WordChar(c) || c == ':' || c == '-')
  }
}
