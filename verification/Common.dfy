module Options {
  datatype Option<T> = None | Some(value: T)
}

module Text {
  /** White space as strings.TrimSpace and strings.Fields see it, within ASCII. */
  predicate IsSpace(c: char) {
    c in " \t\n\r\U{0B}\U{0C}"
  }

  predicate Blank(s: string) {
    forall i | 0 <= i < |s| :: IsSpace(s[i])
  }
}
