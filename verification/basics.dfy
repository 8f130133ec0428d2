/** Small value types shared by every part of the bridge. */
module Basics {

  /** A value that may be missing: a SQL NULL, or a JSON value read with `.get`,
      where an absent key and a null value give the same `None`. Where the
      presence of a null-valued key matters, the enclosing type records it. */
  datatype Option<+T> = None | Some(value: T)

  /** The two relay paths. Each has its own provenance tag and endpoint pairing. */
  datatype Direction = AtoB | BtoA {

    function Opposite(): Direction {
      if this == AtoB then BtoA else AtoB
    }

    /** The first letter of the direction's name, the side the content comes from. */
    function Origin(): char {
      if this == AtoB then 'A' else 'B'
    }
  }

  /** Python's `x or ""` on an optional string. */
  function OrEmpty(o: Option<string>): string {
    if o.Some? then o.value else ""
  }

  /** Python truthiness of an optional string: present and non-empty. */
  predicate Truthy(o: Option<string>) {
    o.Some? && o.value != ""
  }

  /** Python's `str(x)` on an optional string: a missing value prints as "None". */
  function IdText(o: Option<string>): string {
    if o.Some? then o.value else "None"
  }
}
