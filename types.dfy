/** Values shared by the components of the annotator. */
module Types {

  /** An unsigned 8-bit value, as held by a `Uint8Array`. */
  newtype byte = x: int | 0 <= x < 256

  datatype Option<T> = None | Some(value: T)

  /** The four annotation tools of lib/types.ts. */
  datatype AnnotationType = Highlight | Underline | Comment | Signature

  /** A browser `File`: its name and its bytes (its `size` is their number). */
  datatype File = File(name: string, content: seq<byte>) {
    function Size(): nat { |content| }
  }

  /** A point in CSS pixels. Coordinates are exact integers here. */
  datatype Point = Point(x: int, y: int)

  function Min(a: int, b: int): int { if a <= b then a else b }
  function Max(a: int, b: int): int { if a >= b then a else b }
}
