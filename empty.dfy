/** The always-empty space: a slot with no storage that can only be
    constructed and always shows as blank. */
module EmptySpaces {
  import opened Wrappers
  import SlotText
  import ContainerSpaces

  /** A space in a board that never contains an element. It has no fields,
      so it has exactly one value. */
  datatype EmptySpace = EmptySpace

  /** The inherent constructor. */
  function New(): (s: EmptySpace)
  {
    EmptySpace
  }

  /** The construction capability of spaces, for any element type `T`:
      it delegates to the inherent constructor. */
  function NewSpace<T>(): (s: EmptySpace)
    ensures s == New()
  {
    New()
  }

  /** Equality is derived and there are no fields: all values are equal. */
  lemma AllEqual(a: EmptySpace, b: EmptySpace)
    ensures a == b
  {
  }

  /** An always-empty space renders as `| |`. */
  function ToString(s: EmptySpace): (r: string)
    ensures |r| == 3 && r[0] == '|' && r[2] == '|'
    ensures r[1..2] == SlotText.Blank
  {
    "| |"
  }

  /** An always-empty space renders exactly as an empty slot of any element
      type, whatever that type's text form. */
  lemma RendersAsEmptySlot<T>(s: EmptySpace, show: T -> string)
    ensures ToString(s) == SlotText.Render(None, show)
  {
  }

  /** ... and in particular as an empty container space. */
  lemma RendersAsEmptyContainer<T>(s: EmptySpace, c: ContainerSpaces.ContainerSpace<T>, show: T -> string)
    requires c.IsEmpty()
    ensures ToString(s) == c.ToString(show)
  {
  }
}
