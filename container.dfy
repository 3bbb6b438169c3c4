/** The container space: the same slot as the plain space, read through
    `AsOption`, with a fallible accessor that reports an empty slot as an
    error. */
module ContainerSpaces {
  import opened Wrappers
  import SlotText

  /** There is no element at the given space. */
  datatype NoElementError = NoElementError

  /** The fixed message of `NoElementError`. */
  const NoElementMessage: string := "The space did not have an element"

  /** A space in a board, that may or may not contain an element. */
  class ContainerSpace<T(==)> {
    var element: Option<T>

    /** The construction capability every kind of space has: an empty slot. */
    constructor New()
      ensures AsOption() == None && IsEmpty()
    {
      element := None;
    }

    /** A space containing `e`. */
    constructor WithElement(e: T)
      ensures AsOption() == Some(e) && HasElement()
    {
      element := Some(e);
    }

    /** Conversion from an optional element: the space reads back exactly
        the option it was made from. */
    constructor From(o: Option<T>)
      ensures AsOption() == o
    {
      element := o;
    }

    /** The optional view of the content. */
    function AsOption(): Option<T>
      reads this
    {
      element
    }

    predicate IsEmpty()
      reads this
    {
      AsOption().None?
    }

    /** True exactly when the space is not empty. */
    function HasElement(): (b: bool)
      reads this
      ensures b <==> !IsEmpty()
    {
      AsOption().Some?
    }

    /** The element, or `NoElementError` exactly when the space is empty. */
    function Element(): (r: Result<T, NoElementError>)
      reads this
      ensures r.Ok? <==> HasElement()
      ensures r.Ok? ==> AsOption() == Some(r.value)
      ensures r.Err? <==> IsEmpty()
      ensures r.Err? ==> r.error == NoElementError
    {
      match AsOption()
      case Some(p) => Ok(p)
      case None => Err(NoElementError)
    }

    /** The derived `PartialEq`: two spaces are equal exactly when their
        fallible accessors give the same answer. */
    function Equals(other: ContainerSpace<T>): (r: bool)
      reads this, other
      ensures r <==> Element() == other.Element()
    {
      element == other.element
    }

    /** Replaces the content, whatever it was before. */
    method SetOptionalElement(o: Option<T>)
      modifies this
      ensures AsOption() == o
      ensures old(AsOption()) == o ==> unchanged(this)
    {
      element := o;
    }

    /** Puts `e` in the space, replacing any element; the space then holds
        `e` and `Element` returns it. Doing it again changes nothing. */
    method SetElement(e: T)
      modifies this
      ensures AsOption() == Some(e)
      ensures HasElement() && Element() == Ok(e)
      ensures old(AsOption()) == Some(e) ==> unchanged(this)
    {
      SetOptionalElement(Some(e));
    }

    /** Empties the space; `Element` then fails. Clearing an empty space
        changes nothing. */
    method Clear()
      modifies this
      ensures AsOption() == None
      ensures IsEmpty() && Element() == Err(NoElementError)
      ensures old(IsEmpty()) ==> unchanged(this)
    {
      SetOptionalElement(None);
    }

    /** `|x|` for a space holding `x`, `| |` for an empty one. */
    function ToString(show: T -> string): (s: string)
      reads this
      ensures IsEmpty() ==> s == "| |"
      ensures HasElement() ==> s == "|" + show(AsOption().value) + "|"
    {
      SlotText.Render(AsOption(), show)
    }
  }
}
