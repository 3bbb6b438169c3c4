/** The plain board space: a slot holding zero or one element, read through
    an optional view and changed in place. */
module BoardSpace {
  import opened Wrappers
  import SlotText

  /** Rust's `std::cmp::Ordering`. */
  datatype Ordering = Less | Equal | Greater {
    function Reverse(): Ordering
    {
      match this
      case Less => Greater
      case Equal => Equal
      case Greater => Less
    }
  }

  /** `cmp` is a total order on `T` in the sense of Rust's `Ord`. */
  ghost predicate TotalOrder<T(!new)>(cmp: (T, T) -> Ordering)
  {
    && (forall x, y :: cmp(x, y) == Equal <==> x == y)
    && (forall x, y :: cmp(y, x) == cmp(x, y).Reverse())
    && (forall x, y, z :: cmp(x, y) == Less && cmp(y, z) == Less ==> cmp(x, z) == Less)
  }

  /** The ordering Rust derives for `Option<T>`: no element comes before
      every element, two elements compare as `cmp` says. */
  function CompareOptions<T>(a: Option<T>, b: Option<T>, cmp: (T, T) -> Ordering): Ordering
  {
    match (a, b)
    case (None, None) => Equal
    case (None, Some(_)) => Less
    case (Some(_), None) => Greater
    case (Some(x), Some(y)) => cmp(x, y)
  }

  /** The derived ordering of spaces is a total order whenever the ordering
      of their elements is. */
  lemma DerivedOrderIsTotal<T(!new)>(cmp: (T, T) -> Ordering)
    requires TotalOrder(cmp)
    ensures TotalOrder((a: Option<T>, b: Option<T>) => CompareOptions(a, b, cmp))
  {
    var ocmp := (a: Option<T>, b: Option<T>) => CompareOptions(a, b, cmp);
    forall a: Option<T>, b: Option<T> ensures ocmp(a, b) == Equal <==> a == b {
      if a.Some? && b.Some? {
        assert cmp(a.value, b.value) == Equal <==> a.value == b.value;
      }
    }
    forall a: Option<T>, b: Option<T> ensures ocmp(b, a) == ocmp(a, b).Reverse() {
      if a.Some? && b.Some? {
        assert cmp(b.value, a.value) == cmp(a.value, b.value).Reverse();
      }
    }
    forall a: Option<T>, b: Option<T>, c: Option<T> | ocmp(a, b) == Less && ocmp(b, c) == Less
      ensures ocmp(a, c) == Less
    {
      if a.Some? {
        assert cmp(a.value, b.value) == Less && cmp(b.value, c.value) == Less;
      }
    }
  }

  /** For a total element ordering, the derived ordering calls two spaces
      `Equal` exactly when the derived equality does. */
  lemma CompareAgreesWithEquals<T(!new)>(s: Space<T>, t: Space<T>, cmp: (T, T) -> Ordering)
    requires TotalOrder(cmp)
    ensures s.Compare(t, cmp) == Equal <==> s.Equals(t)
  {
  }

  /** A space on a board, that may or may not contain an element. */
  class Space<T(==)> {
    var element: Option<T>

    /** An empty space. */
    constructor New()
      ensures Element() == None && IsEmpty()
    {
      element := None;
    }

    /** A space containing `e`. */
    constructor WithElement(e: T)
      ensures Element() == Some(e) && HasElement()
    {
      element := Some(e);
    }

    /** Conversion from an optional element: the space reads back exactly
        the option it was made from. */
    constructor From(o: Option<T>)
      ensures Element() == o
    {
      element := o;
    }

    /** The optional view of the content. */
    function Element(): Option<T>
      reads this
    {
      element
    }

    predicate IsEmpty()
      reads this
    {
      Element().None?
    }

    /** True exactly when the space is not empty. */
    function HasElement(): (b: bool)
      reads this
      ensures b <==> !IsEmpty()
    {
      Element().Some?
    }

    /** The derived `PartialEq`: two spaces are equal when they hold the
        same content, whichever objects they are. */
    predicate Equals(other: Space<T>)
      reads this, other
    {
      element == other.element
    }

    /** Replaces the content, whatever it was before. */
    method SetOptionalElement(o: Option<T>)
      modifies this
      ensures Element() == o
      ensures old(Element()) == o ==> unchanged(this)
    {
      element := o;
    }

    /** Puts `e` in the space, replacing any element; doing it again with
        the same element changes nothing. */
    method SetElement(e: T)
      modifies this
      ensures Element() == Some(e) && HasElement()
      ensures old(Element()) == Some(e) ==> unchanged(this)
    {
      SetOptionalElement(Some(e));
    }

    /** Empties the space; clearing an empty space changes nothing. */
    method Clear()
      modifies this
      ensures Element() == None && IsEmpty()
      ensures old(IsEmpty()) ==> unchanged(this)
    {
      SetOptionalElement(None);
    }

    /** `|x|` for a space holding `x`, `| |` for an empty one. */
    function ToString(show: T -> string): (s: string)
      reads this
      ensures IsEmpty() ==> s == "| |"
      ensures HasElement() ==> s == "|" + show(Element().value) + "|"
    {
      SlotText.Render(Element(), show)
    }

    /** The derived `Ord`: spaces compare by their optional content, so an
        empty space sorts before every occupied one. */
    function Compare(other: Space<T>, cmp: (T, T) -> Ordering): (r: Ordering)
      reads this, other
      ensures IsEmpty() && other.HasElement() ==> r == Less
      ensures HasElement() && other.IsEmpty() ==> r == Greater
      ensures IsEmpty() && other.IsEmpty() ==> r == Equal
      ensures HasElement() && other.HasElement() ==> r == cmp(Element().value, other.Element().value)
    {
      CompareOptions(Element(), other.Element(), cmp)
    }
  }
}
