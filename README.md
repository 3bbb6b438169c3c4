# Board spaces of a checkers board model

This project models the cells ("spaces") of a generic square game board, in
Dafny. A space holds either nothing or exactly one element of an arbitrary
type `T`. The Rust source has three kinds of space, and each one is modelled:

- `Space<T>` (`model/src/board/space.rs`) becomes the class `BoardSpace.Space`.
  It has one mutable field, the optional element. Its constructors are
  `New`, `WithElement` and `From`. It has the queries `Element`, `IsEmpty`,
  `HasElement`, `ToString` and `Compare`, and the in-place mutators
  `SetOptionalElement`, `SetElement` and `Clear`. Both `SetElement` and
  `Clear` go through `SetOptionalElement`, as in the source.
- `ContainerSpace<T>` (`model/src/board/spaces/container.rs`) becomes the class
  `ContainerSpaces.ContainerSpace`. It is the same slot, but its optional view
  is called `AsOption`. It adds a fallible `Element` that returns
  `Err(NoElementError)` on an empty slot.
- `EmptySpace` (`model/src/board/spaces/empty.rs`) becomes the one-value
  datatype `EmptySpaces.EmptySpace`. It can only be constructed, and it always
  renders as `| |`.

Both `Display` implementations write the same text. That text is defined once,
as `SlotText.Render`: the element's text between two pipes, or one blank
between the pipes when the slot is empty. The element's own `Display` is a
parameter `show: T -> string`. For the element type `u8` used by the unit
tests, `show` is `SlotText.ShowU8`, which is decimal text.

The derived `PartialEq` of both classes is modelled as `Equals`, which compares contents. The derived `Ord` of `Space<T>` compares the optional contents. It is modelled
as `BoardSpace.CompareOptions`, with the element ordering passed as a
parameter `cmp`.

## Model

| member | source | states |
|---|---|---|
| `BoardSpace.Space.New` | model/src/board/space.rs:19-21 | a new space reads back `None` and is empty |
| `BoardSpace.Space.WithElement` | model/src/board/space.rs:24-28 | a space made with `e` reads back `Some(e)` and has an element |
| `BoardSpace.Space.From` | model/src/board/space.rs:73-77 | round trip: a space made from the option `o` reads back exactly `o`, for every `o` |
| `BoardSpace.Space.HasElement` | model/src/board/space.rs:36-43 | `has_element` is the exact negation of `is_empty` |
| `BoardSpace.Space.SetOptionalElement` | model/src/board/space.rs:46-48 | the content becomes `o` whatever it was before; setting the current content changes nothing |
| `BoardSpace.Space.SetElement` | model/src/board/space.rs:51-53 | the content becomes `Some(e)`, replacing any element; repeating the call with the same `e` changes nothing |
| `BoardSpace.Space.Clear` | model/src/board/space.rs:56-58 | the space becomes empty; clearing an empty space changes nothing |
| `BoardSpace.Space.ToString` | model/src/board/space.rs:61-71 | an empty space renders as pipe, blank, pipe; a space holding `x` renders as the text of `x` between two pipes |
| `BoardSpace.Space.Compare` | model/src/board/space.rs:11-15 | derived ordering by content: empty before occupied, occupied after empty, two empties equal, two occupied as their elements compare |
| `BoardSpace.CompareAgreesWithEquals` | model/src/board/space.rs:11 | for a total element ordering, the derived `Ord` says `Equal` exactly when the derived `PartialEq` says equal, that is exactly when the two spaces hold the same content |
| `BoardSpace.DerivedOrderIsTotal` | model/src/board/space.rs:11 | the derived ordering of spaces is a total order (equal iff same content, antisymmetric, transitive) whenever the element ordering is |
| `ContainerSpaces.ContainerSpace.New` | model/src/board/spaces/container.rs:33-38 | the trait constructor gives a space whose option is `None` and that is empty |
| `ContainerSpaces.ContainerSpace.WithElement` | model/src/board/spaces/container.rs:52-56 | a space made with `e` has option `Some(e)` and has an element |
| `ContainerSpaces.ContainerSpace.From` | model/src/board/spaces/container.rs:101-105 | round trip: `as_option` of a space made from `o` is exactly `o`, for every `o` |
| `ContainerSpaces.ContainerSpace.HasElement` | model/src/board/spaces/container.rs:64-71 | `has_element` is the exact negation of `is_empty` |
| `ContainerSpaces.ContainerSpace.Element` | model/src/board/spaces/container.rs:42-47 | `Ok(x)` exactly when the option is `Some(x)`; `Err(NoElementError)` exactly when the space is empty |
| `ContainerSpaces.ContainerSpace.Equals` | model/src/board/spaces/container.rs:27 | derived equality compares contents, not identity: two container spaces are equal exactly when their fallible `element()` results agree |
| `ContainerSpaces.ContainerSpace.SetOptionalElement` | model/src/board/spaces/container.rs:74-76 | the option becomes `o` whatever it was before |
| `ContainerSpaces.ContainerSpace.SetElement` | model/src/board/spaces/container.rs:79-81 | afterwards the space has an element and `element()` is `Ok(e)`; repeating it changes nothing |
| `ContainerSpaces.ContainerSpace.Clear` | model/src/board/spaces/container.rs:84-86 | afterwards the space is empty and `element()` errs; clearing again changes nothing |
| `ContainerSpaces.ContainerSpace.ToString` | model/src/board/spaces/container.rs:89-99 | an empty space renders as pipe, blank, pipe; a space holding `x` renders as the text of `x` between two pipes |
| `SlotText.Render` | model/src/board/spaces/container.rs:92-95 | the shared format: at least two characters, pipes at both ends, a blank inside for no element and the element's text inside otherwise |
| `SlotText.RenderInjective` | model/src/board/space.rs:63-69 | when the element text tells elements apart and is never a blank, two renderings are equal iff the contents are |
| `SlotText.DecimalText` | model/src/board/space.rs:66 | the element text of a `u8` is one or more decimal digits without a leading zero |
| `SlotText.DecimalRoundTrip` | model/src/board/space.rs:66 | reading the decimal text of `n` back gives `n` |
| `SlotText.U8RenderInjective` | model/src/board/space.rs:172-180 | for spaces of `u8`, equal renderings mean equal contents and the converse |
| `SlotText.RenderExamples` | model/src/board/spaces/container.rs:223-231 | the test values: an empty `u8` space renders as pipe, blank, pipe; one holding 5 renders as pipe, 5, pipe |
| `EmptySpaces.AllEqual` | model/src/board/spaces/empty.rs:10-12 | a fieldless space with derived equality: any two values are equal |
| `EmptySpaces.ToString` | model/src/board/spaces/empty.rs:27-30 | an always-empty space renders as three characters: pipe, blank, pipe |
| `EmptySpaces.RendersAsEmptySlot` | model/src/board/spaces/empty.rs:29 | it renders exactly as an empty slot of any element type, whatever that type's text form |
| `EmptySpaces.RendersAsEmptyContainer` | model/src/board/spaces/empty.rs:29 | it renders exactly as any empty `ContainerSpace` |

## Left out

- The board (`model/src/board/mod.rs:11-13`) is a struct declaration with no operations, so it is not modelled.
- The `Space` trait (`model/src/board/spaces/mod.rs:13-15`) has only `new()`. It is modelled as the `New` constructor of `ContainerSpace` and as `EmptySpaces.NewSpace`, not as a Dafny trait.
- Value semantics: the Rust spaces are values. They are moved, or copied when `T: Copy`. The model's classes are references, so moves, copies and aliasing are not modelled. Derived `Eq`/`PartialEq` is modelled as `Equals`, which compares contents; Dafny's own `==` on the classes compares references and is not the source's equality.
- `Clone`, `Hash`, `Debug` and `Default` derives, and the serde derives behind the `serde` feature, are not modelled. The serde ones call an external library.
- The `fmt::Formatter` machinery is not modelled. Rendering is a pure function to a string, and the element's text form is the parameter `show`.
- `Display` and `Error` for `NoElementError` are library plumbing. Only the fixed message is kept, as the constant `ContainerSpaces.NoElementMessage`.
- The `T: Copy` bound on the container's `element()` is a Rust ownership detail. Dafny values are immutable, so the element is returned directly.
- The tests' runtime type checks (`is::<T>` through `std::any::Any`) are reflection and cannot be expressed.
- `BoardSpace.Space.Element`, `ContainerSpaces.ContainerSpace.AsOption` and the two `IsEmpty` predicates are plain accessors with no contract of their own. Their meaning is stated through the constructors, `HasElement` and the mutators above.
- `EmptySpaces.NewSpace`: the trait constructor for any `T` delegates to the inherent one. A one-value type has nothing to state about it beyond its type, so its contract is not listed as a property.
- The derived `PartialOrd`/`Ord` of `EmptySpace` is not modelled. With no fields, it calls any two values `Equal`, just as `EmptySpaces.AllEqual` states for equality.
- `EmptySpaces.New` is the inherent constructor. A one-value type has nothing to state about it beyond its type.
