/** The text form shared by every kind of space: the element between two
    pipes, or a single blank between them when there is no element. */
module SlotText {
  import opened Wrappers

  /** What an empty space shows between its pipes. */
  const Blank: string := " "

  /** Rendering of a space whose content is `o`; `show` is the element's own
      text form (its `Display`). */
  function Render<T>(o: Option<T>, show: T -> string): (s: string)
    ensures |s| >= 2 && s[0] == '|' && s[|s| - 1] == '|'
    ensures o.None? ==> s == "| |"
    ensures o.Some? ==> s[1..|s| - 1] == show(o.value)
  {
    var inner := match o case Some(x) => show(x) case None => Blank;
    assert ("|" + inner + "|")[1..|inner| + 1] == inner;
    "|" + inner + "|"
  }

  /** Whenever the element's text is never a lone blank and tells elements
      apart, the rendering of a space tells its contents apart. */
  lemma RenderInjective<T>(a: Option<T>, b: Option<T>, show: T -> string)
    requires forall x, y :: show(x) == show(y) ==> x == y
    requires forall x :: show(x) != Blank
    ensures Render(a, show) == Render(b, show) <==> a == b
  {
  }

  /** Rust's `u8`, the element type of the unit tests. */
  newtype U8 = x: int | 0 <= x < 256

  function DigitChar(d: nat): (c: char)
    requires d < 10
    ensures '0' <= c <= '9' && c as int - '0' as int == d
  {
    (d + '0' as int) as char
  }

  /** Decimal text of a natural number, as Rust's integer `Display` writes
      it: no sign, no leading zero, at least one digit. */
  function DecimalText(n: nat): (s: string)
    ensures 1 <= |s|
    ensures forall i :: 0 <= i < |s| ==> '0' <= s[i] <= '9'
    ensures n >= 10 ==> s[0] != '0'
    decreases n
  {
    if n < 10 then [DigitChar(n)] else DecimalText(n / 10) + [DigitChar(n % 10)]
  }

  /** Reads back a string of decimal digits. */
  function DecimalValue(s: string): (n: nat)
    requires forall i :: 0 <= i < |s| ==> '0' <= s[i] <= '9'
  {
    if s == [] then 0
    else DecimalValue(s[..|s| - 1]) * 10 + (s[|s| - 1] as int - '0' as int)
  }

  lemma {:induction false} DecimalRoundTrip(n: nat)
    ensures DecimalValue(DecimalText(n)) == n
    decreases n
  {
    if n >= 10 {
      var s := DecimalText(n);
      assert s[..|s| - 1] == DecimalText(n / 10);
      DecimalRoundTrip(n / 10);
    }
  }

  /** Two numbers with the same decimal text are the same number. */
  lemma DecimalTextInjective(m: nat, n: nat)
    ensures DecimalText(m) == DecimalText(n) <==> m == n
  {
    DecimalRoundTrip(m);
    DecimalRoundTrip(n);
  }

  /** `u8`'s text form. */
  function ShowU8(x: U8): string
  {
    DecimalText(x as nat)
  }

  /** The rendering of a space holding a `u8` determines what it holds. */
  lemma U8RenderInjective(a: Option<U8>, b: Option<U8>)
    ensures Render(a, ShowU8) == Render(b, ShowU8) <==> a == b
  {
    forall x: U8, y: U8 | ShowU8(x) == ShowU8(y) ensures x == y {
      DecimalTextInjective(x as nat, y as nat);
    }
    forall x: U8 ensures ShowU8(x) != Blank {
      assert '0' <= ShowU8(x)[0] <= '9';
    }
    RenderInjective(a, b, ShowU8);
  }

  /** The tests' example: a space holding 5 renders as `|5|`, an empty one
      as `| |`. */
  lemma RenderExamples()
    ensures Render(Some(5 as U8), ShowU8) == "|5|"
    ensures Render(None, ShowU8) == "| |"
  {
  }
}
