/** The sidebar's numeric fields: each change handler writes
    `Number(val) || default` into one field of the dimensions or of the time
    range. */
module Sidebar {
  import Geometry
  import Playback

  /** What `Number(val)` yields for a field's value: a whole number (pixels,
      or tenths of a second for the time fields) or NaN. */
  datatype Numeric = Num(value: int) | NaN

  /** JavaScript falsiness of a number: 0 and NaN. */
  predicate Falsy(n: Numeric) {
    n.NaN? || n.value == 0
  }

  const DefaultWidth: int := 400
  const DefaultHeight: int := 300
  const DefaultStart: int := 0
  /** 5 s, in tenths. */
  const DefaultEnd: int := 50

  /** `Number(val) || fallback`. */
  function OrElse(n: Numeric, fallback: int): (r: int)
    ensures Falsy(n) ==> r == fallback
    ensures !Falsy(n) ==> r == n.value
  {
    if Falsy(n) then fallback else n.value
  }

  /** The Width field. */
  function WidthChanged(d: Geometry.Size, n: Numeric): (r: Geometry.Size)
    ensures r.height == d.height
    ensures r.width == OrElse(n, DefaultWidth)
  {
    d.(width := OrElse(n, DefaultWidth))
  }

  /** The Height field. */
  function HeightChanged(d: Geometry.Size, n: Numeric): (r: Geometry.Size)
    ensures r.width == d.width
    ensures r.height == OrElse(n, DefaultHeight)
  {
    d.(height := OrElse(n, DefaultHeight))
  }

  /** The Start Time field. */
  function StartChanged(t: Playback.Range, n: Numeric): (r: Playback.Range)
    ensures r.end == t.end
    ensures r.start == OrElse(n, DefaultStart)
  {
    t.(start := OrElse(n, DefaultStart))
  }

  /** The End Time field, as written: it writes the START of the range, with
      the end's default of 5 s as fallback, and never changes the end. */
  function EndChanged(t: Playback.Range, n: Numeric): (r: Playback.Range)
    ensures r.end == t.end
    ensures r.start == OrElse(n, DefaultEnd)
  {
    t.(start := OrElse(n, DefaultEnd))
  }

  /** A cleared or non-numeric entry yields a fixed default, not the field's
      prior value: two different prior states give the same result. */
  lemma FallbackIgnoresPrior(d1: Geometry.Size, d2: Geometry.Size, t1: Playback.Range, t2: Playback.Range, n: Numeric)
    requires Falsy(n)
    ensures WidthChanged(d1, n).width == WidthChanged(d2, n).width == DefaultWidth
    ensures HeightChanged(d1, n).height == HeightChanged(d2, n).height == DefaultHeight
    ensures StartChanged(t1, n).start == StartChanged(t2, n).start == DefaultStart
    ensures EndChanged(t1, n).start == EndChanged(t2, n).start == DefaultEnd
  {
  }

  /** Typing 3 s into End Time on the initial range 0 s to 5 s gives the
      range 3 s to 5 s: the start moves and the end does not. */
  lemma EndFieldMovesStart()
    ensures EndChanged(Playback.Range(0, 50), Num(30)) == Playback.Range(30, 50)
  {
  }
}
