/**
 * The rating row (StarRating.js): turns a rating into one star button per
 * position, keeps the animation handles the stars register, and on a press
 * triggers the staggered animation before reporting the selected rating.
 */
module StarRating {
  import opened Wrappers
  import opened StarButton

  /** The animations an animatable view can run. */
  datatype Animation =
    | Bounce | Flash | Jello | Pulse | Rotate | RubberBand | Shake | Swing | Tada | Wobble

  /**
   * The rating prop as a number value: unset, NaN, or a number. Unset and
   * NaN are falsy and count as 0.
   */
  datatype RatingInput = Absent | NotANumber | Number(x: real)

  /** The props of the rating row (styles left out). */
  datatype Props = Props(
    activeOpacity: real,
    animation: Option<Animation>,
    disabled: bool,
    emptyStar: IconName,
    emptyStarColor: string,
    fullStar: IconName,
    fullStarColor: string,
    halfStar: IconName,
    halfStarColor: Option<string>,
    halfStarEnabled: bool,
    icoMoonJson: Option<IcoMoonConfig>,
    iconSet: string,
    maxStars: int,
    rating: RatingInput,
    reversed: bool,
    starSize: real,
    selectedStar: bool)   // whether a selectedStar callback is set

  /** The props a row gets when the caller sets none. */
  const DefaultProps := Props(
    activeOpacity := 0.2,
    animation := None,
    disabled := false,
    emptyStar := NameString("star-o"),
    emptyStarColor := "gray",
    fullStar := NameString("star"),
    fullStarColor := "black",
    halfStar := NameString("star-half-o"),
    halfStarColor := None,
    halfStarEnabled := false,
    icoMoonJson := None,
    iconSet := "FontAwesome",
    maxStars := 5,
    rating := Number(0.0),
    reversed := false,
    starSize := 40.0,
    selectedStar := true)

  /** The visual state of one position. */
  datatype StarState = Full | Half | Empty

  datatype FlexDirection = Row | RowReverse
  datatype PointerEvents = Auto | NoPointerEvents

  /** The style and hit-testing flags of the row container. */
  datatype Container = Container(flexDirection: FlexDirection, justifyContent: string, pointerEvents: PointerEvents)

  /** One rendered position: its key and the props of its star button. */
  datatype StarElement = StarElement(key: nat, button: StarButtonProps)

  /** What one render pass produces. */
  datatype RatingView = RatingView(container: Container, stars: seq<StarElement>)

  /** An animation handle registered by a mounted star (an animatable view). */
  datatype Handle = Handle(id: nat, methods: set<Animation>)

  /** One animation call made on a press. */
  datatype Dispatch = Dispatch(index: nat, handle: Handle, animation: Animation, duration: int)

  // ---------------------------------------------------------------------
  // Discretisation

  /** JavaScript's Math.round of 2 * x: the nearest integer, halves rounded up. */
  function HalfUnits(x: real): (h: int)
    ensures (h as real) - 0.5 <= 2.0 * x < (h as real) + 0.5
  {
    (2.0 * x + 0.5).Floor
  }

  /** The rounded rating in half stars; a falsy rating counts as 0. */
  function RatingHalfUnits(r: RatingInput): (h: int)
    ensures !r.Number? ==> h == 0
    ensures r.Number? ==> (h as real) - 0.5 <= 2.0 * r.x < (h as real) + 0.5
  {
    match r
    case Number(x) => HalfUnits(x)
    case _ => 0
  }

  /**
   * The state at position i when h half stars are left before position 0:
   * Full while at least one star is left, Half when exactly half a star is
   * left, Empty otherwise.
   */
  function StateAt(h: int, i: int): StarState
  {
    var left := h - 2 * i;
    if left >= 2 then Full else if left == 1 then Half else Empty
  }

  /** The colour of a half star: halfStarColor unless it is unset or empty. */
  function HalfStarColor(halfStarColor: Option<string>, fullStarColor: string): (c: string)
    ensures halfStarColor.Some? && halfStarColor.value != "" ==> c == halfStarColor.value
    ensures halfStarColor.None? || halfStarColor.value == "" ==> c == fullStarColor
  {
    if halfStarColor.Some? && halfStarColor.value != "" then halfStarColor.value else fullStarColor
  }

  function IconFor(p: Props, st: StarState): IconName
  {
    match st
    case Full => p.fullStar
    case Half => p.halfStar
    case Empty => p.emptyStar
  }

  function ColorFor(p: Props, st: StarState): string
  {
    match st
    case Full => p.fullStarColor
    case Half => HalfStarColor(p.halfStarColor, p.fullStarColor)
    case Empty => p.emptyStarColor
  }

  /** The props of the star button at position i. */
  function ButtonAt(p: Props, i: nat): StarButtonProps
  {
    var st := StateAt(RatingHalfUnits(p.rating), i);
    StarButtonProps(p.activeOpacity, p.disabled, p.halfStarEnabled, p.icoMoonJson, p.iconSet,
                    (i + 1) as real, p.reversed, ColorFor(p, st), IconFor(p, st), p.starSize)
  }

  /** The row container: reversed rows lay out right to left, disabled rows take no touches. */
  function ContainerFor(reversed: bool, disabled: bool): (c: Container)
    ensures c.flexDirection == RowReverse <==> reversed
    ensures c.pointerEvents == NoPointerEvents <==> disabled
    ensures c.justifyContent == "space-between"
  {
    Container(if reversed then RowReverse else Row, "space-between",
              if disabled then NoPointerEvents else Auto)
  }

  function Max0(n: int): nat
  {
    if n < 0 then 0 else n
  }

  function Clamp(x: int, lo: int, hi: int): int
  {
    if x < lo then lo else if x > hi then hi else x
  }

  /** How many of the positions 0 .. n-1 are in state st. */
  function CountState(h: int, n: int, st: StarState): nat
  {
    if n <= 0 then 0 else CountState(h, n - 1, st) + (if StateAt(h, n - 1) == st then 1 else 0)
  }

  // ---------------------------------------------------------------------
  // Properties of the discretisation

  /** Full stars come first, then at most one Half, then only Empty. */
  lemma StatesOrdered(h: int, i: int, j: int)
    requires 0 <= i < j
    ensures StateAt(h, j) == Full ==> StateAt(h, i) == Full
    ensures StateAt(h, i) != Full ==> StateAt(h, j) == Empty
    ensures !(StateAt(h, i) == Half && StateAt(h, j) == Half)
  {
  }

  /** The number of Full stars among n positions is floor(h / 2), clamped to [0, n]. */
  lemma {:induction false} FullCount(h: int, n: int)
    ensures CountState(h, n, Full) == Clamp(h / 2, 0, Max0(n))
  {
    if n > 0 {
      FullCount(h, n - 1);
    }
  }

  /** There is one Half star exactly when h is odd and falls inside the row. */
  lemma {:induction false} HalfCount(h: int, n: int)
    ensures CountState(h, n, Half) == if h % 2 == 1 && 0 < h < 2 * n then 1 else 0
  {
    if n > 0 {
      HalfCount(h, n - 1);
      if h == 2 * n - 1 {
        assert h % 2 == 1;
      }
    }
  }

  /** Full stars plus half the Half stars add up to the rounded rating, clamped to [0, n]. */
  lemma StarsAddUp(h: int, n: int)
    ensures 2 * CountState(h, n, Full) + CountState(h, n, Half) == Clamp(h, 0, 2 * Max0(n))
  {
    FullCount(h, n);
    HalfCount(h, n);
  }

  /** Every one of the n positions is in exactly one state. */
  lemma {:induction false} CountsCover(h: int, n: int)
    ensures CountState(h, n, Full) + CountState(h, n, Half) + CountState(h, n, Empty) == Max0(n)
  {
    if n > 0 {
      CountsCover(h, n - 1);
    }
  }

  /** A negative (or falsy) rating shows every star Empty. */
  lemma NegativeRatingAllEmpty(r: RatingInput, i: nat)
    requires !r.Number? || r.x < 0.0
    ensures StateAt(RatingHalfUnits(r), i) == Empty
  {
  }

  /** A rating of at least maxStars shows every star Full. */
  lemma LargeRatingAllFull(p: Props, i: nat)
    requires p.rating.Number? && p.rating.x >= p.maxStars as real
    requires i < p.maxStars
    ensures StateAt(RatingHalfUnits(p.rating), i) == Full
  {
  }

  /** A whole-number rating never shows a Half star. */
  lemma WholeRatingNoHalf(k: int, i: int)
    ensures StateAt(RatingHalfUnits(Number(k as real)), i) != Half
  {
    var h := RatingHalfUnits(Number(k as real));
    assert h == 2 * k;
  }

  /** The Half test does not consult halfStarEnabled: 2.5 shows a half star even with it off. */
  lemma HalfShownWhenHalfStarsDisabled()
    ensures var p := DefaultProps.(rating := Number(2.5));
      !p.halfStarEnabled && ButtonAt(p, 2).starIconName == p.halfStar
        && ButtonAt(p, 2).starColor == p.fullStarColor
  {
    assert HalfUnits(2.5) == 5;
  }

  /**
   * A row with every prop at its default: five grey "star-o" stars rated 1 .. 5,
   * laid out left to right, taking touches, drawn as FontAwesome glyphs.
   */
  lemma DefaultRow(i: nat)
    requires i < DefaultProps.maxStars
    ensures Max0(DefaultProps.maxStars) == 5
    ensures ButtonAt(DefaultProps, i).starIconName == NameString("star-o")
    ensures ButtonAt(DefaultProps, i).starColor == "gray"
    ensures ButtonAt(DefaultProps, i).rating == (i + 1) as real
    ensures ContainerFor(DefaultProps.reversed, DefaultProps.disabled) == Container(Row, "space-between", Auto)
    ensures RenderIcon(ButtonAt(DefaultProps, i)) == Glyph(Named(FontAwesome), NameString("star-o"), 40.0, "gray", 1)
  {
    assert HalfUnits(0.0) == 0;
  }

  /** Each state is drawn with its own icon and colour. */
  lemma ButtonAppearance(p: Props, i: nat)
    ensures var st := StateAt(RatingHalfUnits(p.rating), i);
      && (st == Full ==> ButtonAt(p, i).starIconName == p.fullStar && ButtonAt(p, i).starColor == p.fullStarColor)
      && (st == Half ==> ButtonAt(p, i).starIconName == p.halfStar)
      && (st == Half ==> ButtonAt(p, i).starColor == HalfStarColor(p.halfStarColor, p.fullStarColor))
      && (st == Empty ==> ButtonAt(p, i).starIconName == p.emptyStar && ButtonAt(p, i).starColor == p.emptyStarColor)
      && ButtonAt(p, i).rating == (i + 1) as real
  {
  }

  /** The star icons are mirrored exactly when the row runs right to left. */
  lemma MirroringMatchesDirection(p: Props, i: nat)
    ensures (RenderIcon(ButtonAt(p, i)).scaleX == -1)
        <==> (ContainerFor(p.reversed, p.disabled).flexDirection == RowReverse)
  {
  }

  /**
   * Rendering the value a press on star i selects shows i Full stars, then
   * a Half or Full star at i (Half exactly for a left-half press with half
   * stars enabled), then Empty.
   */
  lemma PressThenRender(p: Props, i: nat, locationX: real, k: nat)
    ensures var v := Selection(p.halfStarEnabled, p.starSize, (i + 1) as real, locationX);
      var h := RatingHalfUnits(Number(v));
      var leftHalf := p.halfStarEnabled && locationX < p.starSize / 2.0;
      StateAt(h, k) == if k < i then Full else if k == i then (if leftHalf then Half else Full) else Empty
  {
    var v := Selection(p.halfStarEnabled, p.starSize, (i + 1) as real, locationX);
    var h := RatingHalfUnits(Number(v));
    if p.halfStarEnabled && locationX < p.starSize / 2.0 {
      assert h == 2 * i + 1;
    } else {
      assert h == 2 * i + 2;
    }
  }

  // ---------------------------------------------------------------------
  // Animation schedule

  /** Whether there is a handle at index s that can run animation a. */
  predicate Responds(refs: seq<Option<Handle>>, s: int, a: Animation)
  {
    0 <= s < |refs| && refs[s].Some? && a in refs[s].value.methods
  }

  /** The stagger of the animation at index s, in milliseconds. */
  function Duration(s: int): int
  {
    1000 + s * 200
  }

  /** The calls made, in order, for indices 0 .. n-1: missing handles and methods are skipped. */
  function Schedule(refs: seq<Option<Handle>>, a: Animation, n: nat): seq<Dispatch>
  {
    if n == 0 then []
    else
      var last := if Responds(refs, n - 1, a) then [Dispatch(n - 1, refs[n - 1].value, a, Duration(n - 1))] else [];
      Schedule(refs, a, n - 1) + last
  }

  /** Every call goes to a responding handle below n, with that index's duration. */
  lemma {:induction false} ScheduleSound(refs: seq<Option<Handle>>, a: Animation, n: nat, k: int)
    requires 0 <= k < |Schedule(refs, a, n)|
    ensures var d := Schedule(refs, a, n)[k];
      d.index < n && Responds(refs, d.index, a) && d.handle == refs[d.index].value
        && d.animation == a && d.duration == Duration(d.index)
  {
    if k < |Schedule(refs, a, n - 1)| {
      ScheduleSound(refs, a, n - 1, k);
    }
  }

  /** Calls are made in strictly increasing index order, hence with strictly increasing durations. */
  lemma {:induction false} ScheduleIncreasing(refs: seq<Option<Handle>>, a: Animation, n: nat, k: int, l: int)
    requires 0 <= k < l < |Schedule(refs, a, n)|
    ensures Schedule(refs, a, n)[k].index < Schedule(refs, a, n)[l].index
    ensures Schedule(refs, a, n)[k].duration < Schedule(refs, a, n)[l].duration
  {
    var prev := Schedule(refs, a, n - 1);
    if l < |prev| {
      ScheduleIncreasing(refs, a, n - 1, k, l);
    } else {
      ScheduleSound(refs, a, n - 1, k);
    }
    ScheduleSound(refs, a, n, k);
    ScheduleSound(refs, a, n, l);
  }

  /** Every responding handle below n gets a call: a skipped index does not stop the later ones. */
  lemma {:induction false} ScheduleComplete(refs: seq<Option<Handle>>, a: Animation, n: nat, s: nat)
    requires s < n && Responds(refs, s, a)
    ensures exists k :: 0 <= k < |Schedule(refs, a, n)| && Schedule(refs, a, n)[k].index == s
  {
    var prev := Schedule(refs, a, n - 1);
    if s < n - 1 {
      ScheduleComplete(refs, a, n - 1, s);
      var k :| 0 <= k < |prev| && prev[k].index == s;
      assert Schedule(refs, a, n)[k] == prev[k];
    } else {
      assert Schedule(refs, a, n)[|prev|].index == s;
    }
  }

  /** With every handle present and able to run a, indices 0 .. n-1 are all called, in order. */
  lemma {:induction false} ScheduleAllPresent(refs: seq<Option<Handle>>, a: Animation, n: nat)
    requires n <= |refs|
    requires forall s :: 0 <= s < n ==> refs[s].Some? && a in refs[s].value.methods
    ensures |Schedule(refs, a, n)| == n
    ensures forall k :: 0 <= k < n ==> Schedule(refs, a, n)[k] == Dispatch(k, refs[k].value, a, 1000 + 200 * k)
  {
    if n > 0 {
      ScheduleAllPresent(refs, a, n - 1);
    }
  }

  /** Pressing the third star with three handles present animates 0, 1, 2 for 1000, 1200, 1400 ms. */
  lemma ThirdStarSchedule(h0: Handle, h1: Handle, h2: Handle, a: Animation)
    requires a in h0.methods && a in h1.methods && a in h2.methods
    ensures Schedule([Some(h0), Some(h1), Some(h2)], a, 3)
      == [Dispatch(0, h0, a, 1000), Dispatch(1, h1, a, 1200), Dispatch(2, h2, a, 1400)]
  {
    ScheduleAllPresent([Some(h0), Some(h1), Some(h2)], a, 3);
  }

  // ---------------------------------------------------------------------
  // The component

  class StarRating {
    var props: Props
    /** The handles the star views have registered, in registration order; only ever appended to. */
    var starRef: seq<Option<Handle>>

    constructor (p: Props)
      ensures props == p && starRef == []
    {
      props := p;
      starRef := [];
    }

    /** New props replace the old ones wholesale; registered handles stay. */
    method ReceiveProps(p: Props)
      modifies this
      ensures props == p && starRef == old(starRef)
    {
      props := p;
    }

    /** The ref callback of a star view: appends the node (null on unmount) to starRef. */
    method RefCallback(node: Option<Handle>)
      modifies this
      ensures starRef == old(starRef) + [node]
      ensures |starRef| == |old(starRef)| + 1
      ensures forall k :: 0 <= k < |old(starRef)| ==> starRef[k] == old(starRef)[k]
      ensures props == old(props)
    {
      starRef := starRef + [node];
    }

    /**
     * One render pass: the container flags and one star button per position
     * 0 .. maxStars-1, each with the state its remaining rating gives it.
     */
    method Render() returns (view: RatingView)
      ensures view.container == ContainerFor(props.reversed, props.disabled)
      ensures |view.stars| == Max0(props.maxStars)
      ensures forall i :: 0 <= i < |view.stars| ==>
        view.stars[i] == StarElement(i, ButtonAt(props, i))
    {
      var container := ContainerFor(props.reversed, props.disabled);
      ghost var h := RatingHalfUnits(props.rating);
      var starsLeft := (RatingHalfUnits(props.rating) as real) / 2.0;
      var starButtons: seq<StarElement> := [];
      var i := 0;
      while i < props.maxStars
        invariant 0 <= i <= Max0(props.maxStars)
        invariant |starButtons| == i
        invariant starsLeft == ((h - 2 * i) as real) / 2.0
        invariant forall k :: 0 <= k < i ==> starButtons[k] == StarElement(k, ButtonAt(props, k))
      {
        var starIconName := props.emptyStar;
        var finalStarColor := props.emptyStarColor;
        if starsLeft >= 1.0 {
          starIconName := props.fullStar;
          finalStarColor := props.fullStarColor;
        } else if starsLeft == 0.5 {
          starIconName := props.halfStar;
          finalStarColor := HalfStarColor(props.halfStarColor, props.fullStarColor);
        }
        var button := StarButtonProps(props.activeOpacity, props.disabled, props.halfStarEnabled,
                                      props.icoMoonJson, props.iconSet, (i + 1) as real, props.reversed,
                                      finalStarColor, starIconName, props.starSize);
        starButtons := starButtons + [StarElement(i, button)];
        starsLeft := starsLeft - 1.0;
        i := i + 1;
      }
      view := RatingView(container, starButtons);
    }

    /** Forwards the selected rating to selectedStar, when one is set. */
    method OnStarButtonPress(rating: real) returns (selected: Option<real>)
      ensures props.selectedStar ==> selected == Some(rating)
      ensures !props.selectedStar ==> selected.None?
    {
      selected := if props.selectedStar then Some(rating) else None;
    }

    /**
     * The press handler of the star at position i, given the value its button
     * reports: with an animation set, the calls on starRef[0 .. i] in order,
     * then the one report to selectedStar.
     */
    method PressStar(i: nat, event: real) returns (dispatched: seq<Dispatch>, selected: Option<real>)
      ensures props.animation.None? ==> dispatched == []
      ensures props.animation.Some? ==> dispatched == Schedule(starRef, props.animation.value, i + 1)
      ensures selected == if props.selectedStar then Some(event) else None
    {
      dispatched := [];
      if props.animation.Some? {
        var a := props.animation.value;
        var s := 0;
        while s <= i
          invariant 0 <= s <= i + 1
          invariant dispatched == Schedule(starRef, a, s)
        {
          if s < |starRef| && starRef[s].Some? && a in starRef[s].value.methods {
            dispatched := dispatched + [Dispatch(s, starRef[s].value, a, 1000 + s * 200)];
          }
          s := s + 1;
        }
      }
      selected := OnStarButtonPress(event);
    }

    /**
     * A tap at offset locationX on the star at position i. A disabled row
     * takes no touches (pointerEvents 'none', disabled buttons), so nothing
     * happens; otherwise the button resolves the tap and the row handles it.
     */
    method Tap(i: nat, locationX: real) returns (dispatched: seq<Dispatch>, selected: Option<real>)
      requires i < props.maxStars
      ensures props.disabled ==> dispatched == [] && selected.None?
      ensures !props.disabled && props.selectedStar ==>
        selected == Some(Selection(props.halfStarEnabled, props.starSize, (i + 1) as real, locationX))
      ensures !props.disabled && !props.selectedStar ==> selected.None?
      ensures !props.disabled && props.animation.None? ==> dispatched == []
      ensures !props.disabled && props.animation.Some? ==>
        dispatched == Schedule(starRef, props.animation.value, i + 1)
      ensures selected.Some? ==> i as real + 0.5 <= selected.value <= (i + 1) as real
    {
      if props.disabled {
        dispatched, selected := [], None;
      } else {
        var value := OnButtonPress(ButtonAt(props, i), locationX);
        SelectionRange(i, props.halfStarEnabled, props.starSize, locationX);
        dispatched, selected := PressStar(i, value);
      }
    }
  }
}
