# Star rating widget: a Dafny model

This project models the logic of a React Native star-rating widget. The widget shows a row of
star icons for a numeric rating and lets the user pick a new rating by tapping a star. With half
stars enabled, a tap on the left half of a star picks half a star less. When an animation is
configured, a tap also starts a staggered animation on the stars up to the tapped one.

The model has three modules:

- `Wrappers` (wrappers.dfy): the `Option` type used for props that may be unset.
- `StarButton` (star_button.dfy), for StarButton.js. It covers how a tap resolves to a rating
  (`Selection`, and the method `OnButtonPress` with its local `addition`). It also covers the
  choice of icon font (`IconSetFromProps` over the fixed 11-entry table `IconSets`) and how a
  star is drawn (`RenderIcon`): a glyph or an image, mirrored when the row is reversed.
- `StarRating` (star_rating.dfy), for StarRating.js. The class `StarRating` holds the props and
  the append-only handle list `starRef`.
  - `RefCallback` appends one registered handle.
  - `Render` runs the source's render loop. Like the source, it keeps a real `starsLeft` that
    drops by 1 per position. It is proved equal, position by position, to the reference
    `ButtonAt`, which works in integer half-stars (`StateAt(h, i)`, with `h = round(2 * rating)`).
  - `PressStar` is the per-star press closure. Its loop is proved equal to the reference
    schedule `Schedule`. It then reports the pressed value through `OnStarButtonPress`.
  - `Tap` chains the button's tap resolution and the row's press handling together.
  - Lemmas about `StateAt`, `CountState` and `Schedule` prove the properties of the display and
    of the animation order.

Numbers are Dafny reals. `Math.round(x)` is `floor(x + 0.5)`. The rating prop is `Absent`,
`NotANumber` or `Number(x)`; the first two are falsy and count as 0, as `rating || 0` does.

Behaviour of the code worth knowing:

- The comment at StarRating.js:103 says the rating is rounded down to the nearest half star, but
  the code (StarRating.js:104) uses `Math.round`, so it rounds to the nearest half star, halves up.
- The Half test (StarRating.js:114) does not look at `halfStarEnabled`, so a rating of 2.5 shows a
  half star with half stars off (lemma `HalfShownWhenHalfStarsDisabled`).
- `starRef` is only ever appended to (StarRating.js:122); nothing clears it or stores a handle at
  its star's index, yet the press loop (StarRating.js:134) reads `starRef[s]` as star s's handle.
  So after a re-render `starRef[s]` may hold a stale handle or null.
- A disabled row only sets `pointerEvents` to `'none'` (StarRating.js:154) and passes `disabled`
  to each button (StarRating.js:127); the press path has no check of its own. `Tap` models the
  outcome: a disabled row receives no tap.

## Model

| member | source | states |
|---|---|---|
| StarButton.Selection | StarButton.js:79-86 | the reported value is the rating or the rating minus 0.5, and it is lowered exactly when half stars are enabled and the tap is left of starSize/2 |
| StarButton.OnButtonPress | StarButton.js:71-87 | the value passed once to onStarButtonPress: the rating when half stars are off whatever locationX is, rating - 0.5 for a left-half tap, the rating for a right-half tap |
| StarButton.SelectionRange | StarButton.js:79-86 | a tap on the star rated i + 1 selects a value in [i + 0.5, i + 1] |
| StarButton.IconSetFromProps | StarButton.js:89-95 | an IcoMoon configuration, when present, gives the custom font; otherwise the font is found by name in the table, and an unknown name gives none |
| StarButton.IconSetsRoundTrip | StarButton.js:50-62 | each of the eleven fonts is registered under its own name, and every name in the table maps back to the font of that name |
| StarButton.ScaleX | StarButton.js:108 | the horizontal scale is -1 exactly when reversed, else 1 |
| StarButton.RenderIcon | StarButton.js:97-135 | a string or number icon name draws a glyph of the chosen font with the star's size and colour, or an invalid element (a failed render) when there is no font; any other name draws an image of starSize by starSize; all are mirrored exactly when reversed |
| StarRating.DefaultRow | StarRating.js:41-60 | with every prop at its default, the row has five grey "star-o" stars rated 1 .. 5, laid out left to right, taking touches, each drawn as a 40-unit FontAwesome glyph, unmirrored |
| StarRating.HalfUnits | StarRating.js:104 | round(2x) is the integer nearest 2x, with halves rounded up |
| StarRating.RatingHalfUnits | StarRating.js:91-104 | an unset or NaN rating counts as 0 half stars; a number rounds to its nearest half star |
| StarRating.HalfStarColor | StarRating.js:116 | a half star uses halfStarColor, or fullStarColor when halfStarColor is unset or empty |
| StarRating.ContainerFor | StarRating.js:97-101 | the direction is row-reverse exactly when reversed, and (line 154) pointerEvents is 'none' exactly when disabled |
| StarRating.StatesOrdered | StarRating.js:107-151 | the row is Full stars, then at most one Half, then Empty stars |
| StarRating.FullCount | StarRating.js:107-151 | a row of n positions shows floor(h/2) Full stars, clamped to [0, n] |
| StarRating.HalfCount | StarRating.js:107-151 | there is one Half star exactly when h is odd and 0 < h < 2n, and none otherwise |
| StarRating.StarsAddUp | StarRating.js:104-151 | Full stars plus half the Half stars, in half stars, equal round(2 * rating) clamped to [0, 2n] |
| StarRating.CountsCover | StarRating.js:107-151 | the Full, Half and Empty counts add up to max(n, 0) |
| StarRating.NegativeRatingAllEmpty | StarRating.js:104-117 | a negative, unset or NaN rating shows every star Empty |
| StarRating.LargeRatingAllFull | StarRating.js:104-117 | a rating of at least maxStars shows every star Full |
| StarRating.WholeRatingNoHalf | StarRating.js:104-117 | a whole-number rating never shows a Half star |
| StarRating.HalfShownWhenHalfStarsDisabled | StarRating.js:114-116 | with halfStarEnabled false, a rating of 2.5 still shows the half-star icon at position 2, in the full-star colour |
| StarRating.ButtonAppearance | StarRating.js:108-139 | Full uses fullStar and fullStarColor, Half uses halfStar and the half-star colour, Empty uses emptyStar and emptyStarColor, and the button at position i gets rating i + 1 |
| StarRating.MirroringMatchesDirection | StarRating.js:98-140 | a star's icon is mirrored exactly when the row container runs right to left |
| StarRating.PressThenRender | StarRating.js:104-139 | drawing the value a tap on star i selects shows i Full stars, then a Half star (left-half tap with half stars on) or a Full star at i, then Empty stars |
| StarRating.ScheduleSound | StarRating.js:132-135 | every animation call goes to a handle at or below the pressed index that exists and has the method, with duration 1000 + 200 * index |
| StarRating.ScheduleIncreasing | StarRating.js:133-134 | calls are made in strictly increasing index order, so also in strictly increasing duration order |
| StarRating.ScheduleComplete | StarRating.js:133-134 | every index up to the pressed one whose handle has the method gets a call, even after skipped indices |
| StarRating.ScheduleAllPresent | StarRating.js:133-134 | when all handles are present, indices 0 .. i are each called once, in order, for 1000 + 200 * index ms |
| StarRating.ThirdStarSchedule | StarRating.js:133-134 | tapping the third star with all handles present animates stars 0, 1 and 2 for 1000, 1200 and 1400 ms |
| StarRating.StarRating.constructor | StarRating.js:62-68 | a new row holds its props and no registered handles |
| StarRating.StarRating.ReceiveProps | StarRating.js:62-63 | new props replace the old ones, and the registered handles are kept |
| StarRating.StarRating.RefCallback | StarRating.js:122 | a ref callback appends exactly one entry, possibly null, at the end of starRef, and earlier entries keep their places |
| StarRating.StarRating.Render | StarRating.js:97-157 | one render gives the container flags and exactly max(maxStars, 0) star elements, in position order, each with key i and the button props of position i |
| StarRating.StarRating.OnStarButtonPress | StarRating.js:70-72 | the pressed rating goes to selectedStar when a callback is set, and nothing is reported otherwise |
| StarRating.StarRating.PressStar | StarRating.js:131-138 | with an animation set, the calls on starRef[0 .. i] follow the reference schedule; with none, no call is made; then selectedStar gets the pressed value once |
| StarRating.StarRating.Tap | StarRating.js:124-154 | a disabled row takes no tap; otherwise the tap is resolved by the button, the schedule runs when an animation is set and nothing is dispatched when none is, and the reported value lies in [i + 0.5, i + 1] |

## Left out

- JSX, React components and lifecycle, `Button`, `Image`, `View`, `StyleSheet.flatten` and the
  style props (`buttonStyle`, `containerStyle`, `starStyle`) are not modelled. They are rendering
  plumbing; the model keeps only the values they receive.
- The vector-icon font modules and `createIconSetFromIcoMoon` are foreign libraries. A font is
  the tag `IconFont`, and an IcoMoon configuration is an opaque tag.
- The visual side of `react-native-animatable` (easing, transforms) is not modelled. A handle is
  an opaque value with a set of animation methods. Only the order and durations of the calls are
  modelled.
- Floating point is not modelled: ratings, sizes and offsets are exact reals. Infinite ratings,
  float rounding error and `-0` are not modelled either.
- `maxStars` is an integer. A fractional or NaN `maxStars`, which changes the source's loop
  count, is not modelled.
- When React calls ref callbacks (null on unmount, again on every re-render) is not modelled.
  `RefCallback` models one call.
- Touch delivery is not modelled: `locationX` is an input. `Tap` models that a disabled row
  (`pointerEvents` `'none'`, disabled buttons) gets no tap. It requires a position below
  `maxStars`, the only positions that have a button.
- `selectedStar` is a flag saying whether a callback is set. The methods return its argument
  instead of calling it.
- The merge of default props is not modelled. `DefaultProps` writes out the default values.
- ContainerFor, ScaleX, RenderIcon, MirroringMatchesDirection: the source spreads `containerStyle`
  over `flexDirection` (StarRating.js:100) and `starStyle` over `transform` (StarButton.js:109),
  and puts the star style after the image size (StarButton.js:131). Their claims about direction,
  mirroring and image size hold only when those style props do not set `flexDirection`,
  `transform`, `width` or `height`; style props are not modelled.
- IconSetFromProps: `iconSets[iconSet]` (StarButton.js:94) is a lookup on a plain object, so a name
  such as "toString" or "constructor" yields an inherited member rather than nothing; the model
  treats every name outside the eleven as unknown.
- RenderIcon, IconSetFromProps: with no IcoMoon configuration and an icon-set name outside the
  eleven, the source's `Icon` is undefined (StarButton.js:94, :106) and React rejects the glyph
  element (StarButton.js:114), so the widget fails to render. The model returns `InvalidElement`
  for that case and does not model the exception itself.
- Tap, PressStar: they read `animation`, `halfStarEnabled` and `starSize` from the current props.
  The source's press closure uses the values captured at the last render (StarRating.js:77, :128,
  :132, :143), so the model assumes the last render used the current props.
