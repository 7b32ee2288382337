# train-display, modelled in Dafny

train-display draws an 800x480 departure board for an e-paper screen. The
board has four panels, for subway routes 2, 3, B and Q. Each panel shows:

- the line badge;
- a LEAVE box with NOW and SOON captions;
- two status lights;
- the minutes until the next two northbound departures and the next
  southbound one.

The departure times come from GTFS-realtime feeds.

This project models the deterministic core and proves properties of it:

- `subway_client.dfy` (module `SubwayClient`): `get_subway_data_for_stop`
  keeps every departure of a route from a stop that is later than `now`, then
  sorts the list in place. `fetch_subway_times` builds the direction/route
  map from three decoded feeds. The filter is a method with nested loops
  proved against the function `QualifyingDepartures`. `list.sort()` is
  modelled as an insertion sort on `seq` (`Sort`).
- `colors.py` → `colors.dfy` (module `Colors`): `hex_to_rgb`, including what
  Python's `int(s, 16)` accepts on a two-character slice, and the palette
  constants built from it.
- `pencil.py` → `pencil.dfy` (module `Pencil`): the four drawing primitives.
  Each is a method appending cairo calls to a `Canvas`, with a function giving
  the calls it appends.
- `draw/__init__.py` → `draw.dfy` (module `Draw`):
  - the status lights, the leave box and a whole station panel;
  - `generate_subway_time_image`, which fills the background and draws four
    panels, failing with the first missing dictionary key.
- `cairo.dfy` (module `Cairo`): the part of a cairo context the code uses. It
  is a class whose `log: seq<DrawCmd>` records every call. `Marks` reads off
  what a log paints: the fill, stroke or text, the source colour and the path
  for each painting call.
- `python.dfy` (module `Python`): the built-ins whose exact behaviour matters:
  - `round` (ties to even);
  - `str` of an integer;
  - clamped slicing;
  - `//` by a positive divisor.
- `wrappers.dfy`: the `Option` and `Result` types. A `Result` error stands for
  the `KeyError` or `ValueError` the source raises.

The wall clock is one integer parameter `now`. Font metrics (`text_extents`)
are an input function `measure` of the canvas.

The code has none of the following: no walk-time threshold, no arrival-window
selection, no urgency classification and no grid separator lines. Each
panel's status and leave instruction is a constant in
`generate_subway_time_image`. The model follows the code, so none of these
appear. Panels 2 and B therefore always highlight SOON and NOW respectively,
even with no departures.

## Model

| member | source | states |
|---|---|---|
| Python.Round | src/draw/pencil.py:102-107 | `round` gives an integer within 1/2 of its argument, and on a tie the even one |
| Python.RoundUnique | src/draw/pencil.py:102-107 | Round's two conditions determine the result uniquely, so they specify Python's `round` completely |
| Python.RoundShiftEven | src/draw/pencil.py:102-107 | shifting the argument of `round` by an even integer shifts the result by the same integer |
| Python.RoundOddShiftCounterexample | src/draw/pencil.py:102-107 | an odd shift does not commute with `round`: round(1.5) is not 1 + round(0.5) |
| Python.Slice | src/draw/colors.py:9-11 | `s[i:j]` has length clamped to the string and reads s[i + k] at position k |
| Python.SliceOfSlice | src/draw/colors.py:9-11 | a slice of a slice is a slice of the original string |
| Python.Digits | src/draw/__init__.py:236-238 | the decimal text of a natural number is non-empty, all digits, with no leading zero |
| Python.DigitsRoundTrip | src/draw/__init__.py:236-238 | reading back the digits of n gives n |
| Python.NegativeStr | src/draw/__init__.py:236-238 | `str` of a negative number is '-' followed by the digits of its magnitude |
| Python.StrRoundTrip | src/draw/__init__.py:236-238 | `str(n)` is a sign and digits, and `int(str(n)) == n` for every integer |
| Python.StrInjective | src/draw/__init__.py:236-238 | different minute counts never print the same text |
| Python.StrIsNotDashes | src/draw/__init__.py:231-238 | no integer prints as the placeholder "--", so the placeholder is unambiguous |
| Python.Str | src/draw/__init__.py:238 | `str(n)` is a sign and digits, and starts with '-' iff n is negative |
| Python.FloorDiv | src/draw/__init__.py:232 | `a // 60` is the q with 60q <= a < 60(q + 1), negative differences included |
| Colors.HexByte | src/draw/colors.py:9-11 | two hex digits spell a value in [0, 255] |
| Colors.StripShort | src/draw/colors.py:9-11 | drops the white space `int()` strips (ASCII tab to carriage return and space, plus non-ASCII `str.isspace` characters; not U+001C to U+001F): the result is no longer, has no such white space at its ends, and keeps every other character |
| Colors.ParseHex | src/draw/colors.py:9-11 | `int(s, 16)` on a two-character slice lies in [-15, 255], is negative only with a '-' in the slice, and is the byte value of two hex digits |
| Colors.ParseHexFailure | src/draw/colors.py:9-11 | when `int(s, 16)` raises: one character parses iff it is a hex digit, a result needs a hex digit, and any character that is not a hex digit, white space or a sign makes it fail |
| Colors.ParseHexWhiteSpace | src/draw/colors.py:9-11 | space, newline and U+00A0 around a digit are stripped, while U+001C is not, so `hex_to_rgb("#\x1cF0000")` fails |
| Colors.ChannelByte | src/draw/colors.py:9-11 | one channel read from `hex_color[i:i+2]` lies in [-15, 255] |
| Colors.ScaleBytes | src/draw/colors.py:8-12 | a colour results exactly when all three channels parse, and each component is at most 1 and at least -15/255 |
| Colors.HexToRgb | src/draw/colors.py:6-12 | every colour `hex_to_rgb` returns has components in [-15/255, 1] |
| Colors.HexToRgbComponentsOver255 | src/draw/colors.py:9-11 | each returned component is exactly an integer divided by 255 |
| Colors.HexToRgbOfHexDigits | src/draw/colors.py:6-12 | given six hex digits, red comes from characters 1-2, green from 3-4 and blue from 5-6, each over 255, and every component is in [0, 1] |
| Colors.ChannelOfHexDigits | src/draw/colors.py:9-11 | a slice of two hex digits parses to their byte value |
| Colors.HexToRgbOfChannels | src/draw/colors.py:8-12 | three parsed channels give the colour of the three bytes over 255 |
| Colors.HexToRgbReadsOnlyDigits | src/draw/colors.py:8-12 | two strings that agree on characters 1 to 6 give the same result: the '#' and any tail are ignored |
| Colors.ChannelReadsOnlyDigits | src/draw/colors.py:9-11 | each channel depends only on characters 1 to 6 |
| Colors.HexToRgbRejectsShort | src/draw/colors.py:11 | a string of five characters or fewer raises, because the blue slice is empty |
| Colors.HexToRgbAcceptsSignedPair | src/draw/colors.py:7-12 | as written, "#-10000" is accepted with red = -1/255, outside the documented [0, 1] |
| Colors.StrictHexToRgb | src/draw/colors.py:6-12 | the documented parse succeeds exactly on six hex digits after the first character, and then lies in the unit cube |
| Colors.StrictAgreesWithHexToRgb | src/draw/colors.py:6-12 | wherever the documented parse succeeds, `hex_to_rgb` as written gives the same colour |
| Colors.PaletteEntry | src/draw/colors.py:15-26 | a seven-character hex literal parses, under either parse, to its three bytes over 255 |
| Colors.RouteColoursFromHex | src/draw/colors.py:15-17 | SUBWAY_RED, SUBWAY_ORANGE and SUBWAY_YELLOW are what their literals parse to |
| Colors.NeutralColoursFromHex | src/draw/colors.py:19-21 | "#FFFFFF" gives (1, 1, 1) for NEUTRAL_000, and NEUTRAL_100 and NEUTRAL_200 match their literals |
| Colors.TextColoursFromHex | src/draw/colors.py:22-23 | NEUTRAL_300 matches "#B6A99F", and "#000000" gives (0, 0, 0) for NEUTRAL_900 |
| Colors.StatusColoursFromHex | src/draw/colors.py:25-26 | STATUS_OK and STATUS_WARNING are what their literals parse to |
| Cairo.Canvas.constructor | src/draw/__init__.py:308-309 | a fresh 800x480 context starts with an empty log and the default font size 10 |
| Cairo.Canvas.SetFontSize | src/draw/pencil.py:97 | `set_font_size` is recorded and changes the size that `text_extents` measures at |
| Pencil.StrokeOrFillOrder | src/draw/pencil.py:18-25 | the path is filled iff a fill colour is given and stroked iff a stroke colour is given; no fill follows a stroke; the line width set is always 1; no path call is made |
| Pencil.DrawStrokeOrFill | src/draw/pencil.py:11-25 | the context receives exactly the fill-then-stroke calls |
| Pencil.StrokeOrFillPaints | src/draw/pencil.py:18-25 | with one colour, the current path is painted once in that colour, filled or stroked 1 pixel wide, and the path is then empty |
| Pencil.DrawCircle | src/draw/pencil.py:28-39 | the context receives the colour, one full-turn arc and a fill |
| Pencil.CirclePaints | src/draw/pencil.py:37-39 | a circle paints one filled disc centred at (x + radius, y + radius) with the given radius, never a stroke |
| Pencil.ClampRadius | src/draw/pencil.py:57 | the effective radius is at most radius, width/2 and height/2, and equals one of them |
| Pencil.EdgesNotReversed | src/draw/pencil.py:57-74 | for a non-negative size, x + r <= x + width - r and y + r <= y + height - r |
| Pencil.RoundedRectangleOutline | src/draw/pencil.py:60-76 | move to (x + r, y); four line-then-quarter-arc corners, clockwise from the top right; close. Each line ends where the next arc begins, and the last arc returns to the start |
| Pencil.DrawRoundedRectangle | src/draw/pencil.py:44-78 | the context receives the outline at the clamped radius, then the paint calls |
| Pencil.RoundedRectanglePaints | src/draw/pencil.py:57-78 | a rounded rectangle with one colour paints its outline once, filled or stroked 1 pixel wide |
| Pencil.TextX | src/draw/pencil.py:101-106 | uncentred, the anchor is within 1/2 of x; centred, the ink's middle is within 1/2 of the middle of [x, x + width] |
| Pencil.TextY | src/draw/pencil.py:107 | the ink's vertical middle is within 1/2 of the middle of [y, y + height] |
| Pencil.TextXAnchoring | src/draw/pencil.py:101-106 | uncentred text starts at round(x) whatever the width and extents; a missing width counts as 0 |
| Pencil.DrawText | src/draw/pencil.py:83-110 | the context receives: select bold Sans, set size, set colour, move to the anchor measured at that size, show the text |
| Pencil.TextCallsPaint | src/draw/pencil.py:96-110 | those five calls paint the text once, in the given colour and size, from the anchor point |
| Pencil.TextPaints | src/draw/pencil.py:96-110 | drawn text paints the string once, from (TextX, TextY), and leaves the path empty (by the model's `show_text` convention, see Left out) |
| Pencil.StrokeOrFillUnmoved | src/draw/pencil.py:18-25 | painting calls carry no coordinates |
| Pencil.CircleTranslates | src/draw/pencil.py:37-39 | a circle drawn at (x + dx, y + dy) is the one at (x, y) moved by (dx, dy) |
| Pencil.RoundedRectangleTranslates | src/draw/pencil.py:57-78 | a rounded rectangle moves with its origin |
| Pencil.TextTranslates | src/draw/pencil.py:101-110 | text moves with its box for even offsets, since `round` sends ties to even |
| SubwayClient.QualifyingDeparturesConcat | src/subway_client/__init__.py:29-42 | the feed is read entity by entity: the departures of a concatenation concatenate |
| SubwayClient.IgnoredEntityContributesNothing | src/subway_client/__init__.py:30-34 | entities without a trip update, with no stop time updates, or on another route contribute nothing wherever they stand |
| SubwayClient.StopDeparturesMembership | src/subway_client/__init__.py:35-42 | a time is appended for a trip iff some stop time update is for the stop, on the route, departs at that time and is later than now |
| SubwayClient.QualifyingMembership | src/subway_client/__init__.py:29-42 | a time is kept iff it is the departure of an update for stop_id, later than now, in an entity with a non-empty trip update on route_id |
| SubwayClient.Insert | src/subway_client/__init__.py:43 | inserting into a sorted list gives a sorted list with x added to its multiset |
| SubwayClient.Sort | src/subway_client/__init__.py:43 | `times.sort()` returns a sorted permutation of its input |
| SubwayClient.SortedPermutationUnique | src/subway_client/__init__.py:43 | two sorted permutations of one list are equal, so the sorted result is determined |
| SubwayClient.GetSubwayDataForStop | src/subway_client/__init__.py:23-44 | the result is sorted, holds exactly the qualifying departures with duplicates, and every time in it is later than now |
| SubwayClient.FetchSubwayTimes | src/subway_client/__init__.py:47-67 | keys are exactly N and S, each with exactly B, Q, 2 and 3. Each list is that route's stop times: B and Q at D25N/D25S, 2 and 3 at 237N/237S, from the BDFM, NQRW and 123 feeds respectively |
| Draw.DrawStationStatus | src/draw/__init__.py:41-80 | the context receives the two lights in their status colours |
| Draw.StatusLights | src/draw/__init__.py:43-80 | two 16-pixel lights at (x+36, y+100) and (x+36, y+124) are filled. The top is STATUS_OK iff the status is OK, the bottom STATUS_WARNING iff delayed, and the other is NEUTRAL_200 |
| Draw.DrawLeaveInstructions | src/draw/__init__.py:83-180 | the context receives the frame, LEAVE, then the NOW and SOON captions, each with a highlight when it applies |
| Draw.CaptionPaints | src/draw/__init__.py:114-180 | a caption paints its highlight, if lit, then its text, dark if lit and grey otherwise |
| Draw.LeaveFramePaints | src/draw/__init__.py:87-112 | the frame paints its grey rounded outline, then LEAVE, dark iff there is an instruction |
| Draw.LeaveCaptionsPaint | src/draw/__init__.py:114-180 | the captions paint NOW then SOON, each preceded by its highlight when that instruction applies |
| Draw.LeaveInstructionsPaint | src/draw/__init__.py:83-180 | the leave box paints exactly: the grey outline, LEAVE, an optional green highlight, NOW, an optional amber highlight, SOON |
| Draw.LeaveInstructionsHighlight | src/draw/__init__.py:97-180 | the frame is stroked, never filled. LEAVE, NOW and SOON are NEUTRAL_900 iff they apply, else NEUTRAL_300. A highlight is filled iff there is an instruction, at most one, green for NOW or amber for SOON, just before its caption |
| Draw.LeaveShows | src/draw/__init__.py:83-180 | the box shows LEAVE, NOW and SOON, in that order, whatever the instruction |
| Draw.MinutesUntilMeaning | src/draw/__init__.py:231-235 | the text is "--" iff there is no departure at that index; otherwise it is an integer m with 60m <= t - now < 60(m + 1) |
| Draw.MinutesUntilOrdered | src/draw/__init__.py:231-268 | for a sorted list, the NEXT count is never below the first count |
| Draw.MinutesUntilNotNegative | src/draw/__init__.py:231-235 | departures later than now, as the client keeps them, never show a negative count |
| Draw.DrawStation | src/draw/__init__.py:184-301 | the context receives: badge, leave box, lights, then the card. The three minute texts are computed from north[0], north[1] and south[0], each guarded by the list's length |
| Draw.StationShows | src/draw/__init__.py:184-301 | a panel shows: the line's name, LEAVE, NOW, SOON, the station, the first count, "min.", NEXT, the next count + " min.", the reverse direction, the southbound count + " min." |
| Draw.StationStatusTranslates | src/draw/__init__.py:41-80 | the lights move with the panel origin |
| Draw.LeaveInstructionsTranslate | src/draw/__init__.py:83-180 | the leave box moves with the panel origin, for even offsets |
| Draw.StationBadgeTranslates | src/draw/__init__.py:197-208 | the badge moves with the panel origin, for even offsets |
| Draw.StationTimesTranslate | src/draw/__init__.py:213-301 | the departure card moves with the panel origin, for even offsets |
| Draw.StationTranslates | src/draw/__init__.py:184-301 | a panel drawn at (x + dx, y + dy) is the panel at (x, y) with every coordinate moved by (dx, dy), for even offsets |
| Draw.StationAt | src/draw/__init__.py:184-301 | a panel at an even origin is the panel at (0, 0) moved there |
| Draw.BoardTimesInOrder | src/draw/__init__.py:315-386 | the board's lookups succeed iff every panel's do, and a failure is the first failing panel's in drawing order 2, 3, B, Q |
| Draw.MinutesUntil | src/draw/__init__.py:231-235 | the caption is "--" iff there is no departure at the index; otherwise it is a signed integer text, negative iff that departure is before now (the same expression at 264-268 and 288-292) |
| Draw.Lookup | src/draw/__init__.py:329-330 | `times[d][r]` succeeds iff both keys are present, with that list; otherwise the error names the direction if it is missing, else the route |
| Draw.PanelTimes | src/draw/__init__.py:329-330 | a panel's departures exist iff N[route] and S[route] do; otherwise the error is the first missing key in the order N, N[route], S, S[route] |
| Draw.BoardTimes | src/draw/__init__.py:328-385 | success gives the four panels' departures; a failure names N, S or one of the routes 2, 3, B, Q |
| Draw.DrawPanel | src/draw/__init__.py:315-332 | looks up N then S for the route; on a missing key returns that key and draws nothing, otherwise draws the station |
| Draw.DrawColumn | src/draw/__init__.py:315-350 | draws the top panel then the bottom one at y = 240, stopping at the first failed lookup and reporting its key |
| Draw.GenerateSubwayTimeImage | src/draw/__init__.py:304-388 | a fresh 800x480 canvas whose log is the background then panels 2, 3, B, Q, or the first missing key, exactly when a lookup fails |
| Draw.BoardNeedsEveryKey | src/draw/__init__.py:328-386 | the image is drawn iff N and S are present and each holds 2, 3, B and Q; the panels then get times[d][r] |
| Draw.BoardReportsMissingKey | src/draw/__init__.py:328-386 | a failure names a missing key. A missing N is reported first; after that the panels are looked up in the order 2, 3, B, Q, each reading N[route], then S, then S[route] |
| Draw.FetchedTimesDraw | src/subway_client/__init__.py:53-66 | the map `fetch_subway_times` builds always has every key the board looks up |
| Draw.BoardBackground | src/draw/__init__.py:311-313 | the first thing painted is a NEUTRAL_100 fill of the rectangle (0, 0, 800, 480) |
| Draw.Panel3Moved | src/draw/__init__.py:333-350 | the route 3 panel is the origin panel moved by (0, 240) |
| Draw.PanelBMoved | src/draw/__init__.py:351-368 | the route B panel is the origin panel moved by (400, 0) |
| Draw.PanelQMoved | src/draw/__init__.py:369-386 | the route Q panel is the origin panel moved by (400, 240) |
| Draw.BoardPanelsTranslated | src/draw/__init__.py:311-386 | the board is the background then one origin layout for each route's settings and departures, moved to (0, 0), (0, 240), (400, 0) and (400, 240) |

## Left out

- Fetching the feeds: `fetch_subway_data` makes an HTTP request and decodes protobuf. The decoded feed is a datatype input, and the three feeds are parameters of `FetchSubwayTimes`.
- `create_subway_time_image`, `src/main.py` and `src/display_connector`: directory creation, PNG output, the e-paper driver, PIL and logging. These are I/O with no logic to verify.
- Rasterisation: cairo's pixels and antialiasing. The model records the ordered calls and reads off what each painting call paints with. As in cairo, `fill()` and `stroke()` consume the path, so a stroke after a fill strokes an empty path.
- `show_text` and the path: the model lets `show_text` clear the path. Cairo keeps it and moves the current point past the text. The difference is a lone move_to, which paints nothing, and a zero-area join from the end of the text to the next shape.
- Font metrics: `text_extents` is the input function `measure(text, size)`; glyph shapes are not modelled.
- Floating point: coordinates, colour components and `round` arguments are exact reals, and `n / 255` is exact division. Arc angles are whole quarter turns rather than multiples of `math.pi`.
- The clock: the source reads `datetime.now()` once for each minute label whose list is long enough (a "--" label reads no clock), and in the filter once for each stop time update that has already passed the stop and route tests (the `and` short-circuits). The model reads one `now` for a whole call, so it does not capture reads that straddle a second boundary.
- SubwayClient.GetSubwayDataForStop: "later than now" is stated against one `now`. The source only promises that each kept time is later than its own read of the clock. Every such read comes at or after the first one.
- `list.sort()`: modelled by its result, a sorted permutation, computed by insertion sort on `seq`. Timsort's in-place steps are not modelled.
- Exceptions: a `KeyError` from a missing dictionary key is `Err(key)`, and the `ValueError` from `int(..., 16)` is `None`. Other exception types and their messages are not modelled.
- `int(s, 16)` on longer inputs: only one- and two-character slices reach it, so a "0x" prefix and underscores, which need three characters, are not modelled. Non-ASCII digits that Python's `int` accepts are not modelled either.
- Pencil.StrokeOrFillPaints: stated only for one colour, fill or stroke, because no caller passes both. StrokeOrFillOrder still fixes the order of the calls when both are given.
- Pencil.RoundedRectanglePaints: stated only for one colour, for the same reason.
- Pencil.TextTranslates: stated only for even offsets. All four panel origins are even, and RoundOddShiftCounterexample shows that odd offsets can move a tied anchor differently.
- Draw.DrawColumn: the source makes the four `draw_station` calls one after another. The model groups them two per column (2 and 3, then B and Q) through Draw.DrawPanel, keeping the same order of lookups and calls. The grouping exists only to keep each proof small.
- Draw.GenerateSubwayTimeImage: on a missing key it returns the error and no canvas. The source has already drawn the earlier panels on a surface that the exception discards, and that partial surface is not modelled.

## Findings

| source | as written | input that shows it | evidently intended | confidence | as-written member | corrected member |
|---|---|---|---|---|---|---|
| src/draw/colors.py:6-12 | `int(hex_color[1:3], 16)` also accepts a sign or surrounding white space in a two-character slice, so a component can be negative | "#-10000" gives red = -1/255 | the docstring promises components in [0, 1]: accept exactly six hex digits | not executed | Colors.HexToRgbAcceptsSignedPair | Colors.StrictHexToRgb |
