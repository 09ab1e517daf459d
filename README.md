# BioSignal-Recorder-Web: the live chart feed, modelled in Dafny

The dashboard component `Canvas` receives newline-delimited text frames of
comma-separated sensor readings and feeds them, channel by channel, into
scrolling charts. Each line passes through a parser, then a dispatcher. The
parser skips blank lines, splits the rest on `,`, converts the fields with
`Number` and drops the first field, a sequence column. The dispatcher appends
`(Date.now(), value)` to each channel that is enabled, not paused and has a
canvas, provided its value is not NaN. Each chart can be paused and resumed
on its own. A theme setting selects the chart colours.

The project has five files:

- `wrappers.dfy`: `Option`. `None` stands for NaN and for `undefined`.
- `line_parser.dfy`: `trim`, `split` and the parse step, as functions. `Split`
  and `Join` are proved to be inverses in both directions.
- `theme.dfy`: `getThemeColors`.
- `feed.dfy`: the routing as functions on values. It defines the gate, what one
  line appends (`StepLine`), what a frame appends (`StepLines`), the pause
  toggle (`Toggled`), and lemmas giving the intended properties.
- `canvas.dfy`: class `Canvas`. It holds the pause flags, one chart series per
  channel in an `array` that is appended to in place, each chart's running
  state and the current colour profile. Its methods are proved to compute
  exactly the functions of `feed.dfy`.

Each call to `Number` is the parameter `toNumber: string -> Option<V>`, and
sample values have the opaque type `V`. `Date.now()` is a parameter: `now` for
one line, and `clock(k)` for line `k` of a frame. The `document.getElementById`
lookup of each channel's canvas is the flag sequence `hasCanvas`, fixed when
the component is created.

## Model

| member | source | states |
|---|---|---|
| `LineParser.TrimStart` | src/components/Canvas.tsx:94 | leading whitespace removed: the result is the longest suffix of the line that does not start with an ECMAScript whitespace or line-terminator character |
| `LineParser.TrimEnd` | src/components/Canvas.tsx:94 | trailing whitespace removed: the longest prefix not ending in whitespace |
| `LineParser.Trim` | src/components/Canvas.tsx:94 | `trim()` gives `""` exactly when every character of the line is whitespace (so a lone `\r` is blank); otherwise it begins and ends with a non-whitespace character |
| `LineParser.TrimPiece` | src/components/Canvas.tsx:94 | `trim()` only removes whitespace around the text: its result is a contiguous piece of the line with only whitespace before and after it |
| `LineParser.Split` | src/components/Canvas.tsx:95 | `split` on one character: at least one field (the empty string gives `[""]`); no field holds the separator; joining the fields with the separator gives the input back |
| `LineParser.SplitJoin` | src/components/Canvas.tsx:95 | the other direction of the round trip: separator-free fields, joined and then split, come back unchanged |
| `LineParser.SplitLength` | src/components/Canvas.tsx:95 | a line with n separators has n + 1 fields |
| `LineParser.ParseLine` | src/components/Canvas.tsx:94-95 | a line is skipped exactly when it is blank; otherwise there is one value per comma, i.e. one per field after the first |
| `LineParser.ChannelValue` | src/components/Canvas.tsx:102-103 | channel i has a value exactly when index i is inside the parsed array and the entry there is a number; reading past the end is `undefined`, which `isNaN` rejects |
| `LineParser.ChannelReadsField` | src/components/Canvas.tsx:95-103 | for a line `head,f0,f1,...`, channel i reads `Number(f_i)`; an index past the last field gives no value (`isNaN(undefined)`) |
| `Theme.ThemeColors` | src/components/Canvas.tsx:41-55 | the dark profile exactly when the theme is the string "dark"; the light profile for any other value, including an unresolved (undefined) theme |
| `Theme.ThemeRoundTrip` | src/components/Canvas.tsx:41-55 | two themes give the same profile exactly when both or neither are "dark", so switching away and back restores the profile |
| `Feed.EnabledChannels` | src/components/Canvas.tsx:33 | six positional channels, of which exactly the first four are enabled |
| `Feed.InitialPaused` | src/components/Canvas.tsx:35 | as many pause flags as channels, all false |
| `Feed.Gate` | src/components/Canvas.tsx:96-101 | a channel is routed to exactly when it is enabled, not paused and its canvas exists |
| `Feed.Arrivals` | src/components/Canvas.tsx:103-105 | a value appends exactly one sample, stamped with the ingestion time and carrying the value; NaN appends none |
| `Feed.Routed` | src/components/Canvas.tsx:96-106 | for a parsed line, a channel outside the gate gains nothing, and one inside gains at most one sample, stamped `now` |
| `Feed.StepLine` | src/components/Canvas.tsx:94-109 | after one line, every channel's series keeps all its earlier samples as a prefix and has grown by at most one sample |
| `Feed.BlankLineAppendsNothing` | src/components/Canvas.tsx:94 | an empty or whitespace-only line leaves every series unchanged |
| `Feed.LineAppendsAtTail` | src/components/Canvas.tsx:96-106 | a line appends at most one sample to a channel, at the tail, timed `now`; earlier samples are kept; a channel outside the gate gets nothing |
| `Feed.LineRouting` | src/components/Canvas.tsx:95-106 | for `head,f0,f1,...` channel i gains `(now, Number(f_i))` exactly when it passes the gate and `f_i` exists and is a number; otherwise its series is unchanged, whatever happens on the other channels |
| `Feed.StepLines` | src/components/Canvas.tsx:175-178 | after a frame, every channel's series keeps its earlier samples as a prefix and has grown by at most one sample per line |
| `Feed.Times` | src/components/Canvas.tsx:105 | line k of a frame is stamped with the clock reading taken when that line is handled |
| `Feed.StepLinesAppend` | src/components/Canvas.tsx:175-178 | handling a frame is handling its first lines and then the rest: lines are processed in their original order |
| `Feed.FrameHistory` | src/components/Canvas.tsx:175-178 | after a frame, each channel holds its earlier samples followed by its per-line contributions, concatenated in line order |
| `Feed.HistoryLength` | src/components/Canvas.tsx:176-178 | a frame adds at most one sample per line to a channel |
| `Feed.ClosedChannelFrozen` | src/components/Canvas.tsx:96-97 | a paused, disabled or canvas-less channel's series stays exactly as it was, however many lines arrive |
| `Feed.Toggled` | src/components/Canvas.tsx:190-191 | the toggled flags keep their length, flip entry i and keep every other entry |
| `Feed.ToggleTwice` | src/components/Canvas.tsx:189-191 | toggling a channel twice restores the flags |
| `Feed.ToggleCommutes` | src/components/Canvas.tsx:189-191 | toggles of two channels can be done in either order |
| `Feed.ToggleGate` | src/components/Canvas.tsx:97 | after a toggle, an enabled channel with a canvas is routed to exactly when it was paused before; the gate of every other channel is unchanged |
| `Feed.ExampleLine` | src/components/Canvas.tsx:33-106 | with the fixed mask `[true,true,true,true,false,false]`, for `0,1.5,2.5,3.5,4.5,5.5,6.5` channels 0 to 3 gain one sample each (fields 1 to 4, time `now`) and channels 4 and 5 gain none |
| `CanvasComponent.Canvas.constructor` | src/components/Canvas.tsx:33-35 | fixed mask; no channel paused; an empty series for every channel; a chart, streaming, for each enabled channel whose canvas exists; colours from the current theme |
| `CanvasComponent.Canvas.HandleLine` | src/components/Canvas.tsx:92-113 | the series array after the call is `StepLine` of the old one under the current gate; the object invariant is kept |
| `CanvasComponent.Canvas.HandleFrame` | src/components/Canvas.tsx:175-178 | the series after the call are `StepLines` of the old ones over the frame's `\n`-separated lines, line k at `clock(k)` |
| `CanvasComponent.Canvas.ApplyTheme` | src/components/Canvas.tsx:57-90 | the profile is replaced wholesale by the theme's; every existing chart is streamed again and so scrolls, paused or not; series and pause flags are untouched |
| `CanvasComponent.Canvas.Update` | src/components/Canvas.tsx:172-186 | the colours are reapplied and every chart scrolls again, then the frame is handled; the pause flags are untouched |
| `CanvasComponent.Canvas.TogglePause` | src/components/Canvas.tsx:188-200 | the flags become `Toggled(old, index)`; that chart is stopped when it becomes paused and started when it resumes; no other chart, no series and no other flag changes |

The class invariant `Canvas.Valid` is kept by every method. It says that
every per-channel sequence has one entry per channel, and that a channel
without a chart is never paused, never scrolling and keeps an empty series.
It does not say that a chart scrolls exactly when its channel is unpaused.
`TogglePause` sets that for the toggled chart. The next `ApplyTheme` reruns
`streamTo` on every chart, and that restarts a paused chart's scrolling too.

## Left out

- Throttling. The `lodash` `throttle(…, 100)` is left out. It is timer-driven, its default fires on both the leading and the trailing edge, and it can drop the middle lines of a burst. `HandleFrame` and `Update` handle every line of the frame. What a throttled run does is `HandleLine` applied to the lines that are actually delivered.
- Rendering. Everything SmoothieChart and TimeSeries do is left out: building the charts, `streamTo`, redrawing, and removing and re-adding series in `updateChartColors`. So is the time-based eviction of old points from the visible window. Each series is modelled as the full sequence of appended samples. `streamTo`, `start` and `stop` are modelled only through their effect on the `running` flag.
- `ApplyTheme`: models only that the profile is replaced and that every chart is streamed again. The restyling of grid, labels and series strokes is left out, and so is the removal and re-adding of each series.
- Canvas lookup and sizing. `document.getElementById` and the sizing from `parentElement` are left out. Canvas presence is `hasCanvas`, fixed from construction, so "has a canvas" and "has a series" coincide. The source looks the canvas up again on every line.
- Number conversion. JavaScript's `Number` and the floating-point values are left out. In that conversion, empty and whitespace-only fields give 0, not NaN, so in this code an empty field yields a sample of 0. A fully general description of the feed would say empty fields mean "no sample"; here the code is followed, by leaving the conversion to the caller.
- `HandleLine`: reads the clock once per line. The source calls `Date.now()` once per append, so two channels of one line could get different milliseconds if the clock ticks during the loop.
- React. State and effect scheduling are left out, including stale closures over `isPaused` and the `isChartInitialized` flag. The constructor stands for the initialisation effect.
- `TogglePause`, `ApplyTheme`: proved separately, and the source never runs them separately. A pause toggle changes `isPaused`. That rebuilds the handler and its throttle through `:112`, `:117` and `:183`, and so re-runs the effect at `:172-186`. A theme change re-runs the same effect through `:55`, `:90` and `:184-185`. Each re-run is an `Update` with the current, unchanged `data`. It restarts every chart and sends the frame again through a fresh throttle: the first line at once, the last after 100 ms. So in the program, resuming a channel or switching the theme does append samples again, from lines already shown. Connecting these calls to `Update` is left to React and not modelled.
- `CanvasComponent.Canvas.constructor`: accepts an enabled channel whose canvas is missing and creates no chart for it, as the `if (canvas)` test at `Canvas.tsx:135` intends. The source reads `canvas.parentElement` at `:129` before that test, so on a missing canvas it throws during initialisation.
- `TogglePause`: requires an enabled channel that has a chart. On any other index the source throws at `chartRef.current[index].stop()` (or `start()`) instead of doing nothing.
- UI pieces with no behaviour to model: the FFT view pass-through, the bit-depth `Select` and the JSX layout.
