/** The dashboard component's mutable state and its handlers: the pause flags,
    one chart series per channel (appended to in place), the running state of
    each chart's scroll loop, and the appearance profile the charts are
    styled with. */
module CanvasComponent {
  import opened Wrappers
  import opened LineParser
  import opened Theme
  import opened Feed

  class Canvas<V> {
    /** The fixed enabled-mask. */
    const channels: seq<bool>
    /** Whether the drawing surface of each channel exists. */
    const hasCanvas: seq<bool>
    /** The pause flag of each channel. */
    var paused: seq<bool>
    /** Whether each chart scrolls: `streamTo` and `start` set it, `stop`
        clears it. */
    var running: seq<bool>
    /** The samples of each channel's series; a channel without a chart has
        no series, and its slot stays empty. */
    const series: array<seq<Sample<V>>>
    /** The colours currently applied to the charts. */
    var profile: Profile

    /** A chart and its series were created for channel `i`. */
    predicate HasChart(i: nat)
      reads this
      requires i < |channels| && |hasCanvas| == |channels|
    {
      channels[i] && hasCanvas[i]
    }

    ghost predicate Valid()
      reads this, series
    {
      && |hasCanvas| == |channels| && |paused| == |channels|
      && |running| == |channels| && series.Length == |channels|
      && forall i :: 0 <= i < |channels| ==>
           !HasChart(i) ==> !running[i] && !paused[i] && series[i] == []
    }

    /** The channels a line is routed to under the current pause flags. */
    function OpenChannels(): (g: seq<bool>)
      reads this
      requires |paused| == |channels| && |hasCanvas| == |channels|
      ensures |g| == |channels|
    {
      Gate(channels, paused, hasCanvas)
    }

    /** Initialisation: one empty series and one running chart per enabled
        channel whose canvas exists, styled with the current theme; nothing
        is paused. */
    constructor (canvases: seq<bool>, theme: Option<string>)
      requires |canvases| == |EnabledChannels()|
      ensures Valid() && fresh(series)
      ensures channels == EnabledChannels() && hasCanvas == canvases
      ensures paused == InitialPaused(|EnabledChannels()|)
      ensures forall i :: 0 <= i < |channels| ==> running[i] == HasChart(i)
      ensures forall i :: 0 <= i < series.Length ==> series[i] == []
      ensures profile == ThemeColors(theme)
    {
      channels := EnabledChannels();
      hasCanvas := canvases;
      paused := InitialPaused(|EnabledChannels()|);
      running := seq(|EnabledChannels()|, i requires 0 <= i < |EnabledChannels()| => EnabledChannels()[i] && canvases[i]);
      series := new seq<Sample<V>>[|EnabledChannels()|](_ => []);
      profile := ThemeColors(theme);
    }

    /** The line handler: a non-blank line is parsed once, and every channel
        that is enabled, not paused and has a canvas, and whose value is a
        number, gets one sample stamped `now` appended to its series. */
    method HandleLine(line: string, now: int, toNumber: string -> Option<V>)
      requires Valid()
      modifies series
      ensures Valid()
      ensures series[..] == StepLine(old(series[..]), OpenChannels(), line, toNumber, now)
    {
      ghost var before := series[..];
      ghost var gate := OpenChannels();
      var parsed := ParseLine(line, toNumber);
      if parsed.Some? {
        var values := parsed.value;
        var i := 0;
        while i < |channels|
          invariant 0 <= i <= |channels|
          invariant forall j :: 0 <= j < i ==> series[j] == before[j] + Routed(gate, values, now, j)
          invariant forall j :: i <= j < |channels| ==> series[j] == before[j]
        {
          if channels[i] && !paused[i] {
            if hasCanvas[i] {
              var data := ChannelValue(values, i);
              if data.Some? {
                series[i] := series[i] + [Sample(now, data.value)];
              }
            }
          }
          i := i + 1;
        }
        StepLineParsed(before, gate, line, toNumber, now, values, series[..]);
      }
    }

    /** One data update: the frame is split on newlines and its lines are
        handled in order, line `k` at time `clock(k)`. */
    method HandleFrame(frame: string, clock: nat -> int, toNumber: string -> Option<V>)
      requires Valid()
      modifies series
      ensures Valid()
      ensures var lines := Split(frame, '\n');
        series[..] == StepLines(old(series[..]), OpenChannels(), lines, toNumber, Times(clock, |lines|))
    {
      var lines := Split(frame, '\n');
      ghost var times := Times(clock, |lines|);
      ghost var start := series[..];
      ghost var gate := OpenChannels();
      var k := 0;
      while k < |lines|
        invariant 0 <= k <= |lines|
        invariant Valid() && OpenChannels() == gate
        invariant series[..] == StepLines(start, gate, lines[..k], toNumber, times[..k])
      {
        ghost var mid := series[..];
        HandleLine(lines[k], clock(k), toNumber);
        assert series[..] == StepLine(mid, gate, lines[k], toNumber, times[k]);
        ghost var done, doneTimes := lines[..k + 1], times[..k + 1];
        assert done[..k] == lines[..k] && doneTimes[..k] == times[..k];
        assert done[k] == lines[k] && doneTimes[k] == times[k];
        StepLinesLast(start, gate, done, toNumber, doneTimes);
        k := k + 1;
      }
      assert lines[..k] == lines;
      assert times[..k] == times;
    }

    /** `updateChartColors`: the profile is replaced wholesale with the one
        for `theme`, and every existing chart is streamed to its canvas again,
        which sets it scrolling whether or not its channel is paused. The
        series and the pause flags are untouched. */
    method ApplyTheme(theme: Option<string>)
      requires Valid()
      modifies this
      ensures Valid()
      ensures profile == ThemeColors(theme)
      ensures forall i :: 0 <= i < |channels| ==> running[i] == HasChart(i)
      ensures paused == old(paused)
      ensures series[..] == old(series[..])
    {
      profile := ThemeColors(theme);
      running := seq(|channels|, i requires 0 <= i < |channels| => channels[i] && hasCanvas[i]);
    }

    /** The effect that runs on every new frame or theme: the colours are
        reapplied, then the frame's lines are handled. */
    method Update(frame: string, theme: Option<string>, clock: nat -> int, toNumber: string -> Option<V>)
      requires Valid()
      modifies this, series
      ensures Valid()
      ensures profile == ThemeColors(theme)
      ensures forall i :: 0 <= i < |channels| ==> running[i] == HasChart(i)
      ensures paused == old(paused)
      ensures var lines := Split(frame, '\n');
        series[..] == StepLines(old(series[..]), OpenChannels(), lines, toNumber, Times(clock, |lines|))
    {
      ApplyTheme(theme);
      HandleFrame(frame, clock, toNumber);
    }

    /** The pause button of an enabled channel with a chart: the flags are
        copied with that entry flipped, and the chart is stopped when it
        becomes paused and restarted when it resumes. No series changes. */
    method TogglePause(index: nat)
      requires Valid()
      requires index < |channels| && channels[index] && hasCanvas[index]
      modifies this
      ensures Valid()
      ensures paused == Toggled(old(paused), index)
      ensures running == old(running)[index := !paused[index]]
      ensures profile == old(profile)
      ensures series[..] == old(series[..])
    {
      var updated := paused;
      updated := updated[index := !paused[index]];
      if updated[index] {
        running := running[index := false];
      } else {
        running := running[index := true];
      }
      paused := updated;
    }
  }
}
