/** The routing step of the dashboard as functions on values: which channels
    may receive a sample, what one line appends to each channel's series and
    what a frame of lines appends, and the pause toggle. The class in
    canvas.dfy is proved to compute exactly these. */
module Feed {
  import opened Wrappers
  import opened LineParser

  /** One chart point: the ingestion time in milliseconds and the value. */
  datatype Sample<V> = Sample(time: int, value: V)

  /** The fixed enabled-mask: six positional channels, of which the first
      four are shown. */
  function EnabledChannels(): (r: seq<bool>)
    ensures |r| == 6
    ensures forall i :: 0 <= i < |r| ==> (r[i] <==> i < 4)
  {
    [true, true, true, true, false, false]
  }

  /** `Array(n).fill(false)`: initially no channel is paused. */
  function InitialPaused(n: nat): (r: seq<bool>)
    ensures |r| == n
    ensures forall i :: 0 <= i < n ==> !r[i]
  {
    seq(n, _ => false)
  }

  /** The routing guard per index: enabled, not paused, and its canvas exists. */
  function Gate(channels: seq<bool>, paused: seq<bool>, hasCanvas: seq<bool>): (g: seq<bool>)
    requires |paused| == |channels| && |hasCanvas| == |channels|
    ensures |g| == |channels|
    ensures forall i :: 0 <= i < |g| ==> (g[i] <==> channels[i] && !paused[i] && hasCanvas[i])
  {
    seq(|channels|, i requires 0 <= i < |channels| => channels[i] && !paused[i] && hasCanvas[i])
  }

  /** What one value appends: one sample stamped `now`, or nothing for NaN. */
  function Arrivals<V>(v: Option<V>, now: int): (r: seq<Sample<V>>)
    ensures |r| <= 1
    ensures r != [] <==> v.Some?
    ensures r != [] ==> r[0] == Sample(now, v.value)
  {
    if v.Some? then [Sample(now, v.value)] else []
  }

  /** The routing of one parsed line to channel `i`: a channel the gate lets
      through gains at most one sample, stamped `now`; any other gains none. */
  function Routed<V>(gate: seq<bool>, values: seq<Option<V>>, now: int, i: nat): (c: seq<Sample<V>>)
    requires i < |gate|
    ensures |c| <= 1
    ensures c != [] ==> gate[i] && c[0].time == now
  {
    if gate[i] then Arrivals(ChannelValue(values, i), now) else []
  }

  /** The per-channel series after one line has been handled at time `now`:
      every series keeps its samples and grows by at most one at the tail. */
  function StepLine<V>(series: seq<seq<Sample<V>>>, gate: seq<bool>, line: string,
                       toNumber: string -> Option<V>, now: int): (r: seq<seq<Sample<V>>>)
    requires |gate| == |series|
    ensures |r| == |series|
    ensures forall i :: 0 <= i < |r| ==> |series[i]| <= |r[i]| <= |series[i]| + 1 && r[i][..|series[i]|] == series[i]
  {
    match ParseLine(line, toNumber)
    case None => series
    case Some(values) => seq(|series|, i requires 0 <= i < |series| => series[i] + Routed(gate, values, now, i))
  }

  /** What one line appends to channel `i`: nothing for a blank line,
      otherwise its routing. */
  function Contribution<V>(gate: seq<bool>, line: string, toNumber: string -> Option<V>, now: int, i: nat): seq<Sample<V>>
    requires i < |gate|
  {
    match ParseLine(line, toNumber)
    case None => []
    case Some(values) => Routed(gate, values, now, i)
  }

  /** Channel by channel, a line appends its contribution to that channel. */
  lemma StepLineAt<V>(series: seq<seq<Sample<V>>>, gate: seq<bool>, line: string,
                      toNumber: string -> Option<V>, now: int, i: nat)
    requires |gate| == |series| && i < |series|
    ensures StepLine(series, gate, line, toNumber, now)[i] == series[i] + Contribution(gate, line, toNumber, now, i)
  {
  }

  /** For a parsed line, the series after it are the ones that gained each
      channel's routed samples. */
  lemma StepLineParsed<V>(series: seq<seq<Sample<V>>>, gate: seq<bool>, line: string,
                          toNumber: string -> Option<V>, now: int, values: seq<Option<V>>,
                          after: seq<seq<Sample<V>>>)
    requires |gate| == |series| && |after| == |series|
    requires ParseLine(line, toNumber) == Some(values)
    requires forall j :: 0 <= j < |after| ==> after[j] == series[j] + Routed(gate, values, now, j)
    ensures after == StepLine(series, gate, line, toNumber, now)
  {
  }

  /** The series after the lines of a frame, line `k` handled at `times[k]`,
      in the order the lines appear: every series keeps its samples and grows
      by at most one sample per line. */
  function StepLines<V>(series: seq<seq<Sample<V>>>, gate: seq<bool>, lines: seq<string>,
                        toNumber: string -> Option<V>, times: seq<int>): (r: seq<seq<Sample<V>>>)
    requires |gate| == |series| && |times| == |lines|
    ensures |r| == |series|
    ensures forall i :: 0 <= i < |r| ==>
      |series[i]| <= |r[i]| <= |series[i]| + |lines| && r[i][..|series[i]|] == series[i]
    decreases |lines|
  {
    if lines == [] then series
    else
      var n := |lines| - 1;
      StepLine(StepLines(series, gate, lines[..n], toNumber, times[..n]), gate, lines[n], toNumber, times[n])
  }

  /** The dispatch times of the first `n` lines: line `k` read from `clock(k)`. */
  function Times(clock: nat -> int, n: nat): (r: seq<int>)
    ensures |r| == n
    ensures forall k :: 0 <= k < n ==> r[k] == clock(k)
  {
    seq(n, (k: int) requires 0 <= k => clock(k))
  }

  /** What a frame appends to channel `i`: the lines' contributions
      concatenated in line order. */
  function History<V>(gate: seq<bool>, lines: seq<string>, toNumber: string -> Option<V>,
                      times: seq<int>, i: nat): seq<Sample<V>>
    requires i < |gate| && |times| == |lines|
    decreases |lines|
  {
    if lines == [] then []
    else
      var n := |lines| - 1;
      History(gate, lines[..n], toNumber, times[..n], i) + Contribution(gate, lines[n], toNumber, times[n], i)
  }

  /** A blank line (empty, spaces, a lone CR) appends nothing to any channel. */
  lemma BlankLineAppendsNothing<V>(series: seq<seq<Sample<V>>>, gate: seq<bool>, line: string,
                                   toNumber: string -> Option<V>, now: int)
    requires |gate| == |series|
    requires IsBlank(line)
    ensures StepLine(series, gate, line, toNumber, now) == series
  {
  }

  /** A line appends at most one sample to a channel, at the tail, stamped
      with the ingestion time; earlier samples stay as they were, and a
      channel outside the gate is left exactly unchanged. */
  lemma LineAppendsAtTail<V>(series: seq<seq<Sample<V>>>, gate: seq<bool>, line: string,
                             toNumber: string -> Option<V>, now: int, i: nat)
    requires |gate| == |series| && i < |series|
    ensures var r := StepLine(series, gate, line, toNumber, now)[i];
      && |series[i]| <= |r| <= |series[i]| + 1
      && r[..|series[i]|] == series[i]
      && (|r| > |series[i]| ==> gate[i] && r[|series[i]|].time == now)
  {
  }

  /** Routing of a well-formed line `head,f0,f1,...`: channel `i` receives one
      sample exactly when it passes the gate and field `f_i` exists and is a
      number; the sample carries that field's value and the time `now`. */
  lemma LineRouting<V>(series: seq<seq<Sample<V>>>, gate: seq<bool>, head: string, fields: seq<string>,
                       toNumber: string -> Option<V>, now: int, i: nat)
    requires |gate| == |series| && i < |series|
    requires ',' !in head
    requires forall k :: 0 <= k < |fields| ==> ',' !in fields[k]
    requires !IsBlank(Join([head] + fields, ','))
    ensures var r := StepLine(series, gate, Join([head] + fields, ','), toNumber, now)[i];
      r == if gate[i] && i < |fields| && toNumber(fields[i]).Some?
           then series[i] + [Sample(now, toNumber(fields[i]).value)]
           else series[i]
  {
    ChannelReadsField(head, fields, i, toNumber);
    StepLineAt(series, gate, Join([head] + fields, ','), toNumber, now, i);
  }

  /** Handling a frame is handling its first part and then the rest. */
  lemma {:induction false} StepLinesAppend<V>(series: seq<seq<Sample<V>>>, gate: seq<bool>,
                                             a: seq<string>, b: seq<string>,
                                             toNumber: string -> Option<V>, ta: seq<int>, tb: seq<int>)
    requires |gate| == |series| && |ta| == |a| && |tb| == |b|
    ensures StepLines(series, gate, a + b, toNumber, ta + tb)
         == StepLines(StepLines(series, gate, a, toNumber, ta), gate, b, toNumber, tb)
    decreases |b|
  {
    if b != [] {
      var n := |b| - 1;
      var ab, tab := a + b, ta + tb;
      assert ab[..|a| + n] == a + b[..n];
      assert tab[..|a| + n] == ta + tb[..n];
      StepLinesAppend(series, gate, a, b[..n], toNumber, ta, tb[..n]);
      var mid := StepLines(StepLines(series, gate, a, toNumber, ta), gate, b[..n], toNumber, tb[..n]);
      StepLinesLast(series, gate, ab, toNumber, tab);
      assert ab[|a| + n] == b[n] && tab[|a| + n] == tb[n];
      assert StepLines(series, gate, ab, toNumber, tab) == StepLine(mid, gate, b[n], toNumber, tb[n]);
      StepLinesLast(StepLines(series, gate, a, toNumber, ta), gate, b, toNumber, tb);
    } else {
      assert a + b == a;
      assert ta + tb == ta;
    }
  }

  /** One unfolding of `StepLines`: the last line is handled after the others. */
  lemma StepLinesLast<V>(series: seq<seq<Sample<V>>>, gate: seq<bool>, lines: seq<string>,
                         toNumber: string -> Option<V>, times: seq<int>)
    requires |gate| == |series| && |times| == |lines| && lines != []
    ensures StepLines(series, gate, lines, toNumber, times)
         == StepLine(StepLines(series, gate, lines[..|lines| - 1], toNumber, times[..|lines| - 1]),
                     gate, lines[|lines| - 1], toNumber, times[|lines| - 1])
  {
  }

  /** After a frame every channel holds its earlier samples followed by the
      frame's samples for it, in line order. */
  lemma {:induction false} FrameHistory<V>(series: seq<seq<Sample<V>>>, gate: seq<bool>, lines: seq<string>,
                                          toNumber: string -> Option<V>, times: seq<int>, i: nat)
    requires |gate| == |series| && |times| == |lines| && i < |series|
    ensures StepLines(series, gate, lines, toNumber, times)[i] == series[i] + History(gate, lines, toNumber, times, i)
    decreases |lines|
  {
    if lines != [] {
      var n := |lines| - 1;
      var before := StepLines(series, gate, lines[..n], toNumber, times[..n]);
      FrameHistory(series, gate, lines[..n], toNumber, times[..n], i);
      assert before[i] == series[i] + History(gate, lines[..n], toNumber, times[..n], i);
      var c := Contribution(gate, lines[n], toNumber, times[n], i);
      assert StepLine(before, gate, lines[n], toNumber, times[n])[i] == before[i] + c;
    }
  }

  /** Per frame, a channel gains at most one sample per line. */
  lemma {:induction false} HistoryLength<V>(gate: seq<bool>, lines: seq<string>, toNumber: string -> Option<V>,
                                           times: seq<int>, i: nat)
    requires i < |gate| && |times| == |lines|
    ensures |History(gate, lines, toNumber, times, i)| <= |lines|
    decreases |lines|
  {
    if lines != [] {
      var n := |lines| - 1;
      HistoryLength(gate, lines[..n], toNumber, times[..n], i);
    }
  }

  /** A paused (or disabled, or canvas-less) channel keeps its series exactly,
      however many lines arrive. */
  lemma {:induction false} ClosedChannelFrozen<V>(series: seq<seq<Sample<V>>>, gate: seq<bool>, lines: seq<string>,
                                                 toNumber: string -> Option<V>, times: seq<int>, i: nat)
    requires |gate| == |series| && |times| == |lines| && i < |series|
    requires !gate[i]
    ensures StepLines(series, gate, lines, toNumber, times)[i] == series[i]
    decreases |lines|
  {
    if lines != [] {
      var n := |lines| - 1;
      ClosedChannelFrozen(series, gate, lines[..n], toNumber, times[..n], i);
    }
  }

  /** The pause toggle: a copy of the flags with entry `i` flipped. */
  function Toggled(paused: seq<bool>, i: nat): (r: seq<bool>)
    requires i < |paused|
    ensures |r| == |paused|
    ensures r[i] == !paused[i]
    ensures forall j :: 0 <= j < |r| && j != i ==> r[j] == paused[j]
  {
    paused[i := !paused[i]]
  }

  /** Toggling the same channel twice restores the flags. */
  lemma ToggleTwice(paused: seq<bool>, i: nat)
    requires i < |paused|
    ensures Toggled(Toggled(paused, i), i) == paused
  {
  }

  /** Toggles of two channels do not interfere. */
  lemma ToggleCommutes(paused: seq<bool>, i: nat, j: nat)
    requires i < |paused| && j < |paused|
    ensures Toggled(Toggled(paused, i), j) == Toggled(Toggled(paused, j), i)
  {
  }

  /** Toggling a channel changes the gate of that channel only, and of an
      enabled channel with a canvas it opens the gate exactly when the
      channel was paused. */
  lemma ToggleGate(channels: seq<bool>, paused: seq<bool>, hasCanvas: seq<bool>, i: nat)
    requires |paused| == |channels| && |hasCanvas| == |channels| && i < |channels|
    requires channels[i] && hasCanvas[i]
    ensures var g := Gate(channels, Toggled(paused, i), hasCanvas);
      && g[i] == paused[i]
      && forall j :: 0 <= j < |g| && j != i ==> g[j] == Gate(channels, paused, hasCanvas)[j]
  {
  }

  /** The sample line "0,1.5,2.5,3.5,4.5,5.5,6.5" with the fixed mask, no
      channel paused and every canvas present: channels 0 to 3 each receive one
      sample holding fields 1 to 4 at time `now`; channels 4 and 5 receive none. */
  lemma ExampleLine<V>(series: seq<seq<Sample<V>>>, line: string, toNumber: string -> Option<V>, now: int)
    requires |series| == 6
    requires line == "0,1.5,2.5,3.5,4.5,5.5,6.5"
    requires forall f :: f in ["1.5", "2.5", "3.5", "4.5", "5.5", "6.5"] ==> toNumber(f).Some?
    ensures var g := Gate(EnabledChannels(), InitialPaused(6), [true, true, true, true, true, true]);
      var r := StepLine(series, g, line, toNumber, now);
      && r[0] == series[0] + [Sample(now, toNumber("1.5").value)]
      && r[1] == series[1] + [Sample(now, toNumber("2.5").value)]
      && r[2] == series[2] + [Sample(now, toNumber("3.5").value)]
      && r[3] == series[3] + [Sample(now, toNumber("4.5").value)]
      && r[4] == series[4] && r[5] == series[5]
  {
    var g := Gate(EnabledChannels(), InitialPaused(6), [true, true, true, true, true, true]);
    assert g == [true, true, true, true, false, false];
    var fields := ["1.5", "2.5", "3.5", "4.5", "5.5", "6.5"];
    assert toNumber(fields[0]).Some? && toNumber(fields[1]).Some?;
    assert toNumber(fields[2]).Some? && toNumber(fields[3]).Some?;
    ExampleChannel(series, g, line, toNumber, now, 0);
    ExampleChannel(series, g, line, toNumber, now, 1);
    ExampleChannel(series, g, line, toNumber, now, 2);
    ExampleChannel(series, g, line, toNumber, now, 3);
    ExampleChannel(series, g, line, toNumber, now, 4);
    ExampleChannel(series, g, line, toNumber, now, 5);
  }

  /** One channel of the sample line, through its field list. */
  lemma ExampleChannel<V>(series: seq<seq<Sample<V>>>, gate: seq<bool>, line: string,
                          toNumber: string -> Option<V>, now: int, i: nat)
    requires |series| == 6 && |gate| == 6 && i < 6
    requires line == "0,1.5,2.5,3.5,4.5,5.5,6.5"
    ensures var fields := ["1.5", "2.5", "3.5", "4.5", "5.5", "6.5"];
      StepLine(series, gate, line, toNumber, now)[i]
        == if gate[i] && toNumber(fields[i]).Some? then series[i] + [Sample(now, toNumber(fields[i]).value)] else series[i]
  {
    var fields := ["1.5", "2.5", "3.5", "4.5", "5.5", "6.5"];
    ExampleLineFields();
    assert !IsWhitespace(line[0]);
    LineRouting(series, gate, "0", fields, toNumber, now, i);
  }

  /** The sample line as its fields joined by commas. */
  lemma ExampleLineFields()
    ensures Join(["0", "1.5", "2.5", "3.5", "4.5", "5.5", "6.5"], ',') == "0,1.5,2.5,3.5,4.5,5.5,6.5"
  {
    var parts := ["0", "1.5", "2.5", "3.5", "4.5", "5.5", "6.5"];
    assert Join(parts[6..], ',') == "6.5";
    assert Join(parts[5..], ',') == "5.5," + Join(parts[6..], ',');
    assert Join(parts[4..], ',') == "4.5," + Join(parts[5..], ',');
    assert Join(parts[3..], ',') == "3.5," + Join(parts[4..], ',');
    assert Join(parts[2..], ',') == "2.5," + Join(parts[3..], ',');
    assert Join(parts[1..], ',') == "1.5," + Join(parts[2..], ',');
    assert Join(parts, ',') == "0," + Join(parts[1..], ',');
  }
}
