/** The parse step of the dashboard's line handler: a line is skipped when it is
    blank after `trim()`, otherwise it is split on `,`, every field is converted
    with `Number` and the first field (a sequence column) is dropped. */
module LineParser {
  import opened Wrappers

  /** The characters `String.prototype.trim` removes: the ECMAScript WhiteSpace
      production (TAB, VT, FF, SP, NBSP, ZWNBSP and the Unicode space separators)
      and the LineTerminator production (LF, CR, LS, PS). */
  predicate IsWhitespace(c: char) {
    c == '\t' || c == '\n' || c == '\U{B}' || c == '\U{C}' || c == '\r' || c == ' '
    || c == '\U{A0}' || c == '\U{1680}' || ('\U{2000}' <= c <= '\U{200A}')
    || c == '\U{2028}' || c == '\U{2029}' || c == '\U{202F}' || c == '\U{205F}'
    || c == '\U{3000}' || c == '\U{FEFF}'
  }

  /** A line made of whitespace only (the empty line included). */
  predicate IsBlank(s: string) {
    forall k :: 0 <= k < |s| ==> IsWhitespace(s[k])
  }

  /** Leading whitespace removed: the result is the longest suffix of `s`
      that does not start with whitespace. */
  function TrimStart(s: string): (r: string)
    ensures |r| <= |s| && r == s[|s| - |r|..]
    ensures forall k :: 0 <= k < |s| - |r| ==> IsWhitespace(s[k])
    ensures r != [] ==> !IsWhitespace(r[0])
  {
    if s != [] && IsWhitespace(s[0]) then TrimStart(s[1..]) else s
  }

  /** Trailing whitespace removed: the longest prefix of `s` that does not
      end with whitespace. */
  function TrimEnd(s: string): (r: string)
    ensures |r| <= |s| && r == s[..|r|]
    ensures forall k :: |r| <= k < |s| ==> IsWhitespace(s[k])
    ensures r != [] ==> !IsWhitespace(r[|r| - 1])
  {
    if s != [] && IsWhitespace(s[|s| - 1]) then TrimEnd(s[..|s| - 1]) else s
  }

  /** `s.trim()`: it begins and ends with a character that is not
      whitespace, and it is empty exactly when the line is blank. */
  function Trim(s: string): (r: string)
    ensures |r| <= |s|
    ensures r != [] ==> !IsWhitespace(r[0]) && !IsWhitespace(r[|r| - 1])
    ensures r == [] <==> IsBlank(s)
  {
    TrimEnd(TrimStart(s))
  }

  /** `trim()` removes whitespace only, and only around the text: the result
      is a piece `s[k..k + |Trim(s)|]` of the line with nothing but
      whitespace before and after it. */
  lemma TrimPiece(s: string)
    ensures exists k :: 0 <= k <= |s| - |Trim(s)| && Trim(s) == s[k..k + |Trim(s)|]
                        && IsBlank(s[..k]) && IsBlank(s[k + |Trim(s)|..])
  {
    var t := TrimStart(s);
    var k := |s| - |t|;
    var r := TrimEnd(t);
    assert r == Trim(s);
    assert r == s[k..k + |r|];
    var before, after := s[..k], s[k + |r|..];
    assert IsBlank(before) by {
      forall j | 0 <= j < |before| ensures IsWhitespace(before[j]) {
        assert before[j] == s[j];
      }
    }
    assert IsBlank(after) by {
      forall j | 0 <= j < |after| ensures IsWhitespace(after[j]) {
        assert after[j] == t[|r| + j];
      }
    }
  }

  /** The pieces joined back with the separator between them. */
  function Join(parts: seq<string>, sep: char): string
    requires |parts| >= 1
  {
    if |parts| == 1 then parts[0] else parts[0] + [sep] + Join(parts[1..], sep)
  }

  /** `s.split(sep)` for a one-character separator: never empty (the empty
      string splits into one empty field), no piece holds the separator, and
      joining the pieces gives `s` back. */
  function Split(s: string, sep: char): (r: seq<string>)
    ensures |r| >= 1
    ensures forall k :: 0 <= k < |r| ==> sep !in r[k]
    ensures Join(r, sep) == s
  {
    if s == [] then [""]
    else
      var rest := Split(s[1..], sep);
      if s[0] == sep then
        assert Join([""] + rest, sep) == [sep] + Join(rest, sep);
        [""] + rest
      else
        var r := [[s[0]] + rest[0]] + rest[1..];
        assert |rest| > 1 ==> rest[1..] == r[1..];
        r
  }

  /** The other half of the round trip: separator-free pieces survive
      `Join` followed by `Split`. */
  lemma {:induction false} SplitJoin(parts: seq<string>, sep: char)
    requires |parts| >= 1
    requires forall k :: 0 <= k < |parts| ==> sep !in parts[k]
    ensures Split(Join(parts, sep), sep) == parts
  {
    if |parts| == 1 {
      SplitNoSeparator(parts[0], sep);
    } else {
      SplitJoin(parts[1..], sep);
      SplitPrefix(parts[0], Join(parts[1..], sep), sep);
      assert [parts[0]] + parts[1..] == parts;
    }
  }

  /** A string without the separator is one field. */
  lemma {:induction false} SplitNoSeparator(s: string, sep: char)
    requires sep !in s
    ensures Split(s, sep) == [s]
  {
    if s != [] {
      SplitNoSeparator(s[1..], sep);
    }
  }

  /** A separator-free head followed by a separator becomes the first field. */
  lemma {:induction false} SplitPrefix(head: string, tail: string, sep: char)
    requires sep !in head
    ensures Split(head + [sep] + tail, sep) == [head] + Split(tail, sep)
  {
    if head == [] {
      assert head + [sep] + tail == [sep] + tail;
      assert ([sep] + tail)[1..] == tail;
    } else {
      var s := head + [sep] + tail;
      assert s[1..] == head[1..] + [sep] + tail;
      SplitPrefix(head[1..], tail, sep);
      assert [head[0]] + head[1..] == head;
    }
  }

  /** Number of occurrences of `c` in `s`. */
  function Count(s: string, c: char): nat {
    if s == [] then 0 else (if s[0] == c then 1 else 0) + Count(s[1..], c)
  }

  /** A line with n separators has n + 1 fields. */
  lemma {:induction false} SplitLength(s: string, sep: char)
    ensures |Split(s, sep)| == Count(s, sep) + 1
  {
    if s != [] {
      SplitLength(s[1..], sep);
    }
  }

  /** `line.split(",").map(Number).slice(1)` behind the `trim() !== ""` guard:
      `None` for a skipped line, otherwise one converted value per field after
      the first. */
  function ParseLine<V>(line: string, toNumber: string -> Option<V>): (r: Option<seq<Option<V>>>)
    ensures r.None? <==> IsBlank(line)
    ensures r.Some? ==> |r.value| == Count(line, ',')
  {
    SplitLength(line, ',');
    if Trim(line) == "" then None
    else
      var fields := Split(line, ',');
      Some(seq(|fields| - 1, k requires 0 <= k < |fields| - 1 => toNumber(fields[k + 1])))
  }

  /** `!isNaN(sensorValues[index])`: the value for channel `i`, or `None`
      when it is not a number or the index is past the end of the array. */
  function ChannelValue<V>(values: seq<Option<V>>, i: nat): (r: Option<V>)
    ensures r.Some? <==> i < |values| && values[i].Some?
    ensures r.Some? ==> r == values[i]
  {
    if i < |values| then values[i] else None
  }

  /** Channel `i` reads field `i + 1` of the line: for a non-blank line
      `seq,f0,f1,...` the value routed to channel `i` is `f_i` converted, and
      there is none when the line has no such field. */
  lemma ChannelReadsField<V>(head: string, fields: seq<string>, i: nat, toNumber: string -> Option<V>)
    requires ',' !in head
    requires forall k :: 0 <= k < |fields| ==> ',' !in fields[k]
    requires !IsBlank(Join([head] + fields, ','))
    ensures ParseLine(Join([head] + fields, ','), toNumber).Some?
    ensures ChannelValue(ParseLine(Join([head] + fields, ','), toNumber).value, i)
            == if i < |fields| then toNumber(fields[i]) else None
  {
    var line := Join([head] + fields, ',');
    var parts := [head] + fields;
    assert forall k :: 0 <= k < |parts| ==> ',' !in parts[k] by {
      forall k | 0 <= k < |parts| ensures ',' !in parts[k] {
        if k > 0 { assert parts[k] == fields[k - 1]; }
      }
    }
    SplitJoin(parts, ',');
    var values := ParseLine(line, toNumber).value;
    ParsedFields(line, toNumber);
    if i < |fields| {
      assert values[i] == toNumber(parts[i + 1]);
      assert parts[i + 1] == fields[i];
    }
  }

  /** The values of a non-blank line are its fields after the first, each
      converted, in order. */
  lemma ParsedFields<V>(line: string, toNumber: string -> Option<V>)
    requires !IsBlank(line)
    ensures ParseLine(line, toNumber).Some?
    ensures var values := ParseLine(line, toNumber).value;
      && |values| == |Split(line, ',')| - 1
      && forall k :: 0 <= k < |values| ==> values[k] == toNumber(Split(line, ',')[k + 1])
  {
  }
}
