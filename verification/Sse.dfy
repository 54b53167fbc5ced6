/** Reading server-sent events line by line (sse/sse.go), and the frames the codec writes (proxy/codec/stream.go). */
module Sse {
  import opened Texts

  datatype Event = Event(kind: string, data: string, id: string, retry: string)

  const EMPTY := Event("", "", "", "")

  /** The reader's variables, what it emitted so far, and whether an emit failed. */
  datatype Reader = Reader(event: Event, data: seq<string>, sent: seq<Event>, failed: bool)

  const START := Reader(EMPTY, [], [], false)

  // Which emits fail is up to the consumer, by the number of events emitted before.
  type Consumer = nat -> bool

  function Dispatch(r: Reader, fails: Consumer): Reader {
    if r.failed then r
    else if r.data == [] then r.(event := EMPTY)
    else
      var event := r.event.(data := Join(r.data, "\n"));
      if fails(|r.sent|) then Reader(event, r.data, r.sent + [event], true)
      else Reader(EMPTY, [], r.sent + [event], false)
  }

  // strings.Cut at the first colon.
  function Field(line: string): string {
    if line == "" || line[0] == ':' then "" else [line[0]] + Field(line[1..])
  }

  function AfterColon(line: string): string {
    if line == "" then "" else if line[0] == ':' then line[1..] else AfterColon(line[1..])
  }

  function Value(line: string): string {
    var v := AfterColon(line);
    if v != "" && v[0] == ' ' then v[1..] else v
  }

  function OnField(r: Reader, field: string, value: string): Reader {
    if field == "event" then r.(event := r.event.(kind := value))
    else if field == "data" then r.(data := r.data + [value])
    else if field == "id" then if '\0' in value then r else r.(event := r.event.(id := value))
    else if field == "retry" then r.(event := r.event.(retry := value))
    else r
  }

  function TrimCR(line: string): string {
    if line != "" && line[|line| - 1] == '\r' then line[..|line| - 1] else line
  }

  function OnLine(r: Reader, raw: string, fails: Consumer): Reader {
    var line := TrimCR(raw);
    if r.failed then r
    else if line == "" then Dispatch(r, fails)
    else if line[0] == ':' then r
    else OnField(r, Field(line), Value(line))
  }

  function OnLines(r: Reader, lines: seq<string>, fails: Consumer): Reader {
    if lines == [] then r else OnLine(OnLines(r, lines[..|lines| - 1], fails), lines[|lines| - 1], fails)
  }

  /** The complete lines of a text, without their line feeds, and what follows the last of them. */
  datatype Split = Split(lines: seq<string>, rest: string)

  function SplitLines(s: string): Split {
    if s == "" then Split([], "")
    else
      var before, c := SplitLines(s[..|s| - 1]), s[|s| - 1];
      if c == '\n' then Split(before.lines + [before.rest], "") else Split(before.lines, before.rest + [c])
  }

  // All lines read, the last one possibly unfinished.
  function AfterText(s: string, fails: Consumer): Reader {
    var split := SplitLines(s);
    var r := OnLines(START, split.lines, fails);
    if split.rest == "" then r else OnLine(r, split.rest, fails)
  }

  datatype Outcome = Ended | EmitFailed | SourceFailed

  // A source that ends, or breaks, after the text; at its end a pending event is dispatched.
  function Read(s: string, breaks: bool, fails: Consumer): (seq<Event>, Outcome) {
    var r := AfterText(s, fails);
    if r.failed then (r.sent, EmitFailed)
    else if breaks then (r.sent, SourceFailed)
    else
      var last := Dispatch(r, fails);
      (last.sent, if last.failed then EmitFailed else Ended)
  }

  // ---- The loop ---------------------------------------------------------------------------

  class LineReader {
    var event: Event
    var data: seq<string>
    var sent: seq<Event>
    var failed: bool

    constructor ()
      ensures State() == START
    {
      event, data, sent, failed := EMPTY, [], [], false;
    }

    function State(): Reader
      reads this
    {
      Reader(event, data, sent, failed)
    }

    // The `dispatch` closure.
    method Flush(fails: Consumer)
      requires !failed
      modifies this
      ensures State() == Dispatch(old(State()), fails)
    {
      if |data| == 0 {
        event := EMPTY;
        return;
      }
      event := event.(data := Join(data, "\n"));
      sent := sent + [event];
      if fails(|sent| - 1) {
        failed := true;
        return;
      }
      event := EMPTY;
      data := [];
    }

    method Line(raw: string, fails: Consumer)
      requires !failed
      modifies this
      ensures State() == OnLine(old(State()), raw, fails)
    {
      var line := raw;
      if |line| > 0 && line[|line| - 1] == '\r' {
        line := line[..|line| - 1];
      }
      if line == "" {
        Flush(fails);
      } else if line[0] != ':' {
        var field, value := Field(line), Value(line);
        if field == "event" {
          event := event.(kind := value);
        } else if field == "data" {
          data := data + [value];
        } else if field == "id" {
          if '\0' !in value {
            event := event.(id := value);
          }
        } else if field == "retry" {
          event := event.(retry := value);
        }
      }
    }
  }

  // ReadString: where the next line feed is, or the end of the source.
  method NextFeed(source: string, at: nat) returns (end: nat)
    requires at <= |source| && SplitLines(source[..at]).rest == ""
    ensures at <= end <= |source| && (end < |source| ==> source[end] == '\n')
    ensures SplitLines(source[..end]) == Split(SplitLines(source[..at]).lines, source[at..end])
  {
    hide SplitLines;
    end := at;
    assert source[at..at] == "";
    while end < |source| && source[end] != '\n'
      invariant at <= end <= |source|
      invariant SplitLines(source[..end]) == Split(SplitLines(source[..at]).lines, source[at..end])
    {
      SplitOneMore(source, end);
      SliceOneMore(source, at, end);
      end := end + 1;
    }
  }

  lemma {:induction false} SliceOneMore(s: string, i: nat, j: nat)
    requires i <= j < |s|
    ensures s[i..j + 1] == s[i..j] + [s[j]]
  {
  }

  /** `Read`. */
  method ReadEvents(source: string, breaks: bool, fails: Consumer) returns (sent: seq<Event>, outcome: Outcome)
    ensures (sent, outcome) == Read(source, breaks, fails)
  {
    hide OnLine, Dispatch, SplitLines;
    var reader := new LineReader();
    var at := 0;
    SplitPlain(source[..0]);
    var end := NextFeed(source, at);
    while end < |source|
      invariant at <= end <= |source| && !reader.failed && (end < |source| ==> source[end] == '\n')
      invariant reader.State() == OnLines(START, SplitLines(source[..end]).lines, fails)
      invariant SplitLines(source[..end]).rest == source[at..end]
      decreases |source| - end
    {
      ghost var lines := SplitLines(source[..end]).lines;
      SplitOneMore(source, end);
      assert (lines + [source[at..end]])[..|lines|] == lines;
      reader.Line(source[at..end], fails);
      at := end + 1;
      if reader.failed {
        TextDecides(source, at, fails);
        return reader.sent, EmitFailed;
      }
      end := NextFeed(source, at);
    }
    assert source[..end] == source;
    if at < end {
      reader.Line(source[at..end], fails);
      if reader.failed {
        return reader.sent, EmitFailed;
      }
    }
    if breaks {
      return reader.sent, SourceFailed;
    }
    reader.Flush(fails);
    return reader.sent, if reader.failed then EmitFailed else Ended;
  }

  lemma {:induction false} SplitOneMore(s: string, n: nat)
    requires n < |s|
    ensures var before := SplitLines(s[..n]);
            SplitLines(s[..n + 1]) ==
            if s[n] == '\n' then Split(before.lines + [before.rest], "") else Split(before.lines, before.rest + [s[n]])
  {
    assert s[..n + 1][..n] == s[..n];
  }

  lemma {:induction false} FailedStays(r: Reader, line: string, fails: Consumer)
    ensures r.failed ==> OnLine(r, line, fails) == r && Dispatch(r, fails) == r
  {
  }

  // A text whose reader has failed by some complete line reads no further.
  lemma {:induction false} TextDecides(s: string, n: nat, fails: Consumer)
    requires n <= |s| && SplitLines(s[..n]).rest == ""
    ensures var r := OnLines(START, SplitLines(s[..n]).lines, fails); r.failed ==> AfterText(s, fails) == r
  {
    var r := OnLines(START, SplitLines(s[..n]).lines, fails);
    if r.failed {
      LinesDecide(s, n, fails);
      FailedStays(r, SplitLines(s).rest, fails);
    }
  }

  lemma {:induction false} LinesDecide(s: string, n: nat, fails: Consumer)
    requires n <= |s| && OnLines(START, SplitLines(s[..n]).lines, fails).failed
    ensures OnLines(START, SplitLines(s).lines, fails) == OnLines(START, SplitLines(s[..n]).lines, fails)
    decreases |s|
  {
    hide OnLine;
    if n == |s| {
      assert s[..n] == s;
    } else {
      var before := s[..|s| - 1];
      assert before[..n] == s[..n];
      LinesDecide(before, n, fails);
      var split := SplitLines(before);
      assert (split.lines + [split.rest])[..|split.lines|] == split.lines;
      FailedStays(OnLines(START, split.lines, fails), split.rest, fails);
    }
  }

  // ---- Text and lines ---------------------------------------------------------------------

  lemma {:induction false} SplitConcat(p: string, q: string)
    requires SplitLines(p).rest == ""
    ensures SplitLines(p + q) == Split(SplitLines(p).lines + SplitLines(q).lines, SplitLines(q).rest)
    decreases |q|
  {
    if q == "" {
      assert p + q == p;
    } else {
      var n := |q| - 1;
      assert (p + q)[..|p| + n] == p + q[..n];
      SplitConcat(p, q[..n]);
    }
  }

  lemma {:induction false} SplitPlain(line: string)
    requires '\n' !in line
    ensures SplitLines(line) == Split([], line)
  {
    if line != "" {
      SplitPlain(line[..|line| - 1]);
    }
  }

  lemma {:induction false} SplitLine(line: string)
    requires '\n' !in line
    ensures SplitLines(line + "\n") == Split([line], "")
  {
    SplitPlain(line);
    assert (line + "\n")[..|line|] == line;
  }

  lemma {:induction false} OnLinesConcat(r: Reader, p: seq<string>, q: seq<string>, fails: Consumer)
    ensures OnLines(r, p + q, fails) == OnLines(OnLines(r, p, fails), q, fails)
    decreases |q|
  {
    hide OnLine;
    if q == [] {
      assert p + q == p;
    } else {
      var n := |q| - 1;
      assert (p + q)[..|p| + n] == p + q[..n];
      OnLinesConcat(r, p, q[..n], fails);
    }
  }

  lemma {:induction false} DispatchTwice(r: Reader, fails: Consumer)
    ensures Dispatch(Dispatch(r, fails), fails) == Dispatch(r, fails)
  {
  }

  // ---- Ending early -----------------------------------------------------------------------

  /** The end of the source dispatches a pending event: two more line feeds change nothing, for every text. */
  lemma {:induction false} EndDispatches(s: string, fails: Consumer)
    ensures Read(s, false, fails) == Read(s + "\n\n", false, fails)
  {
    hide OnLine, Dispatch, OnLines, SplitLines;
    var split := SplitLines(s);
    TwoFeeds(s);
    var r := AfterText(s, fails);
    DispatchTwice(r, fails);
    FailedStays(r, "", fails);
    var lines := OnLines(START, split.lines, fails);
    OnLinesConcat(START, split.lines, [split.rest, ""], fails);
    TwoLines(lines, split.rest, fails);
    DispatchTwice(lines, fails);
    FailedStays(lines, "", fails);
    FailedStays(Dispatch(lines, fails), "", fails);
    DispatchFails(lines, fails);
    DispatchFails(r, fails);
    if split.rest == "" {
      BlankLine(lines, fails);
      BlankLine(Dispatch(lines, fails), fails);
    } else {
      BlankLine(r, fails);
    }
  }

  // All lines of a text, the last one possibly unfinished.
  function AllLines(s: string): seq<string> {
    var split := SplitLines(s);
    if split.rest == "" then split.lines else split.lines + [split.rest]
  }

  predicate IsBlank(line: string) {
    TrimCR(line) == ""
  }

  predicate IsData(line: string) {
    !IsBlank(line) && line[0] != ':' && Field(TrimCR(line)) == "data"
  }

  // Some line after the last blank line has the field data.
  ghost predicate DataPending(lines: seq<string>) {
    exists i :: 0 <= i < |lines| && IsData(lines[i]) && forall j :: i < j < |lines| ==> !IsBlank(lines[j])
  }

  lemma {:induction false} PendingOneMore(lines: seq<string>, line: string)
    ensures DataPending(lines + [line]) <==> !IsBlank(line) && (IsData(line) || DataPending(lines))
  {
    hide IsBlank, IsData;
    var whole, n := lines + [line], |lines|;
    if DataPending(lines) && !IsBlank(line) {
      var i :| 0 <= i < n && IsData(lines[i]) && forall j :: i < j < n ==> !IsBlank(lines[j]);
      assert IsData(whole[i]) && forall j :: i < j < |whole| ==> !IsBlank(whole[j]);
    }
    if IsData(line) {
      assert IsData(whole[n]);
      DataIsNotBlank(line);
    }
    if DataPending(whole) {
      var i :| 0 <= i < |whole| && IsData(whole[i]) && forall j :: i < j < |whole| ==> !IsBlank(whole[j]);
      assert whole[n] == line;
      DataIsNotBlank(whole[i]);
      if i < n {
        assert IsData(lines[i]);
        assert forall j :: i < j < n ==> whole[j] == lines[j];
      }
    }
  }

  lemma {:induction false} DataIsNotBlank(line: string)
    ensures IsData(line) ==> !IsBlank(line)
  {
  }

  lemma {:induction false} OneLineDecides(r: Reader, line: string, fails: Consumer)
    requires r.failed <==> exists n: nat :: n < |r.sent| && fails(n)
    ensures var after := OnLine(r, line, fails);
            && (after.failed <==> exists n: nat :: n < |after.sent| && fails(n))
            && (!after.failed ==>
                  !r.failed && (after.data != [] <==> !IsBlank(line) && (IsData(line) || r.data != [])))
  {
    hide Field, Value, Join;
  }

  // Data is pending exactly when the text says so, and reading has failed exactly when an emit did.
  lemma {:induction false} LinesPend(lines: seq<string>, fails: Consumer)
    ensures var r := OnLines(START, lines, fails);
            && (r.failed <==> exists n: nat :: n < |r.sent| && fails(n))
            && (!r.failed ==> (r.data != [] <==> DataPending(lines)))
  {
    hide OnLine, DataPending, IsBlank, IsData;
    if lines == [] {
      assert !DataPending([]) by { NothingPends(); }
    } else {
      var n := |lines| - 1;
      LinesPend(lines[..n], fails);
      OneLineDecides(OnLines(START, lines[..n], fails), lines[n], fails);
      assert lines == lines[..n] + [lines[n]];
      PendingOneMore(lines[..n], lines[n]);
    }
  }

  lemma {:induction false} NothingPends()
    ensures !DataPending([])
  {
  }

  lemma {:induction false} AfterAllLines(s: string, fails: Consumer)
    ensures AfterText(s, fails) == OnLines(START, AllLines(s), fails)
  {
    hide OnLine, SplitLines;
    var split := SplitLines(s);
    assert (split.lines + [split.rest])[..|split.lines|] == split.lines;
  }

  /**
   * Section 9.2.6 of the WHATWG HTML Standard emits only the events that a blank line completes. The end
   * of the source emits one more exactly when some line after the last blank line has the field data and
   * every earlier emit succeeded.
   */
  lemma {:induction false} PendingDataIsDispatched(s: string, fails: Consumer)
    ensures var completed := AfterText(s, fails).sent;
            var sent := Read(s, false, fails).0;
            && (sent == completed || (|sent| == |completed| + 1 && sent[..|completed|] == completed))
            && (sent != completed <==> DataPending(AllLines(s)) && forall n: nat :: n < |completed| ==> !fails(n))
  {
    hide AfterText, Join, OnLines, DataPending, AllLines;
    AfterAllLines(s, fails);
    LinesPend(AllLines(s), fails);
  }

  /** An event whose blank line is missing is still read, for every data. */
  lemma {:induction false} UnfinishedEventIsRead(data: string, fails: Consumer)
    requires Clean(data) && forall n: nat :: !fails(n)
    ensures AfterText("data: " + data + "\n", fails).sent == []
    ensures Read("data: " + data + "\n", false, fails) == ([Event("", data, "", "")], Ended)
  {
    var line := "data: " + data;
    SplitLine(line);
    DataLine(START, data, fails);
    hide SplitLines, OnLine;
    assert [line][..0] == [];
    var r := START.(data := [data]);
    assert [] + [data] == [data] && OnLines(START, [line], fails) == r;
    assert Join([data], "\n") == data && !fails(0);
    assert Dispatch(r, fails) == Reader(EMPTY, [], [Event("", data, "", "")], false);
  }

  lemma {:induction false} TwoFeeds(s: string)
    ensures SplitLines(s + "\n\n") == Split(SplitLines(s).lines + [SplitLines(s).rest, ""], "")
  {
    assert (s + "\n\n")[..|s| + 1] == s + "\n" && (s + "\n")[..|s|] == s;
    assert SplitLines(s).lines + [SplitLines(s).rest] + [""] == SplitLines(s).lines + [SplitLines(s).rest, ""];
  }

  lemma {:induction false} TwoLines(r: Reader, a: string, fails: Consumer)
    ensures OnLines(r, [a, ""], fails) == OnLine(OnLine(r, a, fails), "", fails)
  {
    hide OnLine;
    assert [a, ""][..1] == [a] && [a][..0] == [];
    assert OnLines(r, [a], fails) == OnLine(r, a, fails);
  }

  lemma {:induction false} BlankLine(r: Reader, fails: Consumer)
    ensures OnLine(r, "", fails) == Dispatch(r, fails)
  {
  }

  lemma {:induction false} DispatchFails(r: Reader, fails: Consumer)
    ensures r.failed ==> Dispatch(r, fails) == r
  {
  }

  // ---- Line endings -----------------------------------------------------------------------

  // Every line feed preceded by a carriage return.
  function Crlf(s: string): string {
    if s == "" then ""
    else
      var before, c := Crlf(s[..|s| - 1]), s[|s| - 1];
      if c == '\n' then before + "\r\n" else before + [c]
  }

  function WithCR(lines: seq<string>): seq<string> {
    seq(|lines|, i requires 0 <= i < |lines| => lines[i] + "\r")
  }

  lemma {:induction false} SplitCrlf(s: string)
    ensures SplitLines(Crlf(s)) == Split(WithCR(SplitLines(s).lines), SplitLines(s).rest)
  {
    if s != "" {
      var n := |s| - 1;
      SplitCrlf(s[..n]);
      var crlf, split := Crlf(s[..n]), SplitLines(s[..n]);
      SplitMore(crlf, s[n]);
      SplitMore(crlf, '\r');
      SplitMore(crlf + "\r", '\n');
      hide SplitLines, Crlf, WithCR;
      assert s == s[..n] + [s[n]];
      CrlfMore(s[..n], s[n]);
      SplitMore(s[..n], s[n]);
      assert crlf + "\r" + "\n" == crlf + "\r\n";
      WithCRMore(split.lines, split.rest);
    }
  }

  lemma {:induction false} SplitMore(s: string, c: char)
    ensures var before := SplitLines(s);
            SplitLines(s + [c]) ==
            if c == '\n' then Split(before.lines + [before.rest], "") else Split(before.lines, before.rest + [c])
  {
    assert (s + [c])[..|s|] == s;
  }

  lemma {:induction false} CrlfMore(s: string, c: char)
    ensures Crlf(s + [c]) == if c == '\n' then Crlf(s) + "\r\n" else Crlf(s) + [c]
  {
    assert (s + [c])[..|s|] == s;
  }

  lemma {:induction false} WithCRMore(lines: seq<string>, line: string)
    ensures WithCR(lines + [line]) == WithCR(lines) + [line + "\r"]
  {
  }

  lemma {:induction false} LinesHaveNoCR(s: string)
    requires '\r' !in s
    ensures '\r' !in SplitLines(s).rest && forall line :: line in SplitLines(s).lines ==> '\r' !in line
  {
    if s != "" {
      LinesHaveNoCR(s[..|s| - 1]);
    }
  }

  lemma {:induction false} LinesReadAlike(r: Reader, lines: seq<string>, fails: Consumer)
    requires forall line :: line in lines ==> '\r' !in line
    ensures OnLines(r, WithCR(lines), fails) == OnLines(r, lines, fails)
  {
    hide Dispatch, OnField, Field, Value;
    if lines != [] {
      var n := |lines| - 1;
      assert WithCR(lines)[..n] == WithCR(lines[..n]);
      assert lines[n] in lines;
      LinesReadAlike(r, lines[..n], fails);
      assert TrimCR(lines[n]) == lines[n] && TrimCR(lines[n] + "\r") == lines[n];
    }
  }

  /** Turning LF into CRLF in a text without carriage returns changes nothing. */
  lemma {:induction false} LineEndingsDoNotMatter(s: string, breaks: bool, fails: Consumer)
    requires '\r' !in s
    ensures Read(Crlf(s), breaks, fails) == Read(s, breaks, fails)
  {
    hide OnLines, OnLine, SplitLines, Dispatch;
    SplitCrlf(s);
    LinesHaveNoCR(s);
    LinesReadAlike(START, SplitLines(s).lines, fails);
  }

  // ---- Reading what was written -----------------------------------------------------------

  /** What `sseWriter` prints: a named frame, or data alone. */
  datatype Frame = Frame(kind: string, data: string)

  function WriteFrame(f: Frame): string {
    (if f.kind == "" then "" else "event: " + f.kind + "\n") + ("data: " + f.data + "\n" + "\n")
  }

  function WriteFrames(fs: seq<Frame>): string {
    if fs == [] then "" else WriteFrames(fs[..|fs| - 1]) + WriteFrame(fs[|fs| - 1])
  }

  // No line feed, and no carriage return at the end.
  predicate Clean(s: string) {
    '\n' !in s && (s == "" || s[|s| - 1] != '\r')
  }

  predicate CleanFrame(f: Frame) {
    Clean(f.kind) && Clean(f.data)
  }

  function Received(fs: seq<Frame>): (r: seq<Event>)
    ensures |r| == |fs|
  {
    seq(|fs|, i requires 0 <= i < |fs| => Event(fs[i].kind, fs[i].data, "", ""))
  }

  lemma {:induction false} SplitFrame(f: Frame)
    requires CleanFrame(f)
    ensures SplitLines(WriteFrame(f)) == Split((if f.kind == "" then [] else ["event: " + f.kind])
                                               + ["data: " + f.data, ""], "")
  {
    var kind, data := "event: " + f.kind, "data: " + f.data;
    assert '\n' !in kind && '\n' !in data;
    SplitLine(kind);
    SplitLine(data);
    SplitLine("");
    assert "" + "\n" == "\n";
    hide SplitLines;
    SplitConcat(data + "\n", "\n");
    assert [data] + [""] == [data, ""];
    if f.kind == "" {
      assert WriteFrame(f) == data + "\n" + "\n";
      assert [] + [data, ""] == [data, ""];
    } else {
      assert WriteFrame(f) == (kind + "\n") + (data + "\n" + "\n");
      SplitConcat(kind + "\n", data + "\n" + "\n");
    }
  }

  lemma {:induction false} EventLine(r: Reader, kind: string, fails: Consumer)
    requires Clean(kind) && !r.failed && kind != ""
    ensures OnLine(r, "event: " + kind, fails) == r.(event := r.event.(kind := kind))
  {
    hide Dispatch, Field, AfterColon;
    var line := "event: " + kind;
    assert line[|line| - 1] == kind[|kind| - 1];
    CutAt("event", " " + kind);
    assert line == "event" + ":" + (" " + kind);
    assert (" " + kind)[1..] == kind;
  }

  lemma {:induction false} DataLine(r: Reader, data: string, fails: Consumer)
    requires Clean(data) && !r.failed
    ensures OnLine(r, "data: " + data, fails) == r.(data := r.data + [data])
  {
    hide Dispatch, Field, AfterColon;
    var line := "data: " + data;
    assert line[|line| - 1] == if data == "" then ' ' else data[|data| - 1];
    CutAt("data", " " + data);
    assert line == "data" + ":" + (" " + data);
    assert (" " + data)[1..] == data;
  }

  lemma {:induction false} CutAt(field: string, rest: string)
    requires ':' !in field
    ensures Field(field + ":" + rest) == field && AfterColon(field + ":" + rest) == rest
  {
    var line := field + ":" + rest;
    if field == "" {
      assert line[1..] == rest;
    } else {
      CutAt(field[1..], rest);
      assert line[1..] == field[1..] + ":" + rest;
    }
  }

  // A reader between events.
  predicate Idle(r: Reader) {
    r.event == EMPTY && r.data == [] && !r.failed
  }

  lemma {:induction false} FrameRead(r: Reader, f: Frame, fails: Consumer)
    requires CleanFrame(f) && Idle(r) && (forall n: nat :: !fails(n))
    ensures OnLines(r, SplitLines(WriteFrame(f)).lines, fails) == r.(sent := r.sent + [Event(f.kind, f.data, "", "")])
  {
    hide OnLine, SplitLines;
    SplitFrame(f);
    var named := if f.kind == "" then [] else ["event: " + f.kind];
    var begun := r.(event := EMPTY.(kind := f.kind));
    OnLinesConcat(r, named, ["data: " + f.data, ""], fails);
    if f.kind != "" {
      EventLine(r, f.kind, fails);
      assert named[..0] == [];
    }
    assert OnLines(r, named, fails) == begun;
    DataLine(begun, f.data, fails);
    TwoLines(begun, "data: " + f.data, fails);
    BlankLine(begun.(data := begun.data + [f.data]), fails);
    assert [] + [f.data] == [f.data];
    assert Join([f.data], "\n") == f.data;
  }

  lemma {:induction false} FramesSplit(fs: seq<Frame>)
    requires forall f :: f in fs ==> CleanFrame(f)
    ensures SplitLines(WriteFrames(fs)).rest == ""
  {
    hide SplitLines, WriteFrame;
    if fs == [] {
      SplitPlain("");
    } else {
      var n := |fs| - 1;
      assert fs[n] in fs && forall f :: f in fs[..n] ==> f in fs;
      FramesSplit(fs[..n]);
      SplitFrame(fs[n]);
      SplitConcat(WriteFrames(fs[..n]), WriteFrame(fs[n]));
    }
  }

  lemma {:induction false} FramesRead(fs: seq<Frame>, fails: Consumer)
    requires (forall f :: f in fs ==> CleanFrame(f)) && (forall n: nat :: !fails(n))
    ensures OnLines(START, SplitLines(WriteFrames(fs)).lines, fails) == START.(sent := Received(fs))
  {
    hide SplitLines, WriteFrame, OnLine;
    if fs == [] {
      SplitPlain("");
    } else {
      var n := |fs| - 1;
      assert fs[n] in fs && forall f :: f in fs[..n] ==> f in fs;
      FramesRead(fs[..n], fails);
      FramesSplit(fs[..n]);
      SplitConcat(WriteFrames(fs[..n]), WriteFrame(fs[n]));
      OnLinesConcat(START, SplitLines(WriteFrames(fs[..n])).lines, SplitLines(WriteFrame(fs[n])).lines, fails);
      FrameRead(START.(sent := Received(fs[..n])), fs[n], fails);
      assert Received(fs) == Received(fs[..n]) + [Event(fs[n].kind, fs[n].data, "", "")];
    }
  }

  /** Reading the written frames gives exactly the list, and the stream ends without error. */
  lemma {:induction false} ReaderUndoesWriter(fs: seq<Frame>, fails: Consumer)
    requires (forall f :: f in fs ==> CleanFrame(f)) && (forall n: nat :: !fails(n))
    ensures Read(WriteFrames(fs), false, fails) == (Received(fs), Ended)
  {
    hide SplitLines, WriteFrames, OnLines;
    FramesRead(fs, fails);
    FramesSplit(fs);
  }

  // ---- Events with every field ------------------------------------------------------------

  // The lines of one event: comments have no effect, and data comes in as many lines as there are.
  function EventLines(comment: string, kind: string, id: string, retry: string, data: seq<string>): seq<string> {
    [":" + comment, "event: " + kind, "id: " + id, "retry: " + retry] + DataLines(data) + [""]
  }

  function DataLines(data: seq<string>): (r: seq<string>)
    ensures |r| == |data|
  {
    seq(|data|, i requires 0 <= i < |data| => "data: " + data[i])
  }

  function WriteLines(lines: seq<string>): string {
    if lines == [] then "" else WriteLines(lines[..|lines| - 1]) + lines[|lines| - 1] + "\n"
  }

  lemma {:induction false} LinesSplit(lines: seq<string>)
    requires forall line :: line in lines ==> '\n' !in line
    ensures SplitLines(WriteLines(lines)) == Split(lines, "")
  {
    hide SplitLines;
    if lines == [] {
      SplitPlain("");
    } else {
      var n := |lines| - 1;
      assert lines[n] in lines && forall line :: line in lines[..n] ==> line in lines;
      LinesSplit(lines[..n]);
      SplitLine(lines[n]);
      SplitConcat(WriteLines(lines[..n]), lines[n] + "\n");
      assert WriteLines(lines) == WriteLines(lines[..n]) + (lines[n] + "\n");
      assert lines == lines[..n] + [lines[n]];
    }
  }

  lemma {:induction false} DataLinesRead(r: Reader, data: seq<string>, fails: Consumer)
    requires !r.failed && forall d :: d in data ==> Clean(d)
    ensures OnLines(r, DataLines(data), fails) == r.(data := r.data + data)
  {
    hide OnLine;
    if data == [] {
      assert r.data + [] == r.data;
    } else {
      var n := |data| - 1;
      assert data[n] in data && forall d :: d in data[..n] ==> d in data;
      DataLinesRead(r, data[..n], fails);
      assert DataLines(data)[..n] == DataLines(data[..n]);
      DataLine(r.(data := r.data + data[..n]), data[n], fails);
      assert r.data + data[..n] + [data[n]] == r.data + data;
    }
  }

  lemma {:induction false} FieldLine(r: Reader, field: string, value: string, fails: Consumer)
    requires Clean(value) && !r.failed && field != "" && ':' !in field
    ensures OnLine(r, field + ": " + value, fails) == OnField(r, field, value)
  {
    hide Dispatch, Field, AfterColon, OnField;
    var line := field + ": " + value;
    assert line[|line| - 1] == if value == "" then ' ' else value[|value| - 1];
    assert line[0] == field[0] && field[0] in field;
    CutAt(field, " " + value);
    assert line == field + ":" + (" " + value);
    assert (" " + value)[1..] == value;
  }

  lemma {:induction false} CommentLine(r: Reader, comment: string, fails: Consumer)
    ensures OnLine(r, ":" + comment, fails) == r
  {
    hide Dispatch, OnField;
    var line := ":" + comment;
    assert line[0] == ':';
    assert TrimCR(line) != "" && TrimCR(line)[0] == ':';
  }

  lemma {:induction false} FieldsMean(r: Reader, value: string)
    ensures OnField(r, "event", value) == r.(event := r.event.(kind := value))
    ensures '\0' !in value ==> OnField(r, "id", value) == r.(event := r.event.(id := value))
    ensures '\0' in value ==> OnField(r, "id", value) == r
    ensures OnField(r, "retry", value) == r.(event := r.event.(retry := value))
  {
  }

  lemma {:induction false} FourLines(r: Reader, a: string, b: string, c: string, d: string, fails: Consumer)
    ensures OnLines(r, [a, b, c, d], fails) == OnLine(OnLine(OnLine(OnLine(r, a, fails), b, fails), c, fails), d, fails)
  {
    hide OnLine;
    var lines := [a, b, c, d];
    assert lines[..3] == [a, b, c] && [a, b, c][..2] == [a, b];
    TwoAny(r, a, b, fails);
  }

  lemma {:induction false} TwoAny(r: Reader, a: string, b: string, fails: Consumer)
    ensures OnLines(r, [a, b], fails) == OnLine(OnLine(r, a, fails), b, fails)
  {
    hide OnLine;
    assert [a, b][..1] == [a] && [a][..0] == [];
    assert OnLines(r, [a], fails) == OnLine(r, a, fails);
  }

  // The event the fields before the data make.
  function Headed(kind: string, id: string, retry: string): Event {
    Event(kind, "", if '\0' in id then "" else id, retry)
  }

  function Header(comment: string, kind: string, id: string, retry: string): seq<string> {
    [":" + comment, "event: " + kind, "id: " + id, "retry: " + retry]
  }

  lemma {:induction false} HeaderRead(comment: string, kind: string, id: string, retry: string, fails: Consumer)
    requires Clean(kind) && Clean(id) && Clean(retry)
    ensures OnLines(START, Header(comment, kind, id, retry), fails) == START.(event := Headed(kind, id, retry))
  {
    hide OnLine, OnField;
    CommentLine(START, comment, fails);
    FieldLine(START, "event", kind, fails);
    FieldsMean(START, kind);
    var s := START.(event := START.event.(kind := kind));
    FieldLine(s, "id", id, fails);
    FieldsMean(s, id);
    var t := if '\0' in id then s else s.(event := s.event.(id := id));
    FieldLine(t, "retry", retry, fails);
    FieldsMean(t, retry);
    assert "event" + ": " == "event: " && "id" + ": " == "id: " && "retry" + ": " == "retry: ";
    FourLines(START, ":" + comment, "event: " + kind, "id: " + id, "retry: " + retry, fails);
  }

  lemma {:induction false} LinesAreLines(comment: string, kind: string, id: string, retry: string, data: seq<string>)
    requires '\n' !in comment && Clean(kind) && Clean(id) && Clean(retry) && (forall d :: d in data ==> Clean(d))
    ensures forall line :: line in EventLines(comment, kind, id, retry, data) ==> '\n' !in line
    ensures EventLines(comment, kind, id, retry, data) == Header(comment, kind, id, retry) + DataLines(data) + [""]
  {
    var header := Header(comment, kind, id, retry);
    assert forall i :: 0 <= i < 4 ==> '\n' !in header[i];
    forall line | line in DataLines(data)
      ensures '\n' !in line
    {
      var i :| 0 <= i < |data| && DataLines(data)[i] == line;
      assert data[i] in data;
    }
  }

  /**
   * An event with every field: its type, id and retry are those of its lines, an id with a null character
   * is passed over, comments have no effect, and the data lines come out joined by line feeds.
   */
  lemma {:induction false} EventIsRead(comment: string, kind: string, id: string, retry: string, data: seq<string>,
                                       fails: Consumer)
    requires '\n' !in comment && Clean(kind) && Clean(id) && Clean(retry) && (forall d :: d in data ==> Clean(d))
    requires forall n: nat :: !fails(n)
    ensures var (events, outcome) := Read(WriteLines(EventLines(comment, kind, id, retry, data)), false, fails);
            && outcome == Ended
            && if data == [] then events == []
               else
                 && |events| == 1 && events[0].kind == kind && events[0].retry == retry
                 && events[0].id == (if '\0' in id then "" else id)
                 && Separates(data, "\n", events[0].data)
  {
    hide OnLine, SplitLines, Dispatch, Join, EventLines, Header, OnLines, Separates, Clean, WriteLines, DataLines;
    var header, lines := Header(comment, kind, id, retry), EventLines(comment, kind, id, retry, data);
    LinesAreLines(comment, kind, id, retry, data);
    LinesSplit(lines);
    HeaderRead(comment, kind, id, retry, fails);
    var u := START.(event := Headed(kind, id, retry));
    OnLinesConcat(START, header, DataLines(data), fails);
    DataLinesRead(u, data, fails);
    assert [] + data == data;
    OnLinesConcat(START, header + DataLines(data), [""], fails);
    OneBlank(u.(data := data), fails);
    JoinSeparates(data, "\n");
    Ending(u.(data := data), fails);
  }

  lemma {:induction false} OneBlank(r: Reader, fails: Consumer)
    ensures OnLines(r, [""], fails) == Dispatch(r, fails)
  {
    assert [""][..0] == [];
    BlankLine(r, fails);
  }

  lemma {:induction false} Ending(r: Reader, fails: Consumer)
    requires !r.failed && r.sent == [] && forall n: nat :: !fails(n)
    ensures var after := Dispatch(r, fails);
            && !after.failed && Dispatch(after, fails).sent == after.sent && !Dispatch(after, fails).failed
            && after.sent == if r.data == [] then [] else [r.event.(data := Join(r.data, "\n"))]
  {
    hide Join;
  }

  // ---- How reading ends -------------------------------------------------------------------

  ghost predicate OnlyLastFailed(r: Reader, fails: Consumer) {
    && (forall n: nat :: n < |r.sent| - 1 ==> !fails(n))
    && (r.failed <==> r.sent != [] && fails(|r.sent| - 1))
  }

  lemma {:induction false} FlushFails(r: Reader, fails: Consumer)
    requires OnlyLastFailed(r, fails)
    ensures OnlyLastFailed(Dispatch(r, fails), fails)
  {
    hide Join;
  }

  lemma {:induction false} OneLineFails(r: Reader, line: string, fails: Consumer)
    requires OnlyLastFailed(r, fails)
    ensures OnlyLastFailed(OnLine(r, line, fails), fails)
  {
    FlushFails(r, fails);
    hide Dispatch, Field, Value;
  }

  lemma {:induction false} LinesFail(lines: seq<string>, fails: Consumer)
    ensures OnlyLastFailed(OnLines(START, lines, fails), fails)
  {
    hide OnLine;
    if lines != [] {
      LinesFail(lines[..|lines| - 1], fails);
      OneLineFails(OnLines(START, lines[..|lines| - 1], fails), lines[|lines| - 1], fails);
    }
  }

  /**
   * Reading stops at the first event whose emit fails, and says so; else it says whether the source broke
   * or ended.
   */
  lemma {:induction false} ReadingEnds(s: string, breaks: bool, fails: Consumer)
    ensures var (sent, outcome) := Read(s, breaks, fails);
            && (forall n: nat :: n < |sent| - 1 ==> !fails(n))
            && outcome == if sent != [] && fails(|sent| - 1) then EmitFailed
                          else if breaks then SourceFailed else Ended
  {
    hide Dispatch, AllLines, OnLines, AfterText;
    AfterAllLines(s, fails);
    LinesFail(AllLines(s), fails);
    FlushFails(AfterText(s, fails), fails);
  }

  lemma {:induction false} FieldIsNoData(r: Reader, line: string, fails: Consumer)
    requires !r.failed && r.data == [] && !IsBlank(line) && !IsData(line)
    ensures var after := OnLine(r, line, fails); !after.failed && after.data == [] && after.sent == r.sent
  {
    hide Field, Value, Dispatch;
  }

  lemma {:induction false} NoDataYet(lines: seq<string>, fails: Consumer)
    requires forall line :: line in lines ==> !IsBlank(line) && !IsData(line)
    ensures var r := OnLines(START, lines, fails); !r.failed && r.data == [] && r.sent == []
  {
    hide OnLine, IsBlank, IsData;
    if lines != [] {
      var n := |lines| - 1;
      assert lines[n] in lines && forall line :: line in lines[..n] ==> line in lines;
      NoDataYet(lines[..n], fails);
      FieldIsNoData(OnLines(START, lines[..n], fails), lines[n], fails);
    }
  }

  /** An event without data is forgotten at its blank line, with its type, its id and its retry. */
  lemma {:induction false} EventWithoutDataIsForgotten(lines: seq<string>, fails: Consumer)
    requires forall line :: line in lines ==> !IsBlank(line) && !IsData(line)
    ensures OnLines(START, lines + [""], fails) == START
  {
    hide OnLine, IsBlank, IsData, Dispatch;
    NoDataYet(lines, fails);
    OnLinesConcat(START, lines, [""], fails);
    OneBlank(OnLines(START, lines, fails), fails);
    NothingToDispatch(OnLines(START, lines, fails), fails);
  }

  lemma {:induction false} NothingToDispatch(r: Reader, fails: Consumer)
    requires !r.failed && r.data == [] && r.sent == []
    ensures Dispatch(r, fails) == START
  {
  }

  /** A field ends at the first colon; one space after the colon is passed over; without a colon it has no value. */
  lemma {:induction false} ColonsMean(name: string, value: string)
    requires ':' !in name
    ensures Field(name + ":" + value) == name && Field(name) == name && Value(name) == ""
    ensures Value(name + ":" + value) == if value != "" && value[0] == ' ' then value[1..] else value
  {
    CutAt(name, value);
    NothingCut(name);
  }

  /** A line loses one carriage return at its end, and no more. */
  lemma {:induction false} OneReturnIsTrimmed(line: string)
    ensures TrimCR(line + "\r") == line
    ensures line == "" || line[|line| - 1] != '\r' ==> TrimCR(line) == line
  {
    assert (line + "\r")[..|line|] == line;
  }

  lemma {:induction false} NothingCut(name: string)
    requires ':' !in name
    ensures Field(name) == name && AfterColon(name) == ""
  {
    if name != "" {
      assert name[0] in name && forall c :: c in name[1..] ==> c in name;
      NothingCut(name[1..]);
      assert [name[0]] + name[1..] == name;
    }
  }
}
