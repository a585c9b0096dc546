/**
  The log wrapper: what a command prints goes to the log file line by line, each behind a time
  stamp, and a prompt without a line end goes there too once it is long or old enough.
 */
module LineRecorder {
  import opened Prelude

  const LF: Byte := 10
  const CR: Byte := 13
  const SPACE: Byte := 32
  const DASHES: seq<Byte> := [45, 45, 45]
  const PARTIAL_FLUSH_BYTES: nat := 4096
  const PARTIAL_FLUSH_SECONDS: real := 0.5

  // ---------------------------------------------------------------- lines

  /** What follows the last newline. */
  function Rest(data: seq<Byte>): (r: seq<Byte>)
    ensures LF !in r
  {
    var n := |data|;
    if n == 0 || data[n - 1] == LF then [] else Rest(data[..n - 1]) + [data[n - 1]]
  }

  /** The complete lines, without their newlines.  data.split(b"\n") is Lines(data) + [Rest(data)]. */
  function Lines(data: seq<Byte>): (lines: seq<seq<Byte>>)
    ensures forall i :: 0 <= i < |lines| ==> LF !in lines[i]
  {
    var n := |data|;
    if n == 0 then []
    else if data[n - 1] == LF then Lines(data[..n - 1]) + [Rest(data[..n - 1])]
    else Lines(data[..n - 1])
  }

  function Terminated(lines: seq<seq<Byte>>): seq<Byte> {
    if lines == [] then [] else Terminated(lines[..|lines| - 1]) + lines[|lines| - 1] + [LF]
  }

  /** Splitting loses nothing. */
  lemma {:induction false} LinesRejoin(data: seq<Byte>)
    ensures Terminated(Lines(data)) + Rest(data) == data
  {
    if data != [] {
      var init, last := data[..|data| - 1], data[|data| - 1];
      LinesRejoin(init);
      LastByte(data);
      TerminatedSnoc(Lines(init), Rest(init));
      hide *;
      assert data == init + [last];
    }
  }

  lemma LastByte(data: seq<Byte>)
    requires data != []
    ensures var init, last := data[..|data| - 1], data[|data| - 1];
      && Lines(data) == (if last == LF then Lines(init) + [Rest(init)] else Lines(init))
      && Rest(data) == if last == LF then [] else Rest(init) + [last]
  {
  }

  lemma TerminatedSnoc(lines: seq<seq<Byte>>, line: seq<Byte>)
    ensures Terminated(lines + [line]) == Terminated(lines) + line + [LF]
  {
    assert (lines + [line])[..|lines|] == lines;
  }

  lemma {:induction false} NoNewlineNoLines(data: seq<Byte>)
    requires LF !in data
    ensures Lines(data) == [] && Rest(data) == data
  {
    if data != [] {
      NoNewlineNoLines(data[..|data| - 1]);
    }
  }

  /** Splitting a stream in two steps, carrying the rest over, is splitting it at once. */
  lemma {:induction false} LinesConcat(a: seq<Byte>, b: seq<Byte>)
    ensures Lines(a + b) == Lines(a) + Lines(Rest(a) + b)
    ensures Rest(a + b) == Rest(Rest(a) + b)
  {
    if b == [] {
      assert a + b == a && Rest(a) + b == Rest(a);
      NoNewlineNoLines(Rest(a));
    } else {
      var b' := b[..|b| - 1];
      LinesConcat(a, b');
      assert (a + b)[..|a + b| - 1] == a + b';
      assert (Rest(a) + b)[..|Rest(a) + b| - 1] == Rest(a) + b';
    }
  }

  /** line.rstrip(b"\r") */
  function StripCR(line: seq<Byte>): (r: seq<Byte>)
    ensures r <= line && (r != [] ==> r[|r| - 1] != CR)
    ensures forall i :: |r| <= i < |line| ==> line[i] == CR
  {
    if line != [] && line[|line| - 1] == CR then StripCR(line[..|line| - 1]) else line
  }

  function Stripped(lines: seq<seq<Byte>>): (r: seq<seq<Byte>>)
    ensures |r| == |lines| && forall i :: 0 <= i < |r| ==> r[i] == StripCR(lines[i])
  {
    seq(|lines|, i requires 0 <= i < |lines| => StripCR(lines[i]))
  }

  /** The bytes that are neither CR nor LF. */
  function Visible(data: seq<Byte>): seq<Byte> {
    if data == [] then []
    else
      var b := data[|data| - 1];
      Visible(data[..|data| - 1]) + if b == CR || b == LF then [] else [b]
  }

  lemma {:induction false} VisibleConcat(a: seq<Byte>, b: seq<Byte>)
    ensures Visible(a + b) == Visible(a) + Visible(b)
  {
    if b == [] {
      assert a + b == a;
    } else {
      VisibleConcat(a, b[..|b| - 1]);
      assert (a + b)[..|a + b| - 1] == a + b[..|b| - 1];
    }
  }

  lemma {:induction false} VisibleStrip(line: seq<Byte>)
    ensures Visible(StripCR(line)) == Visible(line)
  {
    if line != [] && line[|line| - 1] == CR {
      VisibleStrip(line[..|line| - 1]);
    }
  }

  lemma {:induction false} VisibleLines(lines: seq<seq<Byte>>)
    ensures Visible(Terminated(lines)) == Visible(Flatten(Stripped(lines)))
  {
    if lines != [] {
      var init, last := lines[..|lines| - 1], lines[|lines| - 1];
      VisibleLines(init);
      assert Stripped(lines) == Stripped(init) + [StripCR(last)];
      FlattenSnoc(Stripped(init), StripCR(last));
      VisibleConcat(Flatten(Stripped(init)), StripCR(last));
      VisibleConcat(Terminated(init) + last, [LF]);
      VisibleConcat(Terminated(init), last);
      VisibleStrip(last);
      assert [LF][..0] == [];
    }
  }

  // ---------------------------------------------------------------- runs

  /** What happens to the recorder; Flush is a flush that had something to write. */
  datatype Event = Fed(data: seq<Byte>) | Flushed

  /** What the command printed. */
  function Printed(run: seq<Event>): seq<Byte> {
    if run == [] then []
    else
      var e := run[|run| - 1];
      Printed(run[..|run| - 1]) + if e.Fed? then e.data else []
  }

  /** The same with a newline where a flush cut a line. */
  function Cut(run: seq<Event>): seq<Byte> {
    if run == [] then []
    else
      var e := run[|run| - 1];
      Cut(run[..|run| - 1]) + if e.Fed? then e.data else [LF]
  }

  lemma VisibleNewline()
    ensures Visible([LF]) == []
  {
    assert [LF][..0] == [];
  }

  lemma {:induction false} CutShowsPrinted(run: seq<Event>)
    ensures Visible(Cut(run)) == Visible(Printed(run))
  {
    if run != [] {
      var init, e := run[..|run| - 1], run[|run| - 1];
      CutShowsPrinted(init);
      if e.Fed? {
        VisibleConcat(Cut(init), e.data);
        VisibleConcat(Printed(init), e.data);
      } else {
        VisibleNewline();
        VisibleConcat(Cut(init), [LF]);
        assert Printed(run) == Printed(init);
      }
    }
  }

  lemma {:induction false} NothingCut(run: seq<Event>)
    requires Flushed !in run
    ensures Cut(run) == Printed(run)
  {
    if run != [] {
      assert run[|run| - 1] in run;
      NothingCut(run[..|run| - 1]);
    }
  }

  lemma FlushPrintsNothing(run: seq<Event>)
    ensures Printed(run + [Flushed]) == Printed(run)
  {
    assert (run + [Flushed])[..|run|] == run;
  }

  /** Where the lines of a run stand. */
  predicate Recorded(run: seq<Event>, texts: seq<seq<Byte>>, pending: seq<Byte>) {
    texts == Stripped(Lines(Cut(run))) && pending == Rest(Cut(run))
  }

  /**
    However the output was chunked and whenever it was flushed, the log and the pending rest hold
    every visible byte once and in order; if nothing was flushed, the log holds exactly the lines.
   */
  lemma RecordedConserves(run: seq<Event>, texts: seq<seq<Byte>>, pending: seq<Byte>)
    requires Recorded(run, texts, pending)
    ensures Visible(Flatten(texts)) + Visible(pending) == Visible(Printed(run))
    ensures Flushed !in run ==> texts == Stripped(Lines(Printed(run))) && pending == Rest(Printed(run))
  {
    CutShowsPrinted(run);
    if Flushed !in run {
      NothingCut(run);
    }
    LinesRejoin(Cut(run));
    VisibleConcat(Terminated(Lines(Cut(run))), Rest(Cut(run)));
    VisibleLines(Lines(Cut(run)));
  }

  lemma RecordedFeed(run: seq<Event>, texts: seq<seq<Byte>>, pending: seq<Byte>, data: seq<Byte>)
    requires Recorded(run, texts, pending)
    ensures Recorded(run + [Fed(data)], texts + Stripped(Lines(pending + data)), Rest(pending + data))
  {
    hide *;
    CutFed(run, data);
    RecordedIs(run, texts, pending);
    LinesConcat(Cut(run), data);
    StrippedConcat(Lines(Cut(run)), Lines(pending + data));
    RecordedBy(run + [Fed(data)], texts + Stripped(Lines(pending + data)), Rest(pending + data));
  }

  lemma CutFed(run: seq<Event>, data: seq<Byte>)
    ensures Cut(run + [Fed(data)]) == Cut(run) + data
  {
    assert (run + [Fed(data)])[..|run|] == run;
  }

  lemma RecordedIs(run: seq<Event>, texts: seq<seq<Byte>>, pending: seq<Byte>)
    requires Recorded(run, texts, pending)
    ensures texts == Stripped(Lines(Cut(run))) && pending == Rest(Cut(run))
  {
  }

  lemma RecordedBy(run: seq<Event>, texts: seq<seq<Byte>>, pending: seq<Byte>)
    requires texts == Stripped(Lines(Cut(run))) && pending == Rest(Cut(run))
    ensures Recorded(run, texts, pending)
  {
  }

  lemma StrippedConcat(s: seq<seq<Byte>>, t: seq<seq<Byte>>)
    ensures Stripped(s + t) == Stripped(s) + Stripped(t)
  {
  }

  lemma RecordedFlush(run: seq<Event>, texts: seq<seq<Byte>>, pending: seq<Byte>)
    requires Recorded(run, texts, pending)
    ensures Recorded(run + [Flushed], texts + [StripCR(pending)], [])
  {
    assert (run + [Flushed])[..|run|] == run;
    var cut := Cut(run);
    assert (cut + [LF])[..|cut|] == cut;
    assert Lines(cut + [LF]) == Lines(cut) + [pending];
    assert Stripped(Lines(cut) + [pending]) == texts + [StripCR(pending)];
  }

  // ---------------------------------------------------------------- file

  /** An ISO time stamp. */
  type Stamp = s: seq<Byte> | LF !in s && SPACE !in s witness []

  datatype Entry = Entry(stamp: Stamp, text: seq<Byte>, marker: bool)

  function Line(e: Entry): seq<Byte> {
    e.stamp + [SPACE] + e.text
  }

  function LogLines(entries: seq<Entry>): (r: seq<seq<Byte>>)
    ensures |r| == |entries| && forall i :: 0 <= i < |r| ==> r[i] == Line(entries[i])
  {
    seq(|entries|, i requires 0 <= i < |entries| => Line(entries[i]))
  }

  /** The log file. */
  function File(entries: seq<Entry>): seq<Byte> {
    if entries == [] then [] else File(entries[..|entries| - 1]) + Line(entries[|entries| - 1]) + [LF]
  }

  /** The texts that came from the command. */
  function Texts(entries: seq<Entry>): seq<seq<Byte>> {
    if entries == [] then []
    else
      var e := entries[|entries| - 1];
      Texts(entries[..|entries| - 1]) + if e.marker then [] else [e.text]
  }

  lemma OneLine(line: seq<Byte>)
    requires LF !in line
    ensures Lines(line + [LF]) == [line] && Rest(line + [LF]) == []
  {
    assert (line + [LF])[..|line|] == line;
    NoNewlineNoLines(line);
  }

  lemma AppendLine(file: seq<Byte>, line: seq<Byte>)
    requires LF !in line && Rest(file) == []
    ensures Lines(file + (line + [LF])) == Lines(file) + [line] && Rest(file + (line + [LF])) == []
  {
    LinesConcat(file, line + [LF]);
    assert [] + (line + [LF]) == line + [LF];
    OneLine(line);
  }

  lemma FileSnoc(entries: seq<Entry>, e: Entry)
    ensures File(entries + [e]) == File(entries) + (Line(e) + [LF])
    ensures LogLines(entries + [e]) == LogLines(entries) + [Line(e)]
  {
    assert (entries + [e])[..|entries|] == entries;
  }

  /** Reading the file line by line gives the entries, as long as no marker spans several lines. */
  lemma {:induction false} FileReadsBack(entries: seq<Entry>)
    requires forall e :: e in entries ==> LF !in e.text
    ensures Lines(File(entries)) == LogLines(entries) && Rest(File(entries)) == []
  {
    if entries != [] {
      var init, e := entries[..|entries| - 1], entries[|entries| - 1];
      FileReadsBack(init);
      hide *;
      assert entries == init + [e];
      FileSnoc(init, e);
      LineClean(e);
      AppendLine(File(init), Line(e));
    }
  }

  lemma LineClean(e: Entry)
    requires LF !in e.text
    ensures LF !in Line(e)
  {
  }

  // ---------------------------------------------------------------- recorder

  class Recorder {
    var stream: seq<Byte>
    var pending: seq<Byte>
    var pendingSince: real
    ghost var entries: seq<Entry>
    ghost var run: seq<Event>

    ghost predicate Valid()
      reads this
    {
      && Current()
      && |pending| < PARTIAL_FLUSH_BYTES
    }

    ghost predicate Current()
      reads this
    {
      && stream == File(entries)
      && Recorded(run, Texts(entries), pending)
    }

    constructor ()
      ensures Valid() && stream == [] && run == []
    {
      stream, pending, pendingSince := [], [], 0.0;
      entries, run := [], [];
    }

    /** Appends one line; the stamp is the wall clock's. */
    method WriteLine(line: seq<Byte>, ghost marker: bool)
      requires stream == File(entries)
      modifies this`stream, this`entries
      ensures stream == File(entries) && old(stream) <= stream
      ensures |entries| == |old(entries)| + 1 && old(entries) <= entries
      ensures entries[|old(entries)|].text == StripCR(line) && entries[|old(entries)|].marker == marker
      ensures Texts(entries) == Texts(old(entries)) + if marker then [] else [StripCR(line)]
    {
      var stamp: Stamp := *;
      ghost var e := Entry(stamp, StripCR(line), marker);
      stream := stream + stamp + [SPACE] + StripCR(line) + [LF];
      assert (entries + [e])[..|entries|] == entries;
      entries := entries + [e];
      assert stream == old(stream) + Line(e) + [LF];
    }

    /** A remark of the wrapper's own between dashes; what is pending stays pending. */
    method Marker(text: seq<Byte>)
      requires Valid()
      modifies this`stream, this`entries
      ensures Valid() && old(stream) <= stream && Texts(entries) == Texts(old(entries))
      ensures |entries| == |old(entries)| + 1 && old(entries) <= entries
      ensures entries[|old(entries)|].marker && entries[|old(entries)|].text == DASHES + [SPACE] + text + [SPACE] + DASHES
    {
      var line := DASHES + [SPACE] + text + [SPACE] + DASHES;
      assert line[|line| - 1] != CR;
      WriteLine(line, true);
    }

    method FlushPartial()
      requires Current()
      modifies this`stream, this`entries, this`pending, this`run
      ensures Valid() && old(stream) <= stream && pending == []
      ensures run == old(run) + if old(pending) == [] then [] else [Flushed]
    {
      if pending != [] {
        WriteLine(pending, false);
        RecordedFlush(run, Texts(old(entries)), pending);
        pending := [];
        run := run + [Flushed];
      }
    }

    method WriteLines(lines: seq<seq<Byte>>)
      requires stream == File(entries)
      modifies this`stream, this`entries
      ensures stream == File(entries) && old(stream) <= stream
      ensures Texts(entries) == Texts(old(entries)) + Stripped(lines)
    {
      for i := 0 to |lines|
        invariant stream == File(entries) && old(stream) <= stream
        invariant Texts(entries) == Texts(old(entries)) + Stripped(lines)[..i]
      {
        WriteLine(lines[i], false);
        assert Stripped(lines)[..i + 1] == Stripped(lines)[..i] + [StripCR(lines[i])];
      }
      assert Stripped(lines)[..|lines|] == Stripped(lines);
    }

    method Feed(data: seq<Byte>, now: real)
      requires Valid()
      modifies this
      ensures Valid() && old(stream) <= stream
      ensures var rest := Rest(old(pending) + data);
        && pending == (if |rest| >= PARTIAL_FLUSH_BYTES then [] else rest)
        && run == old(run) + [Fed(data)] + if |rest| >= PARTIAL_FLUSH_BYTES then [Flushed] else []
      ensures pendingSince == if old(pending) == [] then now else old(pendingSince)
    {
      hide Recorded, File, Texts, Lines, Stripped;
      if pending == [] {
        pendingSince := now;
      }
      pending := pending + data;
      var lines := Lines(pending);
      pending := Rest(pending);
      RecordedFeed(run, Texts(entries), old(pending), data);
      WriteLines(lines);
      run := run + [Fed(data)];
      if pending != [] && |pending| >= PARTIAL_FLUSH_BYTES {
        FlushPartial();
      }
    }

    method Tick(now: real)
      requires Valid()
      modifies this`stream, this`entries, this`pending, this`run
      ensures Valid() && old(stream) <= stream
      ensures run == old(run) + if old(pending) != [] && now - pendingSince >= PARTIAL_FLUSH_SECONDS
                                then [Flushed] else []
    {
      if pending != [] && now - pendingSince >= PARTIAL_FLUSH_SECONDS {
        FlushPartial();
      }
    }

    /** At the end nothing is left behind. */
    method Close()
      requires Valid()
      modifies this`stream, this`entries, this`pending, this`run
      ensures Valid() && old(stream) <= stream && pending == []
      ensures Visible(Flatten(Texts(entries))) == Visible(Printed(old(run)))
    {
      FlushPartial();
      RecordedConserves(run, Texts(entries), pending);
      assert Visible(pending) == [];
      assert Visible(Flatten(Texts(entries))) == Visible(Printed(run));
      if old(pending) == [] {
        assert run == old(run);
      } else {
        FlushPrintsNothing(old(run));
      }
    }
  }
}
