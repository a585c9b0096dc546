/**
  The log tailer: it reads a growing log file from an offset on and hands out the lines that are
  complete.
 */
module Tailer {
  import opened Prelude
  import opened LineRecorder

  // ---------------------------------------------------------------- str.splitlines

  /** The characters that end a line for Python's str.splitlines. */
  predicate IsBreak(c: char) {
    c in {'\n', '\r', '\U{0B}', '\U{0C}', '\U{1C}', '\U{1D}', '\U{1E}', '\U{85}', '\U{2028}', '\U{2029}'}
  }

  /** CR LF is one break. */
  function BreakLength(s: string): nat
    requires s != ""
  {
    if s[0] == '\r' && |s| > 1 && s[1] == '\n' then 2 else 1
  }

  function SplitLines(s: string): (lines: seq<string>)
    ensures s != "" ==> lines != []
    decreases |s|
  {
    if s == "" then []
    else if IsBreak(s[0]) then [""] + SplitLines(s[BreakLength(s)..])
    else Prepend(s[0], SplitLines(s[1..]))
  }

  /** One more character in front of the first line. */
  function Prepend(c: char, lines: seq<string>): seq<string> {
    if lines == [] then [[c]] else [[c] + lines[0]] + lines[1..]
  }

  lemma PrependConcat(c: char, lines: seq<string>, more: seq<string>)
    requires lines != []
    ensures Prepend(c, lines + more) == Prepend(c, lines) + more
  {
  }

  lemma SplitInside(s: string)
    requires s != "" && !IsBreak(s[0])
    ensures SplitLines(s) == Prepend(s[0], SplitLines(s[1..]))
  {
  }

  predicate Clean(line: string) {
    forall i :: 0 <= i < |line| ==> !IsBreak(line[i])
  }

  predicate EndsLine(s: string) {
    s == "" || s[|s| - 1] == '\n'
  }

  lemma {:induction false} SplitLinesClean(s: string)
    ensures forall k :: 0 <= k < |SplitLines(s)| ==> Clean(SplitLines(s)[k])
    decreases |s|
  {
    if s != "" {
      if IsBreak(s[0]) {
        SplitLinesClean(s[BreakLength(s)..]);
      } else {
        SplitLinesClean(s[1..]);
      }
    }
  }

  lemma SplitNothing()
    ensures SplitLines("") == []
  {
  }

  lemma SplitAtBreak(a: string, b: string)
    requires a != "" && IsBreak(a[0]) && EndsLine(a)
    ensures BreakLength(a + b) == BreakLength(a) <= |a| && EndsLine(a[BreakLength(a)..])
    ensures SplitLines(a) == [""] + SplitLines(a[BreakLength(a)..])
    ensures SplitLines(a + b) == [""] + SplitLines((a + b)[BreakLength(a)..])
  {
  }

  lemma ConcatAtBreak(a: string, b: string, k: nat)
    requires a != "" && IsBreak(a[0]) && EndsLine(a) && k == BreakLength(a) && k <= |a|
    requires SplitLines(a[k..] + b) == SplitLines(a[k..]) + SplitLines(b)
    ensures SplitLines(a + b) == SplitLines(a) + SplitLines(b)
  {
    hide SplitLines, IsBreak, EndsLine, BreakLength;
    SplitAtBreak(a, b);
    assert (a + b)[k..] == a[k..] + b;
    assert [""] + (SplitLines(a[k..]) + SplitLines(b)) == ([""] + SplitLines(a[k..])) + SplitLines(b);
  }

  lemma ConcatInside(a: string, b: string)
    requires a != "" && !IsBreak(a[0]) && a[1..] != ""
    requires SplitLines(a[1..] + b) == SplitLines(a[1..]) + SplitLines(b)
    ensures SplitLines(a + b) == SplitLines(a) + SplitLines(b)
  {
    hide SplitLines, Prepend, IsBreak;
    assert (a + b)[1..] == a[1..] + b && (a + b)[0] == a[0];
    SplitInside(a);
    SplitInside(a + b);
    PrependConcat(a[0], SplitLines(a[1..]), SplitLines(b));
  }

  /** Text that ends with a line end can be split on its own. */
  lemma {:induction false} SplitLinesConcat(a: string, b: string)
    requires EndsLine(a)
    ensures SplitLines(a + b) == SplitLines(a) + SplitLines(b)
    decreases |a|
  {
    hide SplitLines;
    if a == "" {
      assert a + b == b;
      SplitNothing();
    } else if IsBreak(a[0]) {
      SplitAtBreak(a, b);
      SplitLinesConcat(a[BreakLength(a)..], b);
      ConcatAtBreak(a, b, BreakLength(a));
    } else {
      SplitLinesConcat(a[1..], b);
      ConcatInside(a, b);
    }
  }

  function Joined(lines: seq<string>): string {
    if lines == [] then "" else Joined(lines[..|lines| - 1]) + lines[|lines| - 1] + "\n"
  }

  lemma JoinedSnoc(lines: seq<string>, line: string)
    ensures Joined(lines + [line]) == Joined(lines) + (line + "\n")
  {
    assert (lines + [line])[..|lines|] == lines;
  }

  lemma {:induction false} CleanLine(line: string)
    requires Clean(line)
    ensures SplitLines(line + "\n") == [line]
  {
    if line == "" {
      assert line + "\n" == "\n";
      assert "\n"[1..] == "";
    } else {
      CleanLine(line[1..]);
      assert (line + "\n")[1..] == line[1..] + "\n";
      assert !IsBreak(line[0]);
      assert [line[0]] + line[1..] == line;
    }
  }

  /** Logged lines come back one for one exactly if none holds a character that splitlines breaks at. */
  lemma {:induction false} LinesComeBackIff(lines: seq<string>)
    ensures SplitLines(Joined(lines)) == lines <==> forall k :: 0 <= k < |lines| ==> Clean(lines[k])
  {
    SplitLinesClean(Joined(lines));
    if forall k :: 0 <= k < |lines| ==> Clean(lines[k]) {
      CleanLinesComeBack(lines);
    }
  }

  /** A progress line with a carriage return inside comes back as two lines. */
  lemma InnerReturnSplits()
    ensures !Clean("a\rb") && Joined(["a\rb"]) == "a\rb\n" && SplitLines("a\rb\n") == ["a", "b"]
  {
    var s := "a\rb\n";
    assert IsBreak("a\rb"[1]);
    assert ["a\rb"][..0] == [] && Joined([]) == "";
    CleanLine("b");
    assert s[1..] == "\rb\n" && s[1..][1..] == "b" + "\n";
    assert SplitLines(s[1..]) == [""] + ["b"];
    assert ['a'] + "" == "a";
  }

  lemma {:induction false} CleanLinesComeBack(lines: seq<string>)
    requires forall k :: 0 <= k < |lines| ==> Clean(lines[k])
    ensures SplitLines(Joined(lines)) == lines && EndsLine(Joined(lines))
  {
    if lines != [] {
      var init, last := lines[..|lines| - 1], lines[|lines| - 1];
      CleanLinesComeBack(init);
      assert Joined(lines) == Joined(init) + (last + "\n");
      hide Joined, SplitLines;
      SplitLinesConcat(Joined(init), last + "\n");
      CleanLine(last);
    }
  }

  // ---------------------------------------------------------------- decoding

  predicate EndsRecord(data: seq<Byte>) {
    data == [] || data[|data| - 1] == LF
  }

  /**
    What decoding UTF-8 with replacement characters does: a newline byte is never part of a longer
    character, so a text can be decoded line by line.
   */
  ghost predicate LineWise(decode: seq<Byte> -> string) {
    && (forall a, b :: EndsRecord(a) ==> decode(a + b) == decode(a) + decode(b))
    && (forall a :: EndsRecord(a) ==> EndsLine(decode(a)))
  }

  lemma DecodedNothing(decode: seq<Byte> -> string)
    requires LineWise(decode)
    ensures decode([]) == ""
  {
    var nothing: seq<Byte> := [];
    assert nothing + nothing == nothing;
    assert EndsRecord(nothing);
    assert |decode(nothing)| == |decode(nothing)| + |decode(nothing)|;
  }

  lemma DecodeSplits(decode: seq<Byte> -> string, a: seq<Byte>, b: seq<Byte>)
    requires LineWise(decode) && EndsRecord(a)
    ensures SplitLines(decode(a + b)) == SplitLines(decode(a)) + SplitLines(decode(b))
  {
    SplitLinesConcat(decode(a), decode(b));
  }

  /** data.rfind(b"\n") + 1 */
  function Complete(data: seq<Byte>): (n: nat)
    ensures n <= |data| && EndsRecord(data[..n]) && LF !in data[n..]
  {
    if data == [] || data[|data| - 1] == LF then |data| else
      var n := Complete(data[..|data| - 1]);
      assert data[..n] == data[..|data| - 1][..n];
      assert data[n..] == data[..|data| - 1][n..] + [data[|data| - 1]];
      n
  }

  lemma Delivering(decode: seq<Byte> -> string, log: seq<Byte>, now: seq<Byte>, start: nat, offset: nat,
                   complete: nat)
    requires LineWise(decode) && log <= now && start <= offset <= |log|
    requires complete <= |now| - offset && EndsRecord(log[start..offset]) && EndsRecord(now[offset..][..complete])
    ensures var more := now[offset..offset + complete];
      && more == now[offset..][..complete] && now[offset + complete..] == now[offset..][complete..]
      && EndsRecord(now[start..offset + complete])
      && now[start..offset] == log[start..offset]
      && SplitLines(decode(now[start..offset + complete]))
         == SplitLines(decode(log[start..offset])) + SplitLines(decode(more))
      && (complete == 0 ==> SplitLines(decode(more)) == [])
  {
    hide SplitLines;
    var done, more := now[start..offset], now[offset..offset + complete];
    assert done == log[start..offset];
    assert more == now[offset..][..complete];
    assert now[start..offset + complete] == done + more;
    DecodeSplits(decode, done, more);
    if complete == 0 {
      assert more == [];
      DecodedNothing(decode);
      SplitNothing();
    }
  }

  class Managed {
    const decode: seq<Byte> -> string
    var offset: nat
    /** Every line that the callback was given. */
    var delivered: seq<string>
    ghost const start: nat
    /** The log as the last read found it. */
    ghost var log: seq<Byte>

    ghost predicate Valid()
      reads this
    {
      && LineWise(decode)
      && start <= offset <= |log|
      && EndsRecord(log[start..offset])
      && delivered == SplitLines(decode(log[start..offset]))
    }

    /** A tailer that starts in the middle of a log, as it does when the supervisor reattaches. */
    constructor (decode: seq<Byte> -> string, ghost log: seq<Byte>, start: nat)
      requires LineWise(decode) && start <= |log|
      ensures Valid() && offset == start == this.start && this.log == log && this.decode == decode && delivered == []
    {
      this.decode, this.log, this.start, offset, delivered := decode, log, start, start, [];
      DecodedNothing(decode);
    }

    /**
      One read that no other read overlaps.  Whatever the moments of the reads, the lines delivered
      so far are those of the log from the start to the last newline seen.
     */
    method ReadNewLines(now: seq<Byte>)
      requires Valid() && log <= now
      modifies this`offset, this`delivered, this`log
      ensures Valid() && log == now && old(delivered) <= delivered
      ensures LF !in log[offset..]
      ensures delivered == old(delivered) + SplitLines(decode(log[old(offset)..offset]))
      ensures EndsRecord(log[old(offset)..offset])
    {
      hide LineWise, SplitLines;
      var data := now[offset..];
      var complete := Complete(data);
      Delivering(decode, log, now, start, offset, complete);
      log := now;
      if complete == 0 {
        return;
      }
      offset := offset + complete;
      var lines := SplitLines(decode(data[..complete]));
      if lines != [] {
        delivered := delivered + lines;
      }
    }
  }

  /** decode, line by line. */
  function Decoded(decode: seq<Byte> -> string, lines: seq<seq<Byte>>): (r: seq<string>)
    ensures |r| == |lines| && forall i :: 0 <= i < |r| ==> r[i] == decode(lines[i])
  {
    seq(|lines|, i requires 0 <= i < |lines| => decode(lines[i]))
  }

  lemma {:induction false} DecodeFile(decode: seq<Byte> -> string, entries: seq<Entry>)
    requires LineWise(decode)
    requires forall a :: LF !in a ==> decode(a + [LF]) == decode(a) + "\n"
    requires forall e :: e in entries ==> LF !in e.text
    ensures decode(File(entries)) == Joined(Decoded(decode, LogLines(entries)))
    ensures EndsRecord(File(entries))
  {
    if entries == [] {
      DecodedNothing(decode);
    } else {
      var init, e := entries[..|entries| - 1], entries[|entries| - 1];
      DecodeFile(decode, init);
      assert entries == init + [e];
      LineClean(e);
      assert decode(Line(e) + [LF]) == decode(Line(e)) + "\n";
      FileSnoc(init, e);
      DecodeEntry(decode, File(init), Line(e));
      DecodedSnoc(decode, init, e);
      JoinedSnoc(Decoded(decode, LogLines(init)), decode(Line(e)));
      hide *;
    }
  }

  lemma DecodeEntry(decode: seq<Byte> -> string, log: seq<Byte>, line: seq<Byte>)
    requires LineWise(decode) && EndsRecord(log)
    ensures decode(log + line + [LF]) == decode(log) + decode(line + [LF]) && EndsRecord(log + line + [LF])
  {
    assert log + line + [LF] == log + (line + [LF]);
  }

  lemma DecodedSnoc(decode: seq<Byte> -> string, entries: seq<Entry>, e: Entry)
    ensures Decoded(decode, LogLines(entries + [e])) == Decoded(decode, LogLines(entries)) + [decode(Line(e))]
  {
  }

  /** From the command to the panel: what is delivered of a whole log is its entries, one line each. */
  lemma EntriesAreDeliveredIff(decode: seq<Byte> -> string, entries: seq<Entry>)
    requires LineWise(decode)
    requires forall a :: LF !in a ==> decode(a + [LF]) == decode(a) + "\n"
    requires forall e :: e in entries ==> LF !in e.text
    ensures Complete(File(entries)) == |File(entries)|
    ensures SplitLines(decode(File(entries))) == Decoded(decode, LogLines(entries))
       <==> forall k :: 0 <= k < |entries| ==> Clean(Decoded(decode, LogLines(entries))[k])
  {
    DecodeFile(decode, entries);
    LinesComeBackIff(Decoded(decode, LogLines(entries)));
  }

  // ---------------------------------------------------------------- two threads

  /** A stretch of the log, and the step of the schedule that moved the offset past it. */
  datatype Range = Range(from: nat, to: nat, store: nat)

  /**
    The tail loop and the state loop may both be inside the method.  A thread reads the file from the
    offset on, up to its last newline (Begin); if there is none, that is all.  Adding to the offset
    reads it again (Load) and then writes it (Store); only then are the lines decoded and given to
    the callback (Deliver).  A step that its thread is not at does nothing.
   */
  datatype Step =
    | Begin(thread: nat, complete: nat)
    | Load(thread: nat)
    | Store(thread: nat)
    | Deliver(thread: nat)

  /** What a thread has read and not yet delivered. */
  datatype Held = Held(from: nat, complete: nat, loaded: Option<nat>, stored: Option<nat>)

  /** The ranges in the order in which the offset was moved past them, and in that of the callbacks. */
  datatype Shared = Shared(offset: nat, held: map<nat, Held>, moved: seq<Range>, delivered: seq<Range>)

  /** Step number n. */
  function Next(s: Shared, e: Step, n: nat): Shared {
    var t := e.thread;
    match e
    case Begin(_, complete) =>
      if t in s.held || complete == 0 then s
      else s.(held := s.held[t := Held(s.offset, complete, None, None)])
    case Load(_) =>
      if t !in s.held || s.held[t].loaded.Some? then s
      else s.(held := s.held[t := s.held[t].(loaded := Some(s.offset))])
    case Store(_) =>
      if t !in s.held || s.held[t].loaded.None? || s.held[t].stored.Some? then s
      else
        var h := s.held[t];
        Shared(h.loaded.value + h.complete, s.held[t := h.(stored := Some(n))],
               s.moved + [Range(h.from, h.from + h.complete, n)], s.delivered)
    case Deliver(_) =>
      if t !in s.held || s.held[t].stored.None? then s
      else s.(held := s.held - {t}, delivered := s.delivered + [InHand(s.held[t])])
  }

  function InHand(h: Held): Range
    requires h.stored.Some?
  {
    Range(h.from, h.from + h.complete, h.stored.value)
  }

  function Run(start: nat, steps: seq<Step>): Shared {
    if steps == [] then Shared(start, map[], [], [])
    else Next(Run(start, steps[..|steps| - 1]), steps[|steps| - 1], |steps| - 1)
  }

  /** The ranges follow one another without a gap or an overlap, from start to end. */
  ghost predicate Contiguous(start: nat, ranges: seq<Range>, end: nat) {
    && (forall i :: 0 <= i < |ranges| ==> ranges[i].from < ranges[i].to)
    && (forall i, j :: 0 <= i && i + 1 == j < |ranges| ==> ranges[i].to == ranges[j].from)
    && (if ranges == [] then end == start else ranges[0].from == start && ranges[|ranges| - 1].to == end)
  }

  /** No thread has moved the offset past lines that it has not yet delivered. */
  predicate AllDelivered(s: Shared) {
    forall t :: t in s.held ==> s.held[t].stored.None?
  }

  // ---------------------------------------------------------------- schedules

  /** When a thread last began, with how much, and when it loaded and stored the offset since then. */
  datatype Mark = Mark(at: nat, complete: nat, loadedAt: Option<nat>, storedAt: Option<nat>)

  /** Where thread t stands after a schedule; None if it has nothing in hand. */
  function Standing(steps: seq<Step>, t: nat): (m: Option<Mark>)
    ensures m.Some? ==>
      m.value.at < |steps| && steps[m.value.at] == Begin(t, m.value.complete) && m.value.complete > 0
    ensures m.Some? && m.value.loadedAt.Some? ==> m.value.at < m.value.loadedAt.value < |steps|
    ensures m.Some? && m.value.storedAt.Some? ==>
      m.value.loadedAt.Some? && m.value.loadedAt.value < m.value.storedAt.value < |steps|
  {
    if steps == [] then None
    else
      var n := |steps| - 1;
      var before := Standing(steps[..n], t);
      if steps[n].thread == t then Advanced(before, steps[n], n) else before
  }

  /** What step n of the thread itself makes of that. */
  function Advanced(m: Option<Mark>, e: Step, n: nat): Option<Mark> {
    match e
    case Begin(_, complete) => if m.None? && complete > 0 then Some(Mark(n, complete, None, None)) else m
    case Load(_) => if m.Some? && m.value.loadedAt.None? then Some(m.value.(loadedAt := Some(n))) else m
    case Store(_) =>
      if m.Some? && m.value.loadedAt.Some? && m.value.storedAt.None? then Some(m.value.(storedAt := Some(n))) else m
    case Deliver(_) => if m.Some? && m.value.storedAt.Some? then None else m
  }

  /** Step k moves the offset. */
  predicate Moves(steps: seq<Step>, k: nat) {
    k < |steps| && steps[k].Store? &&
    var m := Standing(steps[..k], steps[k].thread);
    m.Some? && m.value.loadedAt.Some? && m.value.storedAt.None?
  }

  /** Between the read of the thread that moves the offset at step k and that step, another one moved it. */
  ghost predicate Overtaken(steps: seq<Step>, k: nat) {
    Moves(steps, k) &&
    exists m: nat :: Standing(steps[..k], steps[k].thread).value.at < m < k && Moves(steps, m)
  }

  ghost predicate SomeOvertaken(steps: seq<Step>, n: nat) {
    exists k: nat :: k < n && Overtaken(steps, k)
  }

  /** For each delivery, the step at which its thread had moved the offset. */
  function StoresDelivered(steps: seq<Step>): (stores: seq<nat>) {
    if steps == [] then []
    else
      var n := |steps| - 1;
      var before, m := StoresDelivered(steps[..n]), Standing(steps[..n], steps[n].thread);
      if steps[n].Deliver? && m.Some? && m.value.storedAt.Some? then before + [m.value.storedAt.value] else before
  }

  /** The callbacks are called in the order in which the offset was moved. */
  predicate DeliveredInOrder(steps: seq<Step>) {
    var stores := StoresDelivered(steps);
    forall i, j :: 0 <= i < j < |stores| ==> stores[i] < stores[j]
  }

  /** The offset after the first n steps. */
  function Offset(start: nat, steps: seq<Step>, n: nat): nat
    requires n <= |steps|
  {
    Run(start, steps[..n]).offset
  }

  lemma RunStep(start: nat, steps: seq<Step>, n: nat)
    requires n < |steps|
    ensures Run(start, steps[..n + 1]) == Next(Run(start, steps[..n]), steps[n], n)
  {
    assert steps[..n + 1][..n] == steps[..n];
  }

  /** What the schedule says that a thread holds. */
  function Expected(start: nat, steps: seq<Step>, m: Mark): Held
    requires m.at < |steps| && (m.loadedAt.Some? ==> m.loadedAt.value < |steps|)
  {
    Held(Offset(start, steps, m.at), m.complete,
         if m.loadedAt.None? then None else Some(Offset(start, steps, m.loadedAt.value)), m.storedAt)
  }

  predicate HeldIs(start: nat, steps: seq<Step>, s: Shared, t: nat, m: Option<Mark>) {
    && (t in s.held <==> m.Some?)
    && (m.Some? ==>
          && m.value.at < |steps| && (m.value.loadedAt.Some? ==> m.value.loadedAt.value < |steps|)
          && s.held[t] == Expected(start, steps, m.value))
  }

  /** The state holds what the schedule says. */
  lemma {:induction false} HeldStanding(start: nat, steps: seq<Step>, n: nat, t: nat)
    requires n <= |steps|
    ensures var s, m := Run(start, steps[..n]), Standing(steps[..n], t);
      && (t in s.held <==> m.Some?)
      && (m.Some? ==> s.held[t] == Expected(start, steps, m.value))
  {
    StandingBounds(steps, n, t);
    StandsAs(start, steps, n, t);
    hide Run, Standing, Expected;
  }

  lemma StandingBounds(steps: seq<Step>, n: nat, t: nat)
    requires n <= |steps|
    ensures var m := Standing(steps[..n], t);
      m.Some? ==> m.value.at < |steps| && (m.value.loadedAt.Some? ==> m.value.loadedAt.value < |steps|)
  {
  }

  lemma {:induction false} StandsAs(start: nat, steps: seq<Step>, n: nat, t: nat)
    requires n <= |steps|
    ensures HeldIs(start, steps, Run(start, steps[..n]), t, Standing(steps[..n], t))
  {
    hide *;
    if n == 0 {
      NothingHeld(start, steps, t);
    } else {
      var k := n - 1;
      StandsAs(start, steps, k, t);
      RunStep(start, steps, k);
      StandingStep(steps, k, t);
      HeldNext(start, steps, Run(start, steps[..k]), k, t, Standing(steps[..k], t));
    }
  }

  lemma NothingHeld(start: nat, steps: seq<Step>, t: nat)
    ensures HeldIs(start, steps, Run(start, steps[..0]), t, Standing(steps[..0], t))
  {
    assert steps[..0] == [];
  }

  lemma StandingStep(steps: seq<Step>, n: nat, t: nat)
    requires n < |steps|
    ensures Standing(steps[..n + 1], t)
         == if steps[n].thread == t then Advanced(Standing(steps[..n], t), steps[n], n) else Standing(steps[..n], t)
  {
    assert steps[..n + 1][..n] == steps[..n];
  }

  lemma HeldNext(start: nat, steps: seq<Step>, s: Shared, n: nat, t: nat, m: Option<Mark>)
    requires n < |steps| && s == Run(start, steps[..n]) && HeldIs(start, steps, s, t, m)
    ensures HeldIs(start, steps, Next(s, steps[n], n), t, if steps[n].thread == t then Advanced(m, steps[n], n) else m)
  {
    assert s.offset == Offset(start, steps, n);
    hide Run, Offset;
  }

  /** Only moves change the offset. */
  lemma OffsetStep(start: nat, steps: seq<Step>, n: nat)
    requires n < |steps|
    ensures !Moves(steps, n) ==> Offset(start, steps, n + 1) == Offset(start, steps, n)
    ensures !Moves(steps, n) ==> Run(start, steps[..n + 1]).moved == Run(start, steps[..n]).moved
    ensures Moves(steps, n) ==>
      var m := Standing(steps[..n], steps[n].thread).value;
      && m.at < m.loadedAt.value < n
      && Offset(start, steps, n + 1) == Offset(start, steps, m.loadedAt.value) + m.complete
      && var from := Offset(start, steps, m.at);
         Run(start, steps[..n + 1]).moved == Run(start, steps[..n]).moved + [Range(from, from + m.complete, n)]
  {
    hide Run, Standing;
    RunStep(start, steps, n);
    HeldStanding(start, steps, n, steps[n].thread);
  }

  /** As long as nobody is overtaken, the offset only grows, and only by moves. */
  lemma {:induction false} OffsetGrows(start: nat, steps: seq<Step>, i: nat, j: nat)
    requires i <= j <= |steps| && !SomeOvertaken(steps, j)
    ensures Offset(start, steps, i) <= Offset(start, steps, j)
    ensures Offset(start, steps, i) == Offset(start, steps, j) <==> forall m: nat :: i <= m < j ==> !Moves(steps, m)
    decreases j
  {
    if i < j {
      OffsetGrows(start, steps, i, j - 1);
      OffsetStep(start, steps, j - 1);
      hide Standing, Offset;
      if Moves(steps, j - 1) {
        var m := Standing(steps[..j - 1], steps[j - 1].thread).value;
        assert !Overtaken(steps, j - 1);
        OffsetGrows(start, steps, m.loadedAt.value, j - 1);
      }
    }
  }

  /** Some byte lies in two of the ranges. */
  ghost predicate Doubled(ranges: seq<Range>) {
    exists i, j, b :: 0 <= i < j < |ranges| && Holds(ranges[i], b) && Holds(ranges[j], b)
  }

  predicate Holds(r: Range, b: int) {
    r.from <= b < r.to
  }

  lemma DoubledStays(ranges: seq<Range>, more: seq<Range>)
    requires Doubled(ranges) && ranges <= more
    ensures Doubled(more)
  {
    var i, j, b :| 0 <= i < j < |ranges| && Holds(ranges[i], b) && Holds(ranges[j], b);
    assert Holds(more[i], b) && Holds(more[j], b);
  }

  /** Contiguous ranges ascend. */
  lemma {:induction false} ContiguousAscends(start: nat, ranges: seq<Range>, end: nat, i: nat, j: nat)
    requires Contiguous(start, ranges, end) && i < j < |ranges|
    ensures ranges[i].to <= ranges[j].from && ranges[i].from < ranges[j].from
  {
    if i + 1 < j {
      ContiguousAscends(start, ranges, end, i, j - 1);
    }
  }

  lemma ContiguousIsNotDoubled(start: nat, ranges: seq<Range>, end: nat)
    requires Contiguous(start, ranges, end)
    ensures !Doubled(ranges)
  {
    if i, j, b :| 0 <= i < j < |ranges| && Holds(ranges[i], b) && Holds(ranges[j], b) {
      ContiguousAscends(start, ranges, end, i, j);
    }
  }

  /** Every byte between start and end lies in a range. */
  lemma {:induction false} ContiguousCovers(start: nat, ranges: seq<Range>, end: nat, b: nat) returns (i: nat)
    requires Contiguous(start, ranges, end) && start <= b < end
    ensures i < |ranges| && Holds(ranges[i], b)
  {
    i := |ranges| - 1;
    if b < ranges[i].from {
      assert ranges[..i] != [] && ranges[..i][i - 1] == ranges[i - 1];
      i := ContiguousCovers(start, ranges[..i], ranges[i].from, b);
    }
  }

  lemma ContiguousSnoc(start: nat, ranges: seq<Range>, r: Range)
    requires Contiguous(start, ranges, r.from) && r.from < r.to
    ensures Contiguous(start, ranges + [r], r.to)
  {
  }

  /** A range that starts before the end of contiguous ones has a byte in common with them. */
  lemma DoubledNow(start: nat, ranges: seq<Range>, end: nat, r: Range)
    requires Contiguous(start, ranges, end) && start <= r.from < end && r.from < r.to
    ensures Doubled(ranges + [r])
  {
    var i := ContiguousCovers(start, ranges, end, r.from);
    assert Holds((ranges + [r])[i], r.from) && Holds((ranges + [r])[|ranges|], r.from);
  }

  /** Where the offset was when the thread that moves it began, and when it loaded it. */
  lemma MoveKeeps(start: nat, steps: seq<Step>, n: nat, m: Mark)
    requires n < |steps| && !SomeOvertaken(steps, n) && Moves(steps, n) && Some(m) == Standing(steps[..n], steps[n].thread)
    ensures !Overtaken(steps, n) ==>
      Offset(start, steps, m.at) == Offset(start, steps, n) == Offset(start, steps, m.loadedAt.value)
    ensures Overtaken(steps, n) ==> start <= Offset(start, steps, m.at) < Offset(start, steps, n)
  {
    hide Offset, Standing;
    OffsetGrows(start, steps, m.at, n);
    OffsetGrows(start, steps, m.loadedAt.value, n);
    OffsetGrows(start, steps, 0, m.at);
    NothingYet(start, steps);
    assert !Moves(steps, m.at);
  }

  /** One more step of a schedule in which nobody was overtaken so far. */
  lemma ContiguousStep(start: nat, steps: seq<Step>, n: nat)
    requires n < |steps| && !SomeOvertaken(steps, n)
    requires Contiguous(start, Run(start, steps[..n]).moved, Offset(start, steps, n))
    ensures !Overtaken(steps, n) ==> Contiguous(start, Run(start, steps[..n + 1]).moved, Offset(start, steps, n + 1))
    ensures Overtaken(steps, n) ==> Doubled(Run(start, steps[..n + 1]).moved)
  {
    hide *;
    OffsetStep(start, steps, n);
    OnlyMovesOvertake(steps, n);
    if Moves(steps, n) {
      MoverStands(steps, n);
      var m := Standing(steps[..n], steps[n].thread).value;
      MoveKeeps(start, steps, n, m);
      var before, from := Run(start, steps[..n]).moved, Offset(start, steps, m.at);
      var r := Range(from, from + m.complete, n);
      if Overtaken(steps, n) {
        DoubledNow(start, before, Offset(start, steps, n), r);
      } else {
        ContiguousSnoc(start, before, r);
      }
    }
  }

  lemma OnlyMovesOvertake(steps: seq<Step>, n: nat)
    ensures Overtaken(steps, n) ==> Moves(steps, n)
  {
  }

  lemma MoverStands(steps: seq<Step>, n: nat)
    requires Moves(steps, n)
    ensures var m := Standing(steps[..n], steps[n].thread);
      m.Some? && m.value.loadedAt.Some? && m.value.complete > 0
  {
  }

  lemma NothingYet(start: nat, steps: seq<Step>)
    ensures Offset(start, steps, 0) == start && Run(start, steps[..0]).moved == []
  {
    assert steps[..0] == [];
  }

  /** In the order of the stores, the ranges are contiguous, or some byte is in two of them. */
  lemma {:induction false} MovedContiguously(start: nat, steps: seq<Step>, n: nat)
    requires n <= |steps|
    ensures !SomeOvertaken(steps, n) ==> Contiguous(start, Run(start, steps[..n]).moved, Offset(start, steps, n))
    ensures SomeOvertaken(steps, n) ==> Doubled(Run(start, steps[..n]).moved)
  {
    hide *;
    OvertakenSoFar(steps, n);
    if n == 0 {
      NothingYet(start, steps);
      NothingContiguous(start);
    } else {
      MovedContiguously(start, steps, n - 1);
      OffsetStep(start, steps, n - 1);
      if SomeOvertaken(steps, n - 1) {
        DoubledStays(Run(start, steps[..n - 1]).moved, Run(start, steps[..n]).moved);
      } else {
        ContiguousStep(start, steps, n - 1);
      }
    }
  }

  lemma OvertakenSoFar(steps: seq<Step>, n: nat)
    ensures SomeOvertaken(steps, n) <==> n > 0 && (SomeOvertaken(steps, n - 1) || Overtaken(steps, n - 1))
  {
    hide Overtaken;
  }

  lemma NothingContiguous(start: nat)
    ensures Contiguous(start, [], start)
  {
  }

  // ---------------------------------------------------------------- callbacks

  /** By the step that stored them, the ranges ascend. */
  predicate Ascending(ranges: seq<Range>) {
    forall i, j :: 0 <= i < j < |ranges| ==> ranges[i].store < ranges[j].store
  }

  predicate Distinct(ranges: seq<Range>) {
    forall i, j :: 0 <= i < j < |ranges| ==> ranges[i].store != ranges[j].store
  }

  /** Thread t has moved the offset past range r and not yet delivered it. */
  predicate Pending(s: Shared, t: nat, r: Range) {
    t in s.held && s.held[t].stored.Some? && InHand(s.held[t]) == r
  }

  /** After n steps: every range moved past is delivered once, or will be. */
  ghost predicate Accounted(s: Shared, n: nat) {
    && Ascending(s.moved) && Distinct(s.delivered) && (forall r :: r in s.moved ==> r.store < n)
    && (forall r :: r in s.delivered ==> r in s.moved)
    && (forall r, t :: Pending(s, t, r) ==> r in s.moved && r !in s.delivered)
    && (forall r, t, u :: Pending(s, t, r) && Pending(s, u, r) ==> t == u)
    && (forall r :: r in s.moved && r !in s.delivered ==> exists t :: Pending(s, t, r))
  }

  /** Of the ranges moved past, no two were stored at the same step. */
  lemma SameStore(ranges: seq<Range>, r: Range, r': Range)
    requires Ascending(ranges) && r in ranges && r' in ranges && r.store == r'.store
    ensures r == r'
  {
  }

  lemma {:induction false} AllAccounted(start: nat, steps: seq<Step>)
    ensures Accounted(Run(start, steps), |steps|)
  {
    if steps != [] {
      var n := |steps| - 1;
      AllAccounted(start, steps[..n]);
      AccountedStep(Run(start, steps[..n]), steps[n], n);
    }
  }

  lemma AccountedStep(s: Shared, e: Step, n: nat)
    requires Accounted(s, n)
    ensures Accounted(Next(s, e, n), n + 1)
  {
    var t := e.thread;
    if e.Deliver? && t in s.held && s.held[t].stored.Some? {
      AccountedDeliver(s, t, n);
    } else if e.Store? && t in s.held && s.held[t].loaded.Some? && s.held[t].stored.None? {
      AccountedStore(s, t, n);
    } else {
      AccountedElse(s, e, n);
    }
  }

  /** A step that neither moves the offset nor delivers. */
  lemma AccountedElse(s: Shared, e: Step, n: nat)
    requires Accounted(s, n) && Next(s, e, n).moved == s.moved && Next(s, e, n).delivered == s.delivered
    requires (!e.Store? && !e.Deliver?) || Next(s, e, n) == s
    ensures Accounted(Next(s, e, n), n + 1)
  {
    hide Ascending, Distinct;
    var s' := Next(s, e, n);
    forall r, t
      ensures Pending(s', t, r) <==> Pending(s, t, r)
    {
    }
  }

  lemma AccountedStore(s: Shared, t: nat, n: nat)
    requires Accounted(s, n) && t in s.held && s.held[t].loaded.Some? && s.held[t].stored.None?
    ensures Accounted(Next(s, Store(t), n), n + 1)
  {
    var s', h := Next(s, Store(t), n), s.held[t];
    var r := Range(h.from, h.from + h.complete, n);
    assert s'.moved == s.moved + [r];
    forall r', u
      ensures Pending(s', u, r') <==> if u == t then r' == r else Pending(s, u, r')
    {
    }
    assert Pending(s', t, r);
    forall r' | r' in s'.moved && r' !in s'.delivered
      ensures exists u :: Pending(s', u, r')
    {
      if r' != r {
        var u :| Pending(s, u, r');
        assert Pending(s', u, r');
      }
    }
  }

  lemma AccountedDeliver(s: Shared, t: nat, n: nat)
    requires Accounted(s, n) && t in s.held && s.held[t].stored.Some?
    ensures Accounted(Next(s, Deliver(t), n), n + 1)
  {
    var s', r := Next(s, Deliver(t), n), InHand(s.held[t]);
    assert Pending(s, t, r);
    assert s'.delivered == s.delivered + [r];
    forall r', u
      ensures Pending(s', u, r') <==> u != t && Pending(s, u, r')
    {
    }
    assert Distinct(s'.delivered) by {
      forall d | d in s.delivered
        ensures d.store != r.store
      {
        if d.store == r.store {
          SameStore(s.moved, d, r);
        }
      }
    }
    hide Ascending, Distinct;
    forall r' | r' in s'.moved && r' !in s'.delivered
      ensures exists u :: Pending(s', u, r')
    {
      var u :| Pending(s, u, r');
      assert Pending(s', u, r');
    }
  }

  /** The state has delivered what the schedule says. */
  lemma {:induction false} DeliveredStores(start: nat, steps: seq<Step>)
    ensures var s, stores := Run(start, steps), StoresDelivered(steps);
      |s.delivered| == |stores| && forall i :: 0 <= i < |stores| ==> s.delivered[i].store == stores[i]
  {
    if steps != [] {
      var n := |steps| - 1;
      DeliveredStores(start, steps[..n]);
      HeldStanding(start, steps, n, steps[n].thread);
      hide Standing;
    }
  }

  /** Two ascending lists with the same members are equal. */
  lemma {:induction false} AscendingUnique(a: seq<Range>, b: seq<Range>)
    requires Ascending(a) && Ascending(b) && forall r :: r in a <==> r in b
    ensures a == b
  {
    SomeMember(b);
    if a != [] {
      var n := |a| - 1;
      assert a[n] in b && b[|b| - 1] in a;
      var m := |b| - 1;
      assert a[n] == b[m];
      forall r
        ensures r in a[..n] <==> r in b[..m]
      {
        if r in a[..n] {
          assert r in b && r.store < a[n].store;
        }
        if r in b[..m] {
          assert r in a && r.store < b[m].store;
        }
      }
      AscendingUnique(a[..n], b[..m]);
    }
  }

  lemma SomeMember(a: seq<Range>)
    ensures a == [] || exists r :: r in a
  {
    if a != [] {
      assert a[0] in a;
    }
  }

  /** If some byte is in two of the ranges moved past, it is delivered twice. */
  lemma DoubledDelivered(s: Shared, n: nat)
    requires Accounted(s, n) && AllDelivered(s) && Doubled(s.moved)
    ensures Doubled(s.delivered)
  {
    var i, j, b :| 0 <= i < j < |s.moved| && Holds(s.moved[i], b) && Holds(s.moved[j], b);
    NothingPending(s, n, s.moved[i]);
    NothingPending(s, n, s.moved[j]);
    var k :| 0 <= k < |s.delivered| && s.delivered[k] == s.moved[i];
    var l :| 0 <= l < |s.delivered| && s.delivered[l] == s.moved[j];
    if k < l {
      assert Holds(s.delivered[k], b) && Holds(s.delivered[l], b);
    } else {
      assert l != k;
      assert Holds(s.delivered[l], b) && Holds(s.delivered[k], b);
    }
  }

  lemma NothingPending(s: Shared, n: nat, r: Range)
    requires Accounted(s, n) && AllDelivered(s)
    ensures r in s.moved <==> r in s.delivered
  {
    forall t
      ensures !Pending(s, t, r)
    {
    }
  }

  /** Where the offset only grew, contiguous deliveries are in the order of their stores. */
  lemma ContiguousIsInOrder(start: nat, s: Shared, n: nat)
    requires Accounted(s, n) && Contiguous(start, s.moved, s.offset) && Contiguous(start, s.delivered, s.offset)
    ensures Ascending(s.delivered)
  {
    forall i, j | 0 <= i < j < |s.delivered|
      ensures s.delivered[i].store < s.delivered[j].store
    {
      ContiguousAscends(start, s.delivered, s.offset, i, j);
      assert s.delivered[i] in s.moved && s.delivered[j] in s.moved;
      var k :| 0 <= k < |s.moved| && s.moved[k] == s.delivered[i];
      var l :| 0 <= l < |s.moved| && s.moved[l] == s.delivered[j];
      if l < k {
        ContiguousAscends(start, s.moved, s.offset, l, k);
      }
    }
  }

  lemma InOrderIsAscending(start: nat, steps: seq<Step>)
    ensures DeliveredInOrder(steps) <==> Ascending(Run(start, steps).delivered)
  {
    DeliveredStores(start, steps);
    hide Run, StoresDelivered;
    var d, stores := Run(start, steps).delivered, StoresDelivered(steps);
    if Ascending(d) {
      forall i, j | 0 <= i < j < |stores|
        ensures stores[i] < stores[j]
      {
        assert d[i].store < d[j].store;
      }
    }
    if DeliveredInOrder(steps) {
      forall i, j | 0 <= i < j < |d|
        ensures d[i].store < d[j].store
      {
        assert stores[i] < stores[j];
      }
    }
  }

  /**
    Once everything is delivered, every byte up to the offset was delivered once and in order if and
    only if no thread moved the offset while another one was between its read of the file and its
    own move, and the callbacks came in the order of the moves.
   */
  lemma DeliveredContiguouslyIff(start: nat, steps: seq<Step>)
    requires AllDelivered(Run(start, steps))
    ensures var s := Run(start, steps);
      Contiguous(start, s.delivered, s.offset) <==> !SomeOvertaken(steps, |steps|) && DeliveredInOrder(steps)
  {
    var s, n := Run(start, steps), |steps|;
    AllAccounted(start, steps);
    assert steps[..n] == steps;
    MovedContiguously(start, steps, n);
    InOrderIsAscending(start, steps);
    hide Run, AllDelivered, Accounted, Contiguous, Doubled, SomeOvertaken, DeliveredInOrder, Ascending;
    if SomeOvertaken(steps, n) {
      DoubledDelivered(s, n);
      if Contiguous(start, s.delivered, s.offset) {
        ContiguousIsNotDoubled(start, s.delivered, s.offset);
      }
    } else if DeliveredInOrder(steps) {
      DeliveredAsMoved(s, n);
    } else if Contiguous(start, s.delivered, s.offset) {
      ContiguousIsInOrder(start, s, n);
    }
  }

  lemma DeliveredAsMoved(s: Shared, n: nat)
    requires Accounted(s, n) && AllDelivered(s) && Ascending(s.delivered)
    ensures s.delivered == s.moved
  {
    forall r
      ensures r in s.delivered <==> r in s.moved
    {
      NothingPending(s, n, r);
    }
    AscendingUnique(s.delivered, s.moved);
  }

  // ---------------------------------------------------------------- schedules that fail

  /**
    Both threads read the same n bytes: they are delivered twice, and the offset ends n bytes past
    them, so the next n bytes of the log are never read.
   */
  lemma OverlapSkipsBytes(n: nat)
    requires n > 0
    ensures var s := Run(0, [Begin(0, n), Begin(1, n), Load(0), Store(0), Deliver(0), Load(1), Store(1), Deliver(1)]);
      AllDelivered(s) && s.delivered == [Range(0, n, 3), Range(0, n, 6)] && s.offset == 2 * n
  {
    var steps := [Begin(0, n), Begin(1, n), Load(0), Store(0), Deliver(0), Load(1), Store(1), Deliver(1)];
    var r, r' := Range(0, n, 3), Range(0, n, 6);
    hide Run;
    EightSteps(0, steps,
               Shared(0, map[0 := Held(0, n, None, None)], [], []),
               Shared(0, map[0 := Held(0, n, None, None), 1 := Held(0, n, None, None)], [], []),
               Shared(0, map[0 := Held(0, n, Some(0), None), 1 := Held(0, n, None, None)], [], []),
               Shared(n, map[0 := Held(0, n, Some(0), Some(3)), 1 := Held(0, n, None, None)], [r], []),
               Shared(n, map[1 := Held(0, n, None, None)], [r], [r]),
               Shared(n, map[1 := Held(0, n, Some(n), None)], [r], [r]),
               Shared(2 * n, map[1 := Held(0, n, Some(n), Some(6))], [r, r'], [r]));
  }

  /**
    Nobody is overtaken, but the thread that moved the offset first calls back last: the panel gets
    the later bytes before the earlier ones.
   */
  lemma LateCallbackReorders(n: nat, m: nat, steps: seq<Step>)
    requires n > 0 && m > 0
    requires steps == [Begin(0, n), Load(0), Store(0), Begin(1, m), Load(1), Store(1), Deliver(1), Deliver(0)]
    ensures var s := Run(0, steps);
      && AllDelivered(s) && s.delivered == [Range(n, n + m, 5), Range(0, n, 2)] && s.offset == n + m
      && !SomeOvertaken(steps, 8) && !DeliveredInOrder(steps) && !Contiguous(0, s.delivered, s.offset)
  {
    LateCallbackRun(n, m, steps);
    assert steps[..8] == steps;
    MovedContiguously(0, steps, 8);
    InOrderIsAscending(0, steps);
    var s := Run(0, steps);
    hide Run, SomeOvertaken, DeliveredInOrder;
    assert Contiguous(0, s.moved, s.offset);
    ContiguousIsNotDoubled(0, s.moved, s.offset);
    assert s.delivered[0].store > s.delivered[1].store && s.delivered[0].from != 0;
  }

  lemma LateCallbackRun(n: nat, m: nat, steps: seq<Step>)
    requires n > 0 && m > 0
    requires steps == [Begin(0, n), Load(0), Store(0), Begin(1, m), Load(1), Store(1), Deliver(1), Deliver(0)]
    ensures Run(0, steps)
         == Shared(n + m, map[], [Range(0, n, 2), Range(n, n + m, 5)], [Range(n, n + m, 5), Range(0, n, 2)])
  {
    var h, r, r' := Held(0, n, Some(0), Some(2)), Range(0, n, 2), Range(n, n + m, 5);
    hide Run;
    EightSteps(0, steps,
               Shared(0, map[0 := Held(0, n, None, None)], [], []),
               Shared(0, map[0 := Held(0, n, Some(0), None)], [], []),
               Shared(n, map[0 := h], [r], []),
               Shared(n, map[0 := h, 1 := Held(n, m, None, None)], [r], []),
               Shared(n, map[0 := h, 1 := Held(n, m, Some(n), None)], [r], []),
               Shared(n + m, map[0 := h, 1 := Held(n, m, Some(n), Some(5))], [r, r'], []),
               Shared(n + m, map[0 := h], [r, r'], [r']));
  }

  /** A schedule of eight steps and what they lead to, one by one. */
  lemma EightSteps(start: nat, steps: seq<Step>, s1: Shared, s2: Shared, s3: Shared, s4: Shared, s5: Shared,
                   s6: Shared, s7: Shared)
    requires |steps| == 8
    requires s1 == Next(Shared(start, map[], [], []), steps[0], 0) && s2 == Next(s1, steps[1], 1)
    requires s3 == Next(s2, steps[2], 2) && s4 == Next(s3, steps[3], 3) && s5 == Next(s4, steps[4], 4)
    requires s6 == Next(s5, steps[5], 5) && s7 == Next(s6, steps[6], 6)
    ensures Run(start, steps) == Next(s7, steps[7], 7)
  {
    assert steps[..0] == [] && steps[..8] == steps;
    assert Run(start, []) == Shared(start, map[], [], []);
    hide Next, Run;
    RunStep(start, steps, 0);
    RunStep(start, steps, 1);
    RunStep(start, steps, 2);
    RunStep(start, steps, 3);
    RunStep(start, steps, 4);
    RunStep(start, steps, 5);
    RunStep(start, steps, 6);
    RunStep(start, steps, 7);
  }
}
