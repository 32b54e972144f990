/** The rolling log buffer and its file (engine-server/src/log_buffer.rs), without NATS and with file
    operations that succeed. */
module LogBuffer {
  import opened Values

  const MAX_ENTRIES: nat := 5_000
  const COMPACT_AFTER: nat := 500

  datatype LogEntry = LogEntry(timestamp: string, level: string, target: string, message: string)

  /** A line of the log file: an entry, something that is skipped (blank, or not an entry), or bytes
      that are no text, where reading stops. */
  datatype Line = Written(entry: LogEntry) | Skipped | Unreadable

  function Last<T>(s: seq<T>, n: nat): seq<T> {
    if |s| <= n then s else s[|s| - n..]
  }

  /** The entries a reader of the file gets to see. */
  function Readable(file: seq<Line>): seq<LogEntry> {
    if file == [] || file[0].Unreadable? then []
    else (if file[0].Written? then [file[0].entry] else []) + Readable(file[1..])
  }

  /** What loading the file yields. */
  function Loaded(file: seq<Line>): seq<LogEntry> {
    Last(Readable(file), MAX_ENTRIES)
  }

  function Lines(entries: seq<LogEntry>): (r: seq<Line>)
    ensures |r| == |entries|
  {
    if entries == [] then [] else [Written(entries[0])] + Lines(entries[1..])
  }

  predicate Clean(file: seq<Line>) {
    forall k :: 0 <= k < |file| ==> !file[k].Unreadable?
  }

  // ---- Facts about windows and files ----

  lemma LastPush<T>(s: seq<T>, x: T, n: nat)
    requires n > 0
    ensures Last(s + [x], n) == Last((if |Last(s, n)| >= n then Last(s, n)[1..] else Last(s, n)) + [x], n)
         == (if |Last(s, n)| >= n then Last(s, n)[1..] else Last(s, n)) + [x]
  {}

  lemma {:induction false} ReadableAppend(file: seq<Line>, more: seq<Line>)
    requires Clean(file)
    ensures Readable(file + more) == Readable(file) + Readable(more)
    decreases |file|
  {
    if file == [] {
      assert file + more == more;
    } else {
      assert file[1..] + more == (file + more)[1..];
      ReadableAppend(file[1..], more);
    }
  }

  lemma {:induction false} ReadableStops(file: seq<Line>, more: seq<Line>)
    requires !Clean(file)
    ensures Readable(file + more) == Readable(file)
    decreases |file|
  {
    if !file[0].Unreadable? {
      assert file[1..] + more == (file + more)[1..];
      assert !Clean(file[1..]);
      ReadableStops(file[1..], more);
    }
  }

  lemma {:induction false} ReadableLines(entries: seq<LogEntry>)
    ensures Readable(Lines(entries)) == entries && Clean(Lines(entries))
    decreases |entries|
  {
    if entries != [] {
      ReadableLines(entries[1..]);
      assert Lines(entries)[1..] == Lines(entries[1..]);
    }
  }

  lemma ReadableOne(e: LogEntry)
    ensures Readable([Written(e)]) == [e]
  {
    assert [Written(e)][1..] == [];
  }

  // ---- Buffer and file over a run ----

  datatype Buffer = Buffer(entries: seq<LogEntry>, written: nat, file: seq<Line>)

  function Open(file: seq<Line>): Buffer {
    Buffer(Loaded(file), 0, file)
  }

  function Rolled(entries: seq<LogEntry>, e: LogEntry): seq<LogEntry> {
    (if |entries| >= MAX_ENTRIES then entries[1..] else entries) + [e]
  }

  function Pushed(b: Buffer, e: LogEntry): Buffer {
    var entries := Rolled(b.entries, e);
    if b.written + 1 >= COMPACT_AFTER then Buffer(entries, 0, Lines(entries))
    else Buffer(entries, b.written + 1, b.file + [Written(e)])
  }

  datatype Event = Push(entry: LogEntry) | Restart

  function Next(b: Buffer, ev: Event): Buffer {
    match ev
    case Push(e) => Pushed(b, e)
    case Restart => Open(b.file)
  }

  function RunEvents(b: Buffer, events: seq<Event>): Buffer
    decreases |events|
  {
    if events == [] then b else RunEvents(Next(b, events[0]), events[1..])
  }

  function PushesOf(events: seq<Event>): seq<LogEntry> {
    if events == [] then []
    else (match events[0] case Push(e) => [e] case Restart => []) + PushesOf(events[1..])
  }

  function Restarts(events: seq<Event>): nat {
    if events == [] then 0 else (if events[0].Restart? then 1 else 0) + Restarts(events[1..])
  }

  /** The buffer holds the last entries of `history`, and so does its file. */
  ghost predicate Mirrors(b: Buffer, history: seq<LogEntry>) {
    && Clean(b.file) && b.written < COMPACT_AFTER
    && b.entries == Loaded(b.file) && b.entries == Last(history, MAX_ENTRIES)
  }

  lemma PushKeepsMirror(b: Buffer, e: LogEntry, history: seq<LogEntry>)
    requires Mirrors(b, history)
    ensures Mirrors(Pushed(b, e), history + [e])
  {
    LastPush(history, e, MAX_ENTRIES);
    if b.written + 1 >= COMPACT_AFTER {
      ReadableLines(Rolled(b.entries, e));
    } else {
      ReadableAppend(b.file, [Written(e)]);
      ReadableOne(e);
      LastPush(Readable(b.file), e, MAX_ENTRIES);
    }
  }

  lemma EventKeepsMirror(b: Buffer, ev: Event, history: seq<LogEntry>)
    requires Mirrors(b, history)
    ensures Mirrors(Next(b, ev), history + match ev case Push(e) => [e] case Restart => [])
  {
    match ev
    case Push(e) => PushKeepsMirror(b, e, history);
    case Restart => assert history + [] == history;
  }

  lemma {:induction false} RunMirrors(b: Buffer, events: seq<Event>, history: seq<LogEntry>)
    requires Mirrors(b, history)
    ensures Mirrors(RunEvents(b, events), history + PushesOf(events))
    decreases |events|
  {
    hide Mirrors, Next;
    if events == [] {
      assert history + [] == history;
    } else {
      var pushed := match events[0] case Push(e) => [e] case Restart => [];
      EventKeepsMirror(b, events[0], history);
      PushesInOrder(history, events);
      RunMirrors(Next(b, events[0]), events[1..], history + pushed);
    }
  }

  lemma PushesInOrder(history: seq<LogEntry>, events: seq<Event>)
    requires events != []
    ensures history + PushesOf(events)
      == (history + match events[0] case Push(e) => [e] case Restart => []) + PushesOf(events[1..])
  {
    Associative(history, match events[0] case Push(e) => [e] case Restart => [], PushesOf(events[1..]));
  }

  /** After any run of pushes, compactions and restarts, loading the file yields exactly the entries in
      memory, and these are the last ones of what the file held at first and what was pushed since. */
  lemma FileRefinesBuffer(file: seq<Line>, events: seq<Event>)
    requires Clean(file)
    ensures var b := RunEvents(Open(file), events);
      Loaded(b.file) == b.entries == Last(Readable(file) + PushesOf(events), 5_000)
  {
    RunMirrors(Open(file), events, Readable(file));
  }

  function Pushes(entries: seq<LogEntry>): seq<Event> {
    if entries == [] then [] else [Push(entries[0])] + Pushes(entries[1..])
  }

  /** While nothing is compacted, the file only grows at its end. */
  lemma {:induction false} PushesAppend(b: Buffer, pushed: seq<LogEntry>)
    requires b.written + |pushed| < COMPACT_AFTER
    ensures var b' := RunEvents(b, Pushes(pushed));
      b'.file == b.file + Lines(pushed) && b'.written == b.written + |pushed|
    decreases |pushed|
  {
    if pushed == [] {
      assert b.file + [] == b.file;
    } else {
      assert Pushes(pushed)[1..] == Pushes(pushed[1..]);
      PushesAppend(Pushed(b, pushed[0]), pushed[1..]);
      Associative(b.file, [Written(pushed[0])], Lines(pushed[1..]));
    }
  }

  /** An unreadable line in the file hides everything appended behind it: until the next compaction a
      reader sees no push at all; the push that compacts brings the reader what memory holds. */
  lemma UnreadableLineHidesPushes(file: seq<Line>, pushed: seq<LogEntry>, e: LogEntry)
    requires !Clean(file) && |pushed| < COMPACT_AFTER
    ensures var b := RunEvents(Open(file), Pushes(pushed));
      && Loaded(b.file) == Loaded(file)
      && (|pushed| == COMPACT_AFTER - 1 ==> Loaded(Pushed(b, e).file) == Last(Pushed(b, e).entries, MAX_ENTRIES))
      && (|pushed| < COMPACT_AFTER - 1 && e !in Loaded(file) ==> Loaded(Pushed(b, e).file) != Pushed(b, e).entries)
  {
    var b := RunEvents(Open(file), Pushes(pushed));
    PushesAppend(Open(file), pushed);
    ReadableStops(file, Lines(pushed));
    ReadableLines(Rolled(b.entries, e));
    if |pushed| < COMPACT_AFTER - 1 {
      ReadableStops(file, Lines(pushed) + [Written(e)]);
      Associative(file, Lines(pushed), [Written(e)]);
      assert Pushed(b, e).entries[|Pushed(b, e).entries| - 1] == e;
    }
  }

  // ---- How long the file gets ----

  function Max(a: nat, b: nat): nat {
    if a < b then b else a
  }

  ghost predicate Sized(b: Buffer, slack: nat) {
    |b.entries| <= MAX_ENTRIES && b.written < COMPACT_AFTER && |b.file| <= slack + b.written
  }

  lemma {:induction false} RunSized(b: Buffer, events: seq<Event>, slack: nat)
    requires Sized(b, slack) && slack >= MAX_ENTRIES
    ensures Sized(RunEvents(b, events), slack + (COMPACT_AFTER - 1) * Restarts(events))
    decreases |events|
  {
    if events != [] {
      match events[0] {
        case Push(e) => RunSized(Pushed(b, e), events[1..], slack);
        case Restart =>
          RunSized(Open(b.file), events[1..], slack + (COMPACT_AFTER - 1));
      }
    }
  }

  /** A run that starts on a file of `L` lines keeps it at `max(L, 5000) + 499` lines; every restart
      begins a new count and can add as many again. */
  lemma FileStaysShort(file: seq<Line>, events: seq<Event>)
    ensures |RunEvents(Open(file), events).file| <= Max(|file|, 5_000) + 499 * (Restarts(events) + 1)
  {
    RunSized(Open(file), events, Max(|file|, MAX_ENTRIES));
  }

  function Repeat<T>(x: T, n: nat): (r: seq<T>)
    ensures |r| == n
  {
    if n == 0 then [] else [x] + Repeat(x, n - 1)
  }

  function Cycles(e: LogEntry, n: nat): seq<Event> {
    if n == 0 then [] else Repeat(Push(e), COMPACT_AFTER - 1) + [Restart] + Cycles(e, n - 1)
  }

  lemma {:induction false} RunAppend(b: Buffer, first: seq<Event>, after: seq<Event>)
    ensures RunEvents(b, first + after) == RunEvents(RunEvents(b, first), after)
    decreases |first|
  {
    if first == [] {
      assert first + after == after;
    } else {
      assert (first + after)[1..] == first[1..] + after;
      RunAppend(Next(b, first[0]), first[1..], after);
    }
  }

  lemma {:induction false} PushesGrow(b: Buffer, e: LogEntry, n: nat)
    requires b.written + n < COMPACT_AFTER
    ensures |RunEvents(b, Repeat(Push(e), n)).file| == |b.file| + n
    decreases n
  {
    if n > 0 {
      assert Repeat(Push(e), n)[1..] == Repeat(Push(e), n - 1);
      PushesGrow(Pushed(b, e), e, n - 1);
    }
  }

  /** The bound is reached: a process that is restarted before every compaction lets the file grow by 499
      lines each time, without end. */
  lemma {:induction false} RestartsGrowFile(b: Buffer, e: LogEntry, n: nat)
    requires b.written == 0
    ensures |RunEvents(b, Cycles(e, n)).file| == |b.file| + 499 * n
    decreases n
  {
    if n > 0 {
      var pushes := Repeat(Push(e), COMPACT_AFTER - 1);
      var b1 := RunEvents(b, pushes);
      PushesGrow(b, e, COMPACT_AFTER - 1);
      RunAppend(b, pushes, [Restart] + Cycles(e, n - 1));
      assert pushes + ([Restart] + Cycles(e, n - 1)) == Cycles(e, n);
      assert ([Restart] + Cycles(e, n - 1))[1..] == Cycles(e, n - 1);
      RestartsGrowFile(Open(b1.file), e, n - 1);
    }
  }

  // ---- The buffer as an object ----

  /** Reads the file line by line, keeping the last entries only. */
  method LoadEntries(file: seq<Line>) returns (entries: seq<LogEntry>)
    ensures entries == Loaded(file)
  {
    entries := [];
    var k := 0;
    ghost var seen := [];
    assert file[0..] == file;
    while k < |file|
      invariant 0 <= k <= |file|
      invariant entries == Last(seen, MAX_ENTRIES) && seen + Readable(file[k..]) == Readable(file)
    {
      assert file[k..][1..] == file[k + 1..];
      match file[k] {
        case Unreadable =>
          assert seen == Readable(file);
          return;
        case Skipped =>
        case Written(e) =>
          LastPush(seen, e, MAX_ENTRIES);
          if |entries| >= MAX_ENTRIES {
            entries := entries[1..];
          }
          entries := entries + [e];
          seen := seen + [e];
      }
      k := k + 1;
    }
    assert seen + [] == seen;
  }

  class RollingLog {
    var entries: seq<LogEntry>
    var written: nat
    var file: seq<Line>

    ghost function Model(): Buffer
      reads this
    {
      Buffer(entries, written, file)
    }

    /** Opens the log on an existing file. */
    constructor (onDisk: seq<Line>)
      ensures Model() == Open(onDisk)
    {
      var loaded := LoadEntries(onDisk);
      entries, written, file := loaded, 0, onDisk;
    }

    /** Adds an entry to buffer and file, and rewrites the file after enough of them. */
    method PushEntry(e: LogEntry)
      modifies this
      ensures Model() == Pushed(old(Model()), e)
    {
      if |entries| >= MAX_ENTRIES {
        entries := entries[1..];
      }
      entries := entries + [e];
      file := file + [Written(e)];
      written := written + 1;
      if written >= COMPACT_AFTER {
        written := 0;
        CompactFile();
      }
    }

    /** Rewrites the file from the entries in memory. */
    method CompactFile()
      modifies this`file
      ensures file == Lines(entries)
    {
      var rewritten, k := [], 0;
      assert entries[0..] == entries;
      while k < |entries|
        invariant 0 <= k <= |entries| && rewritten + Lines(entries[k..]) == Lines(entries)
      {
        assert entries[k..][1..] == entries[k + 1..];
        rewritten := rewritten + [Written(entries[k])];
        k := k + 1;
      }
      file := rewritten;
    }

    /** Replaces the entries in memory, keeping the last of those given. */
    method Populate(given: seq<LogEntry>)
      modifies this`entries
      ensures entries == Last(given, MAX_ENTRIES)
    {
      entries := [];
      var k := 0;
      while k < |given|
        invariant 0 <= k <= |given| && entries == Last(given[..k], MAX_ENTRIES)
      {
        assert given[..k + 1] == given[..k] + [given[k]];
        LastPush(given[..k], given[k], MAX_ENTRIES);
        if |entries| >= MAX_ENTRIES {
          entries := entries[1..];
        }
        entries := entries + [given[k]];
        k := k + 1;
      }
      assert given[..k] == given;
    }
  }
}
