/**
 * The configuration-data worker: it reads the vehicle's textual configuration
 * dump line by line until the peer closes the stream or goes quiet, parses it
 * into a DroneConfiguration and publishes that snapshot to its listeners.
 *
 * The TCP connection is replaced by `incoming`, the finite script of what the
 * reader reports on successive `readLine` calls; once the script is used up
 * the peer has closed the stream, which `readLine` reports as null.
 */
module ConfigData {
  import opened DroneTypes
  import opened JavaStrings

  const SEPARATOR: string := " = "

  // ---------------------------------------------------------------------------
  // Parsing
  // ---------------------------------------------------------------------------

  /** What one line contributes: kept only when splitting gives exactly two fields. */
  function ParseLine(line: string): Option<(string, string)>
  {
    var fields := Split(line, SEPARATOR);
    if |fields| == 2 then Some((fields[0], fields[1])) else None
  }

  /** The line at index `i` contributes an entry for `key`. */
  predicate Defines(lines: seq<string>, i: int, key: string)
  {
    0 <= i < |lines| && ParseLine(lines[i]).Some? && ParseLine(lines[i]).value.0 == key
  }

  /** The map built from the lines in order, a later line overwriting an earlier one. */
  function Entries(lines: seq<string>): map<string, string>
    decreases |lines|
  {
    if lines == [] then map[]
    else
      var m := Entries(lines[..|lines| - 1]);
      match ParseLine(lines[|lines| - 1])
      case None => m
      case Some(kv) => m[kv.0 := kv.1]
  }

  /** The payload handed to every listener for a batch. */
  function Snapshot(lines: seq<string>): DroneConfiguration
  {
    DroneConfiguration(Entries(lines))
  }

  /**
   * A kept line is the key, the separator and the value, in that order, at the
   * start of the line, followed only by further separators (the empty fields
   * the split dropped); the key and value hold no separator and the value is
   * not empty.
   */
  lemma ParseLineSound(line: string, key: string, value: string)
    requires ParseLine(line) == Some((key, value))
    ensures key + SEPARATOR + value <= line
    ensures exists m: nat :: line == key + SEPARATOR + value + Repeat(SEPARATOR, m)
    ensures value != ""
    ensures NoOccurrence(key, SEPARATOR) && NoOccurrence(value, SEPARATOR)
  {
    var all := KeptFieldsAreLeadingFields(line);
    SplitAllFieldsLackSeparator(line, SEPARATOR, 0);
    SplitAllFieldsLackSeparator(line, SEPARATOR, 1);
    TrailingSeparatorsOnly(line);
    var pair := key + SEPARATOR + value;
    var trailing := Repeat(SEPARATOR, |all| - 2);
    assert line == pair + trailing;
    assert line[..|pair|] == pair;
  }

  /** After the key and value, a kept line holds only the separators of dropped empty fields. */
  lemma TrailingSeparatorsOnly(line: string)
    requires ParseLine(line).Some?
    ensures var kv := ParseLine(line).value;
      line == kv.0 + SEPARATOR + kv.1 + Repeat(SEPARATOR, |SplitAll(line, SEPARATOR)| - 2)
  {
    var all := KeptFieldsAreLeadingFields(line);
    JoinSplitAll(line, SEPARATOR);
    JoinTrailingEmpty(all, 2, SEPARATOR);
    assert all[..2] == [all[0], all[1]];
    assert Join(all[..2], SEPARATOR) == all[0] + SEPARATOR + all[1];
  }

  /** A kept line's two fields are the first two fields between separators. */
  lemma KeptFieldsAreLeadingFields(line: string) returns (all: seq<string>)
    requires ParseLine(line).Some?
    ensures IndexOf(line, SEPARATOR).Some?
    ensures all == SplitAll(line, SEPARATOR) && |all| >= 2
    ensures ParseLine(line) == Some((all[0], all[1])) && all[1] != ""
  {
    all := SplitAll(line, SEPARATOR);
    var kept := DropTrailingEmpty(all);
    assert Split(line, SEPARATOR) == kept;
    assert kept == all[..2];
  }

  /** A split without an occurrence of the separator gives the line itself. */
  lemma SplitNoSeparator(s: string)
    requires '=' !in s
    ensures NoOccurrence(s, SEPARATOR)
  {
    forall j | 0 <= j <= |s| ensures !OccursAt(s, SEPARATOR, j) {
      if j + 3 <= |s| {
        assert s[j..j + 3][1] == s[j + 1];
      }
    }
  }

  /** The first separator in `key + " = " + rest` is the one after the key. */
  lemma FirstSeparatorAfterKey(key: string, rest: string)
    requires '=' !in key
    ensures IndexOf(key + SEPARATOR + rest, SEPARATOR) == Some(|key|)
  {
    var s := key + SEPARATOR + rest;
    assert s[|key|..|key| + 3] == SEPARATOR;
    forall j | 0 <= j < |key| ensures !OccursAt(s, SEPARATOR, j) {
      assert s[j..j + 3][1] == s[j + 1];
      if j + 1 < |key| {
        assert s[j + 1] == key[j + 1];
      } else {
        assert s[j + 1] == ' ';
      }
    }
    assert OccursAt(s, SEPARATOR, |key|);
  }

  /**
   * Writing `key = value` and parsing it gives the pair back, for keys and
   * values free of '=' and a non-empty value; one trailing separator (an
   * empty third field) is tolerated as well.
   */
  lemma {:induction false} ParseLineRoundTrip(key: string, value: string)
    requires '=' !in key && '=' !in value && value != ""
    ensures ParseLine(key + SEPARATOR + value) == Some((key, value))
    ensures ParseLine(key + SEPARATOR + value + SEPARATOR) == Some((key, value))
  {
    SplitNoSeparator(value);
    SplitWithoutOccurrence(value, SEPARATOR);
    var s := key + SEPARATOR + value;
    FirstSeparatorAfterKey(key, value);
    assert s[..|key|] == key && s[|key| + 3..] == value;
    assert SplitAll(s, SEPARATOR) == [key, value];
    assert Split(s, SEPARATOR) == [key, value];

    var t := key + SEPARATOR + value + SEPARATOR;
    assert t == key + SEPARATOR + (value + SEPARATOR);
    FirstSeparatorAfterKey(key, value + SEPARATOR);
    assert t[..|key|] == key;
    var tail := t[|key| + 3..];
    assert tail == value + SEPARATOR;
    FirstSeparatorAfterKey(value, "");
    assert value + SEPARATOR + "" == tail;
    assert tail[|value| + 3..] == "";
    assert SplitAll("", SEPARATOR) == [""];
    assert SplitAll(tail, SEPARATOR) == [value, ""];
    assert SplitAll(t, SEPARATOR) == [key, value, ""];
    assert DropTrailingEmpty([key, value, ""]) == [key, value];
  }

  /** A line with no separator at all never contributes an entry. */
  lemma ParseLineWithoutSeparator(line: string)
    requires NoOccurrence(line, SEPARATOR)
    ensures ParseLine(line) == None
  {
    SplitWithoutOccurrence(line, SEPARATOR);
  }

  /** `bad-line` has no separator and is dropped. */
  lemma ParseLineExampleNoSeparator()
    ensures ParseLine("bad-line") == None
  {
    SplitNoSeparator("bad-line");
    ParseLineWithoutSeparator("bad-line");
  }

  /** `b = 2 = x` splits into three non-empty fields and is dropped. */
  lemma ParseLineExampleThreeFields()
    ensures ParseLine("b = 2 = x") == None
  {
    FirstSeparatorAfterKey("b", "2 = x");
    assert "b = 2 = x" == "b" + SEPARATOR + "2 = x";
    assert "b = 2 = x"[..1] == "b" && "b = 2 = x"[4..] == "2 = x";
    FirstSeparatorAfterKey("2", "x");
    assert "2 = x" == "2" + SEPARATOR + "x";
    assert "2 = x"[..1] == "2" && "2 = x"[4..] == "x";
    SplitNoSeparator("x");
    SplitWithoutOccurrence("x", SEPARATOR);
    assert SplitAll("2 = x", SEPARATOR) == ["2", "x"];
    assert SplitAll("b = 2 = x", SEPARATOR) == ["b", "2", "x"];
  }

  /** `k = ` has an empty trailing field, which split drops, leaving one field. */
  lemma ParseLineExampleEmptyValue()
    ensures ParseLine("k = ") == None
  {
    FirstSeparatorAfterKey("k", "");
    assert "k = " == "k" + SEPARATOR + "";
    assert "k = "[..1] == "k" && "k = "[4..] == "";
    assert SplitAll("", SEPARATOR) == [""];
    assert SplitAll("k = ", SEPARATOR) == ["k", ""];
    assert DropTrailingEmpty(["k", ""]) == ["k"];
  }

  /** `k = v = ` keeps k to v: the empty field after the second separator is dropped. */
  lemma ParseLineExampleTrailingSeparator()
    ensures ParseLine("k = v = ") == Some(("k", "v"))
  {
    ParseLineRoundTrip("k", "v");
    assert "k = v = " == "k" + SEPARATOR + "v" + SEPARATOR;
  }

  /** ` = v` keeps the empty key: a leading empty field is not dropped. */
  lemma ParseLineExampleEmptyKey()
    ensures ParseLine(" = v") == Some(("", "v"))
  {
    ParseLineRoundTrip("", "v");
    assert " = v" == "" + SEPARATOR + "v";
  }

  /** The index of the last line that defines `key`, found by scanning from the end. */
  function LastDefinition(lines: seq<string>, key: string): (r: Option<nat>)
    ensures r.Some? ==> Defines(lines, r.value, key)
    ensures r.Some? ==> forall j :: r.value < j < |lines| ==> !Defines(lines, j, key)
    ensures r.None? ==> forall j :: 0 <= j < |lines| ==> !Defines(lines, j, key)
    decreases |lines|
  {
    if lines == [] then None
    else if Defines(lines, |lines| - 1, key) then Some(|lines| - 1)
    else
      DefinesInInit(lines, key);
      LastDefinition(lines[..|lines| - 1], key)
  }

  /** Dropping the last line does not change which of the other lines define a key. */
  lemma DefinesInInit(lines: seq<string>, key: string)
    requires lines != []
    ensures forall j :: 0 <= j < |lines| - 1 ==> (Defines(lines[..|lines| - 1], j, key) <==> Defines(lines, j, key))
  {
    forall j | 0 <= j < |lines| - 1
      ensures Defines(lines[..|lines| - 1], j, key) <==> Defines(lines, j, key)
    {
      assert lines[..|lines| - 1][j] == lines[j];
    }
  }

  /**
   * A key is in the snapshot exactly when some line defines it, and its value
   * is the one given by the last line that defines it.
   */
  lemma {:induction false} EntriesLastLineWins(lines: seq<string>, key: string)
    ensures key in Entries(lines) <==> LastDefinition(lines, key).Some?
    ensures key in Entries(lines) ==>
      Entries(lines)[key] == ParseLine(lines[LastDefinition(lines, key).value]).value.1
    decreases |lines|
  {
    if lines != [] {
      var init := lines[..|lines| - 1];
      EntriesLastLineWins(init, key);
      if !Defines(lines, |lines| - 1, key) {
        assert LastDefinition(lines, key) == LastDefinition(init, key);
        if LastDefinition(init, key).Some? {
          assert lines[LastDefinition(init, key).value] == init[LastDefinition(init, key).value];
        }
      }
    }
  }

  /** `getDroneConfiguration`: the map is filled line by line. */
  method GetDroneConfiguration(lines: seq<string>) returns (configuration: DroneConfiguration)
    ensures configuration == Snapshot(lines)
  {
    var configMap: map<string, string> := map[];
    for i := 0 to |lines|
      invariant configMap == Entries(lines[..i])
    {
      assert lines[..i + 1][..i] == lines[..i];
      var configOption := Split(lines[i], SEPARATOR);
      if |configOption| != 2 {
        continue;
      }
      configMap := configMap[configOption[0] := configOption[1]];
    }
    assert lines[..|lines|] == lines;
    configuration := DroneConfiguration(configMap);
  }

  // ---------------------------------------------------------------------------
  // Reading a batch
  // ---------------------------------------------------------------------------

  /** What one `readLine` call on the configuration socket reports. */
  datatype ReadOutcome =
    | LineRead(text: string)
    | EndOfStream     // readLine returned null
    | SocketTimeout   // the read timed out: taken as the end of the dump
    | ReadFailure     // an IOException or ClassNotFoundException

  datatype LinesResult = Lines(lines: seq<string>) | IllegalState

  /** One call to `readLines`, and the part of the script it leaves unread. */
  function ReadBatch(src: seq<ReadOutcome>): (r: (LinesResult, seq<ReadOutcome>))
    ensures |r.1| <= |src| && (src != [] ==> |r.1| < |src|)
    decreases |src|
  {
    if src == [] then (Lines([]), [])
    else match src[0]
      case LineRead(text) =>
        var next := ReadBatch(src[1..]);
        (if next.0.Lines? then Lines([text] + next.0.lines) else IllegalState, next.1)
      case EndOfStream => (Lines([]), src[1..])
      case SocketTimeout => (Lines([]), src[1..])
      case ReadFailure => (IllegalState, src[1..])
  }

  /** The number of lines at the head of the script before anything else. */
  function LeadingLines(src: seq<ReadOutcome>): (n: nat)
    ensures n <= |src|
    ensures forall i :: 0 <= i < n ==> src[i].LineRead?
    ensures n < |src| ==> !src[n].LineRead?
    decreases |src|
  {
    if src == [] || !src[0].LineRead? then 0 else 1 + LeadingLines(src[1..])
  }

  /**
   * A batch is the text of the leading lines in arrival order; it ends normally
   * at a null or a timeout (or the end of the script) and fails with an
   * IllegalStateException when the first thing that is not a line is a read
   * failure. Exactly one more outcome than the lines is consumed.
   */
  lemma {:induction false} ReadBatchIsLeadingLines(src: seq<ReadOutcome>)
    ensures var n := LeadingLines(src);
      && ReadBatch(src).1 == (if n == |src| then [] else src[n + 1..])
      && (ReadBatch(src).0 == IllegalState <==> n < |src| && src[n] == ReadFailure)
      && (ReadBatch(src).0.Lines? ==>
            |ReadBatch(src).0.lines| == n &&
            forall i :: 0 <= i < n ==> src[i] == LineRead(ReadBatch(src).0.lines[i]))
    decreases |src|
  {
    if src != [] && src[0].LineRead? {
      ReadBatchIsLeadingLines(src[1..]);
      if LeadingLines(src) < |src| {
        assert src[1..][LeadingLines(src[1..]) + 1..] == src[LeadingLines(src) + 1..];
      }
      var r := ReadBatch(src);
      if r.0.Lines? {
        forall i | 0 <= i < LeadingLines(src) ensures src[i] == LineRead(r.0.lines[i]) {
          if i > 0 {
            assert src[i] == src[1..][i - 1];
          }
        }
      }
    }
  }

  /**
   * The outcome of a batch once `acc` has been collected and `line` is the
   * outcome in hand, with `rest` still unread.
   */
  function Finish(acc: seq<string>, line: ReadOutcome, rest: seq<ReadOutcome>): (LinesResult, seq<ReadOutcome>)
  {
    match line
    case LineRead(text) =>
      var next := ReadBatch(rest);
      (if next.0.Lines? then Lines(acc + [text] + next.0.lines) else IllegalState, next.1)
    case ReadFailure => (IllegalState, rest)
    case _ => (Lines(acc), rest)
  }

  lemma FinishShift(acc: seq<string>, line: ReadOutcome, rest: seq<ReadOutcome>)
    ensures var f := Finish([], line, rest);
      Finish(acc, line, rest) == (if f.0.Lines? then Lines(acc + f.0.lines) else IllegalState, f.1)
  {
    match line
    case LineRead(text) =>
      var next := ReadBatch(rest);
      if next.0.Lines? {
        assert acc + [text] + next.0.lines == acc + ([] + [text] + next.0.lines);
      }
    case _ =>
      assert acc + [] == acc;
  }

  lemma ReadBatchUnfold(src: seq<ReadOutcome>)
    ensures src == [] ==> ReadBatch(src) == Finish([], EndOfStream, [])
    ensures src != [] ==> ReadBatch(src) == Finish([], src[0], src[1..])
  {
    if src != [] && src[0].LineRead? {
      assert [] + [src[0].text] == [src[0].text];
    }
  }

  /**
   * The batches of `n` successive `readLines` calls on the script, in order,
   * and what is left of the script afterwards.
   */
  function RunBatches(src: seq<ReadOutcome>, n: nat): (r: (seq<LinesResult>, seq<ReadOutcome>))
    ensures |r.0| == n && |r.1| <= |src|
    ensures n > 0 && src != [] ==> |r.1| < |src|
  {
    if n == 0 then ([], src)
    else
      var before := RunBatches(src, n - 1);
      var next := ReadBatch(before.1);
      (before.0 + [next.0], next.1)
  }

  /**
   * The rounds read the script front to back: the first batch is the one a
   * single `readLines` returns, and the later ones are read from what it left.
   */
  lemma {:induction false} RunBatchesFirst(src: seq<ReadOutcome>, n: nat)
    requires n > 0
    ensures var first := ReadBatch(src);
      var later := RunBatches(first.1, n - 1);
      RunBatches(src, n) == ([first.0] + later.0, later.1)
  {
    var first := ReadBatch(src);
    if n == 1 {
      assert [] + [first.0] == [first.0] + [];
    } else {
      RunBatchesFirst(src, n - 1);
      var later := RunBatches(first.1, n - 2);
      var last := ReadBatch(later.1);
      assert RunBatches(first.1, n - 1) == (later.0 + [last.0], last.1);
      assert [first.0] + later.0 + [last.0] == [first.0] + (later.0 + [last.0]);
    }
  }

  /** Once the script is used up, every further round reads an empty batch. */
  lemma {:induction false} RunBatchesExhausted(n: nat, k: nat)
    requires k < n
    ensures RunBatches([], n).0[k] == Lines([]) && RunBatches([], n).1 == []
  {
    if k < n - 1 {
      RunBatchesExhausted(n - 1, k);
    } else if n > 1 {
      RunBatchesExhausted(n - 1, 0);
    }
  }

  // ---------------------------------------------------------------------------
  // Publishing
  // ---------------------------------------------------------------------------

  datatype Notification = Notification(listener: Listener, configuration: DroneConfiguration)

  function NotifiedListeners(ns: seq<Notification>): set<Listener>
  {
    set i | 0 <= i < |ns| :: ns[i].listener
  }

  lemma NotifiedAppend(ns: seq<Notification>, n: Notification)
    ensures NotifiedListeners(ns + [n]) == NotifiedListeners(ns) + {n.listener}
  {
    var both := ns + [n];
    assert both[|ns|] == n;
    forall x | x in NotifiedListeners(ns) ensures x in NotifiedListeners(both) {
      var i :| 0 <= i < |ns| && ns[i].listener == x;
      assert both[i] == ns[i];
    }
  }

  /** Each listener of the set receives `configuration` exactly once, and no one else is called. */
  predicate EachNotifiedOnce(ns: seq<Notification>, listeners: set<Listener>, configuration: DroneConfiguration)
  {
    && NotifiedListeners(ns) == listeners
    && (forall i, j :: 0 <= i < j < |ns| ==> ns[i].listener != ns[j].listener)
    && (forall i :: 0 <= i < |ns| ==> ns[i].configuration == configuration)
  }

  /** What processing a batch delivers: nothing for an empty batch, else the snapshot to everyone. */
  predicate Publishes(lines: seq<string>, listeners: set<Listener>, ns: seq<Notification>)
  {
    if |lines| == 0 then ns == [] else EachNotifiedOnce(ns, listeners, Snapshot(lines))
  }

  datatype RetrieverAction =
    | Connected
    | ReadyEmitted
    | BatchProcessed(batch: LinesResult, notified: seq<Notification>)
    | Disconnected

  class ConfigurationDataRetriever {
    var listeners: set<Listener>
    /** Registrations handed on to the ready-state component, in call order. */
    var readyRegistrations: seq<Listener>
    var incoming: seq<ReadOutcome>
    var log: seq<RetrieverAction>

    constructor (script: seq<ReadOutcome>)
      ensures listeners == {} && readyRegistrations == [] && incoming == script && log == []
    {
      listeners := {};
      readyRegistrations := [];
      incoming := script;
      log := [];
    }

    method AddReadyStateChangeListener(l: Listener)
      modifies this`readyRegistrations
      ensures readyRegistrations == old(readyRegistrations) + [l]
    {
      readyRegistrations := readyRegistrations + [l];
    }

    /** As written, removing a ready-state listener registers it once more. */
    method RemoveReadyStateChangeListener(l: Listener)
      modifies this`readyRegistrations
      ensures readyRegistrations == old(readyRegistrations) + [l]
    {
      readyRegistrations := readyRegistrations + [l];
    }

    method AddDroneConfigurationListener(l: Listener)
      modifies this`listeners
      ensures listeners == old(listeners) + {l}
      ensures l in old(listeners) ==> listeners == old(listeners)
    {
      if l !in listeners {
        listeners := listeners + {l};
      }
    }

    method RemoveDroneConfigurationListener(l: Listener)
      modifies this`listeners
      ensures listeners == old(listeners) - {l}
      ensures l !in old(listeners) ==> listeners == old(listeners)
    {
      if l in listeners {
        listeners := listeners - {l};
      }
    }

    /** One `readLine`: the next outcome of the script, or null once it is used up. */
    method ReadLine() returns (outcome: ReadOutcome)
      modifies this`incoming
      ensures old(incoming) == [] ==> outcome == EndOfStream && incoming == []
      ensures old(incoming) != [] ==> outcome == old(incoming)[0] && incoming == old(incoming)[1..]
    {
      if incoming == [] {
        outcome := EndOfStream;
      } else {
        outcome := incoming[0];
        incoming := incoming[1..];
      }
    }

    /** `readLines` over `doReadLines`: collect lines until null, a timeout or a failure. */
    method ReadLines() returns (r: LinesResult)
      modifies this`incoming
      ensures (r, incoming) == ReadBatch(old(incoming))
    {
      var receivedLines: seq<string> := [];
      var line := ReadLine();
      ReadBatchUnfold(old(incoming));
      while line.LineRead?
        invariant ReadBatch(old(incoming)) == Finish(receivedLines, line, incoming)
        decreases |incoming|, line.LineRead?
      {
        FinishShift(receivedLines, line, incoming);
        receivedLines := receivedLines + [line.text];
        ghost var before := incoming;
        line := ReadLine();
        ReadBatchUnfold(before);
        FinishShift(receivedLines, line, incoming);
      }
      if line == ReadFailure {
        r := IllegalState;
      } else {
        r := Lines(receivedLines);
      }
    }

    /** `processData`: an empty batch publishes nothing, any other batch one snapshot to each listener. */
    method ProcessData(lines: seq<string>) returns (notified: seq<Notification>)
      ensures Publishes(lines, listeners, notified)
    {
      notified := [];
      if |lines| == 0 {
        return;
      }
      var droneConfiguration := GetDroneConfiguration(lines);
      var remaining := listeners;
      while remaining != {}
        invariant remaining <= listeners
        invariant NotifiedListeners(notified) == listeners - remaining
        invariant forall i, j :: 0 <= i < j < |notified| ==> notified[i].listener != notified[j].listener
        invariant forall i :: 0 <= i < |notified| ==> notified[i].configuration == droneConfiguration
        decreases remaining
      {
        var listener :| listener in remaining;
        assert listener !in NotifiedListeners(notified);
        NotifiedAppend(notified, Notification(listener, droneConfiguration));
        notified := notified + [Notification(listener, droneConfiguration)];
        remaining := remaining - {listener};
      }
    }

    /**
     * `run` with the stop flag first seen set after `iterations` rounds:
     * connect, emit READY, then process one batch per round (a failing read is
     * logged and the loop goes on), then disconnect.
     */
    method Run(iterations: nat) returns (ready: ReadyState)
      modifies this`incoming, this`log
      ensures ready == Ready
      ensures incoming == RunBatches(old(incoming), iterations).1
      ensures |log| == |old(log)| + iterations + 3
      ensures log[..|old(log)|] == old(log)
      ensures log[|old(log)|] == Connected && log[|old(log)| + 1] == ReadyEmitted
      ensures log[|log| - 1] == Disconnected
      ensures forall k :: |old(log)| + 2 <= k < |log| - 1 ==>
        log[k].BatchProcessed? && log[k].batch == RunBatches(old(incoming), iterations).0[k - |old(log)| - 2]
      ensures forall k :: |old(log)| + 2 <= k < |log| - 1 && log[k].batch.Lines? ==>
        Publishes(log[k].batch.lines, listeners, log[k].notified)
      ensures forall k :: |old(log)| + 2 <= k < |log| - 1 && log[k].batch == IllegalState ==>
        log[k].notified == []
    {
      log := log + [Connected];
      ready := Ready;
      log := log + [ReadyEmitted];
      var round := 0;
      while round < iterations
        invariant 0 <= round <= iterations
        invariant |log| == |old(log)| + 2 + round
        invariant log[..|old(log)|] == old(log)
        invariant log[|old(log)|] == Connected && log[|old(log)| + 1] == ReadyEmitted
        invariant incoming == RunBatches(old(incoming), round).1
        invariant forall k :: |old(log)| + 2 <= k < |log| ==>
          log[k].BatchProcessed? && log[k].batch == RunBatches(old(incoming), round).0[k - |old(log)| - 2]
        invariant forall k :: |old(log)| + 2 <= k < |log| && log[k].batch.Lines? ==>
          Publishes(log[k].batch.lines, listeners, log[k].notified)
        invariant forall k :: |old(log)| + 2 <= k < |log| && log[k].batch == IllegalState ==>
          log[k].notified == []
      {
        var batch := ReadLines();
        var notified := [];
        if batch.Lines? {
          notified := ProcessData(batch.lines);
        }
        log := log + [BatchProcessed(batch, notified)];
        round := round + 1;
      }
      log := log + [Disconnected];
    }
  }
}
