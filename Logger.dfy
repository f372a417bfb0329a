/**
 * The display log: an in-memory list of screen entries mirrored to a JSON file. The list
 * is loaded once from the file, grows by one entry per `log` call, and the whole list is
 * written back after every append; a failed write is swallowed.
 *
 * The file is modelled by its state, and the clock and the outcome of each write are
 * oracle inputs.
 */
module Logger {

  datatype LogEntry = LogEntry(timestamp: int, role: string, content: string, kind: string)

  /** The log file as `_load` finds it: absent, unreadable or not valid JSON, or holding a
      list of entries. */
  datatype LogFile = Missing | Unreadable | Holds(entries: seq<LogEntry>)

  /** What opening and writing the file for `_save` does. A write that fails after the file
      was opened leaves it truncated, so it no longer reads back. */
  datatype SaveOutcome = Saved | OpenFailed | WriteFailed

  /** `_load`. */
  function Loaded(file: LogFile): (es: seq<LogEntry>)
    ensures !file.Holds? ==> es == []
  {
    match file
    case Holds(es) => es
    case _ => []
  }

  /** `_save` of the given list. */
  function SavedFile(file: LogFile, entries: seq<LogEntry>, outcome: SaveOutcome): LogFile
  {
    match outcome
    case Saved => Holds(entries)
    case OpenFailed => file
    case WriteFailed => Unreadable
  }

  /** The list and the file after `log`. */
  function LogNext(entries: seq<LogEntry>, file: LogFile, entry: LogEntry, outcome: SaveOutcome): (seq<LogEntry>, LogFile)
  {
    var grown := entries + [entry];
    (grown, SavedFile(file, grown, outcome))
  }

  /** `log` appends exactly one entry, keeps every earlier one, and whatever the write does
      the call completes; a successful write leaves a file that loads back as the whole
      list. */
  lemma LogSpec(entries: seq<LogEntry>, file: LogFile, entry: LogEntry, outcome: SaveOutcome)
    ensures var (es, f) := LogNext(entries, file, entry, outcome);
      && |es| == |entries| + 1
      && es[..|entries|] == entries
      && es[|entries|] == entry
      && (outcome == Saved ==> Loaded(f) == es)
      && (outcome == OpenFailed ==> f == file)
  {
  }

  /** A run of `log` calls, each with its entry and write outcome. */
  function LogAll(entries: seq<LogEntry>, file: LogFile, calls: seq<(LogEntry, SaveOutcome)>): (seq<LogEntry>, LogFile)
    decreases |calls|
  {
    if calls == [] then (entries, file)
    else
      var (es, f) := LogNext(entries, file, calls[0].0, calls[0].1);
      LogAll(es, f, calls[1..])
  }

  function EntriesOf(calls: seq<(LogEntry, SaveOutcome)>): (es: seq<LogEntry>)
    ensures |es| == |calls|
    ensures forall i :: 0 <= i < |calls| ==> es[i] == calls[i].0
  {
    seq(|calls|, i requires 0 <= i < |calls| => calls[i].0)
  }

  /** After any run of calls the list is the loaded entries followed by one entry per call
      in call order; if the last write succeeded, reopening the log restores that list. */
  lemma {:induction false} LogAllSpec(entries: seq<LogEntry>, file: LogFile, calls: seq<(LogEntry, SaveOutcome)>)
    ensures LogAll(entries, file, calls).0 == entries + EntriesOf(calls)
    ensures calls != [] && calls[|calls| - 1].1 == Saved ==> Loaded(LogAll(entries, file, calls).1) == entries + EntriesOf(calls)
    decreases |calls|
  {
    if calls != [] {
      var (es, f) := LogNext(entries, file, calls[0].0, calls[0].1);
      LogAllSpec(es, f, calls[1..]);
      assert EntriesOf(calls) == [calls[0].0] + EntriesOf(calls[1..]);
      if |calls| == 1 {
        assert calls[1..] == [];
      } else {
        assert calls[1..][|calls[1..]| - 1] == calls[|calls| - 1];
      }
    }
  }

  class DisplayLogger {
    var entries: seq<LogEntry>
    var file: LogFile

    /** Creating the logger loads whatever the file holds. */
    constructor (file: LogFile)
      ensures this.file == file
      ensures entries == Loaded(file)
    {
      this.file := file;
      entries := [];
      new;
      Load();
    }

    /** `_load`: a missing file leaves the list as it was. */
    method Load()
      modifies this`entries
      ensures entries == if file.Missing? then old(entries) else Loaded(file)
    {
      match file {
        case Holds(es) => entries := es;
        case Missing =>
        case Unreadable => entries := [];
      }
    }

    method Log(role: string, content: string, kind: string, now: int, outcome: SaveOutcome)
      modifies this
      ensures (entries, file) == LogNext(old(entries), old(file), LogEntry(now, role, content, kind), outcome)
    {
      entries := entries + [LogEntry(now, role, content, kind)];
      Save(outcome);
    }

    method Save(outcome: SaveOutcome)
      modifies this`file
      ensures file == SavedFile(old(file), entries, outcome)
    {
      match outcome {
        case Saved => file := Holds(entries);
        case OpenFailed =>
        case WriteFailed => file := Unreadable;
      }
    }
  }
}
