/**
  The append-only audit ledger: one JSON record for each line, a strict reader
  that loses its clean verdict on any other line, and a writer that refuses a
  file that is not clean or already holds one of the record's three identities.
*/
module Ledgers {
  import opened Outcomes

  datatype Record = Record(runId: string, correlationId: string, tradeLogId: string, body: string)

  /** Rejected stands for every line that costs the file its clean verdict. */
  datatype Line = Entry(record: Record) | Rejected

  /** `terminated` says whether the last line ends with its newline. */
  datatype Content = Content(present: bool, lines: seq<Line>, terminated: bool)

  datatype LedgerReply = Appended | AlreadyAppended
  datatype LedgerError = InvalidRecord | NotClean | DuplicateIdentity | NoSuchRecord | AppendFailed
  datatype Effect = Effect(file: Content, reply: Result<LedgerReply, LedgerError>)

  /** How far an append that raises, or dies, can have come. */
  datatype Torn = NothingWritten | Fragment | MissingNewline | NotSynced

  predicate ValidRecord(r: Record) {
    r.runId != "" && r.correlationId != "" && r.tradeLogId == "trade-log-" + r.runId
  }

  predicate Clean(c: Content) { Rejected !in c.lines }

  predicate Holds(c: Content, r: Record) { Entry(r) in c.lines }

  predicate SharesIdentity(a: Record, b: Record) {
    a.runId == b.runId || a.correlationId == b.correlationId || a.tradeLogId == b.tradeLogId
  }

  predicate HasDuplicate(c: Content, r: Record) {
    exists i :: 0 <= i < |c.lines| && c.lines[i].Entry? && SharesIdentity(c.lines[i].record, r)
  }

  /** Text written behind a line with no newline becomes part of that line, and no two objects are one. */
  function Written(c: Content, r: Record, fault: Option<Torn>): Content {
    var merging := !c.terminated && c.lines != [];
    var kept := if merging then c.lines[..|c.lines| - 1] else c.lines;
    if fault == Some(NothingWritten) then c.(present := true)
    else if fault == Some(Fragment) then Content(true, kept + [Rejected], false)
    else Content(true, kept + [if merging then Rejected else Entry(r)], fault != Some(MissingNewline))
  }

  function Extended(c: Content, r: Record, fault: Option<Torn>): Effect {
    if !ValidRecord(r) then Effect(c, Err(InvalidRecord))
    else if c.present && !Clean(c) then Effect(c, Err(NotClean))
    else if c.present && HasDuplicate(c, r) then Effect(c, Err(DuplicateIdentity))
    else Effect(Written(c, r, fault), if fault.None? then Ok(Appended) else Err(AppendFailed))
  }

  /** The runner's fenced callback. */
  function Confirmed(c: Content, r: Record, fault: Option<Torn>): Effect {
    if c.present && !Clean(c) then Effect(c, Err(NotClean))
    else if c.present && Holds(c, r) then Effect(c, Ok(AlreadyAppended))
    else Extended(c, r, fault)
  }

  function Existing(c: Content, r: Record): Result<LedgerReply, LedgerError> {
    if !c.present then Err(NoSuchRecord)
    else if !Clean(c) then Err(NotClean)
    else if !Holds(c, r) then Err(NoSuchRecord)
    else Ok(AlreadyAppended)
  }

  /** No run, correlation or trade-log identity occurs on two lines, and only present files have lines. */
  predicate Sound(c: Content) {
    && (!c.present ==> c.lines == [])
    && (c.lines == [] ==> c.terminated)
    && (forall i :: 0 <= i < |c.lines| && c.lines[i].Entry? ==> ValidRecord(c.lines[i].record))
    && (forall i, j :: 0 <= i < j < |c.lines| && c.lines[i].Entry? && c.lines[j].Entry?
          ==> !SharesIdentity(c.lines[i].record, c.lines[j].record))
  }

  lemma {:induction false} AppendKeepsSound(c: Content, r: Record, fault: Option<Torn>)
    requires Sound(c)
    ensures Sound(Extended(c, r, fault).file)
  {
    if Extended(c, r, fault).file != c {
      assert !HasDuplicate(c, r);
    }
  }

  /** A callback that reports success has its record in the file exactly when it found it there, or the file ended with a newline. */
  lemma {:induction false} AppendedMeansHeld(c: Content, r: Record, fault: Option<Torn>)
    requires Sound(c) && Confirmed(c, r, fault).reply.Ok?
    ensures Holds(Confirmed(c, r, fault).file, r) <==> Holds(c, r) || c.terminated
  {
    var after := Confirmed(c, r, fault).file;
    if c.terminated && !Holds(c, r) {
      assert after.lines[|c.lines|] == Entry(r);
    } else if !Holds(c, r) {
      forall i | 0 <= i < |after.lines| ensures after.lines[i] != Entry(r) {
        assert i < |c.lines| - 1 ==> after.lines[i] == c.lines[i];
      }
    }
  }

  /**
    An append that starts writing keeps every earlier record readable exactly when the file ends with a
    newline. A crash that lost only the newline leaves a file that reads as clean, and the next append
    then spoils the line that is already there.
  */
  lemma {:induction false} AppendKeepsEarlierRecords(c: Content, r: Record, fault: Option<Torn>)
    requires Sound(c) && Extended(c, r, fault).reply in {Ok(Appended), Err(AppendFailed)}
    requires fault != Some(NothingWritten)
    ensures (forall e :: Holds(c, e) ==> Holds(Extended(c, r, fault).file, e)) <==> c.terminated
  {
    var after := Extended(c, r, fault).file;
    if c.terminated {
      forall e | Holds(c, e) ensures Holds(after, e) {
        var i :| 0 <= i < |c.lines| && c.lines[i] == Entry(e);
        assert after.lines[i] == Entry(e);
      }
    } else {
      var last := c.lines[|c.lines| - 1];
      assert last.Entry? by { assert last in c.lines; }
      assert Holds(c, last.record);
      forall i | 0 <= i < |after.lines| ensures after.lines[i] != last {
        if i < |c.lines| - 1 && c.lines[i].Entry? {
          assert !SharesIdentity(c.lines[i].record, last.record);
        }
      }
    }
  }

  // ---------------------------------------------------------------- the file

  function Records(lines: seq<Line>): seq<Record> {
    if lines == [] then []
    else Records(lines[..|lines| - 1])
         + (if lines[|lines| - 1].Entry? then [lines[|lines| - 1].record] else [])
  }

  lemma {:induction false} InRecords(lines: seq<Line>, r: Record)
    ensures r in Records(lines) <==> Entry(r) in lines
  {
    if lines != [] {
      InRecords(lines[..|lines| - 1], r);
      assert lines == lines[..|lines| - 1] + [lines[|lines| - 1]];
    }
  }

  class LedgerFile {
    var content: Content

    constructor ()
      ensures content == Content(false, [], true)
    {
      content := Content(false, [], true);
    }

    /** The line scanner: accepted records, and the count of lines that cost the file its clean verdict. */
    method Read() returns (records: seq<Record>, errorCount: nat)
      ensures records == Records(content.lines)
      ensures errorCount == 0 <==> Clean(content)
      ensures |records| + errorCount == |content.lines|
    {
      var lines := content.lines;
      records, errorCount := [], 0;
      for i := 0 to |lines|
        invariant records == Records(lines[..i])
        invariant errorCount == 0 <==> forall j :: 0 <= j < i ==> lines[j].Entry?
        invariant |records| + errorCount == i
      {
        assert lines[..i + 1][..i] == lines[..i];
        if lines[i].Entry? {
          records := records + [lines[i].record];
        } else {
          errorCount := errorCount + 1;
        }
      }
      assert lines[..|lines|] == lines;
    }

    method HasDuplicateIdentity(records: seq<Record>, record: Record) returns (found: bool)
      ensures found <==> exists r :: r in records && SharesIdentity(r, record)
    {
      for i := 0 to |records|
        invariant forall j :: 0 <= j < i ==> !SharesIdentity(records[j], record)
      {
        if SharesIdentity(records[i], record) { return true; }
      }
      return false;
    }

    method Append(record: Record, fault: Option<Torn>) returns (r: Result<LedgerReply, LedgerError>)
      modifies this
      ensures Effect(content, r) == Extended(old(content), record, fault)
    {
      if !ValidRecord(record) { return Err(InvalidRecord); }
      if content.present {
        var records, errors := Read();
        if errors > 0 { return Err(NotClean); }
        var duplicate := HasDuplicateIdentity(records, record);
        assert duplicate <==> HasDuplicate(content, record) by {
          forall e ensures e in records <==> Entry(e) in content.lines { InRecords(content.lines, e); }
          if duplicate {
            var e :| e in records && SharesIdentity(e, record);
            var i :| 0 <= i < |content.lines| && content.lines[i] == Entry(e);
          }
          if HasDuplicate(content, record) {
            var i :| 0 <= i < |content.lines| && content.lines[i].Entry?
                     && SharesIdentity(content.lines[i].record, record);
            assert content.lines[i].record in records;
          }
        }
        if duplicate { return Err(DuplicateIdentity); }
      }
      content := Written(content, record, fault);
      return if fault.None? then Ok(Appended) else Err(AppendFailed);
    }

    method AppendOrConfirm(record: Record, fault: Option<Torn>) returns (r: Result<LedgerReply, LedgerError>)
      modifies this
      ensures Effect(content, r) == Confirmed(old(content), record, fault)
    {
      if content.present {
        var records, errors := Read();
        if errors > 0 { return Err(NotClean); }
        InRecords(content.lines, record);
        if record in records { return Ok(AlreadyAppended); }
      }
      r := Append(record, fault);
    }

    method ConfirmExisting(record: Record) returns (r: Result<LedgerReply, LedgerError>)
      ensures r == Existing(content, record)
    {
      if !content.present { return Err(NoSuchRecord); }
      var records, errors := Read();
      if errors > 0 { return Err(NotClean); }
      InRecords(content.lines, record);
      if record !in records { return Err(NoSuchRecord); }
      return Ok(AlreadyAppended);
    }
  }
}
