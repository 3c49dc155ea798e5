/** internal/register/state.go: the state file, written to a temporary file
    and renamed into place. */
module StateStore {
  import opened Basics
  import opened Register

  /** A file holds either a whole document or a torn one: a proper prefix of a
      JSON object never parses. */
  datatype File = Torn | Whole(doc: State)

  datatype Disk = Disk(main: Option<File>, tmp: Option<File>)

  /** The effects of Save on the directory, in order: truncate the temporary
      file, fill it, rename it over the state file. */
  datatype DiskOp = OpenTmp | WriteTmp(doc: State) | Commit

  function Do(d: Disk, op: DiskOp): Disk {
    match op
    case OpenTmp => d.(tmp := Some(Torn))
    case WriteTmp(doc) => d.(tmp := Some(Whole(doc)))
    case Commit => Disk(d.tmp, None)
  }

  function SaveOps(doc: State): seq<DiskOp> { [OpenTmp, WriteTmp(doc), Commit] }

  /** Save cut off after n of its effects. */
  function SavedUpTo(d: Disk, doc: State, n: nat): Disk
    requires n <= 3
  {
    if n == 0 then d else Do(SavedUpTo(d, doc, n - 1), SaveOps(doc)[n - 1])
  }

  /** Only the last effect touches the state file, and it installs exactly the
      document being saved. */
  lemma SavedUpToIs(d: Disk, doc: State, n: nat)
    requires n <= 3
    ensures n < 3 ==> SavedUpTo(d, doc, n).main == d.main
    ensures n == 1 ==> SavedUpTo(d, doc, n).tmp == Some(Torn)
    ensures n == 2 ==> SavedUpTo(d, doc, n).tmp == Some(Whole(doc))
    ensures n == 3 ==> SavedUpTo(d, doc, n) == Disk(Some(Whole(doc)), None)
  {
    if n > 0 {
      SavedUpToIs(d, doc, n - 1);
    }
  }

  datatype LoadError = ReadError | ParseError

  /** What LoadState makes of the state file. */
  function Loaded(main: Option<File>): Result<Option<State>, LoadError> {
    match main
    case None => Success(None)
    case Some(Torn) => Failure(ParseError)
    case Some(Whole(doc)) => Success(Some(Migrate(doc)))
  }

  /** One call of Save: its document and how far it got before an error or a
      crash stopped it. */
  datatype Attempt = Attempt(doc: State, reached: nat)

  function AfterAttempts(d: Disk, attempts: seq<Attempt>): Disk
    requires forall i :: 0 <= i < |attempts| ==> attempts[i].reached <= 3
  {
    if attempts == [] then d
    else
      var last := attempts[|attempts| - 1];
      SavedUpTo(AfterAttempts(d, attempts[..|attempts| - 1]), last.doc, last.reached)
  }

  /** The last attempt that ran to the end. */
  function LastCommitted(attempts: seq<Attempt>): Option<State> {
    if attempts == [] then None
    else
      var last := attempts[|attempts| - 1];
      if last.reached >= 3 then Some(last.doc) else LastCommitted(attempts[..|attempts| - 1])
  }

  /** Whatever temporary files earlier crashes left behind and wherever each
      save is cut off, loading gives the last committed state, never a mixture
      and never a parse error. */
  lemma {:induction false} CrashAtomic(d: Disk, attempts: seq<Attempt>)
    requires forall i :: 0 <= i < |attempts| ==> attempts[i].reached <= 3
    requires d.main != Some(Torn)
    ensures var after := AfterAttempts(d, attempts);
            && after.main != Some(Torn)
            && Loaded(after.main) ==
               match LastCommitted(attempts)
               case Some(doc) => Success(Some(Migrate(doc)))
               case None => Loaded(d.main)
  {
    if attempts != [] {
      var front, last := attempts[..|attempts| - 1], attempts[|attempts| - 1];
      CrashAtomic(d, front);
      SavedUpToIs(AfterAttempts(d, front), last.doc, last.reached);
    }
  }

  // ---------- the code ----------

  /** Where a call is stopped: before effect `before` (0 stands for creating
      the directory and encoding, 4 for the return), by an error or a crash. */
  datatype Fault = Fault(before: nat, crash: bool)

  /** No fault, or an error so late that nothing is left to fail. */
  predicate Harmless(fault: Option<Fault>) {
    fault.None? || (fault.value.before >= 4 && !fault.value.crash)
  }

  datatype SaveOutcome = Saved | SaveFailed | Crashed

  class StateDir {
    var main: Option<File>
    var tmp: Option<File>

    constructor (d: Disk)
      ensures Contents() == d
    {
      main, tmp := d.main, d.tmp;
    }

    ghost function Contents(): Disk reads this { Disk(main, tmp) }

    /** A missing file is no error; any other failure to read it is. */
    method LoadState(readFails: bool) returns (r: Result<Option<State>, LoadError>)
      ensures r == if readFails then Failure(ReadError) else Loaded(main)
      ensures !readFails && main.None? ==> r == Success(None)
      ensures !readFails && main == Some(Torn) ==> r == Failure(ParseError)
      ensures !readFails && main.Some? && main.value.Whole? ==>
                && r.Success? && r.value.Some?
                && var doc, st := main.value.doc, r.value.value;
                   && (doc.services != [] || doc.subdomain == "" ==> st == doc)
                   && (doc.services == [] && doc.subdomain != "" ==>
                         && st.(services := []) == doc && |st.services| == 1
                         && st.services[0].name == st.services[0].subdomain == doc.subdomain
                         && st.services[0].port == if doc.servicePort == 0 then 8096 else doc.servicePort)
    {
      if readFails {
        return Failure(ReadError);
      }
      if main.None? {
        return Success(None);
      }
      if main.value.Torn? {
        return Failure(ParseError);
      }
      var s := main.value.doc;
      if |s.services| == 0 && s.subdomain != "" {
        var port := s.servicePort;
        if port == 0 {
          port := 8096;
        }
        s := s.(services := [ServiceState(s.subdomain, s.subdomain, port)]);
      }
      return Success(Some(s));
    }

    /** Save performs a prefix of its effects; it reports success only after
        all of them, and an error only when the state file is untouched. */
    method Save(doc: State, fault: Option<Fault>) returns (r: SaveOutcome, ghost reached: nat)
      modifies this
      ensures reached <= 3 && Contents() == SavedUpTo(old(Contents()), doc, reached)
      ensures r.Saved? ==> reached == 3
      ensures r.SaveFailed? ==> reached < 3 && main == old(main)
      ensures fault.None? ==> r.Saved?
      ensures r.Saved? <==> Harmless(fault)
      ensures r.Crashed? <==> fault.Some? && fault.value.crash
    {
      ghost var was := Contents();
      reached := 0;
      SavedUpToIs(was, doc, 0);
      if fault.Some? && fault.value.before <= 1 {
        return if fault.value.crash then Crashed else SaveFailed, reached;
      }
      tmp := Some(Torn);
      reached := 1;
      SavedUpToIs(was, doc, 1);
      if fault.Some? && fault.value.before == 2 {
        return if fault.value.crash then Crashed else SaveFailed, reached;
      }
      tmp := Some(Whole(doc));
      reached := 2;
      SavedUpToIs(was, doc, 2);
      if fault.Some? && fault.value.before == 3 {
        return if fault.value.crash then Crashed else SaveFailed, reached;
      }
      main, tmp := tmp, None;
      reached := 3;
      SavedUpToIs(was, doc, 3);
      return if fault.Some? && fault.value.crash then Crashed else Saved, reached;
    }

    /** A missing file is not an error; a failed removal changes nothing. */
    method Remove(fails: bool) returns (ok: bool)
      modifies this
      ensures tmp == old(tmp)
      ensures ok <==> !fails || old(main).None?
      ensures main == if ok then None else old(main)
    {
      if main.None? {
        return true;
      }
      if fails {
        return false;
      }
      main := None;
      return true;
    }
  }

  // ---------- two saves at once ----------

  /** A writer inside Save, holding the temporary file it opened. */
  datatype Writer = Writer(doc: State, inode: nat, filled: bool)

  /** Directory entries name inodes, so a writer keeps writing to the file it
      opened even after another writer has renamed it. */
  datatype Shared =
    Shared(main: Option<nat>, tmp: Option<nat>, files: map<nat, File>, next: nat, writers: map<nat, Writer>)

  datatype Move = Opens(writer: nat, doc: State) | Fills(writer: nat) | Renames(writer: nat) | GivesUp(writer: nat)

  predicate CanMove(s: Shared, m: Move) {
    match m
    case Opens(w, _) => w !in s.writers
    case Fills(w) => w in s.writers && !s.writers[w].filled
    case Renames(w) => w in s.writers && s.writers[w].filled && s.tmp.Some?
    case GivesUp(w) => w in s.writers
  }

  function Moved(s: Shared, m: Move): Shared
    requires CanMove(s, m)
  {
    match m
    case Opens(w, doc) =>
      var inode := if s.tmp.Some? then s.tmp.value else s.next;
      s.(tmp := Some(inode), files := s.files[inode := Torn], next := s.next + 1,
         writers := s.writers[w := Writer(doc, inode, false)])
    case Fills(w) =>
      var wr := s.writers[w];
      s.(files := s.files[wr.inode := Whole(wr.doc)], writers := s.writers[w := wr.(filled := true)])
    case Renames(w) => s.(main := s.tmp, tmp := None, writers := s.writers - {w})
    case GivesUp(w) => s.(writers := s.writers - {w})
  }

  /** The state after a schedule, provided every save opens while no other is
      in progress. */
  function Serially(s: Shared, moves: seq<Move>): Option<Shared>
    decreases |moves|
  {
    if moves == [] then Some(s)
    else if !CanMove(s, moves[0]) || (moves[0].Opens? && s.writers != map[]) then None
    else Serially(Moved(s, moves[0]), moves[1..])
  }

  function MainFile(s: Shared): Option<File> {
    if s.main.Some? && s.main.value in s.files then Some(s.files[s.main.value]) else None
  }

  ghost predicate OneWriter(s: Shared) {
    && MainFile(s) != Some(Torn)
    && (s.tmp.Some? ==> s.tmp != s.main)
    && (forall i :: i in s.files || s.main == Some(i) || s.tmp == Some(i) ==> i < s.next)
    && (forall w, v :: w in s.writers && v in s.writers ==> w == v)
    && (forall w :: w in s.writers ==> s.tmp == Some(s.writers[w].inode))
    && (forall w :: w in s.writers && s.writers[w].filled ==>
          s.writers[w].inode in s.files && s.files[s.writers[w].inode] == Whole(s.writers[w].doc))
  }

  lemma MoveKeepsOneWriter(s: Shared, m: Move)
    requires OneWriter(s) && CanMove(s, m) && (m.Opens? ==> s.writers == map[])
    ensures OneWriter(Moved(s, m))
  {
  }

  /** As long as no save starts during another, no schedule of saves, errors
      and crashes ever leaves a torn state file. */
  lemma {:induction false} SerialSavesNeverTear(s: Shared, moves: seq<Move>)
    requires OneWriter(s) && Serially(s, moves).Some?
    ensures OneWriter(Serially(s, moves).value)
    ensures Loaded(MainFile(Serially(s, moves).value)).Success?
    decreases |moves|
  {
    if moves != [] {
      MoveKeepsOneWriter(s, moves[0]);
      SerialSavesNeverTear(Moved(s, moves[0]), moves[1..]);
    }
  }

  /** The state after any schedule at all. */
  function Scheduled(s: Shared, moves: seq<Move>): Option<Shared>
    decreases |moves|
  {
    if moves == [] then Some(s)
    else if !CanMove(s, moves[0]) then None
    else Scheduled(Moved(s, moves[0]), moves[1..])
  }

  /** Only the first n writers take part. */
  predicate AmongFirst(moves: seq<Move>, n: nat) {
    forall i :: 0 <= i < |moves| ==> moves[i].writer < n
  }

  lemma {:induction false} OneWriterIsSerial(s: Shared, moves: seq<Move>)
    requires AmongFirst(moves, 1) && (forall w :: w in s.writers ==> w == 0)
    ensures Serially(s, moves) == Scheduled(s, moves)
    decreases |moves|
  {
    if moves != [] && CanMove(s, moves[0]) {
      assert moves[0].writer == 0;
      if moves[0].Opens? {
        assert s.writers.Keys == {};
      }
      assert forall i :: 0 <= i < |moves| - 1 ==> moves[1..][i] == moves[i + 1];
      OneWriterIsSerial(Moved(s, moves[0]), moves[1..]);
    }
  }

  /** A save that starts while another one is about to rename makes that rename
      install a truncated file. */
  lemma OverlappingSavesTear(s: Shared, first: nat, second: nat, doc: State)
    requires OneWriter(s) && first in s.writers && s.writers[first].filled && second !in s.writers
    ensures CanMove(s, Opens(second, doc))
    ensures CanMove(Moved(s, Opens(second, doc)), Renames(first))
    ensures Loaded(MainFile(Moved(Moved(s, Opens(second, doc)), Renames(first)))) == Failure(ParseError)
  {
  }

  lemma Before(s: Shared, m: Move, moves: seq<Move>) returns (all: seq<Move>)
    requires CanMove(s, m) && m.writer < 2 && AmongFirst(moves, 2)
    ensures Scheduled(s, all) == Scheduled(Moved(s, m), moves) && AmongFirst(all, 2)
  {
    all := [m] + moves;
    assert all[1..] == moves;
  }

  /** From a clean directory, two writers suffice for that. */
  lemma TwoWritersTear(s: Shared, doc: State) returns (moves: seq<Move>)
    requires OneWriter(s) && s.writers == map[]
    ensures AmongFirst(moves, 2) && Scheduled(s, moves).Some?
    ensures Loaded(MainFile(Scheduled(s, moves).value)) == Failure(ParseError)
  {
    var opening, filled := Moved(s, Opens(0, doc)), Moved(Moved(s, Opens(0, doc)), Fills(0));
    MoveKeepsOneWriter(s, Opens(0, doc));
    MoveKeepsOneWriter(opening, Fills(0));
    OverlappingSavesTear(filled, 0, 1, doc);
    var both := Moved(filled, Opens(1, doc));
    var torn := Moved(both, Renames(0));
    hide Moved, MainFile, OneWriter;
    moves := [Renames(0)];
    assert Scheduled(both, moves) == Some(torn) by {
      assert moves[1..] == [];
      assert Scheduled(torn, []) == Some(torn);
    }
    moves := Before(filled, Opens(1, doc), moves);
    moves := Before(opening, Fills(0), moves);
    moves := Before(s, Opens(0, doc), moves);
  }

  /** Every schedule leaves a state file that loads exactly when at most one
      save can be in progress: the single flight that the start-up test does
      not take part in. */
  lemma AtomicIffSingleFlight(s: Shared, n: nat, doc: State)
    requires OneWriter(s) && s.writers == map[]
    ensures n <= 1 <==>
            (forall moves :: AmongFirst(moves, n) && Scheduled(s, moves).Some? ==>
                               Loaded(MainFile(Scheduled(s, moves).value)).Success?)
  {
    if n <= 1 {
      forall moves | AmongFirst(moves, n) && Scheduled(s, moves).Some?
        ensures Loaded(MainFile(Scheduled(s, moves).value)).Success?
      {
        OneWriterIsSerial(s, moves);
        SerialSavesNeverTear(s, moves);
      }
    } else {
      var moves := TwoWritersTear(s, doc);
    }
  }

  // ---------- what overlapping saves of one document can do ----------

  /** Every save of the schedule saves this document. */
  predicate OnlySaves(moves: seq<Move>, doc: State) {
    forall i :: 0 <= i < |moves| && moves[i].Opens? ==> moves[i].doc == doc
  }

  ghost predicate Overlapped(s: Shared, before: Option<File>, doc: State) {
    && (MainFile(s) in {before, Some(Torn), Some(Whole(doc))})
    && (s.tmp.Some? ==> s.tmp != s.main)
    && (forall i :: i in s.files || s.main == Some(i) || s.tmp == Some(i) ==> i < s.next)
    && (forall w :: w in s.writers ==> s.writers[w].doc == doc && s.writers[w].inode < s.next)
    && (s.writers != map[] && s.tmp.Some? ==> s.tmp.value in s.files && s.files[s.tmp.value] in {Torn, Whole(doc)})
  }

  lemma MoveKeepsOverlapped(s: Shared, before: Option<File>, doc: State, m: Move)
    requires Overlapped(s, before, doc) && CanMove(s, m) && (m.Opens? ==> m.doc == doc)
    ensures Overlapped(Moved(s, m), before, doc)
  {
    if m.Opens? {
      assert m.writer in Moved(s, m).writers;
    } else {
      assert m.writer in s.writers;
    }
  }

  lemma {:induction false} RunKeepsOverlapped(s: Shared, moves: seq<Move>, before: Option<File>, doc: State)
    requires Overlapped(s, before, doc) && OnlySaves(moves, doc) && Scheduled(s, moves).Some?
    ensures Overlapped(Scheduled(s, moves).value, before, doc)
    decreases |moves|
  {
    if moves != [] {
      MoveKeepsOverlapped(s, before, doc, moves[0]);
      assert forall i :: 0 <= i < |moves| - 1 ==> moves[1..][i] == moves[i + 1];
      hide Overlapped, Moved, CanMove;
      RunKeepsOverlapped(Moved(s, moves[0]), moves[1..], before, doc);
    }
  }

  /** Whatever the schedule, the state file is as before, torn, or the whole
      document. */
  lemma OverlapNeverMixes(s: Shared, moves: seq<Move>, doc: State)
    requires OneWriter(s) && s.writers == map[] && OnlySaves(moves, doc) && Scheduled(s, moves).Some?
    ensures MainFile(Scheduled(s, moves).value) in {MainFile(s), Some(Torn), Some(Whole(doc))}
  {
    RunKeepsOverlapped(s, moves, MainFile(s), doc);
  }
}
