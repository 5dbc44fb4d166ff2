/** The buffered, rename-on-success file writer of src/export/exporter.py, opened for writing. */
module BufferedSaver {

  datatype Option<T> = None | Some(value: T)

  /** How one awaited file operation of the exit ends.  An interruption is a cancellation that arrives
      while it runs in its thread; `effect` says whether it took effect all the same. */
  datatype Outcome = Done | Fails | Interrupted(effect: bool)

  /** How the `with` block is left: whether by an exception, what a flush that is not done leaves in the
      temporary file, and how each operation ends if it comes to it. */
  datatype Exit = Exit(
    exception: bool,
    torn: string,
    flush: Outcome,
    close: Outcome,
    removal: Outcome,
    rename: Outcome,
    cleanUp: Outcome)

  /** The operation the exit awaits, or whether it has raised. */
  datatype Phase = Flushing | Closing | Removing | Renaming | CleaningUp(failed: bool) | Left(raised: bool)

  datatype State = State(target: Option<string>, temporary: Option<string>, phase: Phase, finalized: bool)

  function Join(parts: seq<string>): string {
    if parts == [] then "" else parts[0] + Join(parts[1..])
  }

  lemma {:induction false} JoinConcat(a: seq<string>, b: seq<string>)
    ensures Join(a + b) == Join(a) + Join(b)
  {
    if a == [] {
      assert a + b == b;
    } else {
      assert (a + b)[1..] == a[1..] + b;
      JoinConcat(a[1..], b);
    }
  }

  predicate Effective(o: Outcome) { o.Done? || (o.Interrupted? && o.effect) }

  /** One awaited operation of the exit.  Only an `Exception` is handled; an interruption leaves at once. */
  function Step(e: Exit, written: string, s: State): State {
    match s.phase
    case Flushing =>
      if e.flush.Done? then s.(temporary := Some(written), phase := Closing)
      else s.(temporary := Some(e.torn), phase := Left(true))
    case Closing =>
      s.(phase := if !e.close.Done? then Left(true) else if e.exception then CleaningUp(false) else Removing)
    case Removing =>
      s.(target := if Effective(e.removal) then None else s.target,
         phase := if e.removal.Interrupted? then Left(true) else Renaming)
    case Renaming =>
      if Effective(e.rename) then State(s.temporary, None, Left(e.rename.Interrupted?), e.rename.Done? || s.finalized)
      else s.(phase := if e.rename.Fails? then CleaningUp(true) else Left(true))
    case CleaningUp(failed) =>
      s.(temporary := if Effective(e.cleanUp) then None else s.temporary,
         phase := Left(failed || e.cleanUp.Interrupted?))
    case Left(_) => s
  }

  /** The files after `n` operations of the exit: what a crash at that moment leaves. */
  function After(e: Exit, written: string, s: State, n: nat): State {
    if n == 0 then s else Step(e, written, After(e, written, s, n - 1))
  }

  function Entered(before: Option<string>, temporary: string): State {
    State(before, Some(temporary), Flushing, false)
  }

  lemma {:induction false} LeftForGood(e: Exit, written: string, s: State, n: nat)
    requires n >= 5 && After(e, written, s, 5).phase.Left?
    ensures After(e, written, s, n) == After(e, written, s, 5)
  {
    if n > 5 {
      LeftForGood(e, written, s, n - 1);
    }
  }

  /** The exit comes to replacing the target. */
  predicate Replaces(e: Exit) { !e.exception && e.flush.Done? && e.close.Done? }

  /** By the `n`-th operation the removal has taken effect, the rename has. */
  predicate Removed(e: Exit, n: nat) { n >= 3 && Replaces(e) && Effective(e.removal) }
  predicate Renamed(e: Exit, n: nat) {
    n >= 4 && Replaces(e) && !e.removal.Interrupted? && Effective(e.rename)
  }

  /** The files by the number of operations, as long as these go on. */
  lemma Reached(e: Exit, written: string, before: Option<string>, temporary: string, n: nat)
    ensures var s := After(e, written, Entered(before, temporary), n);
            && s.target == (if Renamed(e, n) then Some(written) else if Removed(e, n) then None else before)
            && (s.finalized <==> Renamed(e, n) && e.rename.Done?)
            && (n >= 5 ==> s.phase.Left?)
            && (s.temporary.None? <==>
                  Renamed(e, n)
                  || (n >= 3 && e.flush.Done? && e.close.Done? && e.exception && Effective(e.cleanUp))
                  || (n >= 5 && Replaces(e) && !e.removal.Interrupted? && e.rename.Fails? && Effective(e.cleanUp)))
            && (n >= 5 && Replaces(e) && s.phase == Left(false) ==> Renamed(e, n) && e.rename.Done?)
            && (n >= 5 && !e.exception && !Replaces(e) ==> s.phase == Left(true))
  {
    var s0 := Entered(before, temporary);
    var s1 := Step(e, written, s0);
    var s2 := Step(e, written, s1);
    var s3 := Step(e, written, s2);
    var s4 := Step(e, written, s3);
    var s5 := Step(e, written, s4);
    FirstFive(e, written, s0);
    if n >= 5 {
      LeftForGood(e, written, s0, n);
    }
  }

  lemma FirstFive(e: Exit, written: string, s: State)
    ensures var s1 := Step(e, written, s);
            var s2 := Step(e, written, s1);
            var s3 := Step(e, written, s2);
            var s4 := Step(e, written, s3);
            && After(e, written, s, 0) == s && After(e, written, s, 1) == s1 && After(e, written, s, 2) == s2
            && After(e, written, s, 3) == s3 && After(e, written, s, 4) == s4
            && After(e, written, s, 5) == Step(e, written, s4)
  {
    assert After(e, written, s, 1) == Step(e, written, s);
    assert After(e, written, s, 2) == Step(e, written, After(e, written, s, 1));
    assert After(e, written, s, 3) == Step(e, written, After(e, written, s, 2));
    assert After(e, written, s, 4) == Step(e, written, After(e, written, s, 3));
  }

  /** At every moment of every exit, whatever fails, is interrupted or crashes: the target is the old file
      or the whole new one exactly unless an existing file has been removed and the rename has not
      happened. */
  lemma ReplacementIsAtomicIff(e: Exit, written: string, before: Option<string>, temporary: string, n: nat)
    ensures var s := After(e, written, Entered(before, temporary), n);
            s.target == before || s.target == Some(written)
            <==> !(before.Some? && Removed(e, n) && !Renamed(e, n))
  {
    Reached(e, written, before, temporary, n);
  }

  /** When the exit is over, the temporary file is still there exactly if the flush or the close was not
      done; or, after an exception in the block, the clean-up had no effect; or, in a replacement, the
      removal was interrupted, or the rename had no effect and was interrupted or could not be cleaned up. */
  lemma TemporaryLeftIff(e: Exit, written: string, before: Option<string>, temporary: string)
    ensures After(e, written, Entered(before, temporary), 5).temporary.Some? <==>
              || !e.flush.Done? || !e.close.Done?
              || (e.exception && !Effective(e.cleanUp))
              || (!e.exception && e.removal.Interrupted?)
              || (!e.exception && !Effective(e.rename) && (e.rename.Interrupted? || !Effective(e.cleanUp)))
  {
    Reached(e, written, before, temporary, 5);
  }

  /** A block without exception whose exit raises nothing has written the whole new file and nothing else;
      and `_finalized` never lies. */
  lemma QuietExitReplaces(e: Exit, written: string, before: Option<string>, temporary: string)
    ensures var s := After(e, written, Entered(before, temporary), 5);
            && (!e.exception && s.phase == Left(false) ==>
                  s.target == Some(written) && s.temporary.None? && s.finalized)
            && (s.finalized ==> s.target == Some(written) && s.temporary.None?)
  {
    Reached(e, written, before, temporary, 5);
  }

  class AsyncBufferedSaver {
    const bufferSize: int
    var buffer: seq<string>
    var currentSize: int
    var temporary: Option<string>
    var target: Option<string>
    var finalized: bool

    /** The buffered size is exact, and a buffer that has reached its bound has been flushed. */
    ghost predicate Valid()
      reads this
    {
      && temporary.Some?
      && currentSize == |Join(buffer)|
      && (currentSize < bufferSize || buffer == [])
    }

    /** All text handed over so far, on disk or still buffered. */
    ghost function Written(): string
      reads this
      requires Valid()
    {
      temporary.value + Join(buffer)
    }

    constructor (size: int, existing: Option<string>)
      ensures Valid() && Written() == "" && target == existing && bufferSize == size && !finalized
    {
      bufferSize, buffer, currentSize, temporary, target, finalized := size, [], 0, Some(""), existing, false;
    }

    method Write(data: string)
      requires Valid()
      modifies this`buffer, this`currentSize, this`temporary
      ensures Valid() && Written() == old(Written()) + data
      ensures temporary == if old(currentSize) + |data| >= bufferSize then Some(old(Written()) + data)
                           else old(temporary)
    {
      JoinConcat(buffer, [data]);
      assert Join([data]) == data;
      assert temporary.value + (Join(buffer) + data) == temporary.value + Join(buffer) + data;
      buffer := buffer + [data];
      currentSize := currentSize + |data|;
      if currentSize >= bufferSize {
        Flush();
      }
    }

    method Flush()
      requires temporary.Some? && currentSize == |Join(buffer)|
      modifies this`buffer, this`currentSize, this`temporary
      ensures Valid() && buffer == []
      ensures temporary.value == old(temporary.value + Join(buffer))
    {
      if buffer == [] {
        assert temporary.value + "" == temporary.value;
        return;
      }
      var content := Join(buffer);
      buffer := [];
      currentSize := 0;
      temporary := Some(temporary.value + content);
    }

    /** Leaving the block; the result says whether that raises. */
    method Close(e: Exit) returns (raised: bool)
      requires Valid()
      modifies this
      ensures State(target, temporary, Left(raised), finalized)
           == After(e, old(Written()), old(State(target, temporary, Flushing, finalized)), 5)
      ensures buffer == []
    {
      FirstFive(e, Written(), State(target, temporary, Flushing, finalized));
      Flush();
      if !e.flush.Done? {
        temporary := Some(e.torn);
        return true;
      }
      if !e.close.Done? {
        return true;
      }
      if e.exception {
        raised := RemoveTemporary(e);
        return;
      }
      if Effective(e.removal) {
        target := None;
      }
      if e.removal.Interrupted? {
        return true;
      }
      if Effective(e.rename) {
        target, temporary := temporary, None;
      }
      match e.rename
      case Done =>
        finalized := true;
        raised := false;
      case Interrupted(_) => raised := true;
      case Fails =>
        var _ := RemoveTemporary(e);
        raised := true;
    }

    /** The clean-up, which swallows every failure but an interruption. */
    method RemoveTemporary(e: Exit) returns (interrupted: bool)
      modifies this`temporary
      ensures temporary == if Effective(e.cleanUp) then None else old(temporary)
      ensures interrupted == e.cleanUp.Interrupted?
    {
      if Effective(e.cleanUp) {
        temporary := None;
      }
      interrupted := e.cleanUp.Interrupted?;
    }
  }
}
