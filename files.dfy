/** The report files the consumer scripts write. Every report is written
    with `open(path, "w")`, which truncates the file: the content a path ends
    up with is the rows of the last write to it. */
module Files {
  import opened Dispatch

  /** One `with open(path, "w")` block: the file and the rows written to it
      before the block ended, at its end or by an exception (leaving the
      block closes the file, which keeps what was written). */
  datatype FileWrite<R> = FileWrite(path: string, rows: seq<R>)

  /** A `with open(path, "w")` block around a loop that writes the rows of
      `o` one by one: the file is written even when the loop raises. */
  function WriteFile<R>(path: string, o: Outcome<R>): Outcome<FileWrite<R>>
  {
    Outcome([FileWrite(path, o.jobs)], o.crash)
  }

  /** The files on disk after a sequence of writes. */
  function Written<R>(writes: seq<FileWrite<R>>): (fs: map<string, seq<R>>)
    ensures forall p :: p in fs <==> exists i :: 0 <= i < |writes| && writes[i].path == p
  {
    if writes == [] then map[]
    else
      var init := writes[..|writes| - 1];
      var w := writes[|writes| - 1];
      assert forall i :: 0 <= i < |init| ==> init[i] == writes[i];
      Written(init)[w.path := w.rows]
  }

  /** A file holds the rows of the last write to it. */
  lemma {:induction false} LastWriteWins<R>(writes: seq<FileWrite<R>>, i: nat)
    requires i < |writes|
    requires forall j :: i < j < |writes| ==> writes[j].path != writes[i].path
    ensures writes[i].path in Written(writes)
    ensures Written(writes)[writes[i].path] == writes[i].rows
  {
    if i < |writes| - 1 {
      var init := writes[..|writes| - 1];
      assert init[i] == writes[i];
      forall j | i < j < |init|
        ensures init[j].path != init[i].path
      {
        assert init[j] == writes[j];
      }
      LastWriteWins(init, i);
    }
  }

  /** Writes that come later replace what earlier writes left on the same
      paths; other paths keep their content. */
  lemma {:induction false} WrittenAppend<R>(a: seq<FileWrite<R>>, b: seq<FileWrite<R>>, p: string)
    ensures p in Written(b) ==> p in Written(a + b) && Written(a + b)[p] == Written(b)[p]
    ensures p !in Written(b) ==> (p in Written(a + b) <==> p in Written(a))
    ensures p !in Written(b) && p in Written(a) ==> Written(a + b)[p] == Written(a)[p]
  {
    if b != [] {
      var bInit := b[..|b| - 1];
      assert (a + b)[..|a + b| - 1] == a + bInit;
      WrittenAppend(a, bInit, p);
    } else {
      assert a + b == a;
    }
  }

  /** Two final writes to two different files leave each with its rows,
      whatever was written before. */
  lemma {:induction false} LastTwoWrites<R>(before: seq<FileWrite<R>>, a: string, ra: seq<R>, b: string, rb: seq<R>)
    requires a != b
    ensures var fs := Written(before + [FileWrite(a, ra), FileWrite(b, rb)]);
      a in fs && b in fs && fs[a] == ra && fs[b] == rb
  {
    var ws := before + [FileWrite(a, ra), FileWrite(b, rb)];
    assert ws[..|ws| - 1] == before + [FileWrite(a, ra)];
    assert (before + [FileWrite(a, ra)])[..|before|] == before;
    assert Written(ws) == Written(before)[a := ra][b := rb];
  }

  /** When every write goes to a file of its own, each file holds the rows
      of its write. */
  lemma {:induction false} WrittenDistinct<R>(writes: seq<FileWrite<R>>)
    requires forall i, j :: 0 <= i < j < |writes| ==> writes[i].path != writes[j].path
    ensures forall i :: 0 <= i < |writes| ==> writes[i].path in Written(writes) && Written(writes)[writes[i].path] == writes[i].rows
  {
    forall i | 0 <= i < |writes|
      ensures writes[i].path in Written(writes) && Written(writes)[writes[i].path] == writes[i].rows
    {
      LastWriteWins(writes, i);
    }
  }
}
