/** Optimistic versions of one email template: editors that lock the row, compare versions,
    write and commit, in any interleaving, including the first insert under the unique key. */
module EmailTemplates {
  import opened Options

  type TxId = nat

  /** What an editor submits: new content, or a reset to the registered default. */
  datatype Edit = Update(content: string) | Reset

  datatype Record = Record(content: string, version: nat)

  datatype Outcome = Committed | VersionConflict | DuplicateKey | RolledBack

  datatype Pc =
    | Start
    | Checked(current: nat, hasRow: bool)  // the versions agreed
    | Written(version: nat)                // flushed, not committed
    | Finished(outcome: Outcome)

  datatype Editor = Editor(edit: Edit, expected: nat, pc: Pc)

  /** A committed edit: who, the version it had read, the version and content it left. */
  datatype Entry = Entry(tx: TxId, read: nat, version: nat, content: string)

  datatype State = State(
    record: Option<Record>,     // the committed row
    rowLock: Option<TxId>,
    inserting: Option<TxId>,    // an uncommitted insert of the unique key
    editors: map<TxId, Editor>,
    log: seq<Entry>)

  datatype Step = Lock(t: TxId) | Flush(t: TxId) | Commit(t: TxId) | Rollback(t: TxId)

  predicate Enabled(s: State, step: Step) {
    && step.t in s.editors
    && var x := s.editors[step.t];
       match step
       case Lock(_) => x.pc.Start? && (s.record.Some? ==> s.rowLock.None?)
       case Flush(_) => x.pc.Checked? && (x.pc.hasRow || s.inserting.None?)
       case Commit(_) => x.pc.Written?
       case Rollback(_) => !x.pc.Finished?
  }

  function Finish(s: State, t: TxId, o: Outcome): State
    requires t in s.editors
  {
    s.(editors := s.editors[t := s.editors[t].(pc := Finished(o))],
       rowLock := if s.rowLock == Some(t) then None else s.rowLock,
       inserting := if s.inserting == Some(t) then None else s.inserting)
  }

  function To(s: State, t: TxId, pc: Pc): State
    requires t in s.editors
  {
    s.(editors := s.editors[t := s.editors[t].(pc := pc)])
  }

  function Content(default: string, e: Edit): string {
    match e
    case Update(content) => content
    case Reset => default
  }

  function Next(default: string, s: State, step: Step): State
    requires Enabled(s, step)
  {
    var t := step.t;
    var x := s.editors[t];
    match step
    case Lock(_) =>
      var current := if s.record.Some? then s.record.value.version else 0;
      if current != x.expected then Finish(s, t, VersionConflict)
      else To(if s.record.Some? then s.(rowLock := Some(t)) else s, t, Checked(current, s.record.Some?))
    case Flush(_) =>
      if x.pc.hasRow then To(s, t, Written(x.pc.current + 1))
      else if s.record.Some? then Finish(s, t, DuplicateKey)
      else To(s.(inserting := Some(t)), t, Written(1))
    case Commit(_) =>
      var content := Content(default, x.edit);
      Finish(s.(record := Some(Record(content, x.pc.version)),
                log := s.log + [Entry(t, x.expected, x.pc.version, content)]),
             t, Committed)
    case Rollback(_) => Finish(s, t, RolledBack)
  }

  ghost predicate Init(s: State) {
    && s.record.None? && s.rowLock.None? && s.inserting.None? && s.log == []
    && (forall t | t in s.editors :: s.editors[t].pc.Start?)
  }

  ghost predicate Run(default: string, s: State, steps: seq<Step>, end: State)
    decreases |steps|
  {
    if steps == [] then s == end
    else Enabled(s, steps[0]) && Run(default, Next(default, s, steps[0]), steps[1..], end)
  }

  predicate EditorInv(s: State, t: TxId, x: Editor) {
    match x.pc
    case Start => true
    case Checked(current, hasRow) =>
      && current == x.expected
      && (if hasRow then s.rowLock == Some(t) && s.record.Some? && s.record.value.version == current else current == 0)
    case Written(version) =>
      && version == x.expected + 1
      && (if s.record.Some? then s.rowLock == Some(t) && s.record.value.version == x.expected
          else s.inserting == Some(t) && x.expected == 0)
    case Finished(_) => true
  }

  /** The row is the last entry of a gapless log. */
  predicate Gapless(s: State) {
    && (forall i | 0 <= i < |s.log| :: s.log[i].read == i && s.log[i].version == i + 1)
    && (if s.log == [] then s.record.None?
        else s.record == Some(Record(s.log[|s.log| - 1].content, s.log[|s.log| - 1].version)))
  }

  /** An entry records a success: the version its editor had read and what it submitted. */
  predicate Records(default: string, s: State, e: Entry) {
    && e.tx in s.editors && s.editors[e.tx].pc == Finished(Committed)
    && e.read == s.editors[e.tx].expected && e.content == Content(default, s.editors[e.tx].edit)
  }

  ghost predicate InLog(s: State, t: TxId) { exists i :: 0 <= i < |s.log| && s.log[i].tx == t }

  /** The log holds exactly the successes. */
  ghost predicate Logged(default: string, s: State) {
    && (forall i | 0 <= i < |s.log| :: Records(default, s, s.log[i]))
    && (forall t | t in s.editors && s.editors[t].pc == Finished(Committed) :: InLog(s, t))
  }

  ghost predicate Inv(default: string, s: State) {
    Gapless(s) && Logged(default, s) && forall t | t in s.editors :: EditorInv(s, t, s.editors[t])
  }

  lemma RecordsKept(default: string, s: State, step: Step)
    requires Inv(default, s) && Enabled(s, step)
    ensures var s' := Next(default, s, step); forall i | 0 <= i < |s'.log| :: Records(default, s', s'.log[i])
  {
    var s' := Next(default, s, step);
    assert forall i | 0 <= i < |s.log| :: Records(default, s, s.log[i]);
    forall i | 0 <= i < |s'.log| ensures Records(default, s', s'.log[i]) {
    }
  }

  lemma InLogKept(default: string, s: State, step: Step, t: TxId)
    requires Enabled(s, step) && t in s.editors
    requires s.editors[t].pc == Finished(Committed) ==> InLog(s, t)
    ensures var s' := Next(default, s, step); s'.editors[t].pc == Finished(Committed) ==> InLog(s', t)
  {
    var s' := Next(default, s, step);
    if s'.editors[t].pc == Finished(Committed) {
      if step == Commit(t) {
        assert s'.log[|s'.log| - 1].tx == t;
      } else {
        var i :| 0 <= i < |s.log| && s.log[i].tx == t;
        assert s'.log[i].tx == t;
      }
    }
  }

  lemma GaplessKept(default: string, s: State, step: Step)
    requires Gapless(s) && Enabled(s, step) && EditorInv(s, step.t, s.editors[step.t])
    ensures Gapless(Next(default, s, step))
  {
  }

  lemma EditorKept(default: string, s: State, step: Step, u: TxId)
    requires Inv(default, s) && Enabled(s, step) && u in s.editors
    ensures var s' := Next(default, s, step); EditorInv(s', u, s'.editors[u])
  {
    assert EditorInv(s, u, s.editors[u]) && EditorInv(s, step.t, s.editors[step.t]);
    match step
    case Lock(t) =>
    case Flush(t) =>
    case Commit(t) =>
    case Rollback(t) =>
  }

  lemma NextKeeps(default: string, s: State, step: Step)
    requires Inv(default, s) && Enabled(s, step)
    ensures Inv(default, Next(default, s, step))
  {
    var s' := Next(default, s, step);
    RecordsKept(default, s, step);
    GaplessKept(default, s, step);
    forall u | u in s'.editors
      ensures EditorInv(s', u, s'.editors[u])
      ensures s'.editors[u].pc == Finished(Committed) ==> InLog(s', u)
    {
      EditorKept(default, s, step, u);
      InLogKept(default, s, step, u);
    }
  }

  lemma {:induction false} RunKeeps(default: string, s: State, steps: seq<Step>, end: State)
    requires Inv(default, s) && Run(default, s, steps, end)
    ensures Inv(default, end)
    decreases |steps|
  {
    if steps == [] {
    } else {
      NextKeeps(default, s, steps[0]);
      RunKeeps(default, Next(default, s, steps[0]), steps[1..], end);
    }
  }

  /** Main result: committed versions are exactly 1, 2, 3, ..., each success directly
      follows the version its editor had read, and the row is the last success. */
  lemma NoLostUpdate(default: string, s: State, steps: seq<Step>, end: State)
    requires Init(s) && Run(default, s, steps, end)
    ensures forall i | 0 <= i < |end.log| :: end.log[i].version == i + 1 && end.log[i].read == i
    ensures end.record == if end.log == [] then None
                          else Some(Record(end.log[|end.log| - 1].content, |end.log|))
    ensures Logged(default, end)
    ensures forall i | 0 <= i < |end.log| :: end.log[i].tx in end.editors && Submitted(default, end, end.log[i])
  {
    RunKeeps(default, s, steps, end);
    forall i | 0 <= i < |end.log| ensures end.log[i].tx in end.editors && Submitted(default, end, end.log[i]) {
      assert Records(default, end, end.log[i]);
    }
  }

  /** The content left is the one the editor submitted: the new text, or for a reset the default. */
  predicate Submitted(default: string, s: State, e: Entry)
    requires e.tx in s.editors
  {
    s.editors[e.tx].edit == Update(e.content) || (s.editors[e.tx].edit.Reset? && e.content == default)
  }

  /** Of the editors who read one version, at most one succeeds. */
  lemma OneWinnerPerVersion(default: string, s: State, steps: seq<Step>, end: State, t: TxId, u: TxId)
    requires Init(s) && Run(default, s, steps, end)
    requires t in end.editors && end.editors[t].pc == Finished(Committed)
    requires u in end.editors && end.editors[u].pc == Finished(Committed)
    requires end.editors[t].expected == end.editors[u].expected
    ensures t == u
  {
    NoLostUpdate(default, s, steps, end);
    var i :| 0 <= i < |end.log| && end.log[i].tx == t;
    var j :| 0 <= j < |end.log| && end.log[j].tx == u;
    assert end.log[i].read == end.log[j].read;
  }

  // ----- conflicts and successes -----

  /** The version an editor sees: 0 while there is no row. */
  predicate Sees(s: State, version: nat) {
    (s.record.None? && version == 0) || (s.record.Some? && s.record.value.version == version)
  }

  /** A call is refused for its version exactly when the version it had read is not the committed
      one at the moment it gets the row, and then nothing changes. */
  lemma ConflictIff(default: string, s: State, step: Step)
    requires Enabled(s, step) && !s.editors[step.t].pc.Finished?
    ensures
      var s' := Next(default, s, step);
      && (s'.editors[step.t].pc == Finished(VersionConflict)
          <==> step.Lock? && !Sees(s, s.editors[step.t].expected))
      && (s'.editors[step.t].pc == Finished(DuplicateKey)
          <==> step.Flush? && !s.editors[step.t].pc.hasRow && s.record.Some?)
      && (s'.editors[step.t].pc != Finished(Committed) ==> s'.record == s.record && s'.log == s.log)
  {
  }

  /** Only the committing editor's entry moves, and it writes one row and one log entry. */
  lemma CommitEffect(default: string, s: State, step: Step)
    requires Enabled(s, step) && step.Commit?
    ensures
      var x, s' := s.editors[step.t], Next(default, s, step);
      && s'.editors[step.t].pc == Finished(Committed)
      && s'.record == Some(Record(if x.edit.Update? then x.edit.content else default, x.pc.version))
      && |s'.log| == |s.log| + 1 && s.log <= s'.log
      && s'.log[|s.log|].tx == step.t
      && (forall u | u in s.editors && u != step.t :: s'.editors[u] == s.editors[u])
  {
  }

  /** Only a row that is there is locked, so two editors may both find none and try to insert it. */
  lemma LockEffect(default: string, s: State, t: TxId)
    requires Enabled(s, Lock(t)) && s.rowLock != Some(t) && s.inserting != Some(t)
    ensures
      var s' := Next(default, s, Lock(t));
      && s'.inserting == s.inserting && s'.record == s.record && s'.log == s.log
      && (s.record.None? ==> s'.rowLock == s.rowLock)
      && (s.record.Some? ==> s'.rowLock == if s.record.value.version == s.editors[t].expected then Some(t) else None)
      && (s'.editors[t].pc.Checked? <==> Sees(s, s.editors[t].expected))
      && (s'.editors[t].pc.Checked? ==> s'.editors[t].pc == Checked(s.editors[t].expected, s.record.Some?))
  {
  }

  /** Of two editors who find no row one inserts it, and the other fails on the unique key. */
  lemma InsertRace(default: string, s: State, t: TxId, u: TxId)
    requires Quiet(s) && s.record.None? && t in s.editors && u in s.editors && t != u
    requires s.editors[t].pc.Start? && s.editors[t].expected == 0
    requires s.editors[u].pc.Start? && s.editors[u].expected == 0
    ensures exists steps, end ::
      && Run(default, s, steps, end) && t in end.editors && u in end.editors
      && end.editors[t].pc == Finished(Committed) && end.editors[u].pc == Finished(DuplicateKey)
  {
    var s1 := Next(default, s, Lock(t));
    var s2 := Next(default, s1, Lock(u));
    var s3 := Next(default, s2, Flush(t));
    var s4 := Next(default, s3, Commit(t));
    var end := Next(default, s4, Flush(u));
    assert Run(default, end, [], end);
    RunCons(default, s4, Flush(u), [], end);
    RunCons(default, s3, Commit(t), [Flush(u)], end);
    RunCons(default, s2, Flush(t), [Commit(t), Flush(u)], end);
    RunCons(default, s1, Lock(u), [Flush(t), Commit(t), Flush(u)], end);
    RunCons(default, s, Lock(t), [Lock(u), Flush(t), Commit(t), Flush(u)], end);
  }

  predicate Quiet(s: State) { s.rowLock.None? && s.inserting.None? }

  /** Alone, an editor who had read the committed version succeeds and leaves the next one;
      any other editor is told of the conflict. */
  lemma AloneOutcome(default: string, s: State, t: TxId)
    requires Quiet(s) && t in s.editors && s.editors[t].pc.Start?
    ensures exists steps, end ::
      && Run(default, s, steps, end) && Quiet(end) && t in end.editors
      && (if Sees(s, s.editors[t].expected) then
            && end.editors[t].pc == Finished(Committed)
            && end.record
               == Some(Record(if s.editors[t].edit.Update? then s.editors[t].edit.content else default,
                              s.editors[t].expected + 1))
          else end.editors[t].pc == Finished(VersionConflict) && end.record == s.record)
  {
    var s1 := Next(default, s, Lock(t));
    if Sees(s, s.editors[t].expected) {
      var s2 := Next(default, s1, Flush(t));
      var s3 := Next(default, s2, Commit(t));
      assert Run(default, s3, [], s3);
      RunCons(default, s2, Commit(t), [], s3);
      RunCons(default, s1, Flush(t), [Commit(t)], s3);
      RunCons(default, s, Lock(t), [Flush(t), Commit(t)], s3);
    } else {
      assert Run(default, s1, [], s1);
      RunCons(default, s, Lock(t), [], s1);
    }
  }

  lemma RunCons(default: string, s: State, step: Step, rest: seq<Step>, end: State)
    requires Enabled(s, step) && Run(default, Next(default, s, step), rest, end)
    ensures Run(default, s, [step] + rest, end)
  {
    assert ([step] + rest)[1..] == rest;
  }
}
