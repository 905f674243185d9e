/** What the executor promises across calls: a `run` text stops at its
    first failing line, output lines assign the text after their first '=',
    the last assignment of a key wins, what RunVSet writes is read back
    key by key, and the `use` line does not depend on the map's order
    beyond the order of its fragments. */
module ExecutorFacts {
  import opened Wrappers
  import opened GoStrings
  import opened Output
  import opened SetOutput
  import opened Executor
  import opened Config

  // ---------------------------------------------------------------- run mode

  /** The lines run after `done` are a prefix of the text from `i` on, all
      in the step's scope; every line but the last one run succeeded; no
      error means every line ran, and an error is the last line's. */
  lemma {:induction false} LinesRunStops(lines: seq<string>, i: nat, scope: Scope, cmd: (string, Scope) -> Option<string>, done: seq<Call>)
    requires i <= |lines|
    ensures var (err, calls) := LinesRun(lines, i, scope, cmd, done);
      var n := |calls| - |done|;
      0 <= n <= |lines| - i && calls[..|done|] == done
      && (forall k :: |done| <= k < |calls| ==> calls[k] == Call(lines[i + k - |done|], scope))
      && (forall k :: i <= k < i + n - 1 ==> cmd(lines[k], scope).None?)
      && (err.None? ==> n == |lines| - i && forall k :: i <= k < |lines| ==> cmd(lines[k], scope).None?)
      && (err.Some? ==> n >= 1 && err == cmd(lines[i + n - 1], scope))
    decreases |lines| - i
  {
    if i < |lines| && cmd(lines[i], scope).None? {
      var done' := done + [Call(lines[i], scope)];
      LinesRunStops(lines, i + 1, scope, cmd, done');
      var calls := LinesRun(lines, i, scope, cmd, done).1;
      assert calls[..|done'|][..|done|] == done;
      assert calls[..|done|] == done;
    }
  }

  // ---------------------------------------------------------------- output lines

  /** The key text of an output line: what precedes its first '='. */
  function OutputName(line: string): string {
    Split(line, '=')[0]
  }

  /** An output line with '=' names the text before its first '=' and
      assigns the text after it; the source's two cases (exactly two parts,
      or more parts rejoined with '=') agree on that. */
  lemma OutputLineLayout(line: string) returns (i: nat)
    requires '=' in line
    ensures i < |line| && line[i] == '=' && '=' !in line[..i]
    ensures OutputName(line) == line[..i]
    ensures OutputValue(line) == line[i + 1..]
  {
    i := SplitFirst(line, '=');
    var rest := line[i + 1..];
    var parts := Split(line, '=');
    assert parts[1..] == Split(rest, '=');
    JoinSplit(rest, '=');
    if |parts| == 2 {
      assert Join(Split(rest, '='), '=') == Split(rest, '=')[0];
    }
  }

  /** A name no output line maps to keeps its value (or its absence). */
  lemma {:induction false} FoldOutputsUntouched(global: Scope, id: string, lines: seq<string>, k: string)
    requires forall l <- lines :: '=' in l ==> OutputKey(id, OutputName(l)) != k
    ensures var g := FoldOutputs(global, id, lines);
      (k in g <==> k in global) && (k in global ==> g[k] == global[k])
    decreases |lines|
  {
    if lines != [] {
      var front := lines[..|lines| - 1];
      assert forall l <- front :: l in lines;
      SplitCount(lines[|lines| - 1], '=');
      FoldOutputsUntouched(global, id, front, k);
    }
  }

  /** Each output line whose key no later line repeats decides the value
      of steps_<id>_outputs_<key>. */
  lemma {:induction false} FoldOutputsLastWins(global: Scope, id: string, lines: seq<string>, j: nat)
    requires j < |lines| && '=' in lines[j]
    requires forall j' :: j < j' < |lines| && '=' in lines[j'] ==> OutputName(lines[j']) != OutputName(lines[j])
    ensures var g := FoldOutputs(global, id, lines);
      OutputKey(id, OutputName(lines[j])) in g && g[OutputKey(id, OutputName(lines[j]))] == OutputValue(lines[j])
    decreases |lines|
  {
    var front := lines[..|lines| - 1];
    var last := lines[|lines| - 1];
    SplitCount(last, '=');
    var name := OutputKey(id, OutputName(lines[j]));
    if j < |lines| - 1 {
      forall j' | j < j' < |front| && '=' in front[j']
        ensures OutputName(front[j']) != OutputName(front[j])
      {
        assert front[j'] == lines[j'];
      }
      assert front[j] == lines[j];
      FoldOutputsLastWins(global, id, front, j);
      if '=' in last && OutputKey(id, OutputName(last)) == name {
        OutputKeyInjective(id, OutputName(last), OutputName(lines[j]));
      }
    }
  }

  // ---------------------------------------------------------------- RunVSet and the executor

  /** The pairs of a RunVSet call, trimmed. */
  function Trimmed(kv: seq<string>): (r: seq<string>)
    ensures |r| == |kv| && forall k :: 0 <= k < |kv| ==> r[k] == TrimSpace(kv[k])
    decreases |kv|
  {
    if kv == [] then [] else Trimmed(kv[..|kv| - 1]) + [TrimSpace(kv[|kv| - 1])]
  }

  /** The file RunVSet writes is the trimmed pairs joined by newlines, with
      a final newline. */
  lemma {:induction false} PairLinesJoin(kv: seq<string>)
    ensures PairLines(kv) == Join(Trimmed(kv) + [[]], '\n')
    decreases |kv|
  {
    if kv != [] {
      var init := kv[..|kv| - 1];
      var t := TrimSpace(kv[|kv| - 1]);
      PairLinesJoin(init);
      assert Trimmed(kv) == Trimmed(init) + [t];
      JoinSnoc(Trimmed(init), t);
    }
  }

  /** One more line before the final empty one. */
  lemma JoinSnoc(ts: seq<string>, t: string)
    ensures Join(ts + [t] + [[]], '\n') == Join(ts + [[]], '\n') + t + "\n"
  {
    JoinConcat(ts + [t], [[]], '\n');
    if ts != [] {
      var j := Join(ts, '\n');
      JoinConcat(ts, [t], '\n');
      JoinConcat(ts, [[]], '\n');
      assert Join(ts + [t], '\n') == j + "\n" + t;
      assert Join(ts + [[]], '\n') == j + "\n";
    } else {
      assert ts + [t] == [t];
      assert ts + [[]] == [[]];
    }
  }

  /** The executor splits that file back into the trimmed pairs and one
      empty last line. */
  lemma PairLinesSplit(kv: seq<string>)
    requires forall p <- kv :: '\n' !in TrimSpace(p)
    ensures Split(PairLines(kv), '\n') == Trimmed(kv) + [[]]
  {
    PairLinesJoin(kv);
    forall p <- Trimmed(kv) + [[]]
      ensures '\n' !in p
    {
      if p != [] {
        var k :| 0 <= k < |kv| && Trimmed(kv)[k] == p;
      }
    }
    SplitJoin(Trimmed(kv) + [[]], '\n');
  }

  /** Round trip. When RunVSet accepts every pair (none holds a newline),
      the executor reading the file it wrote sets, for each pair whose key
      no later pair repeats, steps_<id>_outputs_<key> to the text after the
      pair's first '='. */
  lemma SetThenRead(kv: seq<string>, global: Scope, id: string, j: nat) returns (i: nat)
    requires FirstMalformed(kv) == |kv|
    requires forall p <- kv :: '\n' !in TrimSpace(p)
    requires j < |kv|
    requires forall j' :: j < j' < |kv| ==> OutputName(TrimSpace(kv[j'])) != OutputName(TrimSpace(kv[j]))
    ensures var pair := TrimSpace(kv[j]);
      var g := FoldOutputs(global, id, Split(PairLines(kv), '\n'));
      i < |pair| && pair[i] == '=' && '=' !in pair[..i]
      && OutputKey(id, pair[..i]) in g && g[OutputKey(id, pair[..i])] == pair[i + 1..]
  {
    var lines := Split(PairLines(kv), '\n');
    PairLinesSplit(kv);
    var pair := TrimSpace(kv[j]);
    assert lines[j] == pair;
    SplitCount(pair, '=');
    assert '=' in pair;
    forall j' | j < j' < |lines| && '=' in lines[j']
      ensures OutputName(lines[j']) != OutputName(lines[j])
    {
      if j' < |kv| {
        assert lines[j'] == TrimSpace(kv[j']);
      }
    }
    FoldOutputsLastWins(global, id, lines, j);
    i := OutputLineLayout(pair);
  }

  // ---------------------------------------------------------------- steps

  /** The commands of a step all run in its scope, or, in use mode with
      `with`, in its scope overridden by the `with` entries. */
  lemma StepCallsScopes(step: StepConfig, scope: Scope, w: World)
    ensures forall c <- StepCalls(step, scope, w).1 ::
      c.scope == scope || (IsBlank(step.run) && step.with.Some? && c.scope == scope + step.with.value)
  {
    if TrimSpace(step.run) != [] {
      var lines := Split(TrimSpace(step.run), '\n');
      LinesRunStops(lines, 0, scope, Commands(w), []);
    }
  }

  /** After a step's commands, the calls are theirs, and the job-level
      variables change only when there is an id, no error, and an output
      file to read. */
  lemma AfterCommandsShape(id: string, f: StepFile, global: Scope, sc: (Option<string>, seq<Call>))
    ensures var o := AfterCommands(id, f, global, sc);
      o.calls == sc.1
      && (o.global == global || (id != [] && o.err.None? && f.Data? && o.global == FoldOutputs(global, id, Split(f.text, '\n'))))
  {
  }

  /** Every command of a step runs in the scope built from the job-level
      variables as they stood before the step; the job-level variables
      change only for a step with an id whose commands all succeeded, by
      its own output file. So a step's outputs are seen by later steps
      only. */
  lemma StepRunScopes(step: StepConfig, idx: nat, global: Scope, w: World)
    ensures var o := StepRun(step, idx, global, w);
      var scope := StepScope(global, step, w.expand);
      forall c <- o.calls :: c.scope == scope || (IsBlank(step.run) && step.with.Some? && c.scope == scope + step.with.value)
    ensures var o := StepRun(step, idx, global, w);
      o.global == global
      || (step.id != [] && o.err.None? && w.stepFile(idx).Data?
          && o.global == FoldOutputs(global, step.id, Split(w.stepFile(idx).text, '\n')))
  {
    var scope := StepScope(global, step, w.expand);
    StepCallsScopes(step, scope, w);
    AfterCommandsShape(step.id, w.stepFile(idx), global, StepCalls(step, scope, w));
  }

  /** A use-mode step with `with` but no `args` panics on the nil pointer
      before its plugin runs (unless creating its output file failed
      first): no command starts and the job-level variables are kept. */
  lemma NilArgsStep(step: StepConfig, idx: nat, global: Scope, w: World)
    requires ReachesNilArgs(step)
    ensures var o := StepRun(step, idx, global, w);
      o.calls == [] && o.global == global
      && o.err == (if step.id != [] && w.createError(idx).Some? then w.createError(idx) else Some(NilArgsPanic))
  {
  }

  // ---------------------------------------------------------------- use mode

  lemma FragmentsConcat(a: seq<string>, b: seq<string>, with: Scope)
    requires (forall k <- a :: k in with) && (forall k <- b :: k in with)
    ensures Fragments(a + b, with) == Fragments(a, with) + Fragments(b, with)
  {
    assert forall k <- a + b :: k in with;
    var l := Fragments(a + b, with);
    var r := Fragments(a, with) + Fragments(b, with);
    assert |l| == |r|;
    forall i | 0 <= i < |l|
      ensures l[i] == r[i]
    {
      if i < |a| {
        assert (a + b)[i] == a[i];
      } else {
        assert (a + b)[i] == b[i - |a|];
      }
    }
  }

  /** Taking one occurrence of `x` out of two equal multisets leaves equal
      multisets. */
  lemma MultisetRemove(o: seq<string>, x: string, a: seq<string>, b: seq<string>)
    requires multiset(o + [x]) == multiset(a + [x] + b)
    ensures multiset(o) == multiset(a + b)
  {
    calc {
      multiset(o);
      multiset(o + [x]) - multiset{x};
      multiset(a + [x] + b) - multiset{x};
      multiset(a + b);
    }
  }

  /** Reordering the keys reorders the fragments and nothing else. */
  lemma {:induction false} FragmentsPermute(o1: seq<string>, o2: seq<string>, with: Scope)
    requires (forall k <- o1 :: k in with) && (forall k <- o2 :: k in with)
    requires multiset(o1) == multiset(o2)
    ensures multiset(Fragments(o1, with)) == multiset(Fragments(o2, with))
    decreases |o1|
  {
    if o1 != [] {
      var x := o1[|o1| - 1];
      var o1' := o1[..|o1| - 1];
      assert o1 == o1' + [x];
      assert x in multiset(o2);
      var p :| 0 <= p < |o2| && o2[p] == x;
      var a, b := o2[..p], o2[p + 1..];
      assert o2 == a + [x] + b;
      MultisetRemove(o1', x, a, b);
      assert forall k <- o1' :: k in o1;
      assert forall k <- a :: k in o2;
      assert forall k <- b :: k in o2;
      FragmentsPermute(o1', a + b, with);
      FragmentsMove(o1', x, a, b, with);
    }
  }

  /** Putting one more key at the end of one list and somewhere inside the
      other keeps their fragments equal up to order. */
  lemma FragmentsMove(o: seq<string>, x: string, a: seq<string>, b: seq<string>, with: Scope)
    requires x in with && (forall k <- o :: k in with) && (forall k <- a :: k in with) && (forall k <- b :: k in with)
    requires multiset(Fragments(o, with)) == multiset(Fragments(a + b, with))
    ensures multiset(Fragments(o + [x], with)) == multiset(Fragments(a + [x] + b, with))
  {
    var f := Fragment(x, with[x]);
    assert Fragments([x], with) == [f];
    FragmentsConcat(o, [x], with);
    var fa, fb := Fragments(a, with), Fragments(b, with);
    assert Fragments(a + [x] + b, with) == fa + [f] + fb by {
      FragmentsConcat(a, [x], with);
      FragmentsConcat(a + [x], b, with);
    }
    FragmentsConcat(a, b, with);
    calc {
      multiset(fa + [f] + fb);
      multiset(fa) + multiset{f} + multiset(fb);
      multiset(fa + fb) + multiset{f};
    }
  }

  lemma {:induction false} CountDistinct(o: seq<string>, x: string)
    requires forall i, j :: 0 <= i < j < |o| ==> o[i] != o[j]
    ensures multiset(o)[x] == if x in o then 1 else 0
    decreases |o|
  {
    if o != [] {
      var init := o[..|o| - 1];
      assert o == init + [o[|o| - 1]];
      CountDistinct(init, x);
      assert x == o[|o| - 1] ==> x !in init;
    }
  }

  /** Two enumerations of the same map hold the same keys the same number
      of times. */
  lemma EnumerationsPermute(o1: seq<string>, o2: seq<string>, m: Scope)
    requires Enumerates(o1, m) && Enumerates(o2, m)
    ensures multiset(o1) == multiset(o2)
  {
    forall x
      ensures multiset(o1)[x] == multiset(o2)[x]
    {
      CountDistinct(o1, x);
      CountDistinct(o2, x);
    }
  }

  /** The use line is the trimmed `use`, a space, and one fragment per
      `with` entry: for any order in which the map could be visited, the
      fragments are the same up to their order. */
  lemma UseLineOrderFree(use: string, with: Scope, w: World, order: seq<string>) returns (fs: seq<string>)
    requires Enumerates(order, with)
    ensures UseLine(use, Some(with), w) == use + " " + Concat(fs)
    ensures multiset(fs) == multiset(Fragments(order, with))
  {
    var o := w.order(with);
    assert Enumerates(o, with);
    fs := Fragments(o, with);
    EnumerationsPermute(o, order, with);
    FragmentsPermute(o, order, with);
  }
}
