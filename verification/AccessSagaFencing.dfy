/** What the consumer key and the conditional write guarantee together: once an
    approval has committed, no earlier write made under the key can take effect. */
module AccessSagaFencing {
  import opened Wrappers
  import opened AccessRows
  import opened AccessSaga
  import opened AccessSagaInvariants
  import opened AccessSagaEffects
  import opened AccessSagaGateway

  /* ── Writes in flight over a run ───────────────────────────────────────── */

  lemma StepIsLater(s: State, step: Step)
    requires Next(s, step).Some?
    ensures Later(s, Next(s, step).value)
  {
    hide Next, Later;
    if StartsWork(step) {
      StartIsLater(s, step);
    } else {
      StepActs(s, step);
    }
  }

  lemma {:induction false} RunIsLater(states: seq<State>, steps: seq<Step>, i: nat, j: nat)
    requires Run(states, steps) && i <= j < |states|
    ensures Later(states[i], states[j])
  {
    if i < j {
      RunIsLater(states, steps, i, j - 1);
      assert Next(states[j - 1], steps[j - 1]) == Some(states[j]);
      StepIsLater(states[j - 1], steps[j - 1]);
    }
  }

  /** A write whose tag was overtaken at `i` changes nothing whenever it lands. */
  lemma OvertakenNeverLands(states: seq<State>, steps: seq<Step>, i: nat, j: nat, q: nat)
    requires Run(states, steps) && i <= j < |steps|
    requires q in states[i].puts && states[i].puts[q].tag < states[i].tag
    requires steps[j] == StepLand(q)
    ensures states[j + 1] == states[j].(puts := states[j].puts - {q})
  {
    RunIsLater(states, steps, i, j);
    Always(states, steps, i);
    assert Next(states[j], steps[j]) == Some(states[j + 1]);
  }

  /* ── At the commit of an approval ──────────────────────────────────────── */

  /** When an approval can commit, every write still in flight that was made under the
      consumer key names an older tag. */
  lemma CommitOvertakes(s: State, p: nat, g: Id, q: nat)
    requires Seen(s) && DoCommit(s, p, g).Some?
    requires q in s.puts && s.puts[q].fenced
    ensures s.puts[q].tag < s.tag
  {
    assert Sees(s, p);
  }
}
