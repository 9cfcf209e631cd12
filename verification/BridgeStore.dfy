/**
  The bridge as the object whose closures update it in dws-bridge.js; each piece of code between two
  awaits is a method, proved against its function on `Bridge.State`.
*/
module BridgeStore {
  import opened Wrappers
  import opened Bridge

  class Listening {
    var ingress: Ingress
    var stopping: bool
    var human: Human
    var groups: seq<Group>
    var current: map<Id, nat>
    var entries: map<nat, Entry>
    var runs: map<nat, Run>
    var control: Control
    var next: nat

    constructor (ingress: Ingress, groups: seq<Group>)
      ensures View() == Initial(ingress, groups)
    {
      this.ingress, this.groups, stopping, human := ingress, groups, false, Human(0, None, Starting);
      current, entries, runs, control, next := map[], map[], map[], Idle, 0;
    }

    function View(): State
      reads this
    {
      State(ingress, stopping, human, groups, current, entries, runs, control, next)
    }

    method FindEntry(id: Id) returns (k: nat)
      modifies this
      ensures View() == EntryFor(old(View()), id) && k == current[id]
    {
      if id !in current {
        var e := Entry(id, 0, Starting, None, false, Never, false, false, 0, ingress.from.Some?, ingress.from, None, None, false);
        if ingress.paused { e := e.(listener := PausedListener, backfill := PausedBackfill); }
        current, entries := current[id := next], entries[next := e];
        next := next + 1;
      }
      k := current[id];
    }

    method Lose(k: nat, bound: int)
      requires k in entries
      modifies this
      ensures View() == Bridge.Lose(old(View()), k, bound)
    {
      var e := entries[k];
      e := e.(required := true, epoch := e.epoch + 1);
      e := e.(from := Earlier(e.from, Some(bound)));
      entries := entries[k := e];
      if k in runs { runs := runs[k := runs[k].(disturbed := true)]; }
    }

    method QueueGroupBackfill(env: Env, id: Id, queueAfterActive: bool, recovery: bool)
      modifies this
      ensures View() == Queue(old(View()), env, id, queueAfterActive, recovery)
    {
      var k := FindEntry(id);
      if k !in entries || ingress.paused || stopping { return; }
      var direct := IsDirect(View(), id);
      var e := entries[k];
      if direct { e := e.(listener := human.listener); }
      if e.running {
        if queueAfterActive { e := e.(queued := true); }
        entries := entries[k := e];
        return;
      }
      var isRecovery := recovery || e.required;
      e := e.(running := true);
      if isRecovery || (!e.everOk && e.backfill != Failed) { e := e.(backfill := InProgress); }
      var run := Run(direct, isRecovery, e.epoch, 0, 0, Ended, false);
      if Listed(View(), id) {
        var start := Earlier(Some(env.fallback(id)), if isRecovery then e.from else None).value;
        e := e.(activeStart := Some(start));
        run := run.(start := start, end := env.now, phase := Reading);
      }
      entries, runs := entries[k := e], runs[k := run];
    }

    method ToPhase(k: nat, phase: Phase)
      requires k in runs
      modifies this`runs
      ensures View() == Bridge.ToPhase(old(View()), k, phase)
    {
      runs := runs[k := runs[k].(phase := phase)];
    }

    method HistoryArrives(k: nat, count: Option<nat>)
      modifies this
      ensures View() == History(old(View()), k, count)
    {
      if !Active(View(), k) || !runs[k].phase.Reading? { return; }
      if stopping || ingress.paused || entries[k].epoch != runs[k].epoch || !Listed(View(), entries[k].group) {
        ToPhase(k, Ended);
      } else if count.None? {
        BackfillBreaks(k);
      } else {
        ToPhase(k, Processing(count.value));
      }
    }

    method MessageStarts(k: nat)
      modifies this
      ensures View() == Message(old(View()), k)
    {
      if !Active(View(), k) || !runs[k].phase.Processing? || runs[k].phase.left == 0 { return; }
      if stopping || ingress.paused || entries[k].epoch != runs[k].epoch || !Listed(View(), entries[k].group) {
        ToPhase(k, Ended);
      } else {
        ToPhase(k, Processing(runs[k].phase.left - 1));
      }
    }

    method BackfillBreaks(k: nat)
      modifies this
      ensures View() == Break(old(View()), k)
    {
      if !Active(View(), k) { return; }
      if !ingress.paused && !stopping && entries[k].epoch == runs[k].epoch {
        entries := entries[k := entries[k].(backfill := Failed)];
      }
      ToPhase(k, Ended);
    }

    method BackfillCompletes(k: nat)
      modifies this
      ensures View() == Complete(old(View()), k)
    {
      if !Active(View(), k) || runs[k].phase != Processing(0) { return; }
      var e, run := entries[k], runs[k];
      var listener := if run.direct then human.listener else e.listener;
      e := e.(backfill := Ok, everOk := true, lastEnd := Some(run.end));
      if run.recovery && e.epoch == run.epoch && listener == Ready {
        e := e.(required := false, from := None);
      }
      entries := entries[k := e];
      ToPhase(k, Ended);
    }

    method BackfillSettles(env: Env, k: nat)
      modifies this
      ensures View() == Finally(old(View()), env, k)
    {
      if k !in runs || k !in entries || !runs[k].phase.Ended? { return; }
      var rerun, id := entries[k].queued, entries[k].group;
      entries := entries[k := entries[k].(activeStart := None, running := false, queued := false)];
      runs := runs - {k};
      if rerun && !stopping && !ingress.paused && Listed(View(), id) { QueueGroupBackfill(env, id, false, false); }
    }

    method ListenerFails(env: Env, k: nat, generation: nat, attached: bool)
      modifies this
      ensures View() == ListenerFailed(old(View()), env, k, generation, attached)
    {
      if stopping || !Holds(View(), k, generation) { return; }
      var e := entries[k];
      if attached && e.subscription != Some(generation) { return; }
      var bound := LossBound(env, e);
      e := e.(subscription := None, listener := Reconnecting);
      if !ingress.paused { e := e.(retry := true); }
      entries := entries[k := e];
      Lose(k, bound);
    }

    method ListenerIsReady(env: Env, k: nat, generation: nat)
      modifies this
      ensures View() == MarkListenerReady(old(View()), env, k, generation)
    {
      if stopping || !Holds(View(), k, generation) { return; }
      var e := entries[k];
      if e.subscription != Some(generation) || e.listener == Ready { return; }
      entries := entries[k := e.(listener := Ready)];
      QueueGroupBackfill(env, e.group, true, e.required);
    }

    method HumanListenerFails(env: Env, generation: nat, attached: bool)
      modifies this
      ensures View() == HumanListenerFailed(old(View()), env, generation, attached)
    {
      if stopping || human.generation != generation { return; }
      if attached && human.subscription != Some(generation) { return; }
      human := human.(subscription := None, listener := Reconnecting);
      var i, listed := 0, groups;
      while i < |listed|
        invariant 0 <= i <= |listed| && listed == old(groups)
        invariant LoseDirect(View(), env, listed[i..])
                  == LoseDirect(old(View()).(human := human.(subscription := None, listener := Reconnecting)), env, listed)
        invariant human == old(human).(subscription := None, listener := Reconnecting)
      {
        assert listed[i..][0] == listed[i] && listed[i..][1..] == listed[i + 1..];
        if listed[i].direct {
          var k := FindEntry(listed[i].id);
          if k in entries { Lose(k, LossBound(env, entries[k])); }
        }
        i := i + 1;
      }
    }

    method FinishRecovery()
      modifies this`control
      ensures View() == BeginFinish(old(View()))
    {
      if control.Idle? && RecoveryComplete(View()) { control := Finishing; }
    }

    method SetPaused(env: Env, paused: bool)
      modifies this`control
      ensures View() == BeginPause(old(View()), env, paused)
    {
      if !control.Idle? || stopping || ingress.paused == paused { return; }
      if paused {
        control := Pausing(Earlier(ingress.from, Some(BeforeOverlap(env, env.now))).value);
      } else {
        control := Resuming;
      }
    }

    method StopOne(id: Id)
      modifies this`entries
      ensures View() == StopEntry(old(View()), id)
    {
      if id !in current || current[id] !in entries { return; }
      var e := entries[current[id]];
      entries := entries[current[id] := e.(generation := e.generation + 1, retry := false, subscription := None, listener := Stopped)];
    }

    method PauseGroup(id: Id, bound: int)
      modifies this
      ensures View() == PauseOne(old(View()), id, bound)
      ensures groups == old(groups)
    {
      var k := FindEntry(id);
      StopOne(id);
      if k in entries {
        entries := entries[k := entries[k].(listener := PausedListener, backfill := PausedBackfill)];
        Lose(k, bound);
      }
    }

    /** What `setIngressPaused(true)` does once the paused state is saved. */
    method PauseGroups(bound: int)
      modifies this
      ensures View() == PauseEach(old(View()), old(groups), bound)
    {
      var i, listed := 0, groups;
      while i < |listed|
        invariant 0 <= i <= |listed| && listed == old(groups)
        invariant PauseEach(View(), listed[i..], bound) == PauseEach(old(View()), listed, bound)
      {
        hide PauseOne;
        assert listed[i..][0] == listed[i] && listed[i..][1..] == listed[i + 1..];
        PauseGroup(listed[i].id, bound);
        i := i + 1;
      }
    }
  }
}
