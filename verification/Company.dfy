/** One worker in company: what the others do leaves it where it stands, and its own steps leave them alone. */
module Company {
  import opened Base
  import opened Api
  import opened Naming
  import opened Machine
  import opened StatusHistory
  import opened Pass

  // ----- the others -----

  predicate IsBy(k: nat, a: Action) {
    match a
    case Tick(_) => false
    case EditSpec(_, _) => false
    case OutsideEdit(_, _) => false
    case _ => a.k == k
  }

  ghost predicate BySomeoneElse(k: nat, acts: seq<Action>) {
    forall i :: 0 <= i < |acts| ==> !IsBy(k, acts[i])
  }

  ghost function With(w: World, k: nat, b: Worker): World {
    w.(workers := w.workers[k := b])
  }

  lemma OthersStep(env: Env, w: World, k: nat, b: Worker, a: Action)
    requires !IsBy(k, a)
    ensures Apply(env, With(w, k, b), a) == With(Apply(env, w, a), k, b)
  {
    OthersEnabled(env, w, k, b, a);
    if Enabled(env, w, a) {
      OthersMove(env, w, k, b, a);
    }
  }

  lemma OthersEnabled(env: Env, w: World, k: nat, b: Worker, a: Action)
    requires !IsBy(k, a)
    ensures Enabled(env, With(w, k, b), a) <==> Enabled(env, w, a)
    ensures Enabled(env, w, a) ==> ChangeOf(env, With(w, k, b), a) == ChangeOf(env, w, a)
  {
  }

  lemma OthersMove(env: Env, w: World, k: nat, b: Worker, a: Action)
    requires !IsBy(k, a) && Enabled(env, w, a) && Enabled(env, With(w, k, b), a)
    ensures WorkersAfter(env, With(w, k, b), a) == WorkersAfter(env, w, a)[k := b]
  {
  }

  /** What the others do does not depend on where this worker stands, and leaves it there. */
  lemma {:induction false} OthersRun(env: Env, w: World, k: nat, b: Worker, acts: seq<Action>)
    requires BySomeoneElse(k, acts)
    ensures Exec(env, With(w, k, b), acts) == With(Exec(env, w, acts), k, b)
  {
    if acts != [] {
      var init := acts[..|acts| - 1];
      OthersRun(env, w, k, b, init);
      OthersStep(env, Exec(env, w, init), k, b, acts[|acts| - 1]);
    }
  }

  lemma {:induction false} RunGrows(env: Env, w: World, acts: seq<Action>)
    ensures w.history <= Exec(env, w, acts).history && w.now <= Exec(env, w, acts).now
  {
    if acts != [] {
      RunGrows(env, w, acts[..|acts| - 1]);
    }
  }

  // ----- single actions, seen from one worker -----

  lemma GetAct(env: Env, w: World, k: nat, b: Worker, lag: nat)
    requires b.Busy? && b.phase.Getting?
    ensures Apply(env, With(w, k, b), Get(k, lag)) == With(w, k, AfterGet(env, Seen(w.history, lag), b))
  {
    var b' := AfterGet(env, Seen(w.history, lag), b);
    assert w.workers[k := b][k := b'] == w.workers[k := b'];
  }

  lemma PutAct(env: Env, w: World, k: nat, b: Worker, data: map<string, string>)
    requires Writable(b) && Renderable(env, b, data)
    ensures Apply(env, With(w, k, b), Put(k, data)) ==
            With(w.(history := Commit(w.history, PutChange(env, Top(w.history), b, data))), k,
                 AfterPut(Top(w.history), b, data))
  {
    var b' := AfterPut(Top(w.history), b, data);
    assert w.workers[k := b][k := b'] == w.workers[k := b'];
  }

  lemma PollAct(env: Env, w: World, k: nat, b: Worker, lag: nat)
    requires b.Busy? && b.phase.Polling?
    ensures Apply(env, With(w, k, b), Poll(k, lag)) == With(w, k, AfterPoll(Seen(w.history, lag), b))
  {
    var b' := AfterPoll(Seen(w.history, lag), b);
    assert w.workers[k := b][k := b'] == w.workers[k := b'];
  }

  lemma FailAct(env: Env, w: World, k: nat, b: Worker)
    requires b.Busy?
    ensures Apply(env, With(w, k, b), Fail(k)) == With(w, k, Idle)
  {
    assert w.workers[k := b][k := Idle] == w.workers[k := Idle];
  }

  lemma StartAct(env: Env, w: World, k: nat, id: ClusterId, lag: nat, o: Stored)
    requires Fetch(Seen(w.history, lag), LinkKey(Report, id)) == Some(o)
    ensures Apply(env, With(w, k, Idle), Start(k, id, lag)) == With(w, k, Begin(id, o))
  {
    var b' := Begin(id, o);
    assert w.workers[k := Idle][k := b'] == w.workers[k := b'];
  }

  lemma DateAct(env: Env, w: World, k: nat, b: Worker)
    requires Reporting(b) && b.phase.Writing?
    ensures Apply(env, With(w, k, b), Date(k)) == With(w, k, AfterDate(b, w.now))
  {
    var b' := AfterDate(b, w.now);
    assert w.workers[k := b][k := b'] == w.workers[k := b'];
  }

  lemma StampAct(env: Env, w: World, k: nat, b: Worker)
    requires Reporting(b) && b.phase.Dated?
    ensures Apply(env, With(w, k, b), Stamp(k)) == With(w, k, AfterStamp(b, w.now))
  {
    var b' := AfterStamp(b, w.now);
    assert w.workers[k := b][k := b'] == w.workers[k := b'];
  }

  lemma PublishAct(env: Env, w: World, k: nat, b: Worker)
    requires Reporting(b) && b.phase.Stamped?
    ensures Apply(env, With(w, k, b), Publish(k)) ==
            With(w.(history := Commit(w.history, PublishChange(Top(w.history), b))), k, Idle)
  {
    assert w.workers[k := b][k := Idle] == w.workers[k := Idle];
  }

  lemma TickAct(env: Env, w: World, k: nat, b: Worker, d: nat)
    ensures Apply(env, With(w, k, b), Tick(d)) == With(w.(now := w.now + d), k, b)
  {
  }

  lemma ExecSnoc(env: Env, w: World, acts: seq<Action>, a: Action)
    ensures Exec(env, w, acts + [a]) == Apply(env, Exec(env, w, acts), a)
  {
    assert (acts + [a])[..|acts|] == acts;
  }

  // ----- the times of a status -----

  /** What a status link does in company: a reading, others, a second reading, others, and the write. */
  lemma ReportInCompany(env: Env, w: World, k: nat, b: Worker, x: seq<Action>, y: seq<Action>)
      returns (v: World, v': World)
    requires Reporting(b) && b.phase.Writing? && b.status.infos != Some(Exposed(b.id.name, b.svc))
    requires BySomeoneElse(k, x) && BySomeoneElse(k, y)
    ensures v == Exec(env, Apply(env, With(w, k, b), Date(k)), x)
    ensures v' == Exec(env, Apply(env, v, Stamp(k)), y)
    ensures k in v'.workers && v'.workers[k] ==
            b.(phase := Stamped(if b.status.infos.None? then w.now else b.status.created, v.now))
  {
    DateAct(env, w, k, b);
    var b1 := AfterDate(b, w.now);
    OthersRun(env, w, k, b1, x);
    v := Exec(env, Apply(env, With(w, k, b), Date(k)), x);
    var u := Exec(env, w, x);
    StampAct(env, u, k, b1);
    OthersRun(env, u, k, AfterStamp(b1, u.now), y);
    v' := Exec(env, Apply(env, v, Stamp(k)), y);
  }

  /**
   The persisted times are the two readings, whatever happens between them and the write: the creation time is
   the clock at the first unless the status read has one, the update time is the clock at the second. A write
   whose cluster object was written meanwhile changes nothing.
   */
  lemma TimesAreReadings(env: Env, w: World, k: nat, b: Worker, x: seq<Action>, y: seq<Action>)
    requires Reporting(b) && b.phase.Writing? && b.status.infos != Some(Exposed(b.id.name, b.svc))
    requires BySomeoneElse(k, x) && BySomeoneElse(k, y)
    ensures var v := Exec(env, Apply(env, With(w, k, b), Date(k)), x);
            var v' := Exec(env, Apply(env, v, Stamp(k)), y);
            var o, after := Fetch(Top(v'.history), LinkKey(Report, b.id)), Apply(env, v', Publish(k));
            if o.Some? && o.value.version == b.base && o.value.body.ClusterBody? then
              StatusAt(Top(after.history), b.id) ==
              Status(Some(Exposed(b.id.name, b.svc)), if b.status.infos.None? then w.now else b.status.created, v.now)
            else after.history == v'.history
  {
    var v, v' := ReportInCompany(env, w, k, b, x, y);
    PublishStep(env, v', k, v'.workers[k]);
  }
}
