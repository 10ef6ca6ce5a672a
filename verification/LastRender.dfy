/** What the last render of a run leaves unshown: whatever is rendered, fails or is asked for in the run, and whether
  or not this is MASTER in it. */
module LastRender {
  import opened RouteTable
  import opened Relist
  import opened Pipeline
  import D = EventDelivery

  predicate Renders(a: Action) {
    a == Render || a == RenderDirectly
  }

  /** A render, even one that fails. */
  predicate Attempts(a: Action) {
    Renders(a) || a == FailToRender
  }

  // The last of its kind in a run

  lemma {:induction false} ReachesSplit(y: Sys, run: seq<Action>, n: nat, y': Sys) returns (z: Sys)
    requires Inv(y) && Reaches(y, run, y') && n <= |run|
    ensures Reaches(y, run[..n], z) && Inv(z) && Reaches(z, run[n..], y')
    decreases n
  {
    hide Inv, Enabled, Step;
    if n == 0 {
      z := y;
      assert run[0..] == run;
    } else {
      StepKeepsInv(y, run[0]);
      z := ReachesSplit(Step(y, run[0]), run[1..], n - 1, y');
      assert run[1..][..n - 1] == run[..n][1..] && run[1..][n - 1..] == run[n..];
    }
  }

  /** The steps after the last one that is one of `p`. */
  predicate AfterLast(run: seq<Action>, n: nat, p: Action -> bool) {
    && n <= |run| && (n > 0 ==> p(run[n - 1]))
    && (forall i | n <= i < |run| :: !p(run[i]))
  }

  function Last(run: seq<Action>, p: Action -> bool): (n: nat)
    ensures n <= |run| && AfterLast(run, n, p) && ((exists i | 0 <= i < |run| :: p(run[i])) ==> n > 0)
  {
    if run == [] then 0
    else if p(run[|run| - 1]) then |run|
    else Last(run[..|run| - 1], p)
  }

  // From the last attempt on

  /** The handler comes to its commit with both flags set, and this is MASTER. */
  predicate Tells(y: Sys, a: Action) {
    && y.master && y.s.flag && y.e.flag
    && (|| (a == ApplyService && y.s.Holds() && Commits(NextService(y)))
        || (a == ApplyEndpoints && y.e.Holds() && Commits(NextEndpoints(y))))
  }

  /** Some handler does so in the run. */
  ghost predicate ToldIn(y: Sys, run: seq<Action>)
    decreases |run|
  {
    run != [] && Inv(y) && Enabled(y, run[0]) && (Tells(y, run[0]) || ToldIn(Step(y, run[0]), run[1..]))
  }

  /** The gate of a handler is what was sampled. */
  lemma GateIs(y: Sys)
    requires Inv(y) && y.lock != Unlocked
    ensures y.skipCommit == !(y.s.flag && y.e.flag)
  {
    hide SideInv, Tables, Covered, History, ValidServices, ValidEndpointsOf;
  }

  lemma ApplyAsks(y: Sys, a: Action)
    requires Inv(y) && Enabled(y, a) && (a == ApplyService || a == ApplyEndpoints)
    ensures var y' := Step(y, a); y'.rendered == y.rendered && (Asked(y') <==> Asked(y) || Tells(y, a))
    ensures var y' := Step(y, a); y'.master == y.master && y'.worker == y.worker && y.done <= y'.done
    ensures var y' := Step(y, a); !Tells(y, a) ==> y'.queued == y.queued
  {
    ApplyEnabled(y, a);
    hide Inv, Step, Enabled, Apply, Applied, Current, Commits, NextService, NextEndpoints, ValidUpdate, ValidUpdates;
    GateIs(y);
    if a == ApplyService {
      ApplyServiceStep(y);
      AppliedIs(y, NextService(y));
    } else {
      ApplyEndpointsStep(y);
      AppliedIs(y, NextEndpoints(y));
    }
  }

  /** When the worker's steps may come. */
  lemma WorkEnabled(y: Sys, a: Action)
    requires Enabled(y, a) && !OfQueues(a)
    ensures a == TakeRequest ==> y.worker == Idle && y.queued
    ensures a == BackOff || a == Start ==> y.worker == Holding
    ensures a == Render || a == FailToRender ==> y.worker == Starting
    ensures a == Finish ==> y.worker == Rendered
  {
    hide D.Legal, ValidAction;
  }

  /** Other steps of the machine without an attempt ask for nothing, and take nothing back. */
  lemma WorkAsks(y: Sys, a: Action)
    requires Enabled(y, a) && !OfQueues(a) && !Attempts(a)
    ensures var y' := Worked(y, a); y'.rendered == y.rendered && (Asked(y') <==> Asked(y))
  {
    WorkEnabled(y, a);
    hide Enabled;
  }

  lemma StepAsks(y: Sys, a: Action)
    requires Inv(y) && Enabled(y, a) && !Attempts(a)
    ensures var y' := Step(y, a); y'.rendered == y.rendered && (Asked(y') <==> Asked(y) || Tells(y, a))
  {
    if a == ApplyService || a == ApplyEndpoints {
      ApplyAsks(y, a);
    } else if OfQueues(a) {
      QueueMisses(y, a);
    } else {
      WorkedIs(y, a);
      WorkAsks(y, a);
    }
    hide Inv, Enabled, Step, Worked, Commits, NextService, NextEndpoints;
  }

  lemma {:induction false} RunAsks(y: Sys, run: seq<Action>, y': Sys)
    requires Inv(y) && Reaches(y, run, y') && AfterLast(run, 0, Attempts)
    ensures Inv(y') && y'.rendered == y.rendered && (Asked(y') <==> Asked(y) || ToldIn(y, run))
    decreases |run|
  {
    hide Inv, Enabled, Step, Attempts, Tells, Asked;
    if run != [] {
      StepKeepsInv(y, run[0]);
      StepAsks(y, run[0]);
      assert forall i | 0 <= i < |run[1..]| :: run[1..][i] == run[i + 1];
      RunAsks(Step(y, run[0]), run[1..], y');
    }
  }

  /** Exactly when the table is shown, at the end of any run: what counts is the state after the last attempt to
      render, and the handlers from there on. */
  lemma ShownExactly(y: Sys, run: seq<Action>, y': Sys) returns (n: nat, z: Sys)
    requires Inv(y) && Reaches(y, run, y')
    ensures n <= |run| && AfterLast(run, n, Attempts) && Reaches(y, run[..n], z) && Reaches(z, run[n..], y')
    ensures Asked(y') || y'.rendered == y'.table
            <==> Asked(z) || ToldIn(z, run[n..]) || y'.table == z.rendered
  {
    hide *;
    n := Last(run, Attempts);
    z := ReachesSplit(y, run, n, y');
    RestOf(run, n);
    RunAsks(z, run[n..], y');
  }

  lemma RestOf(run: seq<Action>, n: nat)
    requires AfterLast(run, n, Attempts)
    ensures AfterLast(run[n..], 0, Attempts)
  {
    hide Attempts;
  }

  // Becoming MASTER

  /** A change is not shown, and nothing is going to show it. */
  ghost predicate Lost(y: Sys)
    requires ValidUpdates(y.done)
  {
    !Asked(y) && y.rendered != Current(y)
  }

  /** One request is in the slot and another in the worker's hand. */
  predicate Doubled(y: Sys) {
    y.queued && (y.worker == Holding || y.worker == Starting)
  }

  /** All requests fail: one render does, and if there are two requests, another one before it or the back-off that
      makes them one. */
  predicate AllFail(run: seq<Action>, doubled: bool) {
    exists i | 0 <= i < |run| ::
      run[i] == FailToRender
      && (doubled ==> exists j | 0 <= j < i :: run[j] == FailToRender || run[j] == BackOff)
  }

  lemma AllFailStep(run: seq<Action>, doubled: bool)
    requires run != []
    ensures AllFail(run, doubled)
            <==> (run[0] == FailToRender && !doubled)
                 || AllFail(run[1..], doubled && run[0] != FailToRender && run[0] != BackOff)
  {
    var rest, more := run[1..], doubled && run[0] != FailToRender && run[0] != BackOff;
    assert forall i | 0 <= i < |rest| :: rest[i] == run[i + 1];
    if AllFail(run, doubled) {
      var i :| 0 <= i < |run| && run[i] == FailToRender
               && (doubled ==> exists j | 0 <= j < i :: run[j] == FailToRender || run[j] == BackOff);
      if i > 0 {
        assert rest[i - 1] == FailToRender;
        if more {
          var j :| 0 <= j < i && (run[j] == FailToRender || run[j] == BackOff);
          assert rest[j - 1] == run[j];
        }
      }
    }
    if AllFail(rest, more) {
      var i :| 0 <= i < |rest| && rest[i] == FailToRender
               && (more ==> exists j | 0 <= j < i :: rest[j] == FailToRender || rest[j] == BackOff);
      assert run[i + 1] == FailToRender;
      if doubled {
        if more {
          var j :| 0 <= j < i && (rest[j] == FailToRender || rest[j] == BackOff);
          assert run[j + 1] == rest[j];
        } else {
          assert run[0] == FailToRender || run[0] == BackOff;
        }
      }
    }
  }

  /** Nothing is shown, and this does not become MASTER. */
  predicate Unshown(a: Action) {
    !Renders(a) && a != BecomeMaster
  }

  lemma WorkBeforeMaster(y: Sys, a: Action)
    requires Enabled(y, a) && !OfQueues(a) && Unshown(a) && !y.master
    ensures var y' := Worked(y, a);
            && !y'.master && y'.rendered == y.rendered
            && (Asked(y') <==> Asked(y) && !(a == FailToRender && !Doubled(y)))
            && (Doubled(y') <==> Doubled(y) && a != FailToRender && a != BackOff)
  {
    WorkEnabled(y, a);
    hide Enabled;
  }

  lemma StepBeforeMaster(y: Sys, a: Action)
    requires Inv(y) && Enabled(y, a) && Unshown(a) && !y.master
    ensures var y' := Step(y, a);
            && !y'.master && y'.rendered == y.rendered && y.done <= y'.done
            && (Asked(y') <==> Asked(y) && !(a == FailToRender && !Doubled(y)))
            && (Doubled(y') <==> Doubled(y) && a != FailToRender && a != BackOff)
  {
    if a == ApplyService || a == ApplyEndpoints {
      ApplyAsks(y, a);
    } else if OfQueues(a) {
      QueueMisses(y, a);
    } else {
      WorkedIs(y, a);
      WorkBeforeMaster(y, a);
    }
    hide Inv, Enabled, Step, Worked, Commits, NextService, NextEndpoints;
  }

  lemma {:induction false} RunBeforeMaster(y: Sys, run: seq<Action>, y': Sys)
    requires Inv(y) && Reaches(y, run, y') && (forall a | a in run :: Unshown(a)) && !y.master
    ensures Inv(y') && !y'.master && y'.rendered == y.rendered && y.done <= y'.done
    ensures Asked(y') <==> Asked(y) && !AllFail(run, Doubled(y))
    decreases |run|
  {
    hide Inv, Step, Enabled, Unshown, Asked, Doubled, AllFail;
    if run == [] {
      NoneFail(Doubled(y));
    } else {
      assert run[0] in run && forall a | a in run[1..] :: a in run;
      StepKeepsInv(y, run[0]);
      StepBeforeMaster(y, run[0]);
      RunBeforeMaster(Step(y, run[0]), run[1..], y');
      AllFailStep(run, Doubled(y));
    }
  }

  lemma NoneFail(doubled: bool)
    ensures !AllFail([], doubled)
  {
  }

  /** What is done goes on, and this stays no MASTER, through any steps but the setting of the flag. */
  lemma StepAsBackup(y: Sys, a: Action)
    requires Inv(y) && Enabled(y, a) && a != BecomeMaster && !y.master
    ensures !Step(y, a).master && y.done <= Step(y, a).done
  {
    if a == ApplyService || a == ApplyEndpoints {
      ApplyAsks(y, a);
    } else if OfQueues(a) {
      QueueMisses(y, a);
    } else {
      WorkedIs(y, a);
    }
    hide Inv, Enabled, Step;
  }

  lemma {:induction false} RunAsBackup(y: Sys, run: seq<Action>, y': Sys)
    requires Inv(y) && Reaches(y, run, y') && BecomeMaster !in run && !y.master
    ensures Inv(y') && !y'.master && y.done <= y'.done
    decreases |run|
  {
    hide Inv, Step, Enabled;
    if run != [] {
      assert run[0] in run && forall a | a in run[1..] :: a in run;
      StepKeepsInv(y, run[0]);
      StepAsBackup(y, run[0]);
      RunAsBackup(Step(y, run[0]), run[1..], y');
    }
  }

  /** What a run leaves unshown, given the state `z` of its last render, `z1` after it, and `rest`, the steps from
      there on: no request is left, and what was applied since makes another table. */
  ghost predicate LosesSince(z: Sys, z1: Sys, rest: seq<Action>, done: seq<Update>)
    requires ValidUpdates(z.done) && z.done <= done && ValidUpdates(done[|z.done|..])
  {
    && (!Asked(z1) || AllFail(rest, Doubled(z1)))
    && ApplyAll(Current(z), done[|z.done|..]) != Current(z)
  }

  /** Becoming MASTER, after any run in which something was rendered: a change is lost exactly if, since the last
      render, no request was on its way or all of them failed, and what was applied leaves another table than the one
      rendered. */
  lemma LostBecomingMasterExactly(y: Sys, run: seq<Action>, y2: Sys, y': Sys) returns (n: nat, z: Sys, z1: Sys)
    requires Inv(y) && !y.master && BecomeMaster !in run && exists i | 0 <= i < |run| :: Renders(run[i])
    requires Reaches(y, run, y2) && Inv(y2) && Enabled(y2, BecomeMaster) && y' == Step(y2, BecomeMaster)
    ensures 0 < n <= |run| && AfterLast(run, n, Renders) && Reaches(y, run[..n - 1], z) && Inv(z)
    ensures Enabled(z, run[n - 1]) && z1 == Step(z, run[n - 1]) && Reaches(z1, run[n..], y2)
    ensures ValidUpdates(z.done) && ValidUpdates(y'.done)
    ensures z.done <= y'.done && ValidUpdates(y'.done[|z.done|..])
    ensures Lost(y') <==> LosesSince(z, z1, run[n..], y'.done)
  {
    hide *;
    n := Last(run, Renders);
    z := ReachesSplit(y, run, n - 1, y2);
    z1 := FirstStep(z, run, n, y2);
    RunAsBackup(y, run[..n - 1], z);
    StepsUnshown(run, n);
    LostSinceRender(z, run[n - 1], z1, run[n..], y2, y');
  }

  lemma FirstStep(z: Sys, run: seq<Action>, n: nat, y2: Sys) returns (z1: Sys)
    requires 0 < n <= |run| && Inv(z) && Reaches(z, run[n - 1..], y2)
    ensures Enabled(z, run[n - 1]) && z1 == Step(z, run[n - 1]) && Reaches(z1, run[n..], y2)
  {
    hide Inv, Enabled, Step;
    z1 := Step(z, run[n - 1]);
    assert run[n - 1..][1..] == run[n..] && run[n - 1..][0] == run[n - 1];
  }

  lemma StepsUnshown(run: seq<Action>, n: nat)
    requires 0 < n && AfterLast(run, n, Renders) && BecomeMaster !in run
    ensures Renders(run[n - 1]) && BecomeMaster !in run[..n - 1] && forall a | a in run[n..] :: Unshown(a)
  {
    hide Renders;
    forall a | a in run[n..] ensures Unshown(a) {
      var i :| 0 <= i < |run[n..]| && run[n..][i] == a;
      assert run[n + i] == a;
    }
  }

  lemma LostSinceRender(z: Sys, a: Action, z1: Sys, rest: seq<Action>, y2: Sys, y': Sys)
    requires Inv(z) && !z.master && Renders(a) && Enabled(z, a) && z1 == Step(z, a)
    requires Reaches(z1, rest, y2) && forall b | b in rest :: Unshown(b)
    requires Inv(y2) && Enabled(y2, BecomeMaster) && y' == Step(y2, BecomeMaster)
    ensures ValidUpdates(z.done) && ValidUpdates(y'.done)
    ensures z.done <= y'.done && ValidUpdates(y'.done[|z.done|..])
    ensures Lost(y') <==> LosesSince(z, z1, rest, y'.done)
  {
    assert TableInv(map[]);
    hide *;
    StepKeepsInv(z, a);
    TableRendered(z, a, z1);
    RunBeforeMaster(z1, rest, y2);
    MasterStep(y2);
    NextIsValid(y2, BecomeMaster);
    ValidTail(z.done, y2.done);
    ApplyJoins(map[], z.done, y2.done[|z.done|..]);
    LostIs(y');
    LosesIs(z, z1, rest, y'.done);
    AskedStays(y2, y');
    CurrentIs(z);
    CurrentIs(y');
  }

  lemma TableRendered(z: Sys, a: Action, z1: Sys)
    requires Inv(z) && Renders(a) && Enabled(z, a) && z1 == Step(z, a)
    ensures ValidUpdates(z.done) && z1.done == z.done && z1.rendered == Current(z) && z1.master == z.master
  {
    hide SideInv, ValidUpdates, ApplyAll, History, ValidServices, ValidEndpointsOf, TableUpTo;
  }

  lemma AskedStays(y: Sys, y': Sys)
    requires y' == y.(master := true)
    ensures Asked(y') <==> Asked(y)
  {
  }

  lemma LostIs(y: Sys)
    requires ValidUpdates(y.done)
    ensures Lost(y) <==> !Asked(y) && y.rendered != Current(y)
  {
  }

  lemma LosesIs(z: Sys, z1: Sys, rest: seq<Action>, done: seq<Update>)
    requires ValidUpdates(z.done) && z.done <= done && ValidUpdates(done[|z.done|..])
    ensures LosesSince(z, z1, rest, done)
            <==> (!Asked(z1) || AllFail(rest, Doubled(z1)))
                 && ApplyAll(Current(z), done[|z.done|..]) != Current(z)
  {
  }

  lemma ValidTail(us: seq<Update>, all: seq<Update>)
    requires ValidUpdates(all) && us <= all
    ensures all == us + all[|us|..] && ValidUpdates(all[|us|..])
  {
  }
}
