/**
 Rounds without faults: each syncs a snapshot and its content in the common controller and
 then runs one whole sidecar pass over the content.
 */
module Rounds {
  import opened Objects
  import opened Sidecar
  import opened Driver
  import opened Cluster
  import opened Common

  // ---- The surroundings ----

  /** Every call is answered; the API accepts what it can, the driver gives a success or a final answer. */
  ghost predicate Cooperative(env: Env) {
    forall k: nat, pc: Pc, stored: Option<Content> :: !pc.Done? ==> Fits(pc, stored, env(k, pc, stored)) && Cooperates(pc, stored, env(k, pc, stored))
  }

  predicate Cooperates(pc: Pc, stored: Option<Content>, a: Answer) {
    match pc
    case AtCreateSnapshot(c) =>
      c.refUid != "" && c.volumeHandle.Some? ==> a.Created? || (a.CreateFailed? && HasFailed(a.error))
    case AtGetStatus(_) => a.StatusRead?
    case AtDeleteSnapshot(_) => a.SnapshotDeleted?
    case _ => Fits(pc, stored, ApiOk(0)) ==> a.ApiOk?
  }

  // ---- One sidecar pass in the cluster ----

  /** The pass over `n` runs to its end before anything else happens. */
  function RunPass(w: World, n: string, env: Env, k: nat): World
    decreases if n in w.passes then Distance(w.passes[n]) + 1 else 0
  {
    if n !in w.passes || w.passes[n].Done? then w
    else
      var pc := w.passes[n];
      var a := Reply(env, k, pc, StoredContent(w, n));
      PassesEnd(pc, Touched(pc, StoredContent(w, n), a), a);
      RunPass(Advance(w, n, pc, a), n, env, k + 1)
  }

  /** What a pass leaves alone: everything but its content, the driver and the record of its own calls. */
  ghost predicate OnlyContent(w: World, w': World, n: string) {
    && w'.prefix == w.prefix && w'.snapshots == w.snapshots && w'.claims == w.claims && w'.groups == w.groups
    && (forall m :: m != n ==> (m in w'.contents <==> m in w.contents))
    && (forall m :: m != n && m in w.contents ==> w'.contents[m] == w.contents[m])
    && (forall m :: m != n ==> (m in w'.passes <==> m in w.passes))
  }

  /** A whole pass in the cluster is the pass run without interference. */
  lemma {:induction false} RunPassFinishes(w: World, n: string, env: Env, k: nat)
    requires n in w.passes && !w.passes[n].Done?
    ensures var w' := RunPass(w, n, env, k);
            && StoredContent(w', n) == Finish(env, k, w.passes[n], StoredContent(w, n)).stored
            && n !in w'.passes && OnlyContent(w, w', n)
    decreases Distance(w.passes[n])
  {
    var pc := w.passes[n];
    var stored := StoredContent(w, n);
    var a := Reply(env, k, pc, stored);
    PassesEnd(pc, Touched(pc, stored, a), a);
    var w1 := Advance(w, n, pc, a);
    AdvanceOnContent(w, n, pc, a);
    if n in w1.passes {
      RunPassFinishes(w1, n, env, k + 1);
    }
  }

  lemma AdvanceOnContent(w: World, n: string, pc: Pc, a: Answer)
    requires Fits(pc, StoredContent(w, n), a) && !pc.Done?
    ensures var w' := Advance(w, n, pc, a);
            var next := Continue(pc, Touched(pc, StoredContent(w, n), a), a);
            && StoredContent(w', n) == Kept(Touched(pc, StoredContent(w, n), a))
            && OnlyContent(w, w', n)
            && (if next.Done? then n !in w'.passes else n in w'.passes && w'.passes[n] == next)
  {}

  /** A pass is begun over the content and run to its end. */
  function SidecarRound(w: World, n: string, inp: Inputs, env: Env): World {
    if n !in w.contents || n in w.passes || !HasOneSource(w.contents[n]) then w
    else RunPass(w.(passes := StorePass(w.passes, n, Begin(w.contents[n], inp))), n, env, 0)
  }

  lemma SidecarRoundEffect(w: World, n: string, inp: Inputs, env: Env)
    requires n in w.contents && n !in w.passes && HasOneSource(w.contents[n])
    ensures var w' := SidecarRound(w, n, inp, env);
            && StoredContent(w', n) == Finish(env, 0, Begin(w.contents[n], inp), Some(w.contents[n])).stored
            && n !in w'.passes && OnlyContent(w, w', n)
  {
    var w1 := w.(passes := StorePass(w.passes, n, Begin(w.contents[n], inp)));
    if n in w1.passes {
      RunPassFinishes(w1, n, env, 0);
    }
  }

  // ---- Whole passes are part of runs ----

  lemma RunGoesOn(ws: seq<World>, steps: seq<Step>, step: Step)
    requires IsRun(ws, steps) && Enabled(ws[|ws| - 1], step)
    ensures IsRun(ws + [Apply(ws[|ws| - 1], step)], steps + [step])
  {
    var vs, ts := ws + [Apply(ws[|ws| - 1], step)], steps + [step];
    forall i | 0 <= i < |ts| ensures Enabled(vs[i], ts[i]) && vs[i + 1] == Apply(vs[i], ts[i]) {
      if i < |steps| {
        assert vs[i] == ws[i] && vs[i + 1] == ws[i + 1] && ts[i] == steps[i];
      }
    }
  }

  /** The answers of the driver during the pass keep its contract. */
  ghost predicate DriverAgrees(w: World, n: string, env: Env, k: nat)
    decreases if n in w.passes then Distance(w.passes[n]) + 1 else 0
  {
    if n !in w.passes || w.passes[n].Done? then true
    else
      var pc := w.passes[n];
      var a := Reply(env, k, pc, StoredContent(w, n));
      PassesEnd(pc, Touched(pc, StoredContent(w, n), a), a);
      DriverMay(w, pc, a) && DriverAgrees(Advance(w, n, pc, a), n, env, k + 1)
  }

  /** A pass run to its end in a reachable world ends in a reachable world. */
  lemma {:induction false} RunPassIsRun(ws: seq<World>, steps: seq<Step>, n: string, env: Env, k: nat)
    returns (vs: seq<World>, ts: seq<Step>)
    requires IsRun(ws, steps) && DriverAgrees(ws[|ws| - 1], n, env, k)
    ensures IsRun(vs, ts) && vs[|vs| - 1] == RunPass(ws[|ws| - 1], n, env, k) && ws <= vs && steps <= ts
    decreases if n in ws[|ws| - 1].passes then Distance(ws[|ws| - 1].passes[n]) + 1 else 0
  {
    var w := ws[|ws| - 1];
    vs, ts := ws, steps;
    if n in w.passes && !w.passes[n].Done? {
      var pc := w.passes[n];
      var a := Reply(env, k, pc, StoredContent(w, n));
      PassesEnd(pc, Touched(pc, StoredContent(w, n), a), a);
      RunGoesOn(ws, steps, AdvancePass(n, a));
      vs, ts := RunPassIsRun(ws + [Advance(w, n, pc, a)], steps + [AdvancePass(n, a)], n, env, k + 1);
    }
  }

  // ---- One round ----

  ghost function CommonRound(w: World, l: Lookup, key: Key, n: string): World {
    var w1 := if key in w.snapshots then SyncSnapshotByKey(Start(w, []), l, key).ctx.w else w;
    if n in w1.contents then SyncContent(Start(w1, []), n).ctx.w else w1
  }

  ghost function Round(w: World, l: Lookup, key: Key, n: string, inp: Inputs, env: Env): World {
    SidecarRound(CommonRound(w, l, key, n), n, inp, env)
  }

  /** As many rounds as there are surroundings. */
  ghost function After(w: World, l: Lookup, key: Key, n: string, inp: Inputs, envs: seq<Env>): World
    decreases |envs|
  {
    if envs == [] then w else After(Round(w, l, key, n, inp, envs[0]), l, key, n, inp, envs[1..])
  }
}
