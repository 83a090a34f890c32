/**
 An abstraction of the cluster state the controller converges: the set of
 namespace names whose default sidecar has been created. The controller itself
 keeps no such set; the set stands for what the cluster holds after a run of
 reconciles, so that the properties of repeated, duplicated and reordered
 reconciles can be stated. Whether a requested creation took effect is not
 visible to the controller (it discards the creation's result), so every
 reconcile step carries that as an input of its own.
 */
module Provisioning {
  import opened NamespaceController

  /** One reconcile as the cluster sees it: what the fetch returned, and
      whether a creation, if one was requested, took effect. */
  datatype Step = Step(fetch: Fetch, createOk: bool)

  /** The cluster after one reconcile outcome: a requested creation that took
      effect makes the name present, and nothing else changes. A name already
      present stays present: at most one sidecar exists per name. */
  function Apply(store: set<string>, o: Outcome, createOk: bool): (s: set<string>)
    ensures store <= s
    ensures forall x :: x in s && x !in store ==> createOk && o.create == Some(x)
    ensures createOk && o.create.Some? ==> o.create.value in s
  {
    if createOk && o.create.Some? then store + {o.create.value} else store
  }

  /** Whether step `st` provisions its namespace, stated directly against the
      opt-in policy rather than through Reconcile. */
  predicate Provisions(st: Step)
  {
    && st.fetch.Found?
    && ShouldHandle(st.fetch.ns.annotations)
    && st.createOk
  }

  /** The names a run of steps provisions. */
  function ProvisionedBy(steps: seq<Step>): set<string>
  {
    set i | 0 <= i < |steps| && Provisions(steps[i]) :: steps[i].fetch.ns.name
  }

  /** The cluster after running the steps in order, one reconcile each. */
  function Replay(store: set<string>, steps: seq<Step>): (s: set<string>)
    ensures s == store + ProvisionedBy(steps)
    decreases |steps|
  {
    if |steps| == 0 then
      store
    else
      var first := steps[0];
      assert steps == [first] + steps[1..];
      ProvisionedByAppend([first], steps[1..]);
      ApplyAgreesWithPolicy(store, first);
      Replay(Apply(store, Reconcile(first.fetch), first.createOk), steps[1..])
  }

  /** One reconcile changes the cluster exactly by the name the opt-in policy
      selects, when the creation takes effect. */
  lemma ApplyAgreesWithPolicy(store: set<string>, st: Step)
    ensures Apply(store, Reconcile(st.fetch), st.createOk) == store + ProvisionedBy([st])
  {
    if Provisions(st) {
      assert [st][0] == st;
      assert st.fetch.ns.name in ProvisionedBy([st]);
    }
  }

  /** The names provisioned by two runs back to back are those of each run. */
  lemma {:induction false} ProvisionedByAppend(a: seq<Step>, b: seq<Step>)
    ensures ProvisionedBy(a + b) == ProvisionedBy(a) + ProvisionedBy(b)
  {
    var ab := a + b;
    forall x | x in ProvisionedBy(ab)
      ensures x in ProvisionedBy(a) + ProvisionedBy(b)
    {
      var i :| 0 <= i < |ab| && Provisions(ab[i]) && x == ab[i].fetch.ns.name;
      if i >= |a| {
        assert b[i - |a|] == ab[i];
      }
    }
    forall x | x in ProvisionedBy(b)
      ensures x in ProvisionedBy(ab)
    {
      var i :| 0 <= i < |b| && Provisions(b[i]) && x == b[i].fetch.ns.name;
      assert ab[i + |a|] == b[i];
    }
    forall x | x in ProvisionedBy(a)
      ensures x in ProvisionedBy(ab)
    {
      var i :| 0 <= i < |a| && Provisions(a[i]) && x == a[i].fetch.ns.name;
      assert ab[i] == a[i];
    }
  }

  /** Running two batches of reconciles in one go is running them one after
      the other. */
  lemma ReplayAppend(store: set<string>, a: seq<Step>, b: seq<Step>)
    ensures Replay(store, a + b) == Replay(Replay(store, a), b)
  {
    ProvisionedByAppend(a, b);
  }

  /** The order in which reconciles run does not change the cluster they
      leave behind. */
  lemma ReplayOrderIndependent(store: set<string>, a: seq<Step>, b: seq<Step>)
    ensures Replay(store, a + b) == Replay(store, b + a)
  {
    ProvisionedByAppend(a, b);
    ProvisionedByAppend(b, a);
  }

  /** A duplicated reconcile (a replayed notification, or a second reconcile
      of the same namespace) leaves the cluster as one reconcile does. */
  lemma ReplayDuplicate(store: set<string>, st: Step)
    ensures Replay(store, [st, st]) == Replay(store, [st])
  {
    assert [st, st] == [st] + [st];
    ProvisionedByAppend([st], [st]);
  }

  /** Rerunning the same reconciles changes nothing more. */
  lemma ReplayIdempotent(store: set<string>, steps: seq<Step>)
    ensures Replay(Replay(store, steps), steps) == Replay(store, steps)
  {
  }

  /** Reconciles never remove a sidecar, and a name is only added when a
      reconcile found that namespace opted in and the creation took effect. */
  lemma ReplayOnlyProvisionsOptedIn(store: set<string>, steps: seq<Step>, x: string)
    requires x in Replay(store, steps) && x !in store
    ensures exists i :: 0 <= i < |steps| && Provisions(steps[i]) && steps[i].fetch.ns.name == x
  {
  }

  /** A found, opted-in namespace whose creation took effect is provisioned
      after the run, whatever else the run contains. */
  lemma ReplayProvisionsOptedIn(store: set<string>, steps: seq<Step>, i: nat)
    requires i < |steps| && Provisions(steps[i])
    ensures steps[i].fetch.ns.name in Replay(store, steps)
    ensures store <= Replay(store, steps)
  {
  }

  /** Three namespaces: "team-a" opted in and reconciled twice, "team-b" with
      no annotations, "team-c" already deleted when its request is served. */
  lemma TeamScenario()
    ensures
      var teamA := Namespace("team-a", map[OptInKey := OptInValue]);
      var teamB := Namespace("team-b", map[]);
      Replay({}, [Step(Found(teamA), true), Step(Found(teamA), true),
                  Step(Found(teamB), true), Step(NotFound, true)]) == {"team-a"}
  {
    var teamA := Namespace("team-a", map[OptInKey := OptInValue]);
    var teamB := Namespace("team-b", map[]);
    var steps := [Step(Found(teamA), true), Step(Found(teamA), true),
                  Step(Found(teamB), true), Step(NotFound, true)];
    assert Provisions(steps[0]);
    assert "team-a" in ProvisionedBy(steps);
    assert ProvisionedBy(steps) <= {"team-a"} by {
      forall x | x in ProvisionedBy(steps) ensures x == "team-a" {
        var i :| 0 <= i < |steps| && Provisions(steps[i]) && x == steps[i].fetch.ns.name;
        assert i < 2;
      }
    }
  }
}
