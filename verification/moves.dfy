/**
  The moves that leave a load balancer drop the domains of their request.

  Changing the type of the instance forgets what is pending on the row, so a finished
  move has the domains the instance had, all of them served; it has the ones asked for
  exactly when they were the same.
 */
module Moves {
  import opened Records
  import opened Tasks
  import opened Pipelines
  import opened Frames
  import opened Rotation
  import opened RotationRuns

  // ---- no task and no event changes the domains of the row ----

  lemma StepKeepsDomains(r: Run, e: Event)
    ensures Step(r, e).state.domains == r.state.domains
  {
    hide Execute;
    match e {
      case Try(budget) =>
        if r.todo.Then? {
          if Loops(r.todo.task) {
            LoopFrame(r.todo.task, Provisions(r.kind), r.state, budget);
          } else {
            OtherFrame(r.todo.task, Provisions(r.kind), r.state, budget);
          }
        }
      case _ =>
    }
  }

  lemma {:induction false} RunKeepsDomains(r: Run, events: seq<Event>)
    ensures Steps(r, events).state.domains == r.state.domains
    decreases |events|
  {
    hide Step;
    if events != [] {
      StepKeepsDomains(r, events[0]);
      RunKeepsDomains(Step(r, events[0]), events[1..]);
    }
  }

  // ---- main result ----

  /**
    A finished move from one load balancer plan to another, or to a distribution, has
    the domains the instance had, and serves them all. So its row names the domains of a
    request that names any exactly when they are the same, in whatever order.
   */
  lemma MovesKeepTheirDomains(s: State, kind: Kind, domains: seq<string>, events: seq<Event>)
    requires Startable(s, kind, domains) && ForgetsDomains(kind)
    requires AdmissibleRun(Begin(Request(s, kind, domains), kind), PlanOf(s, kind, domains), events)
    requires Steps(Begin(Request(s, kind, domains), kind), events).todo.Finished?
    ensures var s' := Steps(Begin(Request(s, kind, domains), kind), events).state;
            && s'.domains == s.domains
            && NoOutage(s', Domains(s))
            && (SameDomains(s'.domains, domains) <==> SameDomains(domains, s.domains))
  {
    hide Steady, NoOutage;
    var r0 := Begin(Request(s, kind, domains), kind);
    RotationIsSafe(s, kind, domains, events);
    RunKeepsDomains(r0, events);
    assert Domains(Steps(r0, events).state) == Domains(s);
  }

  /** Every other update that names new domains ends with them, all served. */
  lemma OtherUpdatesApplyTheirDomains(s: State, kind: Kind, domains: seq<string>, events: seq<Event>)
    requires Startable(s, kind, domains) && Applies(s, kind, domains)
    requires AdmissibleRun(Begin(Request(s, kind, domains), kind), PlanOf(s, kind, domains), events)
    requires Steps(Begin(Request(s, kind, domains), kind), events).todo.Finished?
    ensures var s' := Steps(Begin(Request(s, kind, domains), kind), events).state;
            s'.domains == domains && NoOutage(s', Domains(s'))
  {
    hide Steady, NoOutage;
    var r0 := Begin(Request(s, kind, domains), kind);
    RotationIsSafe(s, kind, domains, events);
    RunKeepsDomains(r0, events);
  }
}
