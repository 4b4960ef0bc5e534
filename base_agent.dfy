/**
 * The status machine every agent runs: idle, running, error. Each pass of the agent loop
 * either finds every market closed and rests, or runs one cycle, whose result is written
 * as a report, or whose exception is recorded.
 *
 * The market check, the cycle's outcome and the clock readings of one pass are a `Pass`;
 * the status broadcasts go to `sent` when a broadcaster is attached.
 */
module BaseAgent {
  import opened Wrappers
  import opened JsonValue
  import Clock
  import Reports

  datatype Status = Idle | Running | Failed

  function StatusName(s: Status): string
  {
    match s
    case Idle => "idle"
    case Running => "running"
    case Failed => "error"
  }

  /** `get_status()`. */
  datatype StatusView = StatusView(name: string, status: string, last_run: Option<string>, last_error: Option<string>)

  datatype Event = StatusChanged(view: StatusView) | NewReport(agent: string, path: string)

  /** What `run_cycle` did: returned a result, or raised an exception with this text. */
  datatype Outcome = Produced(result: map<string, Json>) | Raised(message: string)

  /**
   * One pass of the loop: whether a market is active, the cycle's outcome, and the clock
   * readings for the report's file name, its title, and `last_run`.
   */
  datatype Pass = Pass(active: bool, outcome: Outcome, stampTime: Clock.DateTime,
                       titleTime: Clock.DateTime, finishedAt: Clock.DateTime)

  predicate ValidPass(p: Pass)
  {
    Clock.Valid(p.stampTime) && Clock.Valid(p.titleTime) && Clock.Valid(p.finishedAt)
  }

  /** The agent's observable state. */
  datatype AgentState = AgentState(status: Status, lastRun: Option<Clock.DateTime>, lastError: Option<string>,
                                   sent: seq<Event>, reports: map<string, Reports.Dir>)

  /** A valid `last_run`, and unique file names in every report directory. */
  predicate Sound(s: AgentState)
  {
    (s.lastRun.Some? ==> Clock.Valid(s.lastRun.value))
    && forall a :: a in s.reports ==> Reports.DistinctNames(s.reports[a])
  }

  function View(name: string, status: Status, lastRun: Option<Clock.DateTime>, lastError: Option<string>): StatusView
    requires lastRun.Some? ==> Clock.Valid(lastRun.value)
  {
    StatusView(name, StatusName(status),
               if lastRun.Some? then Some(Clock.IsoSeconds(lastRun.value)) else None,
               lastError)
  }

  /** The broadcasts of one pass, when a broadcaster is attached. */
  function Announce(ws: bool, events: seq<Event>): seq<Event>
  {
    if ws then events else []
  }

  /**
   * The report directories after `write_report` puts `e` into `name`'s directory,
   * which is created empty when missing; the others are untouched.
   */
  function Written(reports: map<string, Reports.Dir>, name: string, e: Reports.Entry): (r: map<string, Reports.Dir>)
    requires forall a :: a in reports ==> Reports.DistinctNames(reports[a])
    ensures forall a :: a in r ==> Reports.DistinctNames(r[a])
    ensures r.Keys == reports.Keys + {name} && e in r[name]
    ensures forall a :: a in reports && a != name ==> r[a] == reports[a]
  {
    reports[name := Reports.Put(Reports.DirIn(reports, name), e)]
  }

  /** Announcing one event and then some more is announcing them all at once. */
  lemma SentAfter(before: seq<Event>, ws: bool, first: Event, rest: seq<Event>)
    ensures before + Announce(ws, [first]) + Announce(ws, rest) == before + Announce(ws, [first] + rest)
  {
  }

  /** One pass of `run`, as a transition of the agent's state. */
  function Next(name: string, reportsDir: string, ws: bool, s: AgentState, p: Pass): (t: AgentState)
    requires ValidPass(p) && Sound(s)
    ensures Sound(t)
  {
    if !p.active then
      if s.status != Idle then
        s.(status := Idle, sent := s.sent + Announce(ws, [StatusChanged(View(name, Idle, s.lastRun, s.lastError))]))
      else s
    else
      var running := StatusChanged(View(name, Running, s.lastRun, s.lastError));
      match p.outcome
      case Produced(result) =>
        var fileName := Reports.ReportName(p.stampTime);
        var path := reportsDir + "/" + name + "/" + fileName;
        var text := Reports.ReportText(name, Clock.TitleStamp(p.titleTime), Reports.Sections(result));
        AgentState(Idle, Some(p.finishedAt), s.lastError,
                   s.sent + Announce(ws, [running, StatusChanged(View(name, Idle, Some(p.finishedAt), s.lastError)),
                                          NewReport(name, path)]),
                   Written(s.reports, name, Reports.Entry(fileName, text)))
      case Raised(message) =>
        AgentState(Failed, s.lastRun, Some(message),
                   s.sent + Announce(ws, [running, StatusChanged(View(name, Failed, s.lastRun, Some(message)))]),
                   s.reports)
  }

  /** A pass whose cycle returned, as the announcement of the start followed by the end of the cycle. */
  lemma NextProduced(name: string, reportsDir: string, ws: bool, s: AgentState, p: Pass)
    requires ValidPass(p) && Sound(s) && p.active && p.outcome.Produced?
    ensures var fileName := Reports.ReportName(p.stampTime);
      Next(name, reportsDir, ws, s, p) == AgentState(Idle, Some(p.finishedAt), s.lastError,
        (s.sent + Announce(ws, [StatusChanged(View(name, Running, s.lastRun, s.lastError))]))
          + Announce(ws, [StatusChanged(View(name, Idle, Some(p.finishedAt), s.lastError)),
                          NewReport(name, reportsDir + "/" + name + "/" + fileName)]),
        Written(s.reports, name,
          Reports.Entry(fileName, Reports.ReportText(name, Clock.TitleStamp(p.titleTime), Reports.Sections(p.outcome.result)))))
  {
    var running := StatusChanged(View(name, Running, s.lastRun, s.lastError));
    SentAfter(s.sent, ws, running,
      [StatusChanged(View(name, Idle, Some(p.finishedAt), s.lastError)),
       NewReport(name, reportsDir + "/" + name + "/" + Reports.ReportName(p.stampTime))]);
  }

  /** A pass whose cycle raised, as the announcement of the start followed by the end of the cycle. */
  lemma NextRaised(name: string, reportsDir: string, ws: bool, s: AgentState, p: Pass)
    requires ValidPass(p) && Sound(s) && p.active && p.outcome.Raised?
    ensures Next(name, reportsDir, ws, s, p) == AgentState(Failed, s.lastRun, Some(p.outcome.message),
        (s.sent + Announce(ws, [StatusChanged(View(name, Running, s.lastRun, s.lastError))]))
          + Announce(ws, [StatusChanged(View(name, Failed, s.lastRun, Some(p.outcome.message)))]),
        s.reports)
  {
    SentAfter(s.sent, ws, StatusChanged(View(name, Running, s.lastRun, s.lastError)),
      [StatusChanged(View(name, Failed, s.lastRun, Some(p.outcome.message)))]);
  }

  /** With every market closed no cycle runs; a change back to idle is announced once. */
  lemma ClosedPassRests(name: string, reportsDir: string, ws: bool, s: AgentState, p: Pass)
    requires ValidPass(p) && Sound(s)
    requires !p.active
    ensures var t := Next(name, reportsDir, ws, s, p);
      t.status == Idle && t.lastRun == s.lastRun && t.lastError == s.lastError && t.reports == s.reports
      && (|t.sent| > |s.sent| <==> ws && s.status != Idle)
  {
  }

  /** A cycle that returns writes one report, records its time and goes back to idle, keeping the last error. */
  lemma ProducedPassReports(name: string, reportsDir: string, ws: bool, s: AgentState, p: Pass)
    requires ValidPass(p) && Sound(s)
    requires p.active && p.outcome.Produced?
    ensures var t := Next(name, reportsDir, ws, s, p);
      t.status == Idle && t.lastRun == Some(p.finishedAt) && t.lastError == s.lastError
      && name in t.reports
      && Reports.Entry(Reports.ReportName(p.stampTime),
                       Reports.ReportText(name, Clock.TitleStamp(p.titleTime), Reports.Sections(p.outcome.result)))
         in t.reports[name]
      && (forall a :: a in s.reports && a != name ==> a in t.reports && t.reports[a] == s.reports[a])
      && (ws ==> |t.sent| == |s.sent| + 3 && t.sent[|s.sent|].view.status == "running"
                 && t.sent[|s.sent| + 1].view.status == "idle")
      && (!ws ==> t.sent == s.sent)
  {
  }

  /** A cycle that raises leaves the reports and `last_run` alone and records the error. */
  lemma RaisedPassRecords(name: string, reportsDir: string, ws: bool, s: AgentState, p: Pass)
    requires ValidPass(p) && Sound(s)
    requires p.active && p.outcome.Raised?
    ensures var t := Next(name, reportsDir, ws, s, p);
      t.status == Failed && t.lastRun == s.lastRun && t.lastError == Some(p.outcome.message)
      && t.reports == s.reports
      && (ws ==> |t.sent| == |s.sent| + 2 && t.sent[|s.sent|].view.status == "running"
                 && t.sent[|s.sent| + 1].view == View(name, Failed, s.lastRun, Some(p.outcome.message)))
  {
  }

  /** The state after a sequence of passes. */
  function Passes(name: string, reportsDir: string, ws: bool, s: AgentState, ps: seq<Pass>): (t: AgentState)
    requires forall i :: 0 <= i < |ps| ==> ValidPass(ps[i])
    requires Sound(s)
    ensures Sound(t)
    decreases |ps|
  {
    if ps == [] then s
    else Next(name, reportsDir, ws, Passes(name, reportsDir, ws, s, ps[..|ps| - 1]), ps[|ps| - 1])
  }

  /** The message of the last cycle that raised, if any. */
  function LastRaised(ps: seq<Pass>): Option<string>
  {
    if ps == [] then None
    else if ps[|ps| - 1].active && ps[|ps| - 1].outcome.Raised? then Some(ps[|ps| - 1].outcome.message)
    else LastRaised(ps[..|ps| - 1])
  }

  /** The finishing time of the last cycle that returned, if any. */
  function LastProduced(ps: seq<Pass>): Option<Clock.DateTime>
  {
    if ps == [] then None
    else if ps[|ps| - 1].active && ps[|ps| - 1].outcome.Produced? then Some(ps[|ps| - 1].finishedAt)
    else LastProduced(ps[..|ps| - 1])
  }

  /**
   * A later success does not clear the error: after any passes, `last_error` is the text
   * of the last cycle that raised, and `last_run` the time of the last that returned.
   */
  lemma {:induction false} ErrorsAndRunsPersist(name: string, reportsDir: string, ws: bool, s: AgentState, ps: seq<Pass>)
    requires forall i :: 0 <= i < |ps| ==> ValidPass(ps[i])
    requires Sound(s)
    ensures var t := Passes(name, reportsDir, ws, s, ps);
      t.lastError == (if LastRaised(ps).Some? then LastRaised(ps) else s.lastError)
      && t.lastRun == (if LastProduced(ps).Some? then LastProduced(ps) else s.lastRun)
    decreases |ps|
  {
    if ps != [] {
      ErrorsAndRunsPersist(name, reportsDir, ws, s, ps[..|ps| - 1]);
    }
  }

  /** The status after a pass says how that pass ended, whatever came before. */
  lemma {:induction false} StatusFollowsLastPass(name: string, reportsDir: string, ws: bool, s: AgentState, ps: seq<Pass>)
    requires forall i :: 0 <= i < |ps| ==> ValidPass(ps[i])
    requires Sound(s)
    requires ps != []
    ensures var t := Passes(name, reportsDir, ws, s, ps);
      var p := ps[|ps| - 1];
      t.status == (if p.active && p.outcome.Raised? then Failed else Idle)
  {
  }

  class Agent {
    const name: string
    const reports: Reports.ReportManager
    const hasBroadcaster: bool
    var status: Status
    var lastRun: Option<Clock.DateTime>
    var lastError: Option<string>
    /** The events broadcast so far. */
    var sent: seq<Event>

    predicate Valid()
      reads this, reports
    {
      reports.Valid() && reports.agentName == name && RunValid()
    }

    /** `last_run`, when set, is a valid time. */
    predicate RunValid()
      reads this
    {
      lastRun.Some? ==> Clock.Valid(lastRun.value)
    }

    function State(): AgentState
      reads this, reports
    {
      AgentState(status, lastRun, lastError, sent, reports.dirs)
    }

    /** A new agent is idle, has never run and has no error. */
    constructor(name: string, existing: map<string, Reports.Dir>, hasBroadcaster: bool)
      requires forall a :: a in existing ==> Reports.DistinctNames(existing[a])
      ensures Valid() && fresh(reports)
      ensures this.name == name && this.hasBroadcaster == hasBroadcaster
      ensures status == Idle && lastRun == None && lastError == None && sent == []
    {
      this.name := name;
      this.hasBroadcaster := hasBroadcaster;
      reports := new Reports.ReportManager(name, "reports", existing);
      status := Idle;
      lastRun := None;
      lastError := None;
      sent := [];
    }

    /** `get_status`. */
    function GetStatus(): (v: StatusView)
      reads this
      requires RunValid()
      ensures v.name == name && v.status == StatusName(status) && v.last_error == lastError
      ensures v.last_run.Some? <==> lastRun.Some?
    {
      View(name, status, lastRun, lastError)
    }

    method Broadcast(e: Event)
      modifies this`sent
      ensures sent == old(sent) + Announce(hasBroadcaster, [e])
    {
      if hasBroadcaster {
        sent := sent + [e];
      }
    }

    /** One pass of the `while True` loop of `run`. */
    method Step(p: Pass)
      requires Valid() && ValidPass(p)
      modifies this, reports
      ensures Valid()
      ensures State() == Next(name, reports.reportsDir, hasBroadcaster, old(State()), p)
    {
      if !p.active {
        Rest();
      } else {
        ghost var s := State();
        status := Running;
        Broadcast(StatusChanged(GetStatus()));
        Finish(p, s);
      }
    }

    /** Every market closed: back to idle, announced only on a change. */
    method Rest()
      requires Valid()
      modifies this
      ensures Valid()
      ensures State() == (if old(status) != Idle
        then old(State()).(status := Idle, sent := old(sent) + Announce(hasBroadcaster, [StatusChanged(View(name, Idle, lastRun, lastError))]))
        else old(State()))
    {
      if status != Idle {
        status := Idle;
        Broadcast(StatusChanged(GetStatus()));
      }
    }

    /** The cycle has started and been announced; record how it ended. */
    method Finish(p: Pass, ghost s: AgentState)
      requires Valid() && ValidPass(p) && p.active && status == Running
      requires s == State().(status := s.status, sent := s.sent)
      requires sent == s.sent + Announce(hasBroadcaster, [StatusChanged(View(name, Running, s.lastRun, s.lastError))])
      requires Sound(s)
      modifies this, reports
      ensures Valid()
      ensures State() == Next(name, reports.reportsDir, hasBroadcaster, s, p)
    {
      match p.outcome {
        case Produced(result) =>
          Succeed(result, p.stampTime, p.titleTime, p.finishedAt);
          NextProduced(name, reports.reportsDir, hasBroadcaster, s, p);
        case Raised(message) =>
          Fail(message);
          NextRaised(name, reports.reportsDir, hasBroadcaster, s, p);
      }
    }

    /** The end of a cycle that returned `result`: the report, `last_run`, and back to idle. */
    method Succeed(result: map<string, Json>, stampTime: Clock.DateTime, titleTime: Clock.DateTime,
                   finishedAt: Clock.DateTime)
      requires Valid() && status == Running
      requires Clock.Valid(stampTime) && Clock.Valid(titleTime) && Clock.Valid(finishedAt)
      modifies this, reports
      ensures Valid()
      ensures var fileName := Reports.ReportName(stampTime);
        State() == AgentState(Idle, Some(finishedAt), old(lastError),
          old(sent) + Announce(hasBroadcaster, [StatusChanged(View(name, Idle, Some(finishedAt), old(lastError))),
                                                NewReport(name, reports.reportsDir + "/" + name + "/" + fileName)]),
          Written(old(reports.dirs), name,
            Reports.Entry(fileName, Reports.ReportText(name, Clock.TitleStamp(titleTime), Reports.Sections(result)))))
    {
      var path := reports.WriteReport(result, stampTime, titleTime);
      Record(finishedAt, path);
    }

    /** After the report is written: `last_run`, back to idle, and the two broadcasts. */
    method Record(finishedAt: Clock.DateTime, path: string)
      requires Clock.Valid(finishedAt)
      modifies this`lastRun, this`status, this`sent
      ensures lastRun == Some(finishedAt) && status == Idle
      ensures sent == old(sent) + Announce(hasBroadcaster, [StatusChanged(View(name, Idle, Some(finishedAt), lastError)),
                                                         NewReport(name, path)])
    {
      lastRun := Some(finishedAt);
      status := Idle;
      var idle := StatusChanged(GetStatus());
      Broadcast(idle);
      Broadcast(NewReport(name, path));
      SentAfter(old(sent), hasBroadcaster, idle, [NewReport(name, path)]);
    }

    /** The end of a cycle that raised `message`. */
    method Fail(message: string)
      requires Valid() && status == Running
      modifies this
      ensures Valid()
      ensures State() == AgentState(Failed, old(lastRun), Some(message),
        old(sent) + Announce(hasBroadcaster, [StatusChanged(View(name, Failed, old(lastRun), Some(message)))]),
        old(reports.dirs))
    {
      status := Failed;
      lastError := Some(message);
      Broadcast(StatusChanged(GetStatus()));
    }

    /** `run` over a finite prefix of its passes. */
    method Run(ps: seq<Pass>)
      requires Valid()
      requires forall i :: 0 <= i < |ps| ==> ValidPass(ps[i])
      modifies this, reports
      ensures Valid()
      ensures State() == Passes(name, reports.reportsDir, hasBroadcaster, old(State()), ps)
    {
      for i := 0 to |ps|
        invariant Valid()
        invariant State() == Passes(name, reports.reportsDir, hasBroadcaster, old(State()), ps[..i])
      {
        assert ps[..i + 1][..i] == ps[..i];
        Step(ps[i]);
      }
      assert ps[..|ps|] == ps;
    }
  }
}
