/**
 * The report store: one directory per agent under the reports directory, one markdown
 * file per report named by the second it was written, listed and read back newest
 * first by file name.
 *
 * A directory is the sequence of its files in listing order; file names within one
 * directory are distinct. The clock readings `write_report` takes are parameters.
 */
module Reports {
  import opened Wrappers
  import opened JsonValue
  import Text
  import Clock
  import Sorting

  const KnownAgents: seq<string> := ["data_collector", "data_analyst", "trade_executor", "risk_manager"]

  datatype Entry = Entry(name: string, content: string)

  type Dir = seq<Entry>

  function EntryName(e: Entry): string { e.name }

  function Names(d: Dir): (names: seq<string>)
    ensures |names| == |d|
    ensures forall i :: 0 <= i < |d| ==> names[i] == d[i].name
  {
    seq(|d|, i requires 0 <= i < |d| => d[i].name)
  }

  predicate DistinctNames(d: Dir)
  {
    forall i, j :: 0 <= i < j < |d| ==> d[i].name != d[j].name
  }

  /** Matched by the pattern `*.md`. */
  predicate IsMarkdown(name: string)
  {
    |name| >= 3 && name[|name| - 3..] == ".md"
  }

  /** The markdown files of a directory, in listing order. */
  function Markdown(d: Dir): (r: Dir)
    ensures |r| <= |d|
    ensures forall x :: x in r ==> x in d && IsMarkdown(x.name)
  {
    if d == [] then []
    else (if IsMarkdown(d[0].name) then [d[0]] else []) + Markdown(d[1..])
  }

  /** `write_text`: replaces the file of that name, or adds it at the end of the listing. */
  function Put(d: Dir, e: Entry): (r: Dir)
    requires DistinctNames(d)
    ensures DistinctNames(r)
    ensures e in r
    ensures forall x :: x in r ==> x == e || (x in d && x.name != e.name)
    ensures forall x :: x in d && x.name != e.name ==> x in r
    ensures (forall x :: x in d ==> x.name != e.name) ==> r == d + [e]
  {
    if d == [] then [e]
    else if d[0].name == e.name then [e] + d[1..]
    else
      assert d == [d[0]] + d[1..];
      [d[0]] + Put(d[1..], e)
  }

  function AllAfter(d: Dir, name: string): bool
  {
    forall x :: x in d ==> Sorting.Less(x.name, name)
  }

  function Title(agent: string, title: string): string
  {
    "# " + agent + " Report - " + title
  }

  /** A section is its heading line followed by its text. */
  function Blocks(sections: seq<(string, string)>): (r: seq<string>)
    ensures |r| == |sections|
  {
    seq(|sections|, i requires 0 <= i < |sections| => sections[i].0 + sections[i].1)
  }

  /** The text of a report: the title line, then each section, separated by blank lines. */
  function ReportText(agent: string, title: string, sections: seq<(string, string)>): string
  {
    Text.Join([Title(agent, title)] + Blocks(sections), "\n\n") + "\n"
  }

  /** `data.get(key, 'N/A')` as the report renders it. */
  function Field(data: map<string, Json>, key: string): (s: string)
    ensures key !in data ==> s == "N/A"
    ensures key in data && data[key].JStr? ==> s == data[key].s
  {
    Display(GetOr(data, key, JStr("N/A")))
  }

  function Sections(data: map<string, Json>): (r: seq<(string, string)>)
    ensures |r| == 5
  {
    [ ("## Summary\n", Field(data, "summary")),
      ("## Data\n", Field(data, "data")),
      ("## LLM Decision\n", Field(data, "llm_decision")),
      ("## Actions Taken\n", Field(data, "actions")),
      ("## Recommendations\n", Field(data, "recommendations")) ]
  }

  /** The file name of a report written at `t`: `%Y-%m-%d_%H-%M-%S.md`. */
  function ReportName(t: Clock.DateTime): (name: string)
    requires Clock.Valid(t)
    ensures |name| == 22 && IsMarkdown(name)
  {
    Clock.FileStamp(t) + ".md"
  }

  /** A report written at a later second has a later name. */
  lemma NameOrder(t1: Clock.DateTime, t2: Clock.DateTime)
    requires Clock.Valid(t1) && Clock.Valid(t2)
    ensures Sorting.Less(ReportName(t1), ReportName(t2)) <==> Clock.Earlier(t1, t2)
  {
    Clock.StampOrder(t1, t2, '_', '-');
    var s1, s2 := Clock.FileStamp(t1), Clock.FileStamp(t2);
    if s1 == s2 {
      Sorting.LessIrreflexive(s1 + ".md");
      Sorting.LessIrreflexive(s1);
    } else {
      Clock.LessPrefixDecides(s1, s2, ".md", ".md");
    }
  }

  /** `sorted(agent_dir.glob("*.md"), reverse=True)`: newest name first. */
  function Newest(d: Dir): (r: Dir)
    ensures multiset(r) == multiset(Markdown(d))
  {
    Sorting.SortDescBy(Markdown(d), EntryName)
  }

  /** Contents of the first `n` entries of the newest-first listing. */
  function ReadFrom(d: Dir, n: int): (r: seq<string>)
    ensures n >= 0 ==> |r| <= n
    ensures |r| <= |Markdown(d)|
  {
    var files := Text.PyTake(Newest(d), n);
    assert |Newest(d)| == |Markdown(d)| by {
      assert |multiset(Newest(d))| == |multiset(Markdown(d))|;
    }
    seq(|files|, i requires 0 <= i < |files| => files[i].content)
  }

  /** Sorting entries by name and taking the names commutes. */
  lemma {:induction false} NamesOfSorted(es: Dir)
    ensures Names(Sorting.SortDescBy(es, EntryName)) == Sorting.SortDesc(Names(es))
    decreases |es|
  {
    if es != [] {
      var init := es[..|es| - 1];
      NamesOfSorted(init);
      assert Names(es)[..|es| - 1] == Names(init);
      NamesOfInsert(es[|es| - 1], Sorting.SortDescBy(init, EntryName));
    }
  }

  lemma {:induction false} NamesOfInsert(e: Entry, es: Dir)
    ensures Names(Sorting.InsertDescBy(e, es, EntryName)) == Sorting.InsertDescBy(e.name, Names(es), Sorting.Id)
    decreases |es|
  {
    var ns := Names(es);
    if es == [] {
      assert Names([e]) == [e.name];
    } else if Sorting.Less(es[0].name, e.name) {
      assert Names([e] + es) == [e.name] + ns;
    } else {
      assert ns[1..] == Names(es[1..]) && ns[0] == es[0].name;
      var rest := Sorting.InsertDescBy(e, es[1..], EntryName);
      NamesOfInsert(e, es[1..]);
      NamesOfCons(es[0], rest);
      assert Sorting.InsertDescBy(e, es, EntryName) == [es[0]] + rest;
      assert Sorting.InsertDescBy(e.name, ns, Sorting.Id) == [ns[0]] + Sorting.InsertDescBy(e.name, ns[1..], Sorting.Id);
    }
  }

  lemma NamesOfCons(x: Entry, es: Dir)
    ensures Names([x] + es) == [x.name] + Names(es)
  {
  }

  /** An entry whose name is later than every other goes to the front of the sort. */
  lemma {:induction false} InsertLatestFirst(e: Entry, es: Dir)
    requires AllAfter(es, e.name)
    ensures Sorting.InsertDescBy(e, es, EntryName) == [e] + es
  {
    if es != [] {
      assert es[0] in es;
    }
  }

  /** A report named after every existing one is the first read back. */
  lemma LatestReadFirst(d: Dir, e: Entry)
    requires DistinctNames(d)
    requires IsMarkdown(e.name)
    requires AllAfter(d, e.name)
    ensures ReadFrom(Put(d, e), 1) == [e.content]
  {
    MarkdownOfPutLatest(d, e);
    var sorted := Sorting.SortDescBy(Markdown(d), EntryName);
    SortedAllAfter(Markdown(d), e.name);
    InsertLatestFirst(e, sorted);
    ReadFirst(Put(d, e), e, sorted);
  }

  /** Sorting keeps every name before `name`. */
  lemma SortedAllAfter(es: Dir, name: string)
    requires AllAfter(es, name)
    ensures AllAfter(Sorting.SortDescBy(es, EntryName), name)
  {
    var sorted := Sorting.SortDescBy(es, EntryName);
    forall x | x in sorted
      ensures Sorting.Less(x.name, name)
    {
      assert x in multiset(sorted);
    }
  }

  /** Reading one file returns the newest one. */
  lemma ReadFirst(d: Dir, e: Entry, rest: Dir)
    requires Newest(d) == [e] + rest
    ensures ReadFrom(d, 1) == [e.content]
  {
    assert Text.PyTake(Newest(d), 1) == [e];
  }

  lemma MarkdownOfPutLatest(d: Dir, e: Entry)
    requires DistinctNames(d)
    requires IsMarkdown(e.name)
    requires AllAfter(d, e.name)
    ensures Put(d, e) == d + [e]
    ensures Markdown(Put(d, e)) == Markdown(d) + [e]
    ensures Sorting.SortDescBy(Markdown(Put(d, e)), EntryName)
      == Sorting.InsertDescBy(e, Sorting.SortDescBy(Markdown(d), EntryName), EntryName)
  {
    forall x | x in d
      ensures x.name != e.name
    {
      Sorting.LessIrreflexive(e.name);
    }
    MarkdownSnoc(d, e);
    var md := Markdown(d);
    assert (md + [e])[..|md|] == md;
  }

  lemma {:induction false} MarkdownSnoc(d: Dir, e: Entry)
    ensures Markdown(d + [e]) == Markdown(d) + (if IsMarkdown(e.name) then [e] else [])
    decreases |d|
  {
    if d == [] {
      assert [e][1..] == [];
    } else {
      assert (d + [e])[0] == d[0] && (d + [e])[1..] == d[1..] + [e];
      MarkdownSnoc(d[1..], e);
      var head := if IsMarkdown(d[0].name) then [d[0]] else [];
      assert Markdown(d + [e]) == head + Markdown(d[1..] + [e]);
      assert Markdown(d) == head + Markdown(d[1..]);
    }
  }

  /** Writing within the second of an existing report replaces it: the listing does not grow. */
  lemma {:induction false} SameSecondReplaces(d: Dir, e: Entry)
    requires DistinctNames(d)
    requires exists x :: x in d && x.name == e.name
    ensures |Put(d, e)| == |d|
    decreases |d|
  {
    if d[0].name != e.name {
      var x :| x in d && x.name == e.name;
      assert x in d[1..];
      SameSecondReplaces(d[1..], e);
    }
  }

  /** An agent's directory, empty when it does not exist yet. */
  function DirIn(dirs: map<string, Dir>, agent: string): Dir
  {
    if agent in dirs then dirs[agent] else []
  }

  class ReportManager {
    const agentName: string
    const reportsDir: string
    /** The subdirectories of the reports directory, by name. */
    var dirs: map<string, Dir>

    /** File names are unique within each directory. */
    predicate Valid()
      reads this
    {
      forall a :: a in dirs ==> DistinctNames(dirs[a])
    }

    /** The constructor: keeps every existing directory and creates the four known ones. */
    constructor(agentName: string, reportsDir: string, existing: map<string, Dir>)
      requires forall a :: a in existing ==> DistinctNames(existing[a])
      ensures Valid()
      ensures this.agentName == agentName && this.reportsDir == reportsDir
      ensures dirs.Keys == existing.Keys + set a | a in KnownAgents
      ensures forall a :: a in existing ==> dirs[a] == existing[a]
      ensures forall a :: a in dirs && a !in existing ==> dirs[a] == []
    {
      this.agentName := agentName;
      this.reportsDir := reportsDir;
      dirs := existing;
      new;
      EnsureDirs();
    }

    /** `_ensure_dirs`: creates each known agent's directory unless it exists. */
    method EnsureDirs()
      modifies this
      ensures dirs.Keys == old(dirs).Keys + set a | a in KnownAgents
      ensures forall a :: a in old(dirs) ==> dirs[a] == old(dirs)[a]
      ensures forall a :: a in dirs && a !in old(dirs) ==> dirs[a] == []
    {
      for i := 0 to |KnownAgents|
        invariant dirs.Keys == old(dirs).Keys + set j | 0 <= j < i :: KnownAgents[j]
        invariant forall a :: a in old(dirs) ==> dirs[a] == old(dirs)[a]
        invariant forall a :: a in dirs && a !in old(dirs) ==> dirs[a] == []
      {
        if KnownAgents[i] !in dirs {
          dirs := dirs[KnownAgents[i] := []];
        }
      }
      assert (set j | 0 <= j < |KnownAgents| :: KnownAgents[j]) == set a | a in KnownAgents;
    }


    /**
     * `write_report`: the file name comes from the first clock reading, the title from the
     * second; sections missing from `data` read "N/A".
     */
    method WriteReport(data: map<string, Json>, stampTime: Clock.DateTime, titleTime: Clock.DateTime)
      returns (path: string)
      requires Valid() && Clock.Valid(stampTime) && Clock.Valid(titleTime)
      modifies this
      ensures Valid()
      ensures path == reportsDir + "/" + agentName + "/" + ReportName(stampTime)
      ensures dirs == old(dirs)[agentName := Put(DirIn(old(dirs), agentName),
        Entry(ReportName(stampTime), ReportText(agentName, Clock.TitleStamp(titleTime), Sections(data))))]
    {
      var filename := Clock.FileStamp(stampTime) + ".md";
      path := reportsDir + "/" + agentName + "/" + filename;
      // `mkdir(exist_ok=True)`: a missing directory starts empty
      var d := DirIn(dirs, agentName);
      assert DistinctNames(d);
      var content := Content(agentName, Clock.TitleStamp(titleTime), data);
      var written := Put(d, Entry(filename, content));
      dirs := dirs[agentName := written];
    }

    /** `list_reports`: every markdown name, newest first; nothing for a missing directory. */
    function ListReports(agent: string): seq<string>
      reads this
    {
      if agent !in dirs then [] else Sorting.SortDesc(Names(Markdown(dirs[agent])))
    }

    /** `read_reports`: the contents of the `n` newest reports; nothing for a missing directory. */
    function ReadReports(agent: string, n: int): seq<string>
      reads this
    {
      if agent !in dirs then [] else ReadFrom(dirs[agent], n)
    }
  }

  /** The `content +=` steps of `write_report`. */
  method Content(agent: string, stamp: string, data: map<string, Json>) returns (content: string)
    ensures content == ReportText(agent, stamp, Sections(data))
  {
    content := "# " + agent + " Report - " + stamp + "\n\n";
    content := content + "## Summary\n" + Field(data, "summary") + "\n\n";
    content := content + "## Data\n" + Field(data, "data") + "\n\n";
    content := content + "## LLM Decision\n" + Field(data, "llm_decision") + "\n\n";
    content := content + "## Actions Taken\n" + Field(data, "actions") + "\n\n";
    content := content + "## Recommendations\n" + Field(data, "recommendations") + "\n";
    ContentSteps(agent, stamp, data);
  }

  /** The text of a report, as the appends of `write_report` build it. */
  lemma ContentSteps(agent: string, stamp: string, data: map<string, Json>)
    ensures ReportText(agent, stamp, Sections(data)) ==
      "# " + agent + " Report - " + stamp + "\n\n"
      + "## Summary\n" + Field(data, "summary") + "\n\n"
      + "## Data\n" + Field(data, "data") + "\n\n"
      + "## LLM Decision\n" + Field(data, "llm_decision") + "\n\n"
      + "## Actions Taken\n" + Field(data, "actions") + "\n\n"
      + "## Recommendations\n" + Field(data, "recommendations") + "\n"
  {
    var title := Title(agent, stamp);
    var b0, b1 := "## Summary\n" + Field(data, "summary"), "## Data\n" + Field(data, "data");
    var b2 := "## LLM Decision\n" + Field(data, "llm_decision");
    var b3 := "## Actions Taken\n" + Field(data, "actions");
    var b4 := "## Recommendations\n" + Field(data, "recommendations");
    var content := "# " + agent + " Report - " + stamp + "\n\n";
    Section(content, [title], "## Summary\n", Field(data, "summary"));
    content := content + "## Summary\n" + Field(data, "summary") + "\n\n";
    Section(content, [title] + [b0], "## Data\n", Field(data, "data"));
    content := content + "## Data\n" + Field(data, "data") + "\n\n";
    Section(content, [title] + [b0] + [b1], "## LLM Decision\n", Field(data, "llm_decision"));
    content := content + "## LLM Decision\n" + Field(data, "llm_decision") + "\n\n";
    Section(content, [title] + [b0] + [b1] + [b2], "## Actions Taken\n", Field(data, "actions"));
    content := content + "## Actions Taken\n" + Field(data, "actions") + "\n\n";
    LastSection(content, [title] + [b0] + [b1] + [b2] + [b3], "## Recommendations\n", Field(data, "recommendations"));
    SectionBlocks(title, data);
  }

  /** The title line and the five sections, as a chain of appends. */
  lemma SectionBlocks(title: string, data: map<string, Json>)
    ensures [title] + Blocks(Sections(data)) ==
      [title] + ["## Summary\n" + Field(data, "summary")] + ["## Data\n" + Field(data, "data")]
      + ["## LLM Decision\n" + Field(data, "llm_decision")] + ["## Actions Taken\n" + Field(data, "actions")]
      + ["## Recommendations\n" + Field(data, "recommendations")]
  {
  }

  lemma Section(before: string, lines: seq<string>, heading: string, body: string)
    requires |lines| >= 1 && before == Text.Join(lines, "\n\n") + "\n\n"
    ensures before + heading + body + "\n\n" == Text.Join(lines + [heading + body], "\n\n") + "\n\n"
  {
    var joined := Text.Join(lines, "\n\n");
    Text.JoinSnoc(lines, heading + body, "\n\n");
    assert before + heading + body == joined + "\n\n" + (heading + body);
  }

  /** The last section ends the text with a single newline. */
  lemma LastSection(before: string, lines: seq<string>, heading: string, body: string)
    requires |lines| >= 1 && before == Text.Join(lines, "\n\n") + "\n\n"
    ensures before + heading + body + "\n" == Text.Join(lines + [heading + body], "\n\n") + "\n"
  {
    var joined := Text.Join(lines, "\n\n");
    Text.JoinSnoc(lines, heading + body, "\n\n");
    assert before + heading + body == joined + "\n\n" + (heading + body);
  }

  /** A listing is newest first and holds every markdown name of the directory. */
  lemma ListingIsNewestFirst(m: ReportManager, agent: string)
    ensures Sorting.SortedDescBy(m.ListReports(agent), Sorting.Id)
    ensures agent in m.dirs ==> multiset(m.ListReports(agent)) == multiset(Names(Markdown(m.dirs[agent])))
    ensures agent !in m.dirs ==> m.ListReports(agent) == [] && m.ReadReports(agent, 3) == []
  {
    if agent in m.dirs {
      Sorting.SortDescBySorted(Names(Markdown(m.dirs[agent])), Sorting.Id);
    }
  }

  /** `read_reports` reads the first `n` names of `list_reports`. */
  lemma ReadFollowsListing(m: ReportManager, agent: string, n: int)
    requires agent in m.dirs
    ensures var files := Text.PyTake(Newest(m.dirs[agent]), n);
      Names(files) == Text.PyTake(m.ListReports(agent), n)
      && m.ReadReports(agent, n) == seq(|files|, i requires 0 <= i < |files| => files[i].content)
  {
    var d := m.dirs[agent];
    NamesOfSorted(Markdown(d));
    var all := Newest(d);
    var files := Text.PyTake(all, n);
    assert Names(files) == Names(all)[..|files|];
  }

  /** After writing a report at a later second than every existing one, it is the first read back. */
  lemma WriteThenReadNewest(d: Dir, agent: string, title: string, data: map<string, Json>, t: Clock.DateTime)
    requires Clock.Valid(t) && DistinctNames(d)
    requires forall x :: x in d ==> Sorting.Less(x.name, ReportName(t))
    ensures ReadFrom(Put(d, Entry(ReportName(t), ReportText(agent, title, Sections(data)))), 1)
      == [ReportText(agent, title, Sections(data))]
  {
    LatestReadFirst(d, Entry(ReportName(t), ReportText(agent, title, Sections(data))));
  }
}
