/** The dashboard page: the summary statistics it derives from the projects,
    tools and employees tables, and the loading / error / stats state that a
    refresh steps through. */
module Dashboard {
  import opened Wrappers
  import opened ArrayOps

  const InProgress := "in-progress"
  const Completed := "completed"
  const InUse := "in-use"
  const Available := "available"
  const Active := "active"

  /** Shown when a failed query carries no message of its own. */
  const DefaultFetchError := "Failed to fetch data"

  /** A row of the projects table. `budget` is None when the stored value is
      null, absent or not a number. */
  datatype Project = Project(status: string, budget: Option<int>)

  /** A row of the tools table. */
  datatype Tool = Tool(status: string)

  /** A row of the employees table. */
  datatype Employee = Employee(status: string)

  /** The error a failed query reports. */
  datatype FetchError = FetchError(message: string)

  /** The seven figures the dashboard shows. */
  datatype DashboardStats = DashboardStats(
    activeProjects: nat,
    totalTools: nat,
    activeEmployees: nat,
    monthlyExpenses: int,
    completedProjects: nat,
    toolsInUse: nat,
    toolsAvailable: nat)

  predicate IsInProgress(p: Project) { p.status == InProgress }
  predicate IsCompleted(p: Project) { p.status == Completed }
  predicate IsInUse(t: Tool) { t.status == InUse }
  predicate IsAvailable(t: Tool) { t.status == Available }
  predicate IsActive(e: Employee) { e.status == Active }

  /** The amount a project's budget adds to the sum: the stored number, or
      zero when the budget is missing or not a number. It is zero exactly when
      the budget is missing or is itself zero. */
  function BudgetValue(p: Project): (amount: int)
    ensures p.budget.Some? ==> amount == p.budget.value
    ensures amount == 0 <==> p.budget == None || p.budget == Some(0)
  {
    match p.budget
    case Some(b) => b
    case None => 0
  }

  /** Reference definition of the committed budget: every project adds its
      budget if it is in progress and nothing otherwise. */
  function InProgressBudgets(projects: seq<Project>): (total: int)
  {
    if projects == [] then 0
    else (if IsInProgress(projects[0]) then BudgetValue(projects[0]) else 0)
         + InProgressBudgets(projects[1..])
  }

  /** The number of projects kept when filtering for status "in-progress". */
  function ActiveProjects(projects: seq<Project>): (n: nat)
    ensures n == |Positions(projects, IsInProgress)|
  {
    FilterLengthIsCount(projects, IsInProgress);
    |Filter(projects, IsInProgress)|
  }

  /** The number of projects kept when filtering for status "completed". */
  function CompletedProjects(projects: seq<Project>): (n: nat)
    ensures n == |Positions(projects, IsCompleted)|
  {
    FilterLengthIsCount(projects, IsCompleted);
    |Filter(projects, IsCompleted)|
  }

  /** The in-progress projects' budgets reduced with `+` from 0. */
  function ProjectBudgetSum(projects: seq<Project>): (sum: int)
    ensures sum == InProgressBudgets(projects)
  {
    FoldInProgressBudgets(0, projects);
    FoldLeft(BudgetValue, 0, Filter(projects, IsInProgress))
  }

  /** The number of tools kept when filtering for status "in-use". */
  function ToolsInUse(tools: seq<Tool>): (n: nat)
    ensures n == |Positions(tools, IsInUse)|
  {
    FilterLengthIsCount(tools, IsInUse);
    |Filter(tools, IsInUse)|
  }

  /** The number of tools kept when filtering for status "available". */
  function ToolsAvailable(tools: seq<Tool>): (n: nat)
    ensures n == |Positions(tools, IsAvailable)|
  {
    FilterLengthIsCount(tools, IsAvailable);
    |Filter(tools, IsAvailable)|
  }

  /** The number of employees kept when filtering for status "active". */
  function ActiveEmployees(employees: seq<Employee>): (n: nat)
    ensures n == |Positions(employees, IsActive)|
    ensures n <= |employees|
  {
    FilterLengthIsCount(employees, IsActive);
    |Filter(employees, IsActive)|
  }

  /** The stats record assembled once all three tables have been read. */
  function ComputeStats(projects: seq<Project>, tools: seq<Tool>, employees: seq<Employee>): (s: DashboardStats)
    ensures s.activeProjects == |Positions(projects, IsInProgress)|
    ensures s.completedProjects == |Positions(projects, IsCompleted)|
    ensures s.monthlyExpenses == InProgressBudgets(projects)
    ensures s.totalTools == |tools|
    ensures s.toolsInUse == |Positions(tools, IsInUse)|
    ensures s.toolsAvailable == |Positions(tools, IsAvailable)|
    ensures s.activeEmployees == |Positions(employees, IsActive)|
  {
    DashboardStats(
      activeProjects := ActiveProjects(projects),
      totalTools := |tools|,
      activeEmployees := ActiveEmployees(employees),
      monthlyExpenses := ProjectBudgetSum(projects),
      completedProjects := CompletedProjects(projects),
      toolsInUse := ToolsInUse(tools),
      toolsAvailable := ToolsAvailable(tools))
  }

  /** The initial value of the stats state: every figure zero. */
  function ZeroStats(): (s: DashboardStats)
    ensures s.activeProjects == s.totalTools == s.activeEmployees == s.completedProjects
         == s.toolsInUse == s.toolsAvailable == 0
    ensures s.monthlyExpenses == 0
  {
    DashboardStats(0, 0, 0, 0, 0, 0, 0)
  }

  /** The text stored as the page's error: the failure's own message, or the
      fallback text when that message is empty. It is never empty, so the page
      always shows its error view after a failure. */
  function ErrorText(e: FetchError): (text: string)
    ensures text != ""
    ensures e.message != "" ==> text == e.message
    ensures e.message == "" ==> text == DefaultFetchError
  {
    if e.message != "" then e.message else DefaultFetchError
  }

  /** The error that ends a refresh: the tables are read in the order projects,
      tools, employees, and the first failure stops the refresh. */
  function FirstFailure(
    projectsResult: Result<seq<Project>, FetchError>,
    toolsResult: Result<seq<Tool>, FetchError>,
    employeesResult: Result<seq<Employee>, FetchError>): (r: Option<FetchError>)
    ensures r == None <==> projectsResult.Success? && toolsResult.Success? && employeesResult.Success?
    ensures projectsResult.Failure? ==> r == Some(projectsResult.error)
    ensures projectsResult.Success? && toolsResult.Failure? ==> r == Some(toolsResult.error)
    ensures projectsResult.Success? && toolsResult.Success? && employeesResult.Failure?
            ==> r == Some(employeesResult.error)
  {
    if projectsResult.Failure? then Some(projectsResult.error)
    else if toolsResult.Failure? then Some(toolsResult.error)
    else if employeesResult.Failure? then Some(employeesResult.error)
    else None
  }

  /** Reducing the in-progress projects' budgets onto `acc` adds exactly the
      committed budget to `acc`. */
  lemma {:induction false} FoldInProgressBudgets(acc: int, projects: seq<Project>)
    ensures FoldLeft(BudgetValue, acc, Filter(projects, IsInProgress)) == acc + InProgressBudgets(projects)
    decreases projects
  {
    if projects != [] {
      var p, rest := projects[0], projects[1..];
      if IsInProgress(p) {
        assert Filter(projects, IsInProgress) == [p] + Filter(rest, IsInProgress);
        assert ([p] + Filter(rest, IsInProgress))[1..] == Filter(rest, IsInProgress);
        FoldInProgressBudgets(acc + BudgetValue(p), rest);
      } else {
        assert Filter(projects, IsInProgress) == Filter(rest, IsInProgress);
        FoldInProgressBudgets(acc, rest);
      }
    }
  }

  /** No project is both in progress and completed, so the two counts together
      never exceed the number of projects, and reach it exactly when every
      project has one of those two statuses. */
  lemma ProjectCountsBound(projects: seq<Project>)
    ensures ActiveProjects(projects) + CompletedProjects(projects) <= |projects|
    ensures ActiveProjects(projects) + CompletedProjects(projects) == |projects|
        <==> forall i :: 0 <= i < |projects| ==> projects[i].status in {InProgress, Completed}
  {
    DisjointFilterCounts(projects, IsInProgress, IsCompleted);
  }

  /** A tool is not both in use and available, so the two counts together never
      exceed the number of tools. */
  lemma ToolCountsBound(tools: seq<Tool>)
    ensures ToolsInUse(tools) + ToolsAvailable(tools) <= |tools|
    ensures ToolsInUse(tools) + ToolsAvailable(tools) == |tools|
        <==> forall i :: 0 <= i < |tools| ==> tools[i].status in {InUse, Available}
  {
    DisjointFilterCounts(tools, IsInUse, IsAvailable);
  }

  /** Every figure of a computed stats record is bounded by its table. */
  lemma StatsBounds(projects: seq<Project>, tools: seq<Tool>, employees: seq<Employee>)
    ensures var s := ComputeStats(projects, tools, employees);
      && s.activeProjects + s.completedProjects <= |projects|
      && s.toolsInUse + s.toolsAvailable <= s.totalTools
      && s.activeEmployees <= |employees|
  {
    ProjectCountsBound(projects);
    ToolCountsBound(tools);
  }

  /** With no negative budget, the committed budget is not negative. */
  lemma {:induction false} MonthlyExpensesNonNegative(projects: seq<Project>)
    requires forall i :: 0 <= i < |projects| ==> BudgetValue(projects[i]) >= 0
    ensures ProjectBudgetSum(projects) >= 0
  {
    if projects != [] {
      MonthlyExpensesNonNegative(projects[1..]);
    }
  }

  /** Inserting a project that is not in progress, anywhere in the table,
      changes neither the active count nor the committed budget. */
  lemma InsertIgnoredProject(projects: seq<Project>, i: nat, p: Project)
    requires i <= |projects|
    requires !IsInProgress(p)
    ensures ActiveProjects(projects[..i] + [p] + projects[i..]) == ActiveProjects(projects)
    ensures ProjectBudgetSum(projects[..i] + [p] + projects[i..]) == ProjectBudgetSum(projects)
  {
    var front, back := projects[..i], projects[i..];
    assert projects == front + back;
    FilterAppend(front + [p], back, IsInProgress);
    FilterAppend(front, [p], IsInProgress);
    FilterAppend(front, back, IsInProgress);
    assert [p][1..] == [];
    assert Filter([p], IsInProgress) == [];
    assert Filter(front + [p] + back, IsInProgress) == Filter(projects, IsInProgress);
  }

  /** Removing a project that is not in progress changes neither the active
      count nor the committed budget. */
  lemma RemoveIgnoredProject(projects: seq<Project>, i: nat)
    requires i < |projects|
    requires !IsInProgress(projects[i])
    ensures ActiveProjects(projects[..i] + projects[i + 1..]) == ActiveProjects(projects)
    ensures ProjectBudgetSum(projects[..i] + projects[i + 1..]) == ProjectBudgetSum(projects)
  {
    var rest := projects[..i] + projects[i + 1..];
    assert rest[..i] == projects[..i];
    assert rest[i..] == projects[i + 1..];
    assert rest[..i] + [projects[i]] + rest[i..] == projects;
    InsertIgnoredProject(rest, i, projects[i]);
  }

  /** Editing a project that is not in progress, so that it is still not in
      progress, changes neither the active count nor the committed budget. */
  lemma EditIgnoredProject(projects: seq<Project>, i: nat, p: Project)
    requires i < |projects|
    requires !IsInProgress(projects[i]) && !IsInProgress(p)
    ensures ActiveProjects(projects[i := p]) == ActiveProjects(projects)
    ensures ProjectBudgetSum(projects[i := p]) == ProjectBudgetSum(projects)
  {
    var rest := projects[..i] + projects[i + 1..];
    RemoveIgnoredProject(projects, i);
    RemoveIgnoredProject(projects[i := p], i);
    assert projects[i := p][..i] + projects[i := p][i + 1..] == rest;
  }

  /** A missing budget and a budget of zero are interchangeable: replacing one
      project's missing budget by 0 changes no figure. */
  lemma MissingBudgetCountsZero(projects: seq<Project>, i: nat)
    requires i < |projects| && projects[i].budget == None
    ensures var zeroed := projects[i := projects[i].(budget := Some(0))];
      && ActiveProjects(zeroed) == ActiveProjects(projects)
      && CompletedProjects(zeroed) == CompletedProjects(projects)
      && ProjectBudgetSum(zeroed) == ProjectBudgetSum(projects)
  {
    var zeroed := projects[i := projects[i].(budget := Some(0))];
    SameStatusAndAmountSameFigures(projects, zeroed);
    assert Positions(zeroed, IsInProgress) == Positions(projects, IsInProgress);
    assert Positions(zeroed, IsCompleted) == Positions(projects, IsCompleted);
  }

  /** Two project tables that agree, position by position, on status and on
      the amount each budget adds have the same committed budget. */
  lemma {:induction false} SameStatusAndAmountSameFigures(a: seq<Project>, b: seq<Project>)
    requires |a| == |b|
    requires forall j :: 0 <= j < |a| ==> a[j].status == b[j].status && BudgetValue(a[j]) == BudgetValue(b[j])
    ensures InProgressBudgets(a) == InProgressBudgets(b)
  {
    if a != [] {
      SameStatusAndAmountSameFigures(a[1..], b[1..]);
    }
  }

  /** Two in-progress projects (one without a budget) and one completed
      project: two active, one completed, and only the numeric budget of an
      in-progress project is committed. */
  lemma ProjectsScenario()
    ensures var projects := [Project(InProgress, Some(1000)), Project(Completed, Some(500)), Project(InProgress, None)];
      && ActiveProjects(projects) == 2
      && CompletedProjects(projects) == 1
      && ProjectBudgetSum(projects) == 1000
  {
    var projects := [Project(InProgress, Some(1000)), Project(Completed, Some(500)), Project(InProgress, None)];
    assert projects[1..] == [projects[1], projects[2]];
    assert projects[2..] == [projects[2]];
    assert projects[1..][1..] == projects[2..];
    assert projects[2..][1..] == [];
    assert !IsInProgress(projects[1]) && !IsCompleted(projects[0]) && !IsCompleted(projects[2]);
    assert Filter(projects[2..], IsInProgress) == [projects[2]];
    assert Filter(projects[1..], IsInProgress) == [projects[2]];
    assert Filter(projects, IsInProgress) == [projects[0], projects[2]];
    assert Filter(projects[2..], IsCompleted) == [];
    assert Filter(projects[1..], IsCompleted) == [projects[1]];
    assert Filter(projects, IsCompleted) == [projects[1]];
    assert InProgressBudgets(projects[2..]) == 0;
    assert InProgressBudgets(projects[1..]) == 0;
  }

  /** One available tool and two in use. */
  lemma ToolsScenario()
    ensures var tools := [Tool(Available), Tool(InUse), Tool(InUse)];
      && ToolsInUse(tools) == 2
      && ToolsAvailable(tools) == 1
      && ComputeStats([], tools, []).totalTools == 3
  {
    var tools := [Tool(Available), Tool(InUse), Tool(InUse)];
    assert tools[1..] == [tools[1], tools[2]];
    assert tools[1..][1..] == [tools[2]];
    assert tools[1..][1..][1..] == [];
    assert !IsInUse(tools[0]) && !IsAvailable(tools[1]) && !IsAvailable(tools[2]);
    assert Filter(tools[1..][1..], IsInUse) == [tools[2]];
    assert Filter(tools[1..], IsInUse) == [tools[1], tools[2]];
    assert Filter(tools, IsInUse) == [tools[1], tools[2]];
    assert Filter(tools[1..][1..], IsAvailable) == [];
    assert Filter(tools[1..], IsAvailable) == [];
    assert Filter(tools, IsAvailable) == [tools[0]];
  }

  /** The page's state: the figures shown, whether a refresh is running, and
      the message of the last failed refresh. */
  class DashboardPage {
    var stats: DashboardStats
    var loading: bool
    var error: Option<string>

    /** The page starts with zero figures, loading, and no error. */
    constructor ()
      ensures stats == ZeroStats() && loading && error == None
    {
      stats := ZeroStats();
      loading := true;
      error := None;
    }

    /** One refresh, given what each of the three queries returns. The stats
        are replaced only when all three succeed; otherwise they keep their
        previous value and the first failure's message is the error. */
    method FetchDashboardData(
      projectsResult: Result<seq<Project>, FetchError>,
      toolsResult: Result<seq<Tool>, FetchError>,
      employeesResult: Result<seq<Employee>, FetchError>)
      modifies this
      ensures !loading
      ensures FirstFailure(projectsResult, toolsResult, employeesResult) == None ==>
        error == None &&
        stats == ComputeStats(projectsResult.value, toolsResult.value, employeesResult.value)
      ensures FirstFailure(projectsResult, toolsResult, employeesResult) != None ==>
        error == Some(ErrorText(FirstFailure(projectsResult, toolsResult, employeesResult).value)) &&
        stats == old(stats)
    {
      loading := true;
      error := None;
      if projectsResult.Failure? {
        error := Some(ErrorText(projectsResult.error));
      } else {
        var projects := projectsResult.value;
        var activeProjects := ActiveProjects(projects);
        var completedProjects := CompletedProjects(projects);
        var projectBudgetSum := ProjectBudgetSum(projects);
        if toolsResult.Failure? {
          error := Some(ErrorText(toolsResult.error));
        } else {
          var tools := toolsResult.value;
          var toolsInUse := ToolsInUse(tools);
          var toolsAvailable := ToolsAvailable(tools);
          if employeesResult.Failure? {
            error := Some(ErrorText(employeesResult.error));
          } else {
            var employees := employeesResult.value;
            var activeEmployees := ActiveEmployees(employees);
            stats := DashboardStats(
              activeProjects := activeProjects,
              totalTools := |tools|,
              activeEmployees := activeEmployees,
              monthlyExpenses := projectBudgetSum,
              completedProjects := completedProjects,
              toolsInUse := toolsInUse,
              toolsAvailable := toolsAvailable);
          }
        }
      }
      loading := false;
    }
  }
}
