/** The page header's title, chosen from the current path and route id. */
module Layout {
  import opened Common
  import opened Text

  const Titles: set<string> := {"Dashboard", "Task List", "Project Joined", "Welcome"}

  /** `getTitle`: the checks run in this order, the first that holds wins. */
  function PageTitle(pathname: string, id: Option<string>): (title: string)
    ensures title in Titles
  {
    if pathname == "/dashboard" then "Dashboard"
    else if StartsWith(pathname, "/project/") && Truthy(id) then "Task List"
    else if pathname == "/project/joined" then "Project Joined"
    else "Welcome"
  }

  lemma DashboardTitle(id: Option<string>)
    ensures PageTitle("/dashboard", id) == "Dashboard"
  {
  }

  /** Every project path with an id is a task list, "/project/joined" included. */
  lemma ProjectPathWithIdIsTaskList(pathname: string, id: Option<string>)
    requires StartsWith(pathname, "/project/") && Truthy(id)
    ensures PageTitle(pathname, id) == "Task List"
  {
    assert pathname[1] == pathname[..|"/project/"|][1] == 'p';
  }

  /** "Project Joined" is shown exactly on "/project/joined" without an id:
      the prefix test before it catches the path whenever an id is present. */
  lemma ProjectJoinedTitle(pathname: string, id: Option<string>)
    ensures PageTitle(pathname, id) == "Project Joined" <==> pathname == "/project/joined" && !Truthy(id)
  {
    if pathname == "/project/joined" {
      assert pathname[..|"/project/"|] == "/project/";
    }
  }

  /** "Welcome" is the answer for every path none of the three checks claims. */
  lemma WelcomeOtherwise(pathname: string, id: Option<string>)
    ensures PageTitle(pathname, id) == "Welcome" <==>
            pathname != "/dashboard" && pathname != "/project/joined"
            && !(StartsWith(pathname, "/project/") && Truthy(id))
  {
  }
}
