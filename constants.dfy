/** The application table, the initial history bound and the system prompt template. */
module Constants {
  import opened Js
  import opened Types

  /** The nine applications of the desktop, in display order. */
  const AppDefinitions: seq<AppDefinition> := [
    AppDefinition("my_computer", "Dashboard", "\U{1F4CA}", "#e3f2fd"),
    AppDefinition("documents", "Explorer", "\U{1F4C1}", "#f1f8e9"),
    AppDefinition("notepad_app", "Notepad", "\U{1F4DD}", "#fffde7"),
    AppDefinition("terminal_app", "Bash Terminal", "\U{1F41A}", "#300a24"),
    AppDefinition("system_info", "System Info", "\U{2139}\U{FE0F}", "#e0e0e0"),
    AppDefinition("settings_app", "Config", "\U{2699}\U{FE0F}", "#e7f3ff"),
    AppDefinition("web_browser_app", "Firefox", "\U{1F98A}", "#e0f7fa"),
    AppDefinition("calculator_app", "Calculator", "\U{1F9EE}", "#f5f5f5"),
    AppDefinition("gaming_app", "Games", "\U{1F3AE}", "#f3e5f5")
  ]

  const InitialMaxHistoryLength: int := 10

  /** `apps.find(app => app.id === id)`: the first entry with that id, if any. */
  function FindIn(apps: seq<AppDefinition>, id: Option<string>): (r: Option<AppDefinition>)
    ensures r.Some? ==> r.value in apps && Some(r.value.id) == id
    ensures r.Some? ==> exists k :: 0 <= k < |apps| && apps[k] == r.value && forall j :: 0 <= j < k ==> Some(apps[j].id) != id
    ensures r.None? ==> forall a :: a in apps ==> Some(a.id) != id
  {
    if apps == [] then None
    else if Some(apps[0].id) == id then Some(apps[0])
    else
      var r := FindIn(apps[1..], id);
      if r.Some? then
        var k :| 0 <= k < |apps[1..]| && apps[1..][k] == r.value && forall j :: 0 <= j < k ==> Some(apps[1..][j].id) != id;
        assert apps[k + 1] == r.value && forall j :: 0 <= j < k + 1 ==> Some(apps[j].id) != id;
        r
      else r
  }

  /** The lookup of an interaction's `appContext` in the application table. */
  function FindApp(id: Option<string>): Option<AppDefinition> {
    FindIn(AppDefinitions, id)
  }

  /** No two applications share an id. */
  lemma AppIdsDistinct()
    ensures |AppDefinitions| == 9
    ensures forall i, j :: 0 <= i < j < |AppDefinitions| ==> AppDefinitions[i].id != AppDefinitions[j].id
  {
  }

  /** Every application has a name to show. */
  lemma AppNamesNonEmpty()
    ensures forall a :: a in AppDefinitions ==> a.name != ""
  {
  }

  /** In a table whose ids are distinct, looking up an entry's own id finds that entry. */
  lemma {:induction false} FindInDistinct(apps: seq<AppDefinition>, a: AppDefinition)
    requires forall i, j :: 0 <= i < j < |apps| ==> apps[i].id != apps[j].id
    requires a in apps
    ensures FindIn(apps, Some(a.id)) == Some(a)
  {
    if apps[0] != a {
      var k :| 0 <= k < |apps| && apps[k] == a;
      assert k > 0 && apps[1..][k - 1] == a;
      FindInDistinct(apps[1..], a);
    }
  }

  /** Looking up an application's own id finds exactly that application, and
      an id outside the table finds nothing. */
  lemma FindAppExact(id: string)
    ensures forall a :: a in AppDefinitions && a.id == id ==> FindApp(Some(id)) == Some(a)
    ensures (forall a :: a in AppDefinitions ==> a.id != id) ==> FindApp(Some(id)) == None
    ensures FindApp(None) == None
  {
    AppIdsDistinct();
    forall a | a in AppDefinitions && a.id == id
      ensures FindApp(Some(id)) == Some(a)
    {
      FindInDistinct(AppDefinitions, a);
    }
  }

  // The system prompt. Only the four places that interpolate a parameter are
  // kept, in order, each with a few words of its surrounding text; the fixed
  // prose around and between them is not part of this model.

  /** `getSystemPrompt(maxHistory, username)`; `username` defaults to "Guest"
      when it is not given (an empty string is used as it is). */
  function SystemPrompt(maxHistory: int, username: Option<string>): string {
    PromptFor(maxHistory, if username.Some? then username.value else "Guest")
  }

  function PromptFor(maxHistory: int, user: string): string {
    UserLine(user) + HomeLine(ToLower(user)) + TerminalLine(ToLower(user)) + HistoryBoundLine(maxHistory)
  }

  function UserLine(user: string): string {
    "You are currently serving user: **" + user + "**.\n"
  }

  function HomeLine(lower: string): string {
    "(e.g., /home/" + lower + "/Documents)\n"
  }

  function TerminalLine(lower: string): string {
    "<span class=\"terminal-prompt-prefix\">" + lower + "@gemini:~$</span>\n"
  }

  function HistoryBoundLine(maxHistory: int): string {
    "You receive up to " + IntToString(maxHistory) + " past interactions. Treat them as a session journal.\n"
  }

  /** The prompt names the user verbatim, uses the lower-cased name in the
      home directory and in the terminal prompt, and states the history bound. */
  lemma SystemPromptParameters(maxHistory: int, user: string)
    ensures var p := SystemPrompt(maxHistory, Some(user));
      && Contains(p, "serving user: **" + user + "**")
      && Contains(p, "/home/" + ToLower(user) + "/Documents")
      && Contains(p, ToLower(user) + "@gemini:~$")
      && Contains(p, "You receive up to " + IntToString(maxHistory) + " past interactions. Treat them as a session journal.\n")
  {
    PromptNamesUser(maxHistory, user);
    PromptHasHome(maxHistory, user);
    PromptHasTerminal(maxHistory, user);
    PromptStatesBound(maxHistory, user);
  }

  lemma PromptNamesUser(maxHistory: int, user: string)
    ensures Contains(PromptFor(maxHistory, user), "serving user: **" + user + "**")
  {
    var lower := ToLower(user);
    PartsContain(UserLine(user), HomeLine(lower), TerminalLine(lower), HistoryBoundLine(maxHistory));
    PromptLiteralSplits();
    ContainsWrapped("You are currently serving user: **", "You are currently ", "serving user: **", user,
      "**", ".\n", "**.\n");
    ContainsTransitive(PromptFor(maxHistory, user), UserLine(user), "serving user: **" + user + "**");
  }

  lemma PromptHasHome(maxHistory: int, user: string)
    ensures Contains(PromptFor(maxHistory, user), "/home/" + ToLower(user) + "/Documents")
  {
    var lower := ToLower(user);
    PartsContain(UserLine(user), HomeLine(lower), TerminalLine(lower), HistoryBoundLine(maxHistory));
    PromptLiteralSplits();
    ContainsWrapped("(e.g., /home/", "(e.g., ", "/home/", lower, "/Documents", ")\n", "/Documents)\n");
    ContainsTransitive(PromptFor(maxHistory, user), HomeLine(lower), "/home/" + lower + "/Documents");
  }

  lemma PromptHasTerminal(maxHistory: int, user: string)
    ensures Contains(PromptFor(maxHistory, user), ToLower(user) + "@gemini:~$")
  {
    var lower := ToLower(user);
    PartsContain(UserLine(user), HomeLine(lower), TerminalLine(lower), HistoryBoundLine(maxHistory));
    PromptLiteralSplits();
    ContainsWrapped("<span class=\"terminal-prompt-prefix\">", "<span class=\"terminal-prompt-prefix\">", "", lower,
      "@gemini:~$", "</span>\n", "@gemini:~$</span>\n");
    AppendEmpty("", lower);
    ContainsTransitive(PromptFor(maxHistory, user), TerminalLine(lower), lower + "@gemini:~$");
  }

  lemma PromptStatesBound(maxHistory: int, user: string)
    ensures Contains(PromptFor(maxHistory, user),
      "You receive up to " + IntToString(maxHistory) + " past interactions. Treat them as a session journal.\n")
  {
    var lower := ToLower(user);
    PartsContain(UserLine(user), HomeLine(lower), TerminalLine(lower), HistoryBoundLine(maxHistory));
  }

  /** The fixed text around each parameter, split where the statements above cut it. */
  lemma PromptLiteralSplits()
    ensures "You are currently serving user: **" == "You are currently " + "serving user: **"
    ensures "**.\n" == "**" + ".\n"
    ensures "(e.g., /home/" == "(e.g., " + "/home/"
    ensures "/Documents)\n" == "/Documents" + ")\n"
    ensures "<span class=\"terminal-prompt-prefix\">" == "<span class=\"terminal-prompt-prefix\">" + ""
    ensures "@gemini:~$</span>\n" == "@gemini:~$" + "</span>\n"
  {
  }

  /** Without a username the prompt is the one for the user "Guest". */
  lemma SystemPromptDefaultUser(maxHistory: int)
    ensures Contains(SystemPrompt(maxHistory, None), "serving user: **Guest**")
  {
    PromptNamesUser(maxHistory, "Guest");
    GuestUserLine();
  }

  lemma GuestUserLine()
    ensures "serving user: **" + "Guest" + "**" == "serving user: **Guest**"
  {
  }
}
