/** The audit-log page (src/pages/Logs.tsx): the search box's filter over
    the fetched rows, the colour an action badge gets, and the user cell of
    a row. */
module LogsView {
  import opened Text
  import opened Sequences

  /** One row of `GET /api/logs`: the audit entry joined with its user's name. */
  datatype LogRow = LogRow(
    id: nat, timestamp: string, userId: Option<int>, username: Option<string>,
    action: string, details: Option<string>)

  /** A nullable text column used as a condition: null and `""` are falsy. */
  predicate Truthy(s: Option<string>) { s.Some? && s.value != "" }

  /** The `filteredLogs` predicate: the term occurs, ignoring case, in the
      action, or in a non-empty username or details. */
  predicate Keeps(row: LogRow, term: string): (yes: bool)
    ensures Mentions(row.action, term) ==> yes
    ensures !Truthy(row.username) && !Truthy(row.details) ==> (yes <==> Mentions(row.action, term))
  {
    || Mentions(row.action, term)
    || (Truthy(row.username) && Mentions(row.username.value, term))
    || (Truthy(row.details) && Mentions(row.details.value, term))
  }

  /** `filteredLogs` (src/pages/Logs.tsx:33-37): the rows the predicate
      keeps, in their order. */
  function Filtered(logs: seq<LogRow>, term: string): (r: seq<LogRow>)
    ensures IsSubsequence(r, logs)
    ensures forall row :: row in r <==> row in logs && Keeps(row, term)
    ensures forall row :: multiset(r)[row] == if Keeps(row, term) then multiset(logs)[row] else 0
  {
    FilterIsSubsequence(logs, row => Keeps(row, term));
    FilterMultisets(logs, row => Keeps(row, term));
    Filter(logs, row => Keeps(row, term))
  }

  /** An empty search box shows every row. */
  lemma EmptyTermKeepsAll(logs: seq<LogRow>)
    ensures Filtered(logs, "") == logs
  {
    forall i | 0 <= i < |logs| ensures Keeps(logs[i], "") {
      ContainsEmpty(Lower(logs[i].action));
    }
    FilterKeepsAll(logs, row => Keeps(row, ""));
  }

  /** A row without username and details is kept only for its action. */
  lemma NullFieldsNeverMatch(row: LogRow, term: string)
    requires row.username.None? && row.details.None?
    ensures Keeps(row, term) <==> Contains(Lower(row.action), Lower(term))
  {
  }

  lemma LowerLower(s: string)
    ensures Lower(Lower(s)) == Lower(s)
  {
    assert forall i :: 0 <= i < |s| ==> Lower(Lower(s))[i] == Lower(s)[i];
  }

  lemma LowerUpper(s: string)
    ensures Lower(Upper(s)) == Lower(s)
  {
    assert forall i :: 0 <= i < |s| ==> Lower(Upper(s))[i] == Lower(s)[i];
  }

  /** The search ignores the case of the term. */
  lemma CaseInsensitive(row: LogRow, term: string)
    ensures Keeps(row, Upper(term)) == Keeps(row, term)
    ensures Keeps(row, Lower(term)) == Keeps(row, term)
  {
    LowerUpper(term);
    LowerLower(term);
  }

  /** The badge colours `getActionColor` picks between. */
  datatype Colour = Emerald | Red | Blue | Slate

  /** The CSS classes of each colour. */
  function ColourClasses(c: Colour): string {
    match c
    case Emerald => "bg-emerald-100 text-emerald-700 border-emerald-200"
    case Red => "bg-red-100 text-red-700 border-red-200"
    case Blue => "bg-blue-100 text-blue-700 border-blue-200"
    case Slate => "bg-slate-100 text-slate-700 border-slate-200"
  }

  /** `getActionColor` (src/pages/Logs.tsx:39-44): the first test that holds
      decides, in the order success/create, failure/delete, resource. */
  function ActionColour(action: string): (c: Colour)
    ensures c == Emerald <==> Contains(action, "SUCCESS") || Contains(action, "CREATE")
    ensures c == Red <==>
      !Contains(action, "SUCCESS") && !Contains(action, "CREATE") &&
      (Contains(action, "FAILURE") || Contains(action, "DELETE"))
    ensures c == Blue <==>
      !Contains(action, "SUCCESS") && !Contains(action, "CREATE") &&
      !Contains(action, "FAILURE") && !Contains(action, "DELETE") && Contains(action, "RESOURCE")
  {
    if Contains(action, "SUCCESS") || Contains(action, "CREATE") then Emerald
    else if Contains(action, "FAILURE") || Contains(action, "DELETE") then Red
    else if Contains(action, "RESOURCE") then Blue
    else Slate
  }

  /** `RESOURCE_CREATE` is emerald although it mentions `RESOURCE`. */
  lemma ResourceCreateEmerald()
    ensures ActionColour("RESOURCE_CREATE") == Emerald
  {
    ContainsInfix("RESOURCE_", "CREATE", "");
    assert "RESOURCE_CREATE" == "RESOURCE_" + "CREATE" + "";
  }

  /** `RESOURCE_DELETE` is red although it mentions `RESOURCE`, and so is
      `LOGIN_FAILURE`. */
  lemma RedActions(action: string)
    requires action == "RESOURCE_DELETE" || action == "LOGIN_FAILURE"
    ensures ActionColour(action) == Red
  {
    if action == "RESOURCE_DELETE" {
      ResourceDeleteLetters(action);
      ContainsInfix("RESOURCE_", "DELETE", "");
      assert action == "RESOURCE_" + "DELETE" + "";
    } else {
      LoginFailureLetters(action);
      ContainsInfix("LOGIN_", "FAILURE", "");
      assert action == "LOGIN_" + "FAILURE" + "";
    }
  }

  lemma ResourceDeleteLetters(s: string)
    requires s == "RESOURCE_DELETE"
    ensures !Contains(s, "SUCCESS") && !Contains(s, "CREATE")
  {
    ResourceDeleteNoSuccess(s, "SUCCESS");
    ResourceDeleteNoCreate(s, "CREATE");
  }

  lemma ResourceDeleteNoSuccess(s: string, success: string)
    requires s == "RESOURCE_DELETE" && success == "SUCCESS"
    ensures !Contains(s, success)
  {
    var tail := "OURCE_DELETE";
    var fromS := ['S'] + tail;
    assert s == "RE" + fromS;
    NotContainsHead(tail, success);
    ContainsStep('S', tail, success);
    ContainsSkip("RE", fromS, success);
  }

  lemma ResourceDeleteNoCreate(s: string, create: string)
    requires s == "RESOURCE_DELETE" && create == "CREATE"
    ensures !Contains(s, create)
  {
    var rest := "E_DELETE";
    var fromC := ['C'] + rest;
    assert s == "RESOUR" + fromC;
    NotContainsHead(rest, create);
    ContainsStep('C', rest, create);
    ContainsSkip("RESOUR", fromC, create);
  }

  lemma LoginFailureLetters(s: string)
    requires s == "LOGIN_FAILURE"
    ensures !Contains(s, "SUCCESS") && !Contains(s, "CREATE")
  {
    NotContainsHead(s, "SUCCESS");
    NotContainsHead(s, "CREATE");
  }

  /** The user cell's name: the username, or `System` when it is null or
      empty. */
  function DisplayName(username: Option<string>): (r: string)
    ensures r != []
    ensures Truthy(username) ==> r == username.value
    ensures !Truthy(username) ==> r == "System"
  {
    if Truthy(username) then username.value else "System"
  }

  /** The avatar letter: the upper-cased first character of the username,
      or `S`. */
  function Initial(username: Option<string>): (c: char)
    ensures Truthy(username) ==> c == UpperChar(username.value[0])
    ensures !Truthy(username) ==> c == 'S'
  {
    UpperChar(if Truthy(username) then username.value[0] else 'S')
  }

  /** A row the system wrote (no user) shows as `System`, initial `S`. */
  lemma SystemRow(row: LogRow)
    requires row.username.None?
    ensures DisplayName(row.username) == "System" && Initial(row.username) == 'S'
    ensures DisplayName(row.username)[0] == Initial(row.username)
  {
  }
}
