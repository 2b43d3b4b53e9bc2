/** The agent-facing wrappers around the nutrition server (src/mcp_tools.py):
    the manager that owns the single client, the four tools, the shapes of
    input the recipe tool accepts, and the rule that every tool answers
    with a string, failures included. The server call, `json.loads` and
    `str()` of a result are parameters. */
module McpTools {
  import opened Wrappers
  import opened Records
  import McpClient
  import McpServer
  import NutritionDb

  // ---------------------------------------------------------------------
  // The client manager

  /** `SyncMCPClientManager`'s class-level client, if any. */
  datatype Manager = Manager(client: Option<McpClient.Client>)

  const Idle: Manager := Manager(None)

  const NotStarted: PyError := RuntimeError("MCP client not started. Call start_server() first.")

  /** The client a new start leaves: its handshake has used request id 1. */
  const StartedClient: McpClient.Client := McpClient.NextId(McpClient.NewClient).client

  /** `start_server`: creates and starts a client unless one exists. */
  function StartServer(m: Manager): (r: Manager)
    ensures m.client.Some? ==> r == m
    ensures m.client.None? ==> r.client == Some(StartedClient)
  {
    if m.client.None? then Manager(Some(StartedClient)) else m
  }

  /** `stop_server`: drops the client, if any. */
  function StopServer(m: Manager): (r: Manager)
    ensures r.client.None?
  {
    Manager(None)
  }

  /** `get_client` */
  function GetClient(m: Manager): (r: Result<McpClient.Client, PyError>)
    ensures r.Err? <==> m.client.None?
    ensures r.Err? ==> r.error == NotStarted
    ensures r.Ok? ==> m.client == Some(r.value)
  {
    if m.client.None? then Err(NotStarted) else Ok(m.client.value)
  }

  /** The first request a started client sends after its handshake has
      id 2. */
  lemma StartedClientNextId()
    ensures McpClient.NextId(StartedClient).id == 2
  {
  }

  datatype Command = Start | Stop

  /** The manager after a series of start and stop calls. */
  function Run(m: Manager, commands: seq<Command>): Manager
    decreases |commands|
  {
    if commands == [] then m
    else
      var next := if commands[0] == Start then StartServer(m) else StopServer(m);
      Run(next, commands[1..])
  }

  /** `get_client` succeeds after a series of calls exactly when the last
      of them was a start, or, with no calls at all, when a client already
      existed. */
  lemma {:induction false} GetClientAfter(m: Manager, commands: seq<Command>)
    ensures GetClient(Run(m, commands)).Ok? <==>
      (if commands == [] then m.client.Some? else commands[|commands| - 1] == Start)
    decreases |commands|
  {
    if commands != [] {
      var next := if commands[0] == Start then StartServer(m) else StopServer(m);
      GetClientAfter(next, commands[1..]);
      if |commands| > 1 {
        assert commands[1..][|commands[1..]| - 1] == commands[|commands| - 1];
      }
    }
  }

  /** Starting twice is starting once; stopping twice is stopping once;
      after a stop `get_client` fails again. */
  lemma ManagerTransitions(m: Manager)
    ensures StartServer(StartServer(m)) == StartServer(m)
    ensures StopServer(StopServer(m)) == StopServer(m)
    ensures GetClient(StartServer(m)).Ok?
    ensures GetClient(StopServer(StartServer(m))) == Err(NotStarted)
  {
  }

  // ---------------------------------------------------------------------
  // The tools

  /** `client.call_tool(name, arguments)` */
  type Caller = (string, map<string, Json>) -> Result<Json, PyError>

  /** `str()` of a tool result. */
  type Display = Json -> string

  /** The tools `get_nutrition_tools` returns, in order. */
  const NutritionTools: seq<string> := ["find_ingredient", "calculate_recipe_nutrition", "get_high_protein_foods", "search_ingredients"]

  /** Four distinct tools, each a tool of the server. */
  lemma NutritionToolsAreServerTools()
    ensures |NutritionTools| == 4
    ensures forall i, j :: 0 <= i < j < |NutritionTools| ==> NutritionTools[i] != NutritionTools[j]
    ensures forall t :: t in NutritionTools ==> t in McpServer.ToolNames
  {
  }

  /** The text that starts each tool's failure message. */
  function ErrorPrefix(tool: string): string {
    if tool == "find_ingredient" then "Error finding ingredient: "
    else if tool == "calculate_recipe_nutrition" then "Error calculating recipe nutrition: "
    else if tool == "get_high_protein_foods" then "Error getting high protein foods: "
    else "Error searching ingredients: "
  }

  /** `params.get(key, default)`, which only a dictionary supports. */
  function GetParam(params: Json, key: string, default: Json): (r: Result<Json, PyError>)
    ensures r.Ok? <==> params.JObj?
    ensures r.Ok? ==> r.value == Get(params.fields, key, default)
  {
    if params.JObj? then Ok(Get(params.fields, key, default))
    else Err(AttributeError("'" + TypeName(params) + "' object has no attribute 'get'"))
  }

  /** The three simple tools' parameters: a string input is decoded, any
      other input is used as it is. */
  function Params(loads: Loader, input: Json): Result<Json, PyError> {
    if input.JStr? then
      match loads(input.s)
      case None => Err(JsonDecodeError)
      case Some(p) => Ok(p)
    else Ok(input)
  }

  /** The recipe tool's ingredients, `ingredients_data` as the server
      receives it: a list is taken as it is; a dictionary gives its
      `ingredients` entry, or itself when it has none; a string is decoded
      first and, when it does not decode, kept as text; a text that
      results is decoded once more, and that second decoding may fail. */
  function RecipeIngredients(loads: Loader, input: Json): (r: Result<Json, PyError>)
    ensures input.JArr? ==> r == Ok(input)
    ensures input.JStr? && loads(input.s).Some? && loads(input.s).value.JArr? ==> r == Ok(loads(input.s).value)
    ensures input.JObj? && "ingredients" !in input.fields ==> r == Ok(input)
    ensures input.JStr? && loads(input.s).None? ==> r == Err(JsonDecodeError)
    ensures input.JObj? && "ingredients" in input.fields && !input.fields["ingredients"].JStr? ==>
      r == Ok(input.fields["ingredients"])
  {
    var data :-
      if input.JStr? then
        match loads(input.s)
        case None => Ok(input)
        case Some(p) => if p.JArr? then Ok(p) else GetParam(p, "ingredients", p)
      else if input.JArr? then Ok(input)
      else GetParam(input, "ingredients", input);
    if data.JStr? then
      match loads(data.s)
      case None => Err(JsonDecodeError)
      case Some(p) => Ok(p)
    else Ok(data)
  }

  /** Handing the recipe tool a JSON text or the value it decodes to makes
      no difference, unless that value is itself a string. */
  lemma TextOrValueAgree(loads: Loader, text: string, value: Json)
    requires loads(text) == Some(value) && !value.JStr?
    ensures RecipeIngredients(loads, JStr(text)) == RecipeIngredients(loads, value)
  {
  }

  /** A dictionary's `ingredients` list is what the server receives. */
  lemma DictionaryGivesItsList(loads: Loader, fields: map<string, Json>, items: seq<Json>)
    requires "ingredients" in fields && fields["ingredients"] == JArr(items)
    ensures RecipeIngredients(loads, JObj(fields)) == Ok(JArr(items))
  {
  }

  /** The arguments each tool passes to the server, computed from its
      input before the client is looked up. */
  function ToolArguments(tool: string, loads: Loader, input: Json): (r: Result<map<string, Json>, PyError>)
    requires tool in NutritionTools
    ensures tool == "calculate_recipe_nutrition" ==>
      (r.Ok? <==> RecipeIngredients(loads, input).Ok?) &&
      (r.Ok? ==> r.value == map["ingredients" := RecipeIngredients(loads, input).value])
    ensures tool != "calculate_recipe_nutrition" ==>
      var params := Params(loads, input);
      (r.Ok? <==> params.Ok? && params.value.JObj?) &&
      (r.Ok? && tool == "find_ingredient" ==>
        r.value == map["ingredient_name" := Get(params.value.fields, "ingredient_name", JNull),
                       "max_results" := Get(params.value.fields, "max_results", JInt(NutritionDb.DefaultMaxResults))]) &&
      (r.Ok? && tool == "get_high_protein_foods" ==>
        r.value == map["min_protein" := Get(params.value.fields, "min_protein", JFloat(NutritionDb.DefaultMinProtein))]) &&
      (r.Ok? && tool == "search_ingredients" ==>
        r.value == map["description" := Get(params.value.fields, "description", JNull)])
  {
    if tool == "calculate_recipe_nutrition" then
      var ingredients :- RecipeIngredients(loads, input);
      Ok(map["ingredients" := ingredients])
    else
      var params :- Params(loads, input);
      if tool == "find_ingredient" then
        var name :- GetParam(params, "ingredient_name", JNull);
        // `params` is a dictionary once the first `get` succeeded
        Ok(map["ingredient_name" := name, "max_results" := Get(params.fields, "max_results", JInt(NutritionDb.DefaultMaxResults))])
      else if tool == "get_high_protein_foods" then
        var threshold :- GetParam(params, "min_protein", JFloat(NutritionDb.DefaultMinProtein));
        Ok(map["min_protein" := threshold])
      else
        var description :- GetParam(params, "description", JNull);
        Ok(map["description" := description])
  }

  /** A tool's `_run`: the string of the server's result, or, when any
      step raises, the tool's error prefix followed by the message. */
  function RunTool(tool: string, m: Manager, loads: Loader, call: Caller, display: Display, input: Json): (out: string)
    requires tool in NutritionTools
    ensures ToolArguments(tool, loads, input).Err? ==>
      out == ErrorPrefix(tool) + Describe(ToolArguments(tool, loads, input).error)
    ensures ToolArguments(tool, loads, input).Ok? && m.client.None? ==>
      out == ErrorPrefix(tool) + Describe(NotStarted)
    ensures ToolArguments(tool, loads, input).Ok? && m.client.Some? ==>
      var result := call(tool, ToolArguments(tool, loads, input).value);
      out == if result.Ok? then display(result.value) else ErrorPrefix(tool) + Describe(result.error)
  {
    var outcome :=
      var arguments :- ToolArguments(tool, loads, input);
      var _ :- GetClient(m);
      call(tool, arguments);
    match outcome
    case Ok(result) => display(result)
    case Err(e) => ErrorPrefix(tool) + Describe(e)
  }

  /** Text that is not JSON reaches the recipe tool's second decoding and
      comes back as its error string. */
  lemma NonJsonRecipeText(m: Manager, loads: Loader, call: Caller, display: Display, text: string)
    requires loads(text).None?
    ensures RunTool("calculate_recipe_nutrition", m, loads, call, display, JStr(text)) ==
      "Error calculating recipe nutrition: " + Describe(JsonDecodeError)
  {
  }
}
