/**
 Rewriting a Responses request for the ChatGPT plan endpoint
 (providers/chatgpt/provider.go, normalize): refuse what the plan does not support,
 give the input its list form, group loose tools under one namespace, and ask for
 the opaque reasoning state. Bodies are decoded JSON values.
 */
module PlanRequest {
  import opened Wrappers

  datatype Json =
    | Null
    | Bool(truth: bool)
    | Number(number: int)
    | Text(text: string)
    | List(items: seq<Json>)
    | Object(fields: map<string, Json>)

  type Fields = map<string, Json>

  const UNSUPPORTED: seq<string> := [
    "background", "conversation", "max_output_tokens", "max_tool_calls", "metadata", "moderation", "multi_agent",
    "prompt", "prompt_cache_retention", "safety_identifier", "temperature", "top_logprobs", "top_p", "truncation",
    "user", "previous_response_id"
  ]

  const REASONING := Text("reasoning.encrypted_content")
  const DESCRIPTION := Text("Client-provided tools executed by the application.")

  const NOT_AN_OBJECT := "chatgpt: Responses body must be an object"
  const INPUT_NOT_A_LIST := "chatgpt: input must be an array or text"
  const INPUT_ITEM := "chatgpt: input item must be an object"
  const TOOLS_NOT_A_LIST := "chatgpt: tools must be an array"
  const TOOL_NOT_AN_OBJECT := "chatgpt: tool must be an object"
  const NAMESPACE_NOT_A_LIST := "chatgpt: namespace tools must be an array"
  const NAMESPACE_TOOL := "chatgpt: namespace contains an unsupported tool"
  const HOSTED_TOOL := "chatgpt: unsupported hosted tool"
  const COLLISION := "chatgpt: flat tools collide with namespace functions"
  const INCLUDE_NOT_A_LIST := "chatgpt: include must be an array"

  function Unsupported(name: string): string {
    "chatgpt: ChatGPT plan usage does not support " + name
  }

  /** A field, or Null when it is missing. */
  function Get(fields: Fields, name: string): Json {
    if name in fields then fields[name] else Null
  }

  // --------------------------------------------------------------- the four steps

  function Strip(fields: Fields, names: seq<string>): Result<Fields> {
    if names == [] then Success(fields)
    else if Get(fields, names[0]) != Null then Failure(Unsupported(names[0]))
    else Strip(fields - {names[0]}, names[1..])
  }

  function Developer(item: Json): Json
    requires item.Object?
  {
    if Get(item.fields, "role") == Text("system") then Object(item.fields["role" := Text("developer")]) else item
  }

  function InputList(input: Json): Json {
    if input.Text? then List([Object(map["role" := Text("user"), "content" := input])]) else input
  }

  function Input(fields: Fields): Result<Fields> {
    var input := InputList(Get(fields, "input"));
    if !input.List? then Failure(INPUT_NOT_A_LIST)
    else if exists i :: 0 <= i < |input.items| && !input.items[i].Object? then Failure(INPUT_ITEM)
    else Success(fields["input" := List(seq(|input.items|, i requires 0 <= i < |input.items| =>
      Developer(input.items[i])))])
  }

  predicate HasType(tool: Json, name: string) {
    tool.Object? && Get(tool.fields, "type") == Text(name)
  }

  /** A tool the application runs: it may stand alone or inside a namespace. */
  predicate IsFlat(tool: Json) {
    HasType(tool, "function") || HasType(tool, "custom")
  }

  predicate IsNamespace(tool: Json) {
    && HasType(tool, "namespace")
    && var children := Get(tool.fields, "tools");
    && children.List?
    && forall i :: 0 <= i < |children.items| ==> IsFlat(children.items[i])
  }

  predicate IsNative(tool: Json) {
    IsNamespace(tool) || HasType(tool, "web_search")
  }

  predicate TakesFunctions(tool: Json) {
    IsNamespace(tool) && Get(tool.fields, "name") == Text("functions")
  }

  function ToolError(tool: Json): string {
    if !tool.Object? then TOOL_NOT_AN_OBJECT
    else if HasType(tool, "namespace") then
      if Get(tool.fields, "tools").List? then NAMESPACE_TOOL else NAMESPACE_NOT_A_LIST
    else HOSTED_TOOL
  }

  datatype Sorted = Sorted(native: seq<Json>, flat: seq<Json>, taken: bool)

  function AddTool(s: Sorted, tool: Json): Result<Sorted> {
    if IsFlat(tool) then Success(s.(flat := s.flat + [tool]))
    else if IsNative(tool) then Success(s.(native := s.native + [tool], taken := s.taken || TakesFunctions(tool)))
    else Failure(ToolError(tool))
  }

  const UNSORTED := Sorted([], [], false)

  function SortTools(tools: seq<Json>): Result<Sorted> {
    Fold(AddTool, UNSORTED, tools)
  }

  function Grouped(flat: seq<Json>): Json {
    Object(map["type" := Text("namespace"), "name" := Text("functions"), "description" := DESCRIPTION,
      "tools" := List(flat)])
  }

  function Choice(choice: Json): Json {
    if HasType(choice, "function") && "namespace" !in choice.fields then
      Object(choice.fields["namespace" := Text("functions")])
    else choice
  }

  function Tools(fields: Fields): Result<Fields> {
    if "tools" !in fields then Success(fields)
    else if !fields["tools"].List? then Failure(TOOLS_NOT_A_LIST)
    else
      match SortTools(fields["tools"].items)
      case Failure(error) => Failure(error)
      case Success(s) =>
        if s.flat == [] then Success(fields["tools" := List(s.native)])
        else if s.taken then Failure(COLLISION)
        else
          var chosen := if "tool_choice" in fields then fields["tool_choice" := Choice(fields["tool_choice"])]
            else fields;
          Success(chosen["tools" := List(s.native + [Grouped(s.flat)])])
  }

  function AskReasoning(fields: Fields): Result<Fields> {
    if "include" in fields && !fields["include"].List? then Failure(INCLUDE_NOT_A_LIST)
    else
      var wanted := if "include" in fields then fields["include"].items else [];
      Success(fields["store" := Bool(false)]["stream" := Bool(true)]
                    ["include" := List(if REASONING in wanted then wanted else wanted + [REASONING])])
  }

  /** The whole rewriting, for any list of fields that must be absent. */
  function Rewritten(body: Json, refused: seq<string>): Result<Json> {
    if !body.Object? then Failure(NOT_AN_OBJECT)
    else
      match Strip(body.fields, refused)
      case Failure(error) => Failure(error)
      case Success(stripped) =>
        match Input(stripped)
        case Failure(error) => Failure(error)
        case Success(listed) =>
          match Tools(listed)
          case Failure(error) => Failure(error)
          case Success(grouped) =>
            match AskReasoning(grouped)
            case Failure(error) => Failure(error)
            case Success(fields) => Success(Object(fields))
  }

  function Normalized(body: Json): Result<Json> {
    Rewritten(body, UNSUPPORTED)
  }

  // -------------------------------------------------------------------- the method

  method Normalize(body: Json) returns (r: Result<Json>)
    ensures r == Normalized(body)
  {
    if !body.Object? {
      return Failure(NOT_AN_OBJECT);
    }
    var step := StripUnsupported(body.fields);
    if step.Failure? {
      return Failure(step.error);
    }
    step := RewriteInput(step.value);
    if step.Failure? {
      return Failure(step.error);
    }
    step := GroupTools(step.value);
    if step.Failure? {
      return Failure(step.error);
    }
    step := AskForReasoning(step.value);
    if step.Failure? {
      return Failure(step.error);
    }
    r := Success(Object(step.value));
  }

  method StripUnsupported(given: Fields) returns (r: Result<Fields>)
    ensures r == Strip(given, UNSUPPORTED)
  {
    var fields := given;
    var n := 0;
    while n < |UNSUPPORTED|
      invariant 0 <= n <= |UNSUPPORTED|
      invariant Strip(fields, UNSUPPORTED[n..]) == Strip(given, UNSUPPORTED)
    {
      var name := UNSUPPORTED[n];
      if name in fields && fields[name] != Null {
        return Failure(Unsupported(name));
      }
      fields := fields - {name};
      n := n + 1;
    }
    r := Success(fields);
  }

  method RewriteInput(given: Fields) returns (r: Result<Fields>)
    ensures r == Input(given)
  {
    var fields := given;
    if "input" in fields && fields["input"].Text? {
      fields := fields["input" := List([Object(map["role" := Text("user"), "content" := fields["input"]])])];
    }
    if "input" !in fields || !fields["input"].List? {
      return Failure(INPUT_NOT_A_LIST);
    }
    var input := fields["input"].items;
    var items := input;
    var n := 0;
    while n < |input|
      invariant 0 <= n <= |input| == |items|
      invariant forall i :: 0 <= i < n ==> input[i].Object? && items[i] == Developer(input[i])
      invariant forall i :: n <= i < |input| ==> items[i] == input[i]
    {
      if !items[n].Object? {
        return Failure(INPUT_ITEM);
      }
      if "role" in items[n].fields && items[n].fields["role"] == Text("system") {
        items := items[n := Object(items[n].fields["role" := Text("developer")])];
      }
      n := n + 1;
    }
    assert items == seq(|input|, i requires 0 <= i < |input| => Developer(input[i]));
    assert fields["input" := List(items)] == given["input" := List(items)];
    r := Success(fields["input" := List(items)]);
  }

  method CheckNamespace(tool: Json) returns (error: Option<string>)
    requires HasType(tool, "namespace")
    ensures error == if IsNamespace(tool) then None else Some(ToolError(tool))
  {
    if "tools" !in tool.fields || !tool.fields["tools"].List? {
      return Some(NAMESPACE_NOT_A_LIST);
    }
    var children := tool.fields["tools"].items;
    var n := 0;
    while n < |children|
      invariant 0 <= n <= |children|
      invariant forall i :: 0 <= i < n ==> IsFlat(children[i])
    {
      if !IsFlat(children[n]) {
        return Some(NAMESPACE_TOOL);
      }
      n := n + 1;
    }
    error := None;
  }

  method SortTool(tool: Json, s: Sorted) returns (r: Result<Sorted>)
    ensures r == AddTool(s, tool)
  {
    if !tool.Object? {
      return Failure(TOOL_NOT_AN_OBJECT);
    }
    var kind := Get(tool.fields, "type");
    if kind == Text("function") || kind == Text("custom") {
      return Success(s.(flat := s.flat + [tool]));
    }
    if kind == Text("namespace") {
      var error := CheckNamespace(tool);
      if error.Some? {
        return Failure(error.value);
      }
      var taken := s.taken || Get(tool.fields, "name") == Text("functions");
      return Success(s.(native := s.native + [tool], taken := taken));
    }
    if kind == Text("web_search") {
      return Success(s.(native := s.native + [tool]));
    }
    r := Failure(HOSTED_TOOL);
  }

  method SplitTools(tools: seq<Json>) returns (r: Result<Sorted>)
    ensures r == SortTools(tools)
  {
    r := Success(UNSORTED);
    var n := 0;
    while n < |tools|
      invariant 0 <= n <= |tools|
      invariant r.Success? && r == Fold(AddTool, UNSORTED, tools[..n])
    {
      assert tools[..n + 1][..n] == tools[..n];
      r := SortTool(tools[n], r.value);
      n := n + 1;
      if r.Failure? {
        FoldStopsAtFailure(AddTool, UNSORTED, tools, n);
        return;
      }
    }
    assert tools[..n] == tools;
  }

  method GroupTools(given: Fields) returns (r: Result<Fields>)
    ensures r == Tools(given)
  {
    if "tools" !in given {
      return Success(given);
    }
    var fields := given;
    if !fields["tools"].List? {
      return Failure(TOOLS_NOT_A_LIST);
    }
    var split := SplitTools(fields["tools"].items);
    if split.Failure? {
      return Failure(split.error);
    }
    var normalized := split.value.native;
    if |split.value.flat| > 0 {
      if split.value.taken {
        return Failure(COLLISION);
      }
      normalized := normalized + [Grouped(split.value.flat)];
      if "tool_choice" in fields && HasType(fields["tool_choice"], "function") {
        var choice := fields["tool_choice"].fields;
        if "namespace" !in choice {
          fields := fields["tool_choice" := Object(choice["namespace" := Text("functions")])];
        }
      }
    }
    assert "tool_choice" in given && fields == given ==> fields == given["tool_choice" := given["tool_choice"]];
    r := Success(fields["tools" := List(normalized)]);
  }

  method AskForReasoning(given: Fields) returns (r: Result<Fields>)
    ensures r == AskReasoning(given)
  {
    var fields := given["store" := Bool(false)]["stream" := Bool(true)];
    var wanted := [];
    if "include" in given {
      if !given["include"].List? {
        return Failure(INCLUDE_NOT_A_LIST);
      }
      wanted := given["include"].items;
    }
    var found := false;
    var n := 0;
    while n < |wanted|
      invariant 0 <= n <= |wanted|
      invariant found <==> REASONING in wanted[..n]
    {
      if wanted[n] == REASONING {
        found := true;
      }
      n := n + 1;
    }
    if !found {
      wanted := wanted + [REASONING];
    }
    r := Success(fields["include" := List(wanted)]);
  }
}
