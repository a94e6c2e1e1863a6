/**
 What a rewritten request says, field by field, and which requests are refused
 (providers/chatgpt/provider.go, normalize): told over the body before and after,
 without the steps that rewrite it.
 */
module PlanRequestFields {
  import opened Wrappers
  import opened PlanRequest
  import opened PlanRequestTheorems

  // ----------------------------------------------------------------------- input

  /** The same fields with the same values, but for the role. */
  predicate SameButRole(before: Fields, after: Fields) {
    after.Keys == before.Keys && forall k :: k in before && k != "role" ==> after[k] == before[k]
  }

  /** The message is the same; a system message now speaks as the developer. */
  predicate Readdressed(before: Json, after: Json) {
    && before.Object? && after.Object? && SameButRole(before.fields, after.fields)
    && ("role" in before.fields ==>
          var role := before.fields["role"];
          after.fields["role"] == if role == Text("system") then Text("developer") else role)
  }

  predicate InputRewritten(before: Json, after: Json) {
    match before
    case Text(text) => after == List([Object(map["role" := Text("user"), "content" := Text(text)])])
    case List(items) =>
      after.List? && |after.items| == |items| && forall i :: 0 <= i < |items| ==> Readdressed(items[i], after.items[i])
    case _ => false
  }

  lemma InputDoes(fields: Fields)
    requires Input(fields).Success?
    ensures var after := Input(fields).value;
            "input" in fields && "input" in after && InputRewritten(fields["input"], after["input"])
  {
    var before := Get(fields, "input");
    if before.List? {
      var after := Input(fields).value["input"];
      forall i | 0 <= i < |before.items| ensures Readdressed(before.items[i], after.items[i]) {
        assert after.items[i] == Developer(before.items[i]);
      }
    }
  }

  // ------------------------------------------------------------------------ tools

  predicate OfType(tool: Json, types: seq<string>) {
    tool.Object? && "type" in tool.fields && tool.fields["type"].Text? && tool.fields["type"].text in types
  }

  /** A function or custom tool standing alone. */
  predicate Loose(tool: Json) {
    OfType(tool, ["function", "custom"])
  }

  predicate Namespace(tool: Json) {
    && OfType(tool, ["namespace"])
    && "tools" in tool.fields && tool.fields["tools"].List?
    && forall i :: 0 <= i < |tool.fields["tools"].items| ==> Loose(tool.fields["tools"].items[i])
  }

  predicate Hosted(tool: Json) {
    Namespace(tool) || OfType(tool, ["web_search"])
  }

  function Filtered(tools: seq<Json>, wanted: Json -> bool): seq<Json> {
    if tools == [] then []
    else (if wanted(tools[0]) then [tools[0]] else []) + Filtered(tools[1..], wanted)
  }

  lemma {:induction false} OnlyIsFiltered(tools: seq<Json>)
    ensures Filtered(tools, Loose) == Only(tools, true)
    ensures Filtered(tools, (tool: Json) => !Loose(tool)) == Only(tools, false)
  {
    if tools != [] {
      OnlyIsFiltered(tools[1..]);
      OnlyCons(tools, true);
      OnlyCons(tools, false);
    }
  }

  lemma {:induction false} OnlyCons(tools: seq<Json>, flat: bool)
    requires tools != []
    ensures Only(tools, flat) == (if IsFlat(tools[0]) == flat then [tools[0]] else []) + Only(tools[1..], flat)
    decreases |tools|
  {
    if |tools| > 1 {
      OnlyCons(tools[..|tools| - 1], flat);
      assert tools[..|tools| - 1][1..] == tools[1..][..|tools| - 2];
    }
  }

  /** Loose tools have moved, in order, into one namespace put last. */
  predicate ToolsRewritten(before: Json, after: Json) {
    && before.List? && after.List?
    && var loose, hosted := Filtered(before.items, Loose), Filtered(before.items, (tool: Json) => !Loose(tool));
    && (loose == [] ==> after.items == hosted)
    && (loose != [] ==> after.items == hosted + [Object(map[
          "type" := Text("namespace"), "name" := Text("functions"),
          "description" := Text("Client-provided tools executed by the application."), "tools" := List(loose)])])
  }

  predicate HasLoose(fields: Fields) {
    && "tools" in fields && fields["tools"].List?
    && exists i :: 0 <= i < |fields["tools"].items| && Loose(fields["tools"].items[i])
  }

  lemma {:induction false} NoneFiltered(tools: seq<Json>, wanted: Json -> bool)
    ensures Filtered(tools, wanted) != [] <==> exists i :: 0 <= i < |tools| && wanted(tools[i])
  {
    if tools != [] {
      NoneFiltered(tools[1..], wanted);
      if i :| 0 <= i < |tools| && wanted(tools[i]) {
        assert i == 0 || tools[1..][i - 1] == tools[i];
      }
    }
  }

  /** A choice of a function by name gets the namespace its tool was moved to. */
  predicate ChoiceRewritten(before: Json, after: Json, moved: bool) {
    if moved && OfType(before, ["function"]) && "namespace" !in before.fields then
      && after.Object? && after.fields.Keys == before.fields.Keys + {"namespace"}
      && after.fields["namespace"] == Text("functions")
      && forall k :: k in before.fields ==> after.fields[k] == before.fields[k]
    else after == before
  }

  // ---------------------------------------------------------------------- include

  /** What was asked for, and the opaque reasoning state after it unless it was among that. */
  predicate IncludeRewritten(before: seq<Json>, after: Json) {
    && after.List?
    && after.items ==
         before + if Text("reasoning.encrypted_content") in before then [] else [Text("reasoning.encrypted_content")]
  }

  // -------------------------------------------------------------------- the whole

  predicate ToolFields(before: Fields, after: Fields) {
    && ("tools" in before <==> "tools" in after)
    && ("tools" in before ==> ToolsRewritten(before["tools"], after["tools"]))
    && ("tool_choice" in before <==> "tool_choice" in after)
    && ("tool_choice" in before ==>
         ChoiceRewritten(before["tool_choice"], after["tool_choice"], HasLoose(before)))
  }

  predicate IncludeFields(before: Fields, after: Fields) {
    && ("include" in before ==> before["include"].List?) && "include" in after
    && IncludeRewritten(if "include" in before then before["include"].items else [], after["include"])
    && "store" in after && after["store"] == Bool(false)
    && "stream" in after && after["stream"] == Bool(true)
  }

  lemma IncludeDoes(fields: Fields)
    requires AskReasoning(fields).Success?
    ensures IncludeFields(fields, AskReasoning(fields).value)
  {
    var before := if "include" in fields then fields["include"].items else [];
    assert before + [] == before;
  }

  lemma ToolListDoes(fields: Fields)
    requires Tools(fields).Success? && "tools" in fields
    ensures "tools" in Tools(fields).value && ToolsRewritten(fields["tools"], Tools(fields).value["tools"])
  {
    GroupingConserves(fields);
    OnlyIsFiltered(fields["tools"].items);
  }

  lemma ChoiceDoes(choice: Json, moved: bool)
    ensures ChoiceRewritten(choice, if moved then Choice(choice) else choice, moved)
  {
  }

  lemma MovedIfLoose(fields: Fields)
    ensures HasLoose(fields) <==>
            "tools" in fields && fields["tools"].List? && Only(fields["tools"].items, true) != []
  {
    if "tools" in fields && fields["tools"].List? {
      OnlyIsFiltered(fields["tools"].items);
      NoneFiltered(fields["tools"].items, Loose);
    }
  }

  lemma ToolsDo(fields: Fields)
    requires Tools(fields).Success?
    ensures ToolFields(fields, Tools(fields).value)
  {
    ChoiceFollowsTools(fields);
    MovedIfLoose(fields);
    if "tools" in fields {
      ToolListDoes(fields);
    }
    if "tool_choice" in fields {
      ChoiceDoes(fields["tool_choice"], HasLoose(fields));
    }
  }

  predicate SameField(a: Fields, b: Fields, name: string) {
    (name in a <==> name in b) && (name in a ==> a[name] == b[name])
  }

  lemma SameBy(a: Fields, b: Fields, names: set<string>, name: string)
    requires SameBut(a, b, names) && name !in names
    ensures SameField(a, b, name)
  {
  }

  lemma Stripped(fields: Fields, name: string)
    requires Strip(fields, UNSUPPORTED).Success? && name in TOUCHED
    ensures SameField(fields, Strip(fields, UNSUPPORTED).value, name)
  {
    SupportedNames();
    StripRemoves(fields, UNSUPPORTED);
  }

  lemma SameThrice(a: Fields, b: Fields, c: Fields, d: Fields, name: string)
    requires SameField(a, b, name) && SameField(b, c, name) && SameField(c, d, name)
    ensures SameField(a, c, name) && SameField(a, d, name) && SameField(b, d, name)
  {
  }

  /** Each step finds its field as it was sent and leaves the finished ones alone. */
  lemma FieldsReachTheirStep(body: Json) returns (stripped: Fields, listed: Fields, grouped: Fields, fields: Fields)
    requires Normalized(body).Success?
    ensures body.Object? && Normalized(body) == Success(Object(fields))
    ensures Input(stripped) == Success(listed) && Tools(listed) == Success(grouped)
    ensures AskReasoning(grouped) == Success(fields)
    ensures SameField(body.fields, stripped, "input") && SameField(listed, fields, "input")
    ensures SameField(body.fields, listed, "tools") && SameField(grouped, fields, "tools")
    ensures SameField(body.fields, listed, "tool_choice") && SameField(grouped, fields, "tool_choice")
    ensures SameField(body.fields, grouped, "include")
  {
    stripped, listed, grouped, fields := StepsOf(body, UNSUPPORTED);
    Stripped(body.fields, "input");
    SameBy(listed, grouped, {"tools", "tool_choice"}, "input");
    SameBy(grouped, fields, {"store", "stream", "include"}, "input");
    SameThrice(listed, listed, grouped, fields, "input");
    Stripped(body.fields, "tools");
    SameBy(stripped, listed, {"input"}, "tools");
    SameBy(grouped, fields, {"store", "stream", "include"}, "tools");
    Stripped(body.fields, "tool_choice");
    SameBy(stripped, listed, {"input"}, "tool_choice");
    SameBy(grouped, fields, {"store", "stream", "include"}, "tool_choice");
    Stripped(body.fields, "include");
    SameBy(stripped, listed, {"input"}, "include");
    SameBy(listed, grouped, {"tools", "tool_choice"}, "include");
    SameThrice(body.fields, stripped, listed, grouped, "include");
  }

  /**
   A rewritten request: text input has become one user message with that text; listed
   input keeps every item and every field, but system messages speak as the developer;
   tools, the tool choice and what is asked for are as told above; nothing is stored
   and the answer is streamed.
   */
  lemma NormalizedFields(body: Json)
    requires Normalized(body).Success?
    ensures body.Object? && Normalized(body).value.Object?
    ensures var before, after := body.fields, Normalized(body).value.fields;
            && "input" in before && "input" in after && InputRewritten(before["input"], after["input"])
            && ToolFields(before, after) && IncludeFields(before, after)
  {
    var stripped, listed, grouped, fields := FieldsReachTheirStep(body);
    InputDoes(stripped);
    ToolsDo(listed);
    IncludeDoes(grouped);
  }

  // ------------------------------------------------------------------- refusals

  predicate AcceptableTools(tools: Json) {
    && tools.List?
    && (forall i :: 0 <= i < |tools.items| ==> Loose(tools.items[i]) || Hosted(tools.items[i]))
    && ((exists i :: 0 <= i < |tools.items| && Loose(tools.items[i])) ==>
          forall i :: 0 <= i < |tools.items| ==> !ReservedNamespace(tools.items[i]))
  }

  predicate ReservedNamespace(tool: Json) {
    Namespace(tool) && "name" in tool.fields && tool.fields["name"] == Text("functions")
  }

  lemma SameTool(tool: Json)
    ensures IsFlat(tool) <==> Loose(tool)
    ensures IsNative(tool) <==> Hosted(tool)
    ensures TakesFunctions(tool) <==> ReservedNamespace(tool)
  {
    if HasType(tool, "namespace") && Get(tool.fields, "tools").List? {
      var children := tool.fields["tools"].items;
      assert forall i :: 0 <= i < |children| ==> (IsFlat(children[i]) <==> Loose(children[i]));
    }
  }

  lemma SameTools(tools: Json)
    ensures AcceptsTools(tools) <==> AcceptableTools(tools)
  {
    if tools.List? {
      forall i | 0 <= i < |tools.items|
        ensures IsFlat(tools.items[i]) <==> Loose(tools.items[i])
        ensures IsKnown(tools.items[i]) <==> Loose(tools.items[i]) || Hosted(tools.items[i])
        ensures TakesFunctions(tools.items[i]) <==> ReservedNamespace(tools.items[i])
      {
        SameTool(tools.items[i]);
      }
    }
  }

  /** A request is rewritten exactly when none of its fields asks for what the plan does not support. */
  lemma AcceptedExactlyIf(body: Json)
    ensures Normalized(body).Success? <==>
            && body.Object?
            && (forall k :: k in body.fields && k in UNSUPPORTED ==> body.fields[k] == Null)
            && "input" in body.fields
            && (body.fields["input"].Text?
                || (body.fields["input"].List?
                    && forall i :: 0 <= i < |body.fields["input"].items| ==> body.fields["input"].items[i].Object?))
            && ("tools" in body.fields ==> AcceptableTools(body.fields["tools"]))
            && ("include" in body.fields ==> body.fields["include"].List?)
  {
    NormalizeAccepts(body);
    if body.Object? && "tools" in body.fields {
      SameTools(body.fields["tools"]);
    }
  }

  lemma {:induction false} StripNamesTheFirst(fields: Fields, names: seq<string>, i: nat)
    requires i < |names| && names[i] in fields && fields[names[i]] != Null
    requires forall j :: 0 <= j < i && names[j] in fields ==> fields[names[j]] == Null
    requires forall j, k :: 0 <= j < k < |names| ==> names[j] != names[k]
    ensures Strip(fields, names) == Failure("chatgpt: ChatGPT plan usage does not support " + names[i])
    decreases |names|
  {
    if i > 0 {
      StripNamesTheFirst(fields - {names[0]}, names[1..], i - 1);
    }
  }

  /** The error names the first unsupported field, in the order they are listed, that is set. */
  lemma FirstUnsupportedIsNamed(fields: Fields, i: nat)
    requires i < |UNSUPPORTED| && UNSUPPORTED[i] in fields && fields[UNSUPPORTED[i]] != Null
    requires forall j :: 0 <= j < i && UNSUPPORTED[j] in fields ==> fields[UNSUPPORTED[j]] == Null
    ensures Normalized(Object(fields))
         == Failure("chatgpt: ChatGPT plan usage does not support " + UNSUPPORTED[i])
  {
    StripNamesTheFirst(fields, UNSUPPORTED, i);
  }
}
