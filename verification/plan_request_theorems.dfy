/** What rewriting a request keeps: it is stable, loses no tool, and touches nothing else. */
module PlanRequestTheorems {
  import opened Wrappers
  import opened PlanRequest

  // ------------------------------------------------------------------- stability

  lemma {:induction false} StripRemoves(fields: Fields, names: seq<string>)
    requires Strip(fields, names).Success?
    ensures var stripped := Strip(fields, names).value;
            && (forall k :: k in names ==> k !in stripped && Get(fields, k) == Null)
            && (forall k :: k !in names ==>
               (k in stripped <==> k in fields) && (k in fields ==> stripped[k] == fields[k]))
    decreases |names|
  {
    if names != [] {
      StripRemoves(fields - {names[0]}, names[1..]);
      assert forall k :: k in names <==> k == names[0] || k in names[1..];
    }
  }

  lemma {:induction false} NothingToStrip(fields: Fields, names: seq<string>)
    requires forall k :: k in names ==> k !in fields
    ensures Strip(fields, names) == Success(fields)
    decreases |names|
  {
    if names != [] {
      assert fields - {names[0]} == fields;
      NothingToStrip(fields, names[1..]);
    }
  }

  ghost predicate Listed(fields: Fields) {
    && "input" in fields && fields["input"].List?
    && forall i :: 0 <= i < |fields["input"].items| ==>
         fields["input"].items[i].Object? && Get(fields["input"].items[i].fields, "role") != Text("system")
  }

  lemma InputListed(fields: Fields)
    requires Input(fields).Success?
    ensures Listed(Input(fields).value)
  {
  }

  lemma ListedIsStable(fields: Fields)
    requires Listed(fields)
    ensures Input(fields) == Success(fields)
  {
    var items := fields["input"].items;
    assert forall i :: 0 <= i < |items| ==> Developer(items[i]) == items[i];
    assert seq(|items|, i requires 0 <= i < |items| => Developer(items[i])) == items;
    assert fields["input" := fields["input"]] == fields;
  }

  predicate StaysAlone(tool: Json) {
    IsNative(tool) && !IsFlat(tool)
  }

  predicate AllNative(tools: seq<Json>) {
    forall i :: 0 <= i < |tools| ==> StaysAlone(tools[i])
  }

  predicate AllFlat(tools: seq<Json>) {
    forall i :: 0 <= i < |tools| ==> IsFlat(tools[i])
  }

  lemma NativeIsNotFlat(tool: Json)
    requires IsNative(tool)
    ensures !IsFlat(tool)
  {
  }

  lemma SortSplits(tools: seq<Json>)
    requires SortTools(tools).Success?
    ensures AllNative(SortTools(tools).value.native) && AllFlat(SortTools(tools).value.flat)
  {
    FoldKeeps(AddTool, UNSORTED, tools, (_: seq<Json>, s: Sorted) => AllNative(s.native) && AllFlat(s.flat));
  }

  lemma NativeIsAdded(s: Sorted, tool: Json)
    requires StaysAlone(tool)
    ensures AddTool(s, tool).Success? && AddTool(s, tool).value.native == s.native + [tool]
            && AddTool(s, tool).value.flat == s.flat
  {
  }

  lemma NativeIsStable(tools: seq<Json>)
    requires AllNative(tools)
    ensures SortTools(tools).Success? && SortTools(tools).value.native == tools && SortTools(tools).value.flat == []
  {
    var holds: (seq<Json>, Sorted) -> bool := (before: seq<Json>, s: Sorted) => s.native == before && s.flat == [];
    forall before, s, tool | holds(before, s) && tool in tools
      ensures AddTool(s, tool).Success? && holds(before + [tool], AddTool(s, tool).value)
    {
      NativeIsAdded(s, tool);
    }
    FoldSucceeds(AddTool, UNSORTED, tools, holds);
  }

  lemma GroupedIsNative(flat: seq<Json>)
    requires AllFlat(flat)
    ensures IsNative(Grouped(flat)) && !IsFlat(Grouped(flat)) && TakesFunctions(Grouped(flat))
  {
  }

  ghost predicate ToolsGrouped(fields: Fields) {
    "tools" in fields ==> fields["tools"].List? && AllNative(fields["tools"].items)
  }

  lemma GroupingGroups(fields: Fields)
    requires Tools(fields).Success?
    ensures ToolsGrouped(Tools(fields).value)
  {
    if "tools" in fields {
      SortSplits(fields["tools"].items);
      GroupedIsNative(SortTools(fields["tools"].items).value.flat);
    }
  }

  lemma GroupedIsStable(fields: Fields)
    requires ToolsGrouped(fields)
    ensures Tools(fields) == Success(fields)
  {
    if "tools" in fields {
      NativeIsStable(fields["tools"].items);
      assert fields["tools" := fields["tools"]] == fields;
    }
  }

  ghost predicate Asked(fields: Fields) {
    && Get(fields, "store") == Bool(false) && Get(fields, "stream") == Bool(true)
    && "include" in fields && fields["include"].List? && REASONING in fields["include"].items
  }

  lemma AskedIsStable(fields: Fields)
    requires Asked(fields)
    ensures AskReasoning(fields) == Success(fields)
  {
    assert fields["store" := Bool(false)]["stream" := Bool(true)]["include" := fields["include"]] == fields;
  }

  /** Fields other than those a step is about. */
  ghost predicate SameBut(a: Fields, b: Fields, names: set<string>) {
    forall k :: k !in names ==> (k in a <==> k in b) && (k in a ==> a[k] == b[k])
  }

  ghost predicate Clean(fields: Fields, refused: seq<string>) {
    && (forall k :: k in refused ==> k !in fields)
    && Listed(fields) && ToolsGrouped(fields) && Asked(fields)
  }

  const TOUCHED := {"input", "tools", "tool_choice", "store", "stream", "include"}

  lemma SupportedNames()
    ensures forall k :: k in TOUCHED ==> k !in UNSUPPORTED
  {
  }

  /** The four steps of an accepted body. */
  lemma StepsOf(body: Json, refused: seq<string>)
      returns (stripped: Fields, listed: Fields, grouped: Fields, fields: Fields)
    requires Rewritten(body, refused).Success?
    ensures body.Object? && Rewritten(body, refused) == Success(Object(fields))
    ensures Strip(body.fields, refused) == Success(stripped) && Input(stripped) == Success(listed)
    ensures Tools(listed) == Success(grouped) && AskReasoning(grouped) == Success(fields)
    ensures SameBut(stripped, listed, {"input"}) && SameBut(listed, grouped, {"tools", "tool_choice"})
    ensures SameBut(grouped, fields, {"store", "stream", "include"})
  {
    stripped := Strip(body.fields, refused).value;
    listed := Input(stripped).value;
    grouped := Tools(listed).value;
    fields := AskReasoning(grouped).value;
  }

  lemma RewrittenIsClean(body: Json, refused: seq<string>) returns (fields: Fields)
    requires Rewritten(body, refused).Success? && forall k :: k in TOUCHED ==> k !in refused
    ensures Rewritten(body, refused) == Success(Object(fields)) && Clean(fields, refused)
  {
    var stripped, listed, grouped;
    stripped, listed, grouped, fields := StepsOf(body, refused);
    StripRemoves(body.fields, refused);
    InputListed(stripped);
    GroupingGroups(listed);
    assert forall k :: k in refused ==> k !in TOUCHED;
  }

  lemma CleanIsStable(fields: Fields, refused: seq<string>)
    requires Clean(fields, refused)
    ensures Rewritten(Object(fields), refused) == Success(Object(fields))
  {
    NothingToStrip(fields, refused);
    ListedIsStable(fields);
    GroupedIsStable(fields);
    AskedIsStable(fields);
  }

  /** Rewriting an accepted body once more changes nothing: the tool choice included. */
  lemma NormalizeIsIdempotent(body: Json)
    requires Normalized(body).Success?
    ensures Normalized(Normalized(body).value) == Normalized(body)
  {
    SupportedNames();
    var fields := RewrittenIsClean(body, UNSUPPORTED);
    CleanIsStable(fields, UNSUPPORTED);
  }

  // ------------------------------------------------------------ tools are conserved

  /** The tools of a list without their namespaces. */
  function Flatten(tools: seq<Json>): seq<Json> {
    if tools == [] then [] else Flatten(tools[..|tools| - 1]) + Within(tools[|tools| - 1])
  }

  function Within(tool: Json): seq<Json> {
    if IsNamespace(tool) then Get(tool.fields, "tools").items else [tool]
  }

  /** The tools of one kind, in order. */
  function Only(tools: seq<Json>, flat: bool): seq<Json> {
    if tools == [] then []
    else
      var before, tool := Only(tools[..|tools| - 1], flat), tools[|tools| - 1];
      if IsFlat(tool) == flat then before + [tool] else before
  }

  lemma OnlySnoc(tools: seq<Json>, tool: Json, flat: bool)
    ensures Only(tools + [tool], flat) == if IsFlat(tool) == flat then Only(tools, flat) + [tool] else Only(tools, flat)
  {
    assert (tools + [tool])[..|tools|] == tools;
  }

  lemma SortKeepsOrder(tools: seq<Json>)
    requires SortTools(tools).Success?
    ensures SortTools(tools).value.native == Only(tools, false) && SortTools(tools).value.flat == Only(tools, true)
  {
    var holds: (seq<Json>, Sorted) -> bool := (before: seq<Json>, s: Sorted) =>
      s.native == Only(before, false) && s.flat == Only(before, true);
    forall before, s, tool | holds(before, s) && AddTool(s, tool).Success?
      ensures holds(before + [tool], AddTool(s, tool).value)
    {
      OnlySnoc(before, tool, false);
      OnlySnoc(before, tool, true);
    }
    FoldKeeps(AddTool, UNSORTED, tools, holds);
  }

  lemma FlattenSnoc(tools: seq<Json>, tool: Json)
    ensures Flatten(tools + [tool]) == Flatten(tools) + Within(tool)
  {
    assert (tools + [tool])[..|tools|] == tools;
  }

  /** One tool more, sorted: what its namespace holds is counted once, wherever it goes. */
  lemma AddConserves(tools: seq<Json>, s: Sorted, tool: Json)
    requires multiset(Flatten(tools)) == multiset(Flatten(s.native)) + multiset(s.flat) && AddTool(s, tool).Success?
    ensures var s' := AddTool(s, tool).value;
            multiset(Flatten(tools + [tool])) == multiset(Flatten(s'.native)) + multiset(s'.flat)
  {
    FlattenSnoc(tools, tool);
    if IsFlat(tool) {
      assert Within(tool) == [tool];
    } else {
      FlattenSnoc(s.native, tool);
    }
  }

  lemma SortConserves(tools: seq<Json>)
    requires SortTools(tools).Success?
    ensures multiset(Flatten(tools)) == multiset(Flatten(SortTools(tools).value.native))
            + multiset(SortTools(tools).value.flat)
  {
    var holds: (seq<Json>, Sorted) -> bool :=
      (before: seq<Json>, s: Sorted) => multiset(Flatten(before)) == multiset(Flatten(s.native)) + multiset(s.flat);
    forall before, s, tool | holds(before, s) && AddTool(s, tool).Success?
      ensures holds(before + [tool], AddTool(s, tool).value)
    {
      AddConserves(before, s, tool);
    }
    FoldKeeps(AddTool, UNSORTED, tools, holds);
  }

  lemma GroupingConserves(fields: Fields)
    requires Tools(fields).Success? && "tools" in fields
    ensures fields["tools"].List?
    ensures var before, after := fields["tools"].items, Get(Tools(fields).value, "tools");
            && after.List?
            && multiset(Flatten(after.items)) == multiset(Flatten(before))
            && after.items == Only(before, false)
               + (if Only(before, true) == [] then [] else [Grouped(Only(before, true))])
  {
    var before := fields["tools"].items;
    SortKeepsOrder(before);
    SortConserves(before);
    SortSplits(before);
    var s := SortTools(before).value;
    if s.flat == [] {
      assert s.native + [] == s.native;
    } else {
      GroupedIsNative(s.flat);
      var after := s.native + [Grouped(s.flat)];
      assert after[..|after| - 1] == s.native;
    }
  }

  /** A field the rewriting has not reached yet is as it was. */
  lemma KeptUntilGrouped(body: Json, refused: seq<string>) returns (listed: Fields, fields: Fields)
    requires Rewritten(body, refused).Success? && forall k :: k in TOUCHED ==> k !in refused
    ensures body.Object? && Tools(listed).Success? && Rewritten(body, refused) == Success(Object(fields))
    ensures forall k :: k in {"tools", "tool_choice"} ==>
            (k in listed <==> k in body.fields) && (k in listed ==> listed[k] == body.fields[k])
    ensures SameBut(Tools(listed).value, fields, {"store", "stream", "include"})
    ensures forall k :: k in body.fields && k !in fields ==> Get(body.fields, k) == Null && k in refused
    ensures forall k :: k in fields && k !in TOUCHED ==> k in body.fields && fields[k] == body.fields[k]
  {
    var stripped, grouped;
    stripped, listed, grouped, fields := StepsOf(body, refused);
    StripRemoves(body.fields, refused);
    assert "input" in fields && "store" in fields && "stream" in fields && "include" in fields;
    assert "tools" in TOUCHED && "tool_choice" in TOUCHED;
  }

  /**
   The rewritten tool list holds the same tools once namespaces are opened, the
   hosted tools and namespaces keep their order, and the loose tools keep theirs
   inside the one namespace put after them.
   */
  lemma ToolsAreConserved(body: Json)
    requires Normalized(body).Success? && "tools" in body.fields
    ensures body.fields["tools"].List?
    ensures var before := body.fields["tools"].items;
            var after := Get(Normalized(body).value.fields, "tools");
            && after.List?
            && multiset(Flatten(after.items)) == multiset(Flatten(before))
            && after.items == Only(before, false)
               + (if Only(before, true) == [] then [] else [Grouped(Only(before, true))])
  {
    SupportedNames();
    var listed, fields := KeptUntilGrouped(body, UNSUPPORTED);
    GroupingConserves(listed);
  }

  // ---------------------------------------------------------- the rest is untouched

  lemma ChoiceFollowsTools(fields: Fields)
    requires Tools(fields).Success?
    ensures var after := Tools(fields).value;
            && ("tools" in fields <==> "tools" in after)
            && ("tool_choice" in fields <==> "tool_choice" in after)
            && ("tool_choice" in fields ==>
                  after["tool_choice"] ==
                  if "tools" in fields && fields["tools"].List? && Only(fields["tools"].items, true) != [] then
                    Choice(fields["tool_choice"])
                  else fields["tool_choice"])
  {
    if "tools" in fields {
      SortKeepsOrder(fields["tools"].items);
    }
  }

  /**
   Only the six rewritten fields can differ, a dropped field was null, and the tool
   choice differs only where a named function gets the namespace its tool was put in.
   */
  lemma OtherFieldsAreKept(body: Json)
    requires Normalized(body).Success?
    ensures body.Object? && Normalized(body).value.Object?
    ensures var before, after := body.fields, Normalized(body).value.fields;
            && (forall k :: k in before && k !in after ==> Get(before, k) == Null && k in UNSUPPORTED)
            && (forall k :: k in after && k !in TOUCHED ==> k in before && after[k] == before[k])
            && ("tools" in before <==> "tools" in after)
            && ("tool_choice" in before <==> "tool_choice" in after)
            && ("tool_choice" in before ==>
                  after["tool_choice"] ==
                  if "tools" in before && before["tools"].List? && Only(before["tools"].items, true) != [] then
                    Choice(before["tool_choice"])
                  else before["tool_choice"])
  {
    SupportedNames();
    var listed, fields := KeptUntilGrouped(body, UNSUPPORTED);
    ChoiceFollowsTools(listed);
  }

  // ------------------------------------------------------------- what is accepted

  predicate AcceptsTools(tools: Json) {
    && tools.List?
    && (forall i :: 0 <= i < |tools.items| ==> IsKnown(tools.items[i]))
    && ((exists i :: 0 <= i < |tools.items| && IsFlat(tools.items[i])) ==>
          forall i :: 0 <= i < |tools.items| ==> !TakesFunctions(tools.items[i]))
  }

  predicate AcceptsInput(input: Json) {
    input.Text? || (input.List? && forall i :: 0 <= i < |input.items| ==> input.items[i].Object?)
  }

  /** Acceptable bodies, said without the rewriting. */
  predicate Accepts(body: Json) {
    && body.Object?
    && (forall k :: k in UNSUPPORTED ==> Get(body.fields, k) == Null)
    && AcceptsInput(Get(body.fields, "input"))
    && ("tools" in body.fields ==> AcceptsTools(body.fields["tools"]))
    && ("include" in body.fields ==> body.fields["include"].List?)
  }

  lemma {:induction false} StripAccepts(fields: Fields, names: seq<string>)
    ensures Strip(fields, names).Success? <==> forall k :: k in names ==> Get(fields, k) == Null
    decreases |names|
  {
    if names != [] {
      assert forall k :: k in names <==> k == names[0] || k in names[1..];
      StripAccepts(fields - {names[0]}, names[1..]);
      assert forall k :: k != names[0] ==> Get(fields - {names[0]}, k) == Get(fields, k);
      assert Get(fields - {names[0]}, names[0]) == Null;
    }
  }

  predicate IsKnown(tool: Json) {
    IsFlat(tool) || IsNative(tool)
  }

  /** The sorting knows whether it met a loose tool and whether it met the reserved namespace. */
  predicate Noted(tools: seq<Json>, s: Sorted) {
    && (forall i :: 0 <= i < |tools| ==> IsKnown(tools[i]))
    && (s.taken <==> exists i :: 0 <= i < |tools| && TakesFunctions(tools[i]))
    && (s.flat != [] <==> exists i :: 0 <= i < |tools| && IsFlat(tools[i]))
  }

  lemma AddNotes(tools: seq<Json>, s: Sorted, tool: Json)
    requires Noted(tools, s)
    ensures AddTool(s, tool).Success? <==> IsKnown(tool)
    ensures IsKnown(tool) ==> Noted(tools + [tool], AddTool(s, tool).value)
  {
    var grown := tools + [tool];
    assert grown[|tools|] == tool && forall i :: 0 <= i < |tools| ==> grown[i] == tools[i];
    if IsNative(tool) {
      NativeIsNotFlat(tool);
    }
  }

  lemma SortAccepts(tools: seq<Json>)
    ensures SortTools(tools).Success? <==> forall i :: 0 <= i < |tools| ==> IsKnown(tools[i])
    ensures SortTools(tools).Success? ==> Noted(tools, SortTools(tools).value)
  {
    forall before, s, tool | Noted(before, s) ensures
        (AddTool(s, tool).Success? <==> IsKnown(tool))
          && (IsKnown(tool) ==> Noted(before + [tool], AddTool(s, tool).value))
    {
      AddNotes(before, s, tool);
    }
    if forall i :: 0 <= i < |tools| ==> IsKnown(tools[i]) {
      FoldSucceeds(AddTool, UNSORTED, tools, Noted);
    } else if SortTools(tools).Success? {
      FoldKeeps(AddTool, UNSORTED, tools, Noted);
    }
  }

  lemma ToolsAccept(fields: Fields)
    ensures Tools(fields).Success? <==> ("tools" in fields ==> AcceptsTools(fields["tools"]))
  {
    if "tools" in fields && fields["tools"].List? {
      SortAccepts(fields["tools"].items);
    }
  }

  lemma RewritingAccepts(fields: Fields)
    ensures (Input(fields).Success? && Tools(Input(fields).value).Success?
            && AskReasoning(Tools(Input(fields).value).value).Success?)
       <==> && AcceptsInput(Get(fields, "input"))
            && ("tools" in fields ==> AcceptsTools(fields["tools"]))
            && ("include" in fields ==> fields["include"].List?)
  {
    if Input(fields).Success? {
      var listed := Input(fields).value;
      assert SameBut(fields, listed, {"input"});
      ToolsAccept(listed);
      if Tools(listed).Success? {
        assert SameBut(listed, Tools(listed).value, {"tools", "tool_choice"});
      }
    }
  }

  /** A body is rewritten exactly when it is acceptable; everything else is an error. */
  lemma NormalizeAccepts(body: Json)
    ensures Normalized(body).Success? <==> Accepts(body)
  {
    if body.Object? {
      StripAccepts(body.fields, UNSUPPORTED);
      if Strip(body.fields, UNSUPPORTED).Success? {
        var stripped := Strip(body.fields, UNSUPPORTED).value;
        StripRemoves(body.fields, UNSUPPORTED);
        SupportedNames();
        RewritingAccepts(stripped);
        assert forall k :: k in TOUCHED ==>
          (k in stripped <==> k in body.fields) && Get(stripped, k) == Get(body.fields, k);
        assert "input" in TOUCHED && "tools" in TOUCHED && "include" in TOUCHED;
      }
    }
  }
}
