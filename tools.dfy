/** The tool registry and the tool executor of `backend/tools.py`: the constant
    list of tool schemas, the web search with its provider as an oracle, and the
    rendering of a search result into the text that becomes a sub-task's result. */
module Tools {
  import opened Wrappers
  import opened Text

  // ---------------------------------------------------------------- registry

  /** One entry of a tool's `parameters.properties`; `default` is absent for most. */
  datatype ParamSchema = ParamSchema(name: string, kind: string, description: Option<string>, default: Option<int>)

  /** A tool as registered: its `function` part with name, description, parameter properties
      (in declaration order) and the names of the required parameters. */
  datatype ToolSchema = ToolSchema(name: string, description: string, properties: seq<ParamSchema>, required: seq<string>)

  const WebSearchName := "web_search"
  const DefaultMaxResults := 5
  const SnippetLimit := 200

  /** The registry: one web-search tool. */
  const TOOLS: seq<ToolSchema> := [
    ToolSchema(
      WebSearchName,
      "搜索互联网获取实时信息。当用户询问最新新闻、实时数据、不确定的事实、或需要网络查询才能回答的问题时使用此工具。",
      [ ParamSchema("query", "string", Some("搜索查询关键词，应该简洁明确，包含核心关键词"), None),
        ParamSchema("max_results", "integer", Some("期望返回的搜索结果数量，默认为5"), Some(DefaultMaxResults)) ],
      ["query"])
  ]

  /** `get_tool_by_name`: the first registered tool with the given name, or `None`. */
  method GetToolByName(tools: seq<ToolSchema>, name: string) returns (r: Option<ToolSchema>)
    ensures r.None? <==> forall i :: 0 <= i < |tools| ==> tools[i].name != name
    ensures r.Some? ==> exists i :: 0 <= i < |tools| && tools[i] == r.value && tools[i].name == name
                                    && forall j :: 0 <= j < i ==> tools[j].name != name
  {
    for i := 0 to |tools|
      invariant forall j :: 0 <= j < i ==> tools[j].name != name
    {
      if tools[i].name == name {
        return Some(tools[i]);
      }
    }
    return None;
  }

  /** `get_all_tool_names`: the registered names, one per tool, in registry order. */
  function GetAllToolNames(tools: seq<ToolSchema>): (names: seq<string>)
    ensures |names| == |tools|
    ensures forall i :: 0 <= i < |tools| ==> names[i] == tools[i].name
  {
    seq(|tools|, i requires 0 <= i < |tools| => tools[i].name)
  }

  /** The registry dispatches by exactly one name, the web search. */
  lemma RegistryNames()
    ensures GetAllToolNames(TOOLS) == [WebSearchName]
  {
  }

  /** `"name: description"` for every parameter, in declaration order. */
  function ParamDescriptions(ps: seq<ParamSchema>): (r: seq<string>)
    ensures |r| == |ps|
    ensures forall i :: 0 <= i < |ps| ==> r[i] == ps[i].name + ": " + ps[i].description.GetOr("")
    decreases |ps|
  {
    if |ps| == 0 then []
    else ParamDescriptions(ps[..|ps| - 1]) + [ps[|ps| - 1].name + ": " + ps[|ps| - 1].description.GetOr("")]
  }

  /** The text block describing one tool. */
  function ToolDescription(t: ToolSchema): string
  {
    "- " + t.name + ": " + t.description + "\n  参数: " + Join(", ", ParamDescriptions(t.properties))
  }

  /** The description blocks of a prefix of the registry, one per tool. */
  function ToolDescriptions(tools: seq<ToolSchema>): (ds: seq<string>)
    ensures |ds| == |tools|
    ensures forall i :: 0 <= i < |tools| ==> ds[i] == ToolDescription(tools[i])
    decreases |tools|
  {
    if |tools| == 0 then [] else ToolDescriptions(tools[..|tools| - 1]) + [ToolDescription(tools[|tools| - 1])]
  }

  /** `get_tools_description`: the description blocks, one per tool, joined by newlines. */
  method GetToolsDescription(tools: seq<ToolSchema>) returns (text: string)
    ensures text == Join("\n", ToolDescriptions(tools))
  {
    var descriptions: seq<string> := [];
    for i := 0 to |tools|
      invariant descriptions == ToolDescriptions(tools[..i])
    {
      var paramDesc := Join(", ", ParamDescriptions(tools[i].properties));
      descriptions := descriptions + ["- " + tools[i].name + ": " + tools[i].description + "\n  参数: " + paramDesc];
      assert tools[..i + 1][..i] == tools[..i];
    }
    assert tools[..|tools|] == tools;
    text := Join("\n", descriptions);
  }

  /** The registry's description is the web-search block alone, whose parameter
      line lists `query` and then `max_results`, each with its description. */
  lemma RegistryDescription()
    ensures Join("\n", ToolDescriptions(TOOLS)) == ToolDescription(TOOLS[0])
    ensures ParamDescriptions(TOOLS[0].properties)
         == ["query: " + "搜索查询关键词，应该简洁明确，包含核心关键词",
             "max_results: " + "期望返回的搜索结果数量，默认为5"]
  {
    var props := TOOLS[0].properties;
    var ps := ParamDescriptions(props);
    assert props[0].name == "query" && props[0].description.GetOr("") == "搜索查询关键词，应该简洁明确，包含核心关键词";
    assert props[1].name == "max_results";
    assert |ps| == 2;
    assert ps[0] == "query: " + "搜索查询关键词，应该简洁明确，包含核心关键词";
    assert ps[1] == "max_results: " + "期望返回的搜索结果数量，默认为5";
  }

  // ---------------------------------------------------------------- web search

  /** A record as the provider returns it; `None` is a key the record lacks. */
  datatype RawRecord = RawRecord(title: Option<string>, href: Option<string>, body: Option<string>)

  /** A formatted search result. */
  datatype Hit = Hit(title: string, url: string, content: string)

  /** The search library: neither `ddgs` nor `duckduckgo_search` could be imported,
      or a provider whose text search returns records or raises with a message. */
  datatype SearchLibrary = Unavailable | Available(text: (string, int) -> Result<seq<RawRecord>>)

  /** The dictionary `web_search` returns; `None` stands for a key it does not set. */
  datatype SearchResponse = SearchResponse(success: bool, error: Option<string>, query: Option<string>, results: seq<Hit>)

  const NotInstalledError := "搜索库未安装，请运行: pip install ddgs"

  /** One provider record mapped to `{title, url, content}`, each missing key read as "". */
  function FormatHit(raw: RawRecord): Hit
  {
    Hit(raw.title.GetOr(""), raw.href.GetOr(""), raw.body.GetOr(""))
  }

  /** The provider's records mapped one for one, in order. */
  function FormattedResults(raw: seq<RawRecord>): (hits: seq<Hit>)
    ensures |hits| == |raw|
    ensures forall i :: 0 <= i < |raw| ==> hits[i] == FormatHit(raw[i])
    decreases |raw|
  {
    if |raw| == 0 then [] else FormattedResults(raw[..|raw| - 1]) + [FormatHit(raw[|raw| - 1])]
  }

  /** What `web_search(query, max_results)` returns. */
  function SearchResponseOf(lib: SearchLibrary, query: string, maxResults: int): (r: SearchResponse)
    ensures r.success <==> lib.Available? && lib.text(query, maxResults).Ok?
    ensures !r.success ==> r.results == [] && r.error.Some? && r.query.None?
    ensures lib.Unavailable? ==> r.error == Some(NotInstalledError)
    ensures lib.Available? && lib.text(query, maxResults).Err? ==> r.error == Some(lib.text(query, maxResults).error)
    ensures r.success ==> r.query == Some(query) && r.error.None?
                          && |r.results| == |lib.text(query, maxResults).value|
                          && forall i :: 0 <= i < |r.results| ==> r.results[i] == FormatHit(lib.text(query, maxResults).value[i])
  {
    match lib
    case Unavailable => SearchResponse(false, Some(NotInstalledError), None, [])
    case Available(text) =>
      match text(query, maxResults)
      case Err(e) => SearchResponse(false, Some(e), None, [])
      case Ok(raw) => SearchResponse(true, None, Some(query), FormattedResults(raw))
  }

  /** `web_search`: asks the provider and formats its records one by one. */
  method WebSearch(lib: SearchLibrary, query: string, maxResults: int) returns (r: SearchResponse)
    ensures r == SearchResponseOf(lib, query, maxResults)
  {
    if lib.Unavailable? {
      return SearchResponse(false, Some(NotInstalledError), None, []);
    }
    var outcome := lib.text(query, maxResults);
    if outcome.Err? {
      return SearchResponse(false, Some(outcome.error), None, []);
    }
    var raw := outcome.value;
    var formatted: seq<Hit> := [];
    for i := 0 to |raw|
      invariant formatted == FormattedResults(raw[..i])
    {
      formatted := formatted + [Hit(raw[i].title.GetOr(""), raw[i].href.GetOr(""), raw[i].body.GetOr(""))];
      assert raw[..i + 1][..i] == raw[..i];
    }
    assert raw[..|raw|] == raw;
    r := SearchResponse(true, None, Some(query), formatted);
  }

  // ---------------------------------------------------------------- rendering

  /** A result's content as shown: its first 200 characters and "..." when longer. */
  function Snippet(content: string): (r: string)
    ensures |content| > SnippetLimit ==> r == content[..SnippetLimit] + "..." && |r| == SnippetLimit + 3
    ensures |content| <= SnippetLimit ==> r == content
    ensures |r| <= SnippetLimit + 3
    ensures content[..if |content| < SnippetLimit then |content| else SnippetLimit] <= r
  {
    if |content| > SnippetLimit then content[..SnippetLimit] + "..." else content
  }

  /** The three lines of the result numbered `n`. */
  function ItemLines(n: nat, hit: Hit): seq<string>
  {
    ["[" + NatToString(n) + "] " + hit.title,
     "    链接: " + hit.url,
     "    摘要: " + Snippet(hit.content) + "\n"]
  }

  /** Three lines per result, the results numbered from 1 in order. */
  function HitLines(hits: seq<Hit>): (lines: seq<string>)
    ensures |lines| == 3 * |hits|
    decreases |hits|
  {
    if |hits| == 0 then [] else HitLines(hits[..|hits| - 1]) + ItemLines(|hits|, hits[|hits| - 1])
  }

  /** Result `i` (from 0) occupies lines `3i .. 3i+2` and carries the number `i + 1`. */
  lemma {:induction false} HitLinesAt(hits: seq<Hit>, i: nat)
    requires i < |hits|
    ensures HitLines(hits)[3 * i] == "[" + NatToString(i + 1) + "] " + hits[i].title
    ensures HitLines(hits)[3 * i + 1] == "    链接: " + hits[i].url
    ensures HitLines(hits)[3 * i + 2] == "    摘要: " + Snippet(hits[i].content) + "\n"
    decreases |hits|
  {
    var init := hits[..|hits| - 1];
    if i < |hits| - 1 {
      HitLinesAt(init, i);
      assert init[i] == hits[i];
    }
  }

  /** The lines of a non-empty search result: a header, a count line, then the results. */
  function SearchLines(query: string, hits: seq<Hit>): seq<string>
  {
    ["搜索关键词: " + query, "搜索结果 (" + NatToString(|hits|) + "条):\n"] + HitLines(hits)
  }

  /** Python's rendering of the tool name inside the unknown-tool message. */
  function NameText(name: Option<string>): string
  {
    match name
    case Some(n) => n
    case None => "None"
  }

  const UnknownToolPrefix := "未知工具: "
  const SearchFailedPrefix := "搜索失败: "
  const NoneGetError := "'NoneType' object has no attribute 'get'"

  /** The arguments of a tool call; `None` is a key the call does not give. */
  datatype Params = Params(query: Option<string>, maxResults: Option<int>)

  /** What `execute_tool(tool_name, tool_params)` returns, or the exception it raises.
      `params == None` is a call with `tool_params` set to None. */
  function ToolOutput(name: Option<string>, params: Option<Params>, lib: SearchLibrary): Result<string>
  {
    if name == Some(WebSearchName) then
      if params.None? then Err(NoneGetError)
      else
        var query := params.value.query.GetOr("");
        var maxResults := params.value.maxResults.GetOr(DefaultMaxResults);
        var result := SearchResponseOf(lib, query, maxResults);
        if !result.success then Ok(SearchFailedPrefix + result.error.GetOr("未知错误"))
        else if |result.results| == 0 then Ok("搜索关键词: " + result.query.value + "\n搜索结果: 未找到相关结果")
        else Ok(Join("\n", SearchLines(result.query.value, result.results)))
    else Ok(UnknownToolPrefix + NameText(name))
  }

  /** Three lines appended one at a time after the header and the earlier lines. */
  lemma LinesStep(header: seq<string>, lines: seq<string>, item: seq<string>)
    requires |item| == 3
    ensures header + lines + [item[0]] + [item[1]] + [item[2]] == header + (lines + item)
  {
    assert item == [item[0], item[1], item[2]];
  }

  /** The lines `execute_tool` joins for a non-empty response: the header, the count,
      then three lines per result numbered from 1. */
  method RenderSearch(query: string, hits: seq<Hit>) returns (outputParts: seq<string>)
    ensures outputParts == SearchLines(query, hits)
  {
    outputParts := ["搜索关键词: " + query, "搜索结果 (" + NatToString(|hits|) + "条):\n"];
    ghost var header := outputParts;
    for i := 0 to |hits|
      invariant outputParts == header + HitLines(hits[..i])
    {
      var item := hits[i];
      LinesStep(header, HitLines(hits[..i]), ItemLines(i + 1, item));
      outputParts := outputParts + ["[" + NatToString(i + 1) + "] " + item.title];
      outputParts := outputParts + ["    链接: " + item.url];
      var content := if |item.content| > SnippetLimit then item.content[..SnippetLimit] + "..." else item.content;
      outputParts := outputParts + ["    摘要: " + content + "\n"];
      assert hits[..i + 1][..i] == hits[..i];
    }
    assert hits[..|hits|] == hits;
  }

  /** `execute_tool`: dispatches on the name; for the web search, renders the response
      line by line. */
  method ExecuteTool(name: Option<string>, params: Option<Params>, lib: SearchLibrary) returns (r: Result<string>)
    ensures r == ToolOutput(name, params, lib)
  {
    if name == Some(WebSearchName) {
      if params.None? {
        return Err(NoneGetError);
      }
      var query := params.value.query.GetOr("");
      var maxResults := params.value.maxResults.GetOr(DefaultMaxResults);
      var result := WebSearch(lib, query, maxResults);
      if !result.success {
        return Ok(SearchFailedPrefix + result.error.GetOr("未知错误"));
      }
      if |result.results| == 0 {
        return Ok("搜索关键词: " + result.query.value + "\n搜索结果: 未找到相关结果");
      }
      var outputParts := RenderSearch(result.query.value, result.results);
      return Ok(Join("\n", outputParts));
    }
    return Ok(UnknownToolPrefix + NameText(name));
  }

  // ---------------------------------------------------------------- properties

  /** A name the registry does not list (or no name) yields the unknown-tool text and never fails. */
  lemma UnknownToolOutput(name: Option<string>, params: Option<Params>, lib: SearchLibrary)
    requires name.None? || name.value !in GetAllToolNames(TOOLS)
    ensures ToolOutput(name, params, lib) == Ok(UnknownToolPrefix + NameText(name))
  {
    RegistryNames();
  }

  /** A registered name is dispatched: given arguments, the output is text that
      starts with the search prefix and is never the unknown-tool text. */
  lemma RegisteredToolDispatched(n: string, p: Params, lib: SearchLibrary)
    requires n in GetAllToolNames(TOOLS)
    ensures ToolOutput(Some(n), Some(p), lib).Ok?
    ensures "搜索" <= ToolOutput(Some(n), Some(p), lib).value
    ensures ToolOutput(Some(n), Some(p), lib).value != UnknownToolPrefix + n
  {
    RegistryNames();
    var query := p.query.GetOr("");
    var result := SearchResponseOf(lib, query, p.maxResults.GetOr(DefaultMaxResults));
    if result.success && |result.results| > 0 {
      var lines := SearchLines(result.query.value, result.results);
      JoinStartsWithFirst("\n", lines);
    }
    var out := ToolOutput(Some(n), Some(p), lib).value;
    assert out[0] == '搜';
    assert (UnknownToolPrefix + n)[0] == '未';
  }

  /** A web-search call whose `tool_params` is None raises instead of returning text. */
  lemma NullParamsRaise(lib: SearchLibrary)
    ensures ToolOutput(Some(WebSearchName), None, lib) == Err(NoneGetError)
  {
  }

  /** Missing arguments read as `query = ""` and `max_results = 5`. */
  lemma DefaultParams(lib: SearchLibrary)
    ensures ToolOutput(Some(WebSearchName), Some(Params(None, None)), lib)
         == ToolOutput(Some(WebSearchName), Some(Params(Some(""), Some(DefaultMaxResults))), lib)
  {
  }

  /** A search that fails (no library, or the provider raises) renders as the failure text. */
  lemma FailedSearchOutput(p: Params, lib: SearchLibrary)
    requires lib.Unavailable? || lib.text(p.query.GetOr(""), p.maxResults.GetOr(DefaultMaxResults)).Err?
    ensures ToolOutput(Some(WebSearchName), Some(p), lib)
         == Ok(SearchFailedPrefix + if lib.Unavailable? then NotInstalledError
                                    else lib.text(p.query.GetOr(""), p.maxResults.GetOr(DefaultMaxResults)).error)
  {
  }

  /** A successful search with no records renders as the fixed "not found" text. */
  lemma EmptySearchOutput(p: Params, lib: SearchLibrary)
    requires lib.Available? && lib.text(p.query.GetOr(""), p.maxResults.GetOr(DefaultMaxResults)) == Ok([])
    ensures ToolOutput(Some(WebSearchName), Some(p), lib)
         == Ok("搜索关键词: " + p.query.GetOr("") + "\n搜索结果: 未找到相关结果")
  {
  }

  /** A successful search with records renders as the newline-join of the header, the count
      line and three lines per record: numbered from 1 in input order, with the record's
      title, its `href` as the link and its truncated `body` as the summary. */
  lemma NonEmptySearchOutput(p: Params, lib: SearchLibrary, raw: seq<RawRecord>)
    requires lib.Available? && lib.text(p.query.GetOr(""), p.maxResults.GetOr(DefaultMaxResults)) == Ok(raw)
    requires |raw| > 0
    ensures var lines := SearchLines(p.query.GetOr(""), FormattedResults(raw));
      && ToolOutput(Some(WebSearchName), Some(p), lib) == Ok(Join("\n", lines))
      && |lines| == 2 + 3 * |raw|
      && lines[0] == "搜索关键词: " + p.query.GetOr("")
      && lines[1] == "搜索结果 (" + NatToString(|raw|) + "条):\n"
      && ParseDecimal(NatToString(|raw|)) == |raw|
      && forall i :: 0 <= i < |raw| ==>
           && lines[2 + 3 * i] == "[" + NatToString(i + 1) + "] " + raw[i].title.GetOr("")
           && lines[3 + 3 * i] == "    链接: " + raw[i].href.GetOr("")
           && lines[4 + 3 * i] == "    摘要: " + Snippet(raw[i].body.GetOr("")) + "\n"
  {
    var hits := FormattedResults(raw);
    var lines := SearchLines(p.query.GetOr(""), hits);
    ParseNatToString(|raw|);
    forall i | 0 <= i < |raw|
      ensures lines[2 + 3 * i] == "[" + NatToString(i + 1) + "] " + raw[i].title.GetOr("")
      ensures lines[3 + 3 * i] == "    链接: " + raw[i].href.GetOr("")
      ensures lines[4 + 3 * i] == "    摘要: " + Snippet(raw[i].body.GetOr("")) + "\n"
    {
      HitLinesAt(hits, i);
    }
  }
}
