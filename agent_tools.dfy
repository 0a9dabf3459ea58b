/** The three demonstration tools: their definitions with JSON schemas and
    their implementations, which read one required string field (and, for
    the weather, an optional unit) and answer with a fixed template. */
module AgentTools {
  import opened Wrappers
  import opened Json
  import opened AgentTypes

  const WeatherName := "get_weather"
  const TimeName := "get_time"
  const CalculateName := "calculate"

  /** A string property of an input schema. */
  function StringProperty(description: string): (v: Value)
  {
    Obj([("type", Str("string")), ("description", Str(description))])
  }

  /** An object schema with its properties and its single required field. */
  function ObjectSchema(properties: seq<(string, Value)>, required: string): (v: Value)
  {
    Obj([("type", Str("object")), ("properties", Obj(properties)), ("required", Arr([Str(required)]))])
  }

  const WeatherSchema := ObjectSchema([
    ("location", StringProperty("The city and state, e.g. San Francisco, CA")),
    ("unit", Obj([("type", Str("string")), ("enum", Arr([Str("celsius"), Str("fahrenheit")])),
                  ("description", Str("The unit of temperature, either 'celsius' or 'fahrenheit'"))]))
  ], "location")

  const TimeSchema := ObjectSchema([
    ("timezone", StringProperty("The IANA time zone name, e.g. America/Los_Angeles"))
  ], "timezone")

  const CalculateSchema := ObjectSchema([
    ("expression", StringProperty("The mathematical expression to evaluate, e.g. '2 + 2'"))
  ], "expression")

  const WeatherTool := Tool(WeatherName, "Get the current weather in a given location", WeatherSchema)
  const TimeTool := Tool(TimeName, "Get the current time in a given time zone", TimeSchema)
  const CalculateTool := Tool(CalculateName, "Calculate the result of a mathematical expression", CalculateSchema)

  /** The field names a schema lists under "required" (none when the schema
      has no such array of strings). */
  function RequiredFields(schema: Value): (r: seq<string>)
  {
    var req := Index(schema, "required");
    if req.Arr? then
      seq(|req.items|, k requires 0 <= k < |req.items| => AsStr(req.items[k]).GetOr(""))
    else []
  }

  /** The string field the tool of that name cannot do without. */
  function FieldOf(name: string): (f: string)
  {
    if name == WeatherName then "location"
    else if name == TimeName then "timezone"
    else "expression"
  }

  /** The `get_weather` closure. */
  function GetWeather(input: Value): (r: Result<string, string>)
    ensures r.Err? <==> !Index(input, "location").Str?
    ensures r.Err? ==> r.error == "Missing location parameter"
  {
    match AsStr(Index(input, "location"))
    case None => Err("Missing location parameter")
    case Some(location) =>
      var unit := AsStr(Index(input, "unit")).GetOr("celsius");
      Ok("Weather in " + location + ": 15 degrees " + unit + ", sunny")
  }

  /** The `get_time` closure. */
  function GetTime(input: Value): (r: Result<string, string>)
    ensures r.Err? <==> !Index(input, "timezone").Str?
    ensures r.Err? ==> r.error == "Missing timezone parameter"
  {
    match AsStr(Index(input, "timezone"))
    case None => Err("Missing timezone parameter")
    case Some(timezone) => Ok("Current time in " + timezone + ": 14:30")
  }

  /** The `calculate` closure; it does not evaluate the expression. */
  function Calculate(input: Value): (r: Result<string, string>)
    ensures r.Err? <==> !Index(input, "expression").Str?
    ensures r.Err? ==> r.error == "Missing expression parameter"
  {
    match AsStr(Index(input, "expression"))
    case None => Err("Missing expression parameter")
    case Some(expression) => Ok("Result of '" + expression + "': 42")
  }

  /** `create_dummy_tools`: the definitions in order and the implementations
      by name. */
  method CreateDummyTools() returns (tools: seq<Tool>, implementations: map<string, ToolFn>)
    ensures tools == [WeatherTool, TimeTool, CalculateTool]
    ensures implementations.Keys == {WeatherName, TimeName, CalculateName}
    ensures implementations[WeatherName] == GetWeather
    ensures implementations[TimeName] == GetTime
    ensures implementations[CalculateName] == Calculate
  {
    tools := [];
    implementations := map[];
    tools := tools + [WeatherTool];
    implementations := implementations[WeatherName := GetWeather];
    tools := tools + [TimeTool];
    implementations := implementations[TimeName := GetTime];
    tools := tools + [CalculateTool];
    implementations := implementations[CalculateName := Calculate];
  }

  /** The value the method builds, for use in other functions and lemmas. */
  function DummyImplementations(): (m: map<string, ToolFn>)
  {
    map[WeatherName := GetWeather, TimeName := GetTime, CalculateName := Calculate]
  }

  /** Three tools with three distinct names, each name bound to an
      implementation, and no implementation without a tool. */
  lemma DummyToolsMatch()
    ensures |[WeatherTool, TimeTool, CalculateTool]| == 3
    ensures |DummyImplementations().Keys| == 3
    ensures DummyImplementations().Keys == set t | t in [WeatherTool, TimeTool, CalculateTool] :: t.name
  {
    var names := [WeatherName, TimeName, CalculateName];
    assert DummyImplementations().Keys == {names[0], names[1], names[2]};
    assert names[0] != names[1] && names[0] != names[2] && names[1] != names[2] by {
      assert names[0][4] == 'w' && names[1][4] == 't' && names[2][0] == 'c';
    }
  }

  /** Each tool's schema names exactly one required field, and it is the
      field the tool's implementation reads: the implementation fails exactly
      when that field is missing or not a string. */
  lemma RequiredFieldIsChecked(tool: Tool, input: Value)
    requires tool in [WeatherTool, TimeTool, CalculateTool]
    ensures RequiredFields(tool.inputSchema) == [FieldOf(tool.name)]
    ensures DummyImplementations()[tool.name](input).Err? <==> !Index(input, FieldOf(tool.name)).Str?
  {
    assert WeatherName != TimeName && WeatherName != CalculateName && TimeName != CalculateName by {
      assert WeatherName[4] == 'w' && TimeName[4] == 't' && CalculateName[0] == 'c';
    }
    if tool == WeatherTool {
      assert FieldOf(tool.name) == "location";
      SchemaRequires(WeatherTool.inputSchema.members[1].1.members, "location");
    } else if tool == TimeTool {
      assert FieldOf(tool.name) == "timezone";
      SchemaRequires(TimeTool.inputSchema.members[1].1.members, "timezone");
    } else {
      assert FieldOf(tool.name) == "expression";
      SchemaRequires(CalculateTool.inputSchema.members[1].1.members, "expression");
    }
  }

  /** Whatever its properties, an object schema requires exactly the one
      field it was built with. */
  lemma SchemaRequires(properties: seq<(string, Value)>, required: string)
    ensures RequiredFields(ObjectSchema(properties, required)) == [required]
  {
    var members := ObjectSchema(properties, required).members;
    assert "type" != "required" && "properties" != "required" by {
      assert |"type"| != |"required"| && |"properties"| != |"required"|;
    }
    assert Lookup(members, "required") == Lookup(members[1..], "required") == Lookup(members[2..], "required");
  }

  /** A weather report names the location it was asked about: for a given
      unit, different locations give different reports. */
  lemma WeatherReportsDiffer(a: Value, b: Value)
    requires GetWeather(a).Ok? && GetWeather(b).Ok?
    requires AsStr(Index(a, "unit")).GetOr("celsius") == AsStr(Index(b, "unit")).GetOr("celsius")
    ensures GetWeather(a) == GetWeather(b) <==> Index(a, "location") == Index(b, "location")
  {
    var la, lb := Index(a, "location").s, Index(b, "location").s;
    var unit := AsStr(Index(a, "unit")).GetOr("celsius");
    var tail := ": 15 degrees " + unit + ", sunny";
    assert GetWeather(a).value == "Weather in " + la + tail;
    assert GetWeather(b).value == "Weather in " + lb + tail;
    if GetWeather(a) == GetWeather(b) {
      var ra := GetWeather(a).value;
      assert |la| == |lb|;
      assert la == ra[11..11 + |la|];
      assert lb == ra[11..11 + |lb|];
    }
  }

  /** Leaving out the unit, or giving one that is not a string, is the same
      as asking for celsius. */
  lemma WeatherDefaultUnit(location: string, unit: Value)
    requires !unit.Str?
    ensures GetWeather(Obj([("location", Str(location)), ("unit", unit)]))
         == GetWeather(Obj([("location", Str(location)), ("unit", Str("celsius"))]))
    ensures GetWeather(Obj([("location", Str(location))]))
         == GetWeather(Obj([("location", Str(location)), ("unit", Str("celsius"))]))
  {
  }

  /** A location and a string unit are both reported. */
  lemma WeatherWithUnit(location: string, unit: string)
    ensures GetWeather(Obj([("location", Str(location)), ("unit", Str(unit))]))
         == Ok("Weather in " + location + ": 15 degrees " + unit + ", sunny")
  {
    var input := Obj([("location", Str(location)), ("unit", Str(unit))]);
    assert AsStr(Index(input, "location")) == Some(location);
    assert "location" != "unit" by { assert |"location"| != |"unit"|; }
    assert input.members[1..] == [("unit", Str(unit))];
    assert Lookup(input.members, "unit") == Lookup([("unit", Str(unit))], "unit") == Some(Str(unit));
  }

  /** The tool outputs for the inputs in the crate's own unit tests. */
  lemma WeatherExample()
    ensures GetWeather(Obj([("location", Str("San Francisco, CA")), ("unit", Str("celsius"))]))
         == Ok("Weather in San Francisco, CA: 15 degrees celsius, sunny")
  {
    WeatherWithUnit("San Francisco, CA", "celsius");
    SanFranciscoReport();
  }

  /** The report text for San Francisco, CA, spelled out. */
  lemma SanFranciscoReport()
    ensures "Weather in " + "San Francisco, CA" + ": 15 degrees " + "celsius" + ", sunny"
         == "Weather in San Francisco, CA: 15 degrees celsius, sunny"
  {
    assert "Weather in " + "San Francisco, CA" == "Weather in San Francisco, CA";
    assert "Weather in San Francisco, CA" + ": 15 degrees " == "Weather in San Francisco, CA: 15 degrees ";
    assert "Weather in San Francisco, CA: 15 degrees " + "celsius" == "Weather in San Francisco, CA: 15 degrees celsius";
    assert "Weather in San Francisco, CA: 15 degrees celsius" + ", sunny" == "Weather in San Francisco, CA: 15 degrees celsius, sunny";
  }

  lemma WeatherDefaultExample()
    ensures GetWeather(Obj([("location", Str("New York, NY"))]))
         == Ok("Weather in New York, NY: 15 degrees celsius, sunny")
  {
    var input := Obj([("location", Str("New York, NY"))]);
    assert GetWeather(input) == Ok("Weather in " + "New York, NY" + ": 15 degrees " + "celsius" + ", sunny") by {
      assert AsStr(Index(input, "location")) == Some("New York, NY");
      assert AsStr(Index(input, "unit")) == None;
    }
    NewYorkReport();
  }

  /** The report text for New York, NY, spelled out. */
  lemma NewYorkReport()
    ensures "Weather in " + "New York, NY" + ": 15 degrees " + "celsius" + ", sunny"
         == "Weather in New York, NY: 15 degrees celsius, sunny"
  {
    assert "Weather in " + "New York, NY" == "Weather in New York, NY";
    assert "Weather in New York, NY" + ": 15 degrees " == "Weather in New York, NY: 15 degrees ";
    assert "Weather in New York, NY: 15 degrees " + "celsius" == "Weather in New York, NY: 15 degrees celsius";
    assert "Weather in New York, NY: 15 degrees celsius" + ", sunny" == "Weather in New York, NY: 15 degrees celsius, sunny";
  }

  lemma TimeExample()
    ensures GetTime(Obj([("timezone", Str("America/Los_Angeles"))]))
         == Ok("Current time in America/Los_Angeles: 14:30")
  {
    var input := Obj([("timezone", Str("America/Los_Angeles"))]);
    assert AsStr(Index(input, "timezone")) == Some("America/Los_Angeles");
    assert "Current time in " + "America/Los_Angeles" + ": 14:30" == "Current time in America/Los_Angeles: 14:30";
  }

  lemma CalculateExample()
    ensures Calculate(Obj([("expression", Str("2 + 2"))])) == Ok("Result of '2 + 2': 42")
  {
    var input := Obj([("expression", Str("2 + 2"))]);
    assert AsStr(Index(input, "expression")) == Some("2 + 2");
    assert "Result of '" + "2 + 2" + "': 42" == "Result of '2 + 2': 42";
  }

  lemma MissingLocationExample()
    ensures GetWeather(Obj([])) == Err("Missing location parameter")
  {
  }
}
