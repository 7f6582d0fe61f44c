/**
 * output_functions_string: fills the generator's f-string templates with one
 * device property's name, human-readable name, device type and device
 * command, giving the line for __init__ and the getter / setter /
 * all_<name> block to paste into a config class.
 *
 * An f-string is kept as Python compiles it, a list of pieces: runs of
 * literal text, replacement fields naming a local, and the escapes "{{" and
 * "}}". Format evaluates the pieces; Render evaluates an f-string body given
 * as raw text, and a lemma in AccessorLemmas shows the two agree.
 */
module AccessorWriter {

  // ---------------------------------------------------------------- f-strings

  datatype Piece =
    | Text(text: string)     // a literal run, free of braces
    | Field(local: Local)    // {local}
    | LBrace                 // {{
    | RBrace                 // }}

  type Template = seq<Piece>

  /** The locals of output_functions_string a template refers to. */
  datatype Local = Name | HName | DType | DComm

  datatype Locals = Locals(name: string, hname: string, dtype: string, dcomm: string)

  function Value(l: Local, env: Locals): string {
    match l
    case Name => env.name
    case HName => env.hname
    case DType => env.dtype
    case DComm => env.dcomm
  }

  function PieceValue(p: Piece, env: Locals): string {
    match p
    case Text(s) => s
    case Field(l) => Value(l, env)
    case LBrace => "{"
    case RBrace => "}"
  }

  /** The value of an f-string. */
  function Format(t: Template, env: Locals): string
    decreases |t|
  {
    if t == [] then "" else Format(t[..|t| - 1], env) + PieceValue(t[|t| - 1], env)
  }

  /** Adjacent f-string literals, which Python concatenates. */
  function FormatAll(ts: seq<Template>, env: Locals): string
    decreases |ts|
  {
    if ts == [] then "" else Format(ts[0], env) + FormatAll(ts[1..], env)
  }

  // ---------------------------------------------------------------- the same, as raw text

  predicate BraceFree(s: string) {
    '{' !in s && '}' !in s
  }

  /** The literal runs a compiled f-string can hold have no braces. */
  predicate WellFormed(t: Template) {
    forall i :: 0 <= i < |t| ==> t[i].Text? ==> BraceFree(t[i].text)
  }

  /** How a local is spelled in a replacement field. */
  function Identifier(l: Local): string {
    match l
    case Name => "name"
    case HName => "hname"
    case DType => "dtype"
    case DComm => "dcomm"
  }

  /** The locals as Python looks them up by name. */
  function Bindings(env: Locals): map<string, string> {
    map["name" := env.name, "hname" := env.hname, "dtype" := env.dtype, "dcomm" := env.dcomm]
  }

  function PieceSource(p: Piece): string {
    match p
    case Text(s) => s
    case Field(l) => "{" + Identifier(l) + "}"
    case LBrace => "{{"
    case RBrace => "}}"
  }

  /** The body of the f-string literal as it is written in the source. */
  function Source(t: Template): string
    decreases |t|
  {
    if t == [] then "" else PieceSource(t[0]) + Source(t[1..])
  }

  /** The index of the first c at or after i, or |s|. */
  function Find(s: string, c: char, i: nat): (k: nat)
    requires i <= |s|
    ensures i <= k <= |s|
    ensures k < |s| ==> s[k] == c
    ensures forall j :: i <= j < k ==> s[j] != c
    decreases |s| - i
  {
    if i == |s| || s[i] == c then i else Find(s, c, i + 1)
  }

  /** The value of an f-string literal whose body is the raw text t: "{{" and
      "}}" give one brace, "{f}" gives the local f, any other character
      stands for itself. Python rejects a lone brace when it compiles the
      module, so what Render does with one does not matter. */
  function Render(t: string, env: map<string, string>): string
    decreases |t|
  {
    if t == [] then []
    else if |t| >= 2 && t[0] == '{' && t[1] == '{' then "{" + Render(t[2..], env)
    else if |t| >= 2 && t[0] == '}' && t[1] == '}' then "}" + Render(t[2..], env)
    else if t[0] == '{' then
      var k := Find(t, '}', 1);
      var f := t[1..k];
      (if f in env then env[f] else "") + Render(t[if k < |t| then k + 1 else k..], env)
    else [t[0]] + Render(t[1..], env)
  }

  // ---------------------------------------------------------------- the templates

  /** f"        self.__{name} = ItemList(self.__communication, DeviceType.{dtype}, DeviceCommand.{dcomm})" */
  const InitTemplate: Template :=
    [Text("        self.__"), Field(Name),
     Text(" = ItemList(self.__communication, DeviceType."), Field(DType),
     Text(", DeviceCommand."), Field(DComm), Text(")")]

  /** The eighteen adjacent f-strings of the property block, one per line:
      the comment and getter, the setter, the setter's error line, and the
      all_<name> method. The line break ending each is kept as a run of its
      own. */
  const FunctionTemplates: seq<Template> := GetterTemplates + SetterTemplates + [RaiseTemplate] + AllItemsTemplates

  const GetterTemplates: seq<Template> := [
    [Text("    # "), Field(HName), Text("\n")],
    [Text("    @property"), Text("\n")],
    [Text("    def "), Field(Name), Text("(self):"), Text("\n")],
    [Text("        \"\"\"Gets the "), Field(HName), Text("\"\"\""), Text("\n")],
    [Text("        return self.__"), Field(Name), Text(".current_item()"), Text("\n")],
    [Text("    "), Text("\n")]
  ]

  const SetterTemplates: seq<Template> := SetterHeadTemplates + SetterGuardTemplates

  const SetterHeadTemplates: seq<Template> := [
    [Text("    @"), Field(Name), Text(".setter"), Text("\n")],
    [Text("    def "), Field(Name), Text("(self,new_value):"), Text("\n")],
    [Text("        \"\"\"Sets the "), Field(HName), Text("\"\"\""), Text("\n")]
  ]

  const SetterGuardTemplates: seq<Template> := [
    [Text("        if self.__"), Field(Name), Text(".is_item_available(new_value):"), Text("\n")],
    [Text("            self.__"), Field(Name), Text(".set_current_item(new_value)"), Text("\n")],
    [Text("        else:"), Text("\n")]
  ]

  /** The setter's error line; its doubled braces put an f-string into the
      generated code. */
  const RaiseTemplate: Template :=
    [Text("            raise ConfigurationError(f\""), Field(HName),
     Text(" mode not available: "), LBrace, Text("new_value"), RBrace,
     Text(". Available values: "), LBrace, Text("self.all_"), Field(Name),
     Text("()"), RBrace, Text(".\")"), Text("\n")]

  const AllItemsTemplates: seq<Template> := [
    [Text("    "), Text("\n")],
    [Text("    def all_"), Field(Name), Text("(self):"), Text("\n")],
    [Text("        \"\"\"Gets all available settings for property "), Field(HName), Text("\"\"\""), Text("\n")],
    [Text("        return self.__"), Field(Name), Text(".available_items()"), Text("\n")],
    [Text("    "), Text("\n")]
  ]

  // ---------------------------------------------------------------- output_functions_string

  datatype Generated = Generated(initLine: string, functions: string)

  datatype Result = Ok(value: Generated) | KeyError(key: string)

  /** The four keyword arguments the generator reads, in the order it reads them. */
  const Keys: seq<string> := ["name", "hname", "dtype", "dcomm"]

  /** output_functions_string(**funcDict): reads name, hname, dtype and dcomm
      in that order, the first missing one raising KeyError, and fills the
      templates with them. */
  function OutputFunctionsString(funcDict: map<string, string>): (r: Result)
    ensures r.Ok? <==> "name" in funcDict && "hname" in funcDict && "dtype" in funcDict && "dcomm" in funcDict
    ensures r == KeyError("name") <==> "name" !in funcDict
    ensures r == KeyError("hname") <==> "name" in funcDict && "hname" !in funcDict
    ensures r == KeyError("dtype") <==> "name" in funcDict && "hname" in funcDict && "dtype" !in funcDict
    ensures r == KeyError("dcomm") <==>
      "name" in funcDict && "hname" in funcDict && "dtype" in funcDict && "dcomm" !in funcDict
  {
    if "name" !in funcDict then KeyError("name")
    else if "hname" !in funcDict then KeyError("hname")
    else if "dtype" !in funcDict then KeyError("dtype")
    else if "dcomm" !in funcDict then KeyError("dcomm")
    else
      var env := Locals(funcDict["name"], funcDict["hname"], funcDict["dtype"], funcDict["dcomm"]);
      Ok(Generated(Format(InitTemplate, env), FormatAll(FunctionTemplates, env)))
  }

  // ---------------------------------------------------------------- the code it generates

  /** The __init__ line, as it should read in the generated class. */
  function ExpectedInitLine(name: string, dtype: string, dcomm: string): string {
    "        self.__" + name + " = ItemList(self.__communication, DeviceType." + dtype
    + ", DeviceCommand." + dcomm + ")"
  }

  /** The property block, line by line, as it should read in the generated
      class: a comment and a getter returning the item list's current item;
      a setter that sets the value only when the item list has it and raises
      ConfigurationError otherwise; an all_<name> method listing the items. */
  function ExpectedLines(name: string, hname: string): seq<string> {
    GetterLines(name, hname) + SetterLines(name, hname) + [ErrorLine(name, hname)] + AllItemsLines(name, hname)
  }

  function GetterLines(name: string, hname: string): seq<string> {
    [ "    # " + hname,
      "    @property",
      "    def " + name + "(self):",
      "        \"\"\"Gets the " + hname + "\"\"\"",
      "        return self.__" + name + ".current_item()",
      "    " ]
  }

  function SetterLines(name: string, hname: string): seq<string> {
    SetterHeadLines(name, hname) + SetterGuardLines(name)
  }

  function SetterHeadLines(name: string, hname: string): seq<string> {
    [ "    @" + name + ".setter",
      "    def " + name + "(self,new_value):",
      "        \"\"\"Sets the " + hname + "\"\"\"" ]
  }

  function SetterGuardLines(name: string): seq<string> {
    [ "        if self.__" + name + ".is_item_available(new_value):",
      "            self.__" + name + ".set_current_item(new_value)",
      "        else:" ]
  }

  /** The setter's else branch, itself an f-string of the generated code,
      with single braces. */
  function ErrorLine(name: string, hname: string): string {
    "            raise ConfigurationError(f\"" + hname + " mode not available: " + "{" + "new_value" + "}"
    + ". Available values: " + "{" + "self.all_" + name + "()" + "}" + ".\")"
  }

  function AllItemsLines(name: string, hname: string): seq<string> {
    [ "    ",
      "    def all_" + name + "(self):",
      "        \"\"\"Gets all available settings for property " + hname + "\"\"\"",
      "        return self.__" + name + ".available_items()",
      "    " ]
  }

  /** Lines, each followed by a line break. */
  function Join(ls: seq<string>): string
    decreases |ls|
  {
    if ls == [] then "" else ls[0] + "\n" + Join(ls[1..])
  }

  /** The text between line breaks, as str.split("\n") gives it. */
  function Lines(s: string): (ls: seq<string>)
    ensures |ls| >= 1
    decreases |s|
  {
    var k := Find(s, '\n', 0);
    if k == |s| then [s] else [s[..k]] + Lines(s[k + 1..])
  }
}
