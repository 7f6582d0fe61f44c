/**
 * What output_functions_string produces: exactly the __init__ line and the
 * eighteen-line property block its templates spell out, whatever else the
 * keyword arguments hold; and that the doubled braces of the setter's error
 * line render as Python renders the raw f-string, as single braces.
 */
module AccessorLemmas {
  import opened AccessorWriter

  // ---------------------------------------------------------------- evaluating templates

  lemma {:induction false} FormatSnoc(t: Template, p: Piece, env: Locals)
    ensures Format(t + [p], env) == Format(t, env) + PieceValue(p, env)
  {
    assert (t + [p])[..|t|] == t;
  }

  lemma {:induction false} FormatSingle(a: string, env: Locals)
    ensures Format([Text(a)], env) == a
  {
    FormatOne(Text(a), env);
  }

  lemma {:induction false} FormatOne(p: Piece, env: Locals)
    ensures Format([p], env) == PieceValue(p, env)
  {
    assert [p][..0] == [];
    EmptyConcat(PieceValue(p, env));
  }

  lemma {:induction false} EmptyConcat(s: string)
    ensures "" + s == s
  {
  }

  lemma {:induction false} FormatCons(p: Piece, t: Template, env: Locals)
    ensures Format([p] + t, env) == PieceValue(p, env) + Format(t, env)
    decreases |t|
  {
    if t == [] {
      assert [p] + t == [p];
      FormatOne(p, env);
      assert PieceValue(p, env) + "" == PieceValue(p, env);
    } else {
      var init, last := t[..|t| - 1], t[|t| - 1];
      assert t == init + [last];
      FormatCons(p, init, env);
      FormatConsStep(p, init, last, env);
    }
  }

  lemma {:induction false} FormatConsStep(p: Piece, init: Template, last: Piece, env: Locals)
    requires Format([p] + init, env) == PieceValue(p, env) + Format(init, env)
    ensures Format([p] + (init + [last]), env) == PieceValue(p, env) + Format(init + [last], env)
  {
    PieceAssoc(p, init, last);
    FormatSnoc([p] + init, last, env);
    FormatSnoc(init, last, env);
    StringAssoc(PieceValue(p, env), Format(init, env), PieceValue(last, env));
  }

  lemma PieceAssoc(p: Piece, init: Template, last: Piece)
    ensures [p] + (init + [last]) == ([p] + init) + [last]
  {
  }

  lemma StringAssoc(a: string, f: string, b: string)
    ensures (a + f) + b == a + (f + b)
  {
  }

  /** The shapes of the block's lines: text, a field, text, a line break. */
  lemma {:induction false} FormatLine(a: string, l: Local, b: string, env: Locals)
    ensures Format([Text(a), Field(l), Text(b), Text("\n")], env) == a + Value(l, env) + b + "\n"
  {
    FormatSingle(a, env);
    assert [Text(a), Field(l)] == [Text(a)] + [Field(l)];
    FormatSnoc([Text(a)], Field(l), env);
    assert [Text(a), Field(l), Text(b)] == [Text(a), Field(l)] + [Text(b)];
    FormatSnoc([Text(a), Field(l)], Text(b), env);
    assert [Text(a), Field(l), Text(b), Text("\n")] == [Text(a), Field(l), Text(b)] + [Text("\n")];
    FormatSnoc([Text(a), Field(l), Text(b)], Text("\n"), env);
  }

  lemma {:induction false} FormatPlainLine(a: string, env: Locals)
    ensures Format([Text(a), Text("\n")], env) == a + "\n"
  {
    FormatSingle(a, env);
    assert [Text(a), Text("\n")] == [Text(a)] + [Text("\n")];
    FormatSnoc([Text(a)], Text("\n"), env);
  }

  lemma {:induction false} FormatCommentLine(a: string, l: Local, env: Locals)
    ensures Format([Text(a), Field(l), Text("\n")], env) == a + Value(l, env) + "\n"
  {
    FormatSingle(a, env);
    assert [Text(a), Field(l)] == [Text(a)] + [Field(l)];
    FormatSnoc([Text(a)], Field(l), env);
    assert [Text(a), Field(l), Text("\n")] == [Text(a), Field(l)] + [Text("\n")];
    FormatSnoc([Text(a), Field(l)], Text("\n"), env);
  }

  lemma {:induction false} InitLine(env: Locals)
    ensures Format(InitTemplate, env) == ExpectedInitLine(env.name, env.dtype, env.dcomm)
  {
    var t1 := [Text("        self.__")];
    var t2 := t1 + [Field(Name)];
    var t3 := t2 + [Text(" = ItemList(self.__communication, DeviceType.")];
    var t4 := t3 + [Field(DType)];
    var t5 := t4 + [Text(", DeviceCommand.")];
    var t6 := t5 + [Field(DComm)];
    assert InitTemplate == t6 + [Text(")")];
    FormatSingle("        self.__", env);
    FormatSnoc(t1, Field(Name), env);
    FormatSnoc(t2, Text(" = ItemList(self.__communication, DeviceType."), env);
    FormatSnoc(t3, Field(DType), env);
    FormatSnoc(t4, Text(", DeviceCommand."), env);
    FormatSnoc(t5, Field(DComm), env);
    FormatSnoc(t6, Text(")"), env);
  }

  lemma {:induction false} RaiseLine(env: Locals)
    ensures Format(RaiseTemplate, env) == ErrorLine(env.name, env.hname) + "\n"
  {
    var t1 := [Text("            raise ConfigurationError(f\"")];
    var t2 := t1 + [Field(HName)];
    var t3 := t2 + [Text(" mode not available: ")];
    var t4 := t3 + [LBrace];
    var t5 := t4 + [Text("new_value")];
    var t6 := t5 + [RBrace];
    var t7 := t6 + [Text(". Available values: ")];
    var t8 := t7 + [LBrace];
    var t9 := t8 + [Text("self.all_")];
    var t10 := t9 + [Field(Name)];
    var t11 := t10 + [Text("()")];
    var t12 := t11 + [RBrace];
    var t13 := t12 + [Text(".\")")];
    assert RaiseTemplate == t13 + [Text("\n")];
    FormatSingle("            raise ConfigurationError(f\"", env);
    FormatSnoc(t1, Field(HName), env);
    FormatSnoc(t2, Text(" mode not available: "), env);
    FormatSnoc(t3, LBrace, env);
    FormatSnoc(t4, Text("new_value"), env);
    FormatSnoc(t5, RBrace, env);
    FormatSnoc(t6, Text(". Available values: "), env);
    FormatSnoc(t7, LBrace, env);
    FormatSnoc(t8, Text("self.all_"), env);
    FormatSnoc(t9, Field(Name), env);
    FormatSnoc(t10, Text("()"), env);
    FormatSnoc(t11, RBrace, env);
    FormatSnoc(t12, Text(".\")"), env);
    FormatSnoc(t13, Text("\n"), env);
  }

  lemma {:induction false} FormatAllJoin(ts: seq<Template>, ls: seq<string>, env: Locals)
    requires |ts| == |ls|
    requires forall i :: 0 <= i < |ts| ==> Format(ts[i], env) == ls[i] + "\n"
    ensures FormatAll(ts, env) == Join(ls)
    decreases |ts|
  {
    if ts != [] {
      FormatAllJoin(ts[1..], ls[1..], env);
    }
  }

  lemma {:induction false} FormatAllAppend(a: seq<Template>, b: seq<Template>, env: Locals)
    ensures FormatAll(a + b, env) == FormatAll(a, env) + FormatAll(b, env)
    decreases |a|
  {
    if a != [] {
      assert (a + b)[0] == a[0];
      assert (a + b)[1..] == a[1..] + b;
      FormatAllAppend(a[1..], b, env);
      var x, y, z := Format(a[0], env), FormatAll(a[1..], env), FormatAll(b, env);
      assert x + (y + z) == (x + y) + z;
    } else {
      assert a + b == b;
      assert "" + FormatAll(b, env) == FormatAll(b, env);
    }
  }

  lemma {:induction false} JoinAppend(a: seq<string>, b: seq<string>)
    ensures Join(a + b) == Join(a) + Join(b)
    decreases |a|
  {
    if a != [] {
      assert (a + b)[0] == a[0];
      assert (a + b)[1..] == a[1..] + b;
      JoinAppend(a[1..], b);
      var x, y, z := a[0] + "\n", Join(a[1..]), Join(b);
      assert x + (y + z) == (x + y) + z;
    } else {
      assert a + b == b;
      assert "" + Join(b) == Join(b);
    }
  }

  lemma {:induction false} JoinedGroups(ts1: seq<Template>, ls1: seq<string>, ts2: seq<Template>, ls2: seq<string>, env: Locals)
    requires FormatAll(ts1, env) == Join(ls1) && FormatAll(ts2, env) == Join(ls2)
    ensures FormatAll(ts1 + ts2, env) == Join(ls1 + ls2)
  {
    FormatAllAppend(ts1, ts2, env);
    JoinAppend(ls1, ls2);
  }

  /** The setter's error line, as a group of its own. */
  lemma {:induction false} RaiseText(env: Locals)
    ensures FormatAll([RaiseTemplate], env) == Join([ErrorLine(env.name, env.hname)])
  {
    var e := ErrorLine(env.name, env.hname);
    RaiseLine(env);
    assert [RaiseTemplate][1..] == [] && [e][1..] == [];
    assert FormatAll([RaiseTemplate], env) == Format(RaiseTemplate, env) + "";
    assert Join([e]) == e + "\n" + "";
  }

  lemma {:induction false} FourGroups(ts1: seq<Template>, ls1: seq<string>, ts2: seq<Template>, ls2: seq<string>,
                                      ts3: seq<Template>, ls3: seq<string>, ts4: seq<Template>, ls4: seq<string>,
                                      env: Locals)
    requires FormatAll(ts1, env) == Join(ls1) && FormatAll(ts2, env) == Join(ls2)
    requires FormatAll(ts3, env) == Join(ls3) && FormatAll(ts4, env) == Join(ls4)
    ensures FormatAll(ts1 + ts2 + ts3 + ts4, env) == Join(ls1 + ls2 + ls3 + ls4)
  {
    JoinedGroups(ts1, ls1, ts2, ls2, env);
    JoinedGroups(ts1 + ts2, ls1 + ls2, ts3, ls3, env);
    JoinedGroups(ts1 + ts2 + ts3, ls1 + ls2 + ls3, ts4, ls4, env);
  }

  /** The comment and the getter. */
  lemma {:induction false} GetterText(env: Locals)
    ensures FormatAll(GetterTemplates, env) == Join(GetterLines(env.name, env.hname))
  {
    CommentLine(env);
    PropertyLine(env);
    GetterDefLine(env);
    GetterDocLine(env);
    ReturnLine(env);
    GetterBlankLine(env);
    FormatAllJoin(GetterTemplates, GetterLines(env.name, env.hname), env);
  }

  lemma {:induction false} CommentLine(env: Locals)
    ensures Format(GetterTemplates[0], env) == GetterLines(env.name, env.hname)[0] + "\n"
  {
    FormatCommentLine("    # ", HName, env);
  }

  lemma {:induction false} PropertyLine(env: Locals)
    ensures Format(GetterTemplates[1], env) == GetterLines(env.name, env.hname)[1] + "\n"
  {
    FormatPlainLine("    @property", env);
  }

  lemma {:induction false} GetterDefLine(env: Locals)
    ensures Format(GetterTemplates[2], env) == GetterLines(env.name, env.hname)[2] + "\n"
  {
    FormatLine("    def ", Name, "(self):", env);
  }

  lemma {:induction false} GetterDocLine(env: Locals)
    ensures Format(GetterTemplates[3], env) == GetterLines(env.name, env.hname)[3] + "\n"
  {
    FormatLine("        \"\"\"Gets the ", HName, "\"\"\"", env);
  }

  lemma {:induction false} ReturnLine(env: Locals)
    ensures Format(GetterTemplates[4], env) == GetterLines(env.name, env.hname)[4] + "\n"
  {
    FormatLine("        return self.__", Name, ".current_item()", env);
  }

  lemma {:induction false} GetterBlankLine(env: Locals)
    ensures Format(GetterTemplates[5], env) == GetterLines(env.name, env.hname)[5] + "\n"
  {
    FormatPlainLine("    ", env);
  }

  /** The setter, down to its else branch. */
  lemma {:induction false} SetterText(env: Locals)
    ensures FormatAll(SetterTemplates, env) == Join(SetterLines(env.name, env.hname))
  {
    SetterHeadText(env);
    SetterGuardText(env);
    JoinedGroups(SetterHeadTemplates, SetterHeadLines(env.name, env.hname),
                 SetterGuardTemplates, SetterGuardLines(env.name), env);
  }

  /** The decorator, def and docstring of the setter. */
  lemma {:induction false} SetterHeadText(env: Locals)
    ensures FormatAll(SetterHeadTemplates, env) == Join(SetterHeadLines(env.name, env.hname))
  {
    DecoratorLine(env);
    SetterDefLine(env);
    SetterDocLine(env);
    FormatAllJoin(SetterHeadTemplates, SetterHeadLines(env.name, env.hname), env);
  }

  lemma {:induction false} DecoratorLine(env: Locals)
    ensures Format(SetterHeadTemplates[0], env) == SetterHeadLines(env.name, env.hname)[0] + "\n"
  {
    FormatLine("    @", Name, ".setter", env);
  }

  lemma {:induction false} SetterDefLine(env: Locals)
    ensures Format(SetterHeadTemplates[1], env) == SetterHeadLines(env.name, env.hname)[1] + "\n"
  {
    FormatLine("    def ", Name, "(self,new_value):", env);
  }

  lemma {:induction false} SetterDocLine(env: Locals)
    ensures Format(SetterHeadTemplates[2], env) == SetterHeadLines(env.name, env.hname)[2] + "\n"
  {
    FormatLine("        \"\"\"Sets the ", HName, "\"\"\"", env);
  }

  /** The availability check, the assignment and the else. */
  lemma {:induction false} SetterGuardText(env: Locals)
    ensures FormatAll(SetterGuardTemplates, env) == Join(SetterGuardLines(env.name))
  {
    AvailabilityLine(env);
    AssignmentLine(env);
    ElseLine(env);
    FormatAllJoin(SetterGuardTemplates, SetterGuardLines(env.name), env);
  }

  lemma {:induction false} AvailabilityLine(env: Locals)
    ensures Format(SetterGuardTemplates[0], env) == SetterGuardLines(env.name)[0] + "\n"
  {
    FormatLine("        if self.__", Name, ".is_item_available(new_value):", env);
  }

  lemma {:induction false} AssignmentLine(env: Locals)
    ensures Format(SetterGuardTemplates[1], env) == SetterGuardLines(env.name)[1] + "\n"
  {
    FormatLine("            self.__", Name, ".set_current_item(new_value)", env);
  }

  lemma {:induction false} ElseLine(env: Locals)
    ensures Format(SetterGuardTemplates[2], env) == SetterGuardLines(env.name)[2] + "\n"
  {
    FormatPlainLine("        else:", env);
  }

  /** The all_<name> method. */
  lemma {:induction false} AllItemsText(env: Locals)
    ensures FormatAll(AllItemsTemplates, env) == Join(AllItemsLines(env.name, env.hname))
  {
    AllItemsBlankLine(env);
    AllItemsDefLine(env);
    AllItemsDocLine(env);
    AllItemsReturnLine(env);
    FinalBlankLine(env);
    FormatAllJoin(AllItemsTemplates, AllItemsLines(env.name, env.hname), env);
  }

  lemma {:induction false} AllItemsBlankLine(env: Locals)
    ensures Format(AllItemsTemplates[0], env) == AllItemsLines(env.name, env.hname)[0] + "\n"
  {
    FormatPlainLine("    ", env);
  }

  lemma {:induction false} AllItemsDefLine(env: Locals)
    ensures Format(AllItemsTemplates[1], env) == AllItemsLines(env.name, env.hname)[1] + "\n"
  {
    FormatLine("    def all_", Name, "(self):", env);
  }

  lemma {:induction false} AllItemsDocLine(env: Locals)
    ensures Format(AllItemsTemplates[2], env) == AllItemsLines(env.name, env.hname)[2] + "\n"
  {
    FormatLine("        \"\"\"Gets all available settings for property ", HName, "\"\"\"", env);
  }

  lemma {:induction false} AllItemsReturnLine(env: Locals)
    ensures Format(AllItemsTemplates[3], env) == AllItemsLines(env.name, env.hname)[3] + "\n"
  {
    FormatLine("        return self.__", Name, ".available_items()", env);
  }

  lemma {:induction false} FinalBlankLine(env: Locals)
    ensures Format(AllItemsTemplates[4], env) == AllItemsLines(env.name, env.hname)[4] + "\n"
  {
    FormatPlainLine("    ", env);
  }

  /** The whole block, the four groups one after another. */
  lemma {:induction false} BlockText(env: Locals)
    ensures FormatAll(FunctionTemplates, env) == Join(ExpectedLines(env.name, env.hname))
  {
    var n, h := env.name, env.hname;
    GetterText(env);
    SetterText(env);
    RaiseLine(env);
    AllItemsText(env);
    RaiseText(env);
    FourGroups(GetterTemplates, GetterLines(n, h), SetterTemplates, SetterLines(n, h),
      [RaiseTemplate], [ErrorLine(n, h)], AllItemsTemplates, AllItemsLines(n, h), env);
  }

  /** A call with all four keys yields the expected __init__ line and the
      expected property block. */
  lemma {:induction false} GeneratedText(funcDict: map<string, string>)
    requires OutputFunctionsString(funcDict).Ok?
    ensures var g, n, h := OutputFunctionsString(funcDict).value, funcDict["name"], funcDict["hname"];
      && g.initLine == ExpectedInitLine(n, funcDict["dtype"], funcDict["dcomm"])
      && g.functions == Join(ExpectedLines(n, h))
  {
    var env := Locals(funcDict["name"], funcDict["hname"], funcDict["dtype"], funcDict["dcomm"]);
    InitLine(env);
    BlockText(env);
  }

  /** The result is fixed by the four keys read: other keys are ignored. */
  lemma {:induction false} DependsOnlyOnKeys(d1: map<string, string>, d2: map<string, string>)
    requires forall k :: k in Keys ==> (k in d1 <==> k in d2) && (k in d1 ==> d1[k] == d2[k])
    ensures OutputFunctionsString(d1) == OutputFunctionsString(d2)
  {
    assert "name" in Keys && "hname" in Keys && "dtype" in Keys && "dcomm" in Keys;
  }

  // ---------------------------------------------------------------- line structure

  predicate SingleLines(ls: seq<string>) {
    forall i :: 0 <= i < |ls| ==> '\n' !in ls[i]
  }

  lemma {:induction false} SingleLinesAppend(a: seq<string>, b: seq<string>)
    requires SingleLines(a) && SingleLines(b)
    ensures SingleLines(a + b)
  {
    forall i | 0 <= i < |a + b| ensures '\n' !in (a + b)[i] {
      if i >= |a| { assert (a + b)[i] == b[i - |a|]; }
    }
  }

  lemma {:induction false} LineEndAt(l: string, rest: string)
    requires '\n' !in l
    ensures Find(l + "\n" + rest, '\n', 0) == |l|
  {
    var s := l + "\n" + rest;
    var k := Find(s, '\n', 0);
    assert s[|l|] == '\n';
    assert forall j :: 0 <= j < |l| ==> s[j] == l[j];
  }

  /** Splitting joined lines at the line breaks gives them back, with the
      empty text after the last break. */
  lemma {:induction false} LinesJoin(ls: seq<string>)
    requires SingleLines(ls)
    ensures Lines(Join(ls)) == ls + [""]
    decreases |ls|
  {
    if ls != [] {
      SingleLinesTail(ls);
      LinesJoin(ls[1..]);
      LinesJoinStep(ls);
    }
  }

  lemma {:induction false} SingleLinesTail(ls: seq<string>)
    requires SingleLines(ls) && ls != []
    ensures '\n' !in ls[0] && SingleLines(ls[1..])
  {
    forall i | 0 <= i < |ls[1..]| ensures ls[1..][i] == ls[i + 1] { }
  }

  lemma {:induction false} LinesJoinStep(ls: seq<string>)
    requires ls != [] && '\n' !in ls[0]
    requires Lines(Join(ls[1..])) == ls[1..] + [""]
    ensures Lines(Join(ls)) == ls + [""]
  {
    var l, rest := ls[0], Join(ls[1..]);
    assert Join(ls) == l + "\n" + rest;
    LinesCons(l, rest);
    assert ls + [""] == [l] + (ls[1..] + [""]);
  }

  /** A line without breaks, then a break, splits off as the first line. */
  lemma {:induction false} LinesCons(l: string, rest: string)
    requires '\n' !in l
    ensures Lines(l + "\n" + rest) == [l] + Lines(rest)
  {
    var s := l + "\n" + rest;
    LineEndAt(l, rest);
    assert s[..|l|] == l;
    assert s[|l| + 1..] == rest;
  }

  // ---------------------------------------------------------------- no line breaks in the literals

  // The lemmas from here to AllItemsSingle say that the literal text of the
  // template lines holds no "\n". The verifier unfolds a string literal
  // character by character, so each of these lemmas carries only a few
  // literals. The two longest literals are split in two (DocstringSplit,
  // RaiseHeadSplit) and their halves joined by NoBreakAppend. The same holds
  // for the brace-free literals of the error line further down.

  lemma {:induction false} GetterSingle(name: string, hname: string)
    requires '\n' !in name && '\n' !in hname
    ensures SingleLines(GetterLines(name, hname))
  {
    assert '\n' !in "    # " && '\n' !in "    @property" && '\n' !in "    def " && '\n' !in "(self):";
    assert '\n' !in "        \"\"\"Gets the " && '\n' !in "\"\"\"";
    assert '\n' !in "        return self.__" && '\n' !in ".current_item()" && '\n' !in "    ";
  }

  lemma {:induction false} SetterTextsSingle()
    ensures '\n' !in "    @" && '\n' !in ".setter" && '\n' !in "    def " && '\n' !in "(self,new_value):"
    ensures '\n' !in "        \"\"\"Sets the " && '\n' !in "\"\"\"" && '\n' !in "        if self.__"
  {
  }

  lemma {:induction false} GuardTextsSingle()
    ensures '\n' !in ".is_item_available(new_value):" && '\n' !in "            self.__"
    ensures '\n' !in ".set_current_item(new_value)" && '\n' !in "        else:"
  {
    CheckTextSingle();
    AssignTextSingle();
  }

  lemma {:induction false} CheckTextSingle()
    ensures '\n' !in ".is_item_available(new_value):" && '\n' !in "        else:"
  {
  }

  lemma {:induction false} AssignTextSingle()
    ensures '\n' !in "            self.__" && '\n' !in ".set_current_item(new_value)"
  {
  }

  lemma {:induction false} SetterSingle(name: string, hname: string)
    requires '\n' !in name && '\n' !in hname
    ensures SingleLines(SetterLines(name, hname))
  {
    SetterTextsSingle();
    GuardTextsSingle();
  }

  lemma {:induction false} ErrorSingle(name: string, hname: string)
    requires '\n' !in name && '\n' !in hname
    ensures SingleLines([ErrorLine(name, hname)])
  {
    RaiseHeadSingle();
    ErrorTextsSingle();
  }

  lemma {:induction false} RaiseKeywordSingle()
    ensures '\n' !in "            raise "
  {
  }

  lemma {:induction false} RaiseCallSingle()
    ensures '\n' !in "ConfigurationError(f\""
  {
  }

  lemma {:induction false} RaiseHeadSingle()
    ensures '\n' !in "            raise ConfigurationError(f\""
  {
    RaiseHeadSplit();
    RaiseKeywordSingle();
    RaiseCallSingle();
    NoBreakAppend("            raise ", "ConfigurationError(f\"");
  }

  lemma {:induction false} ErrorTextsSingle()
    ensures '\n' !in " mode not available: " && '\n' !in "{" && '\n' !in "new_value" && '\n' !in "}"
    ensures '\n' !in ". Available values: " && '\n' !in "self.all_" && '\n' !in "()" && '\n' !in ".\")"
  {
  }

  lemma {:induction false} DocstringSplit()
    ensures "        \"\"\"Gets all available settings for property "
         == "        \"\"\"Gets all available" + " settings for property "
  {
  }

  lemma {:induction false} DocstringParts()
    ensures '\n' !in "        \"\"\"Gets all available"
  {
  }

  lemma {:induction false} DocstringTail()
    ensures '\n' !in " settings for property "
  {
  }

  lemma {:induction false} AllItemsTextsSingle()
    ensures '\n' !in "        \"\"\"Gets all available settings for property "
  {
    DocstringSplit();
    DocstringParts();
    DocstringTail();
    NoBreakAppend("        \"\"\"Gets all available", " settings for property ");
  }

  lemma {:induction false} NoBreakAppend(a: string, b: string)
    requires '\n' !in a && '\n' !in b
    ensures '\n' !in a + b
  {
  }

  lemma {:induction false} AllItemsSingle(name: string, hname: string)
    requires '\n' !in name && '\n' !in hname
    ensures SingleLines(AllItemsLines(name, hname))
  {
    AllItemsTextsSingle();
    assert '\n' !in "    " && '\n' !in "    def all_" && '\n' !in "(self):" && '\n' !in "\"\"\"";
    assert '\n' !in "        return self.__" && '\n' !in ".available_items()";
  }

  /** For names without line breaks, the block is exactly the eighteen
      expected lines, each ended by a line break. */
  lemma {:induction false} GeneratedLines(funcDict: map<string, string>)
    requires OutputFunctionsString(funcDict).Ok?
    requires '\n' !in funcDict["name"] && '\n' !in funcDict["hname"]
    ensures Lines(OutputFunctionsString(funcDict).value.functions)
         == ExpectedLines(funcDict["name"], funcDict["hname"]) + [""]
  {
    var n, h := funcDict["name"], funcDict["hname"];
    GeneratedText(funcDict);
    GetterSingle(n, h);
    SetterSingle(n, h);
    ErrorSingle(n, h);
    AllItemsSingle(n, h);
    var g, s, r := GetterLines(n, h), SetterLines(n, h), [ErrorLine(n, h)];
    SingleLinesAppend(g, s);
    SingleLinesAppend(g + s, r);
    SingleLinesAppend(g + s + r, AllItemsLines(n, h));
    LinesJoin(ExpectedLines(n, h));
  }

  /** Line by line: the block opens with the comment and a getter returning
      the item list's current item; the setter sets the value only when the
      item list has it and raises ConfigurationError otherwise; the block
      closes with the all_<name> method and an indented empty line. */
  lemma {:induction false} BlockLayout(funcDict: map<string, string>)
    requires OutputFunctionsString(funcDict).Ok?
    requires '\n' !in funcDict["name"] && '\n' !in funcDict["hname"]
    ensures var ls, n, h := Lines(OutputFunctionsString(funcDict).value.functions), funcDict["name"], funcDict["hname"];
      && |ls| == 19
      && ls[..6] == GetterLines(n, h)
      && ls[6..12] == SetterLines(n, h)
      && ls[12] == ErrorLine(n, h)
      && ls[13..18] == AllItemsLines(n, h)
      && ls[18] == ""
  {
    var n, h := funcDict["name"], funcDict["hname"];
    GeneratedLines(funcDict);
    var g, s, r, a := GetterLines(n, h), SetterLines(n, h), [ErrorLine(n, h)], AllItemsLines(n, h);
    var ls := g + s + r + a + [""];
    assert |g| == 6 && |s| == 6 && |a| == 5;
    assert ls[..6] == g;
    assert ls[6..12] == s;
    assert ls[13..18] == a;
  }

  // ---------------------------------------------------------------- raw f-string text

  /** A character other than a brace stands for itself. */
  lemma {:induction false} RenderPlain(t: string, env: map<string, string>)
    requires t != [] && t[0] != '{' && t[0] != '}'
    ensures Render(t, env) == [t[0]] + Render(t[1..], env)
  {
  }

  /** A brace-free run is copied. */
  lemma {:induction false} RenderText(s: string, rest: string, env: map<string, string>)
    requires BraceFree(s)
    ensures Render(s + rest, env) == s + Render(rest, env)
    decreases |s|
  {
    if s != [] {
      var t := s + rest;
      assert s == [s[0]] + s[1..];
      assert t[0] == s[0] && t[1..] == s[1..] + rest;
      assert s[0] in s;
      RenderPlain(t, env);
      RenderText(s[1..], rest, env);
      assert [s[0]] + (s[1..] + Render(rest, env)) == ([s[0]] + s[1..]) + Render(rest, env);
    } else {
      assert s + rest == rest;
      assert s + Render(rest, env) == Render(rest, env);
    }
  }

  /** "{f}", for a non-empty brace-free name f, is replaced by f's binding. */
  lemma {:induction false} RenderField(f: string, rest: string, env: map<string, string>)
    requires f != "" && BraceFree(f)
    ensures Render("{" + f + "}" + rest, env) == (if f in env then env[f] else "") + Render(rest, env)
  {
    var t := "{" + f + "}" + rest;
    var n := |f| + 1;
    assert t[0] == '{' && t[1] == f[0] && f[0] in f;
    assert t[n] == '}';
    assert forall j :: 1 <= j < n ==> t[j] == f[j - 1] && f[j - 1] in f;
    var k := Find(t, '}', 1);
    assert k == n;
    assert t[1..k] == f;
    assert t[k + 1..] == rest;
  }

  lemma {:induction false} IdentifierBound(l: Local, env: Locals)
    ensures Identifier(l) != "" && BraceFree(Identifier(l))
    ensures Identifier(l) in Bindings(env) && Bindings(env)[Identifier(l)] == Value(l, env)
  {
    match l
    case Name =>
    case HName =>
    case DType =>
    case DComm =>
  }

  lemma {:induction false} RenderPiece(p: Piece, rest: string, env: Locals)
    requires p.Text? ==> BraceFree(p.text)
    ensures Render(PieceSource(p) + rest, Bindings(env)) == PieceValue(p, env) + Render(rest, Bindings(env))
  {
    match p
    case Text(s) => RenderText(s, rest, Bindings(env));
    case Field(l) =>
      IdentifierBound(l, env);
      RenderField(Identifier(l), rest, Bindings(env));
    case LBrace =>
      var t := "{{" + rest;
      assert t[0] == '{' && t[1] == '{' && t[2..] == rest;
    case RBrace =>
      var t := "}}" + rest;
      assert t[0] == '}' && t[1] == '}' && t[2..] == rest;
  }

  /** Rendering the raw body of a well-formed f-string gives the value of its
      pieces: each "{{" and "}}" of the source text becomes one brace. */
  lemma {:induction false} RenderSource(t: Template, env: Locals)
    requires WellFormed(t)
    ensures Render(Source(t), Bindings(env)) == Format(t, env)
    decreases |t|
  {
    if t != [] {
      WellFormedTail(t);
      RenderSource(t[1..], env);
      RenderSourceStep(t, env);
    }
  }

  lemma {:induction false} WellFormedTail(t: Template)
    requires WellFormed(t) && t != []
    ensures (t[0].Text? ==> BraceFree(t[0].text)) && WellFormed(t[1..])
  {
    forall i | 0 <= i < |t[1..]| ensures t[1..][i] == t[i + 1] { }
  }

  lemma {:induction false} RenderSourceStep(t: Template, env: Locals)
    requires t != [] && (t[0].Text? ==> BraceFree(t[0].text))
    requires Render(Source(t[1..]), Bindings(env)) == Format(t[1..], env)
    ensures Render(Source(t), Bindings(env)) == Format(t, env)
  {
    RenderPiece(t[0], Source(t[1..]), env);
    assert t == [t[0]] + t[1..];
    FormatCons(t[0], t[1..], env);
  }

  lemma {:induction false} WellFormedSnoc(t: Template, p: Piece)
    requires WellFormed(t) && (p.Text? ==> BraceFree(p.text))
    ensures WellFormed(t + [p])
  {
    forall i | 0 <= i < |t + [p]| ensures (t + [p])[i].Text? ==> BraceFree((t + [p])[i].text) {
      if i < |t| { assert (t + [p])[i] == t[i]; }
    }
  }

  // The literal runs of the error line's template hold no brace. As with the
  // line breaks above, each lemma carries few literals, and the longest run
  // is split in two and joined by BraceFreeAppend.

  lemma {:induction false} BraceFreeAppend(a: string, b: string)
    requires BraceFree(a) && BraceFree(b)
    ensures BraceFree(a + b)
  {
  }

  lemma {:induction false} RaiseHeadSplit()
    ensures "            raise ConfigurationError(f\"" == "            raise " + "ConfigurationError(f\""
  {
  }

  lemma {:induction false} RaiseHeadParts()
    ensures BraceFree("            raise ")
  {
  }

  lemma {:induction false} RaiseHeadCall()
    ensures BraceFree("ConfigurationError(f\"")
  {
  }

  lemma {:induction false} RaiseHeadBraceFree()
    ensures BraceFree("            raise ConfigurationError(f\"")
  {
    RaiseHeadSplit();
    RaiseHeadParts();
    RaiseHeadCall();
    BraceFreeAppend("            raise ", "ConfigurationError(f\"");
  }

  lemma {:induction false} RaiseTextsBraceFree()
    ensures BraceFree("            raise ConfigurationError(f\"")
    ensures BraceFree(" mode not available: ") && BraceFree("new_value")
  {
    RaiseHeadBraceFree();
  }

  lemma {:induction false} RaiseTailBraceFree()
    ensures BraceFree(". Available values: ") && BraceFree("self.all_")
    ensures BraceFree("()") && BraceFree(".\")") && BraceFree("\n")
  {
  }

  /** The setter's error line is a well-formed f-string: its doubled braces
      are escapes, not fields. */
  lemma {:induction false} RaiseTemplateWellFormed()
    ensures WellFormed(RaiseTemplate)
  {
    RaiseTextsBraceFree();
    RaiseTailBraceFree();
    var t1 := [Text("            raise ConfigurationError(f\"")];
    var t2 := t1 + [Field(HName)];
    var t3 := t2 + [Text(" mode not available: ")];
    var t4 := t3 + [LBrace];
    var t5 := t4 + [Text("new_value")];
    var t6 := t5 + [RBrace];
    var t7 := t6 + [Text(". Available values: ")];
    var t8 := t7 + [LBrace];
    var t9 := t8 + [Text("self.all_")];
    var t10 := t9 + [Field(Name)];
    var t11 := t10 + [Text("()")];
    var t12 := t11 + [RBrace];
    var t13 := t12 + [Text(".\")")];
    assert RaiseTemplate == t13 + [Text("\n")];
    assert WellFormed(t1);
    WellFormedSnoc(t1, Field(HName));
    WellFormedSnoc(t2, Text(" mode not available: "));
    WellFormedSnoc(t3, LBrace);
    WellFormedSnoc(t4, Text("new_value"));
    WellFormedSnoc(t5, RBrace);
    WellFormedSnoc(t6, Text(". Available values: "));
    WellFormedSnoc(t7, LBrace);
    WellFormedSnoc(t8, Text("self.all_"));
    WellFormedSnoc(t9, Field(Name));
    WellFormedSnoc(t10, Text("()"));
    WellFormedSnoc(t11, RBrace);
    WellFormedSnoc(t12, Text(".\")"));
    WellFormedSnoc(t13, Text("\n"));
  }

  /** Python's rendering of the raw f-string of the setter's error line, with
      "{{new_value}}" and "{{self.all_{name}()}}" in its source, is that line
      of the block, with "{new_value}" and "{self.all_<name>()}" in it. */
  lemma {:induction false} RaiseLineRendered(env: Locals)
    ensures Render(Source(RaiseTemplate), Bindings(env)) == ErrorLine(env.name, env.hname) + "\n"
  {
    RaiseTemplateWellFormed();
    RenderSource(RaiseTemplate, env);
    RaiseLine(env);
  }
}
