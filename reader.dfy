/**
 * readCompileOption as the driver runs it: loops that append to the option list
 * and a flag set on the way, each group proved equal to its definition in
 * module Translation.
 */
module CompileOptionReader {
  import opened Wrappers
  import opened Text
  import opened Config
  import opened Translation

  /** The validation loop of the instruction-selection section: every entry's first key must be a known method; the last entry's is kept. */
  method SelectMethod(instSelMethod: seq<Entry>) returns (r: Result<Selector, Error>)
    ensures r == ActiveSelector(instSelMethod)
  {
    var entry: Entry := [];
    var methodName := "";
    var i := 0;
    while i < |instSelMethod|
      invariant 0 <= i <= |instSelMethod|
      invariant CheckEntries(instSelMethod[..i]) == None
      invariant i > 0 ==> entry == instSelMethod[i - 1] && entry != [] && methodName == entry[0].name
    {
      entry := instSelMethod[i];
      assert instSelMethod[..i + 1][..i] == instSelMethod[..i];
      if entry == [] {
        CheckEntriesPrefix(instSelMethod, i + 1);
        return Err(EmptyEntry);
      }
      methodName := entry[0].name;
      if !IsValidMethod(methodName) {
        CheckEntriesPrefix(instSelMethod, i + 1);
        return Err(UnknownInstSelMethod);
      }
      i := i + 1;
    }
    assert instSelMethod[..i] == instSelMethod;
    if i == 0 {
      // `methodName` was never bound: the driver stops with a NameError.
      return Err(EmptyInstSelMethod);
    }
    return Ok(entry[0]);
  }

  /** The attribute loop of the instruction-selection section, in key order. */
  method ReadAttributes(methodName: string, attrs: seq<Attr>) returns (r: Result<seq<string>, Error>)
    ensures r == AttrFlags(methodName, attrs)
  {
    var compileOptions: seq<string> := [];
    var customDefined := false;
    var j := 0;
    while j < |attrs|
      invariant 0 <= j <= |attrs|
      invariant AttrFlags(methodName, attrs[..j]) == Ok(compileOptions)
      invariant customDefined <==> methodName == "customInstselector" && SelectionCount(attrs[..j]) > 0
    {
      var attr := attrs[j];
      assert attrs[..j + 1][..j] == attrs[..j];
      if attr.key == "include" || attr.key == "exclude" {
        var prefix := "-" + attr.key;
        if methodName == "insttype" {
          prefix := prefix + "inst=";
        } else if methodName == "funcname" {
          prefix := prefix + "func=";
        } else if methodName == "customInstselector" {
          prefix := "-fiinstselectorname=";
          if customDefined {
            AttrFlagsPrefix(methodName, attrs, j + 1);
            return Err(MultipleCustomInstSelector);
          }
          customDefined := true;
        }
        assert prefix == AttrPrefix(methodName, attr.key);
        compileOptions := compileOptions + Prefixed(prefix, attr.values);
      } else if attr.key == "options" {
        compileOptions := compileOptions + attr.values;
      }
      assert compileOptions == AttrFlags(methodName, attrs[..j]).value + Emitted(methodName, attr);
      assert attrs[..j + 1][j] == attr;
      j := j + 1;
    }
    assert attrs[..j] == attrs;
    return Ok(compileOptions);
  }

  /** The instruction-selection section. */
  method ReadInstSelMethod(inst: Option<seq<Entry>>) returns (r: Result<seq<string>, Error>)
    ensures r == InstSelFlags(inst)
  {
    if inst.None? {
      return Err(MissingInstSelMethod);
    }
    var compileOptions: seq<string> := [];
    var selected := SelectMethod(inst.value);
    if selected.Err? {
      return Err(selected.error);
    }
    var methodName := selected.value.name;
    if methodName == "insttype" || methodName == "funcname" {
      compileOptions := compileOptions + ["-" + methodName];
    } else if methodName == "customInstselector" {
      compileOptions := ["-custominstselector"];
    }
    if !HasKey(selected.value.attrs, "include") {
      return Err(MissingInclude(methodName));
    }
    assert compileOptions == [MethodFlag(methodName)] by {
      CheckEntriesFirstFailure(inst.value);
    }
    var flags := ReadAttributes(methodName, selected.value.attrs);
    if flags.Err? {
      return Err(flags.error);
    }
    return Ok(compileOptions + flags.value);
  }

  /** The register-selection section. */
  method ReadRegSelMethod(c: CompileOption) returns (r: Result<RegSel, Error>)
    ensures r == RegSelFlags(c)
  {
    if c.regSelMethod.None? {
      return Err(MissingRegSelMethod);
    }
    var compileOptions: seq<string> := [];
    var notices: seq<Notice> := [];
    if c.regSelMethod.value == "regloc" {
      compileOptions := compileOptions + ["-regloc"];
      if c.regloc.None? {
        return Err(MissingRegloc);
      }
      compileOptions := compileOptions + ["-" + c.regloc.value];
      assert compileOptions == ["-regloc", "-" + c.regloc.value];
    } else if c.regSelMethod.value == "customregselector" {
      compileOptions := compileOptions + ["-customregselector"];
      if c.customRegSelector.None? {
        return Err(MissingCustomRegSelector);
      }
      var name := c.customRegSelector.value;
      if name == "SoftwareFault" || name == "Automatic" {
        var found := AutomaticSelectorName(c.instSelMethod);
        if found.None? {
          notices := notices + [SelectorNameUnresolved];
        } else {
          compileOptions := compileOptions + ["-firegselectorname=" + found.value];
        }
        assert notices == if found.None? then [SelectorNameUnresolved] else [];
      } else {
        compileOptions := compileOptions + ["-firegselectorname=" + name];
      }
      if c.customRegSelectorOption.Some? {
        var opts := c.customRegSelectorOption.value;
        ghost var before := compileOptions;
        var k := 0;
        while k < |opts|
          invariant 0 <= k <= |opts|
          invariant compileOptions == before + opts[..k]
        {
          compileOptions := compileOptions + [opts[k]];
          assert opts[..k + 1] == opts[..k] + [opts[k]];
          k := k + 1;
        }
        assert opts[..k] == opts;
      }
      assert compileOptions == RegSelFlags(c).value.flags;
      assert notices == RegSelFlags(c).value.notices;
    } else {
      return Err(UnknownRegSelMethod);
    }
    return Ok(RegSel(compileOptions, notices));
  }

  /** The injection-trace section. */
  method ReadInjectionTrace(t: Option<seq<string>>) returns (r: Result<seq<string>, Error>)
    ensures r == TraceFlags(t)
  {
    var compileOptions: seq<string> := [];
    if t.Some? {
      var traces := t.value;
      var i := 0;
      while i < |traces|
        invariant 0 <= i <= |traces|
        invariant TraceFlagsOf(traces[..i]) == Ok(compileOptions)
      {
        var trace := traces[i];
        assert traces[..i + 1][..i] == traces[..i];
        if trace == "forward" {
          compileOptions := compileOptions + ["-includeforwardtrace"];
        } else if trace == "backward" {
          compileOptions := compileOptions + ["-includebackwardtrace"];
        } else {
          TraceFlagsAccepted(traces);
          return Err(InvalidTraceDirection);
        }
        i := i + 1;
      }
      assert traces[..i] == traces;
    }
    return Ok(compileOptions);
  }

  /** The tracing-propagation block: the warning, `-insttracepass`, then the options under it. */
  method ReadTracingPropagation(c: CompileOption) returns (r: Result<Propagation, Error>)
    ensures r == PropagationFlags(c)
  {
    var compileOptions: seq<string> := [];
    var notices: seq<Notice> := [];
    var genDotGraph := false;
    if c.tracingPropagation.Some? && IsPyTrue(c.tracingPropagation.value) {
      notices := notices + [TracingWarning];
      compileOptions := compileOptions + ["-insttracepass"];
      if c.tracingPropagationOption.Some? {
        var o := c.tracingPropagationOption.value;
        if o.debugTrace.Some? && StrIsTrue(o.debugTrace.value) {
          compileOptions := compileOptions + ["-debugtrace"];
        }
        ghost var debug := compileOptions;
        if o.maxTrace.Some? {
          var n := o.maxTrace.value;
          if !IsPyInt(n) {
            return Err(MaxTraceNotInteger);
          }
          if PyInt(n) <= 0 {
            return Err(MaxTraceNotPositive);
          }
          compileOptions := compileOptions + ["-maxtrace"];
          compileOptions := compileOptions + [PyStr(n)];
        }
        if o.generateCDFG.Some? && StrIsTrue(o.generateCDFG.value) {
          genDotGraph := true;
        }
        assert compileOptions == debug + MaxTraceFlags(o.maxTrace).value;
      }
    }
    assert PropagationFlags(c).Ok?;
    assert compileOptions == PropagationFlags(c).value.flags;
    assert genDotGraph == PropagationFlags(c).value.genDotGraph;
    assert notices == PropagationFlags(c).value.notices;
    return Ok(Propagation(compileOptions, genDotGraph, notices));
  }

  /** readCompileOption: the four sections in order, then the tracing-propagation section and genDotGraph. */
  method ReadCompileOption(c: CompileOption) returns (r: Result<Translation, Error>)
    ensures r == Translate(c)
  {
    var inst := ReadInstSelMethod(c.instSelMethod);
    if inst.Err? {
      return Err(inst.error);
    }
    var compileOptions := inst.value;
    var reg := ReadRegSelMethod(c);
    if reg.Err? {
      return Err(reg.error);
    }
    compileOptions := compileOptions + reg.value.flags;
    var notices := reg.value.notices;
    var trace := ReadInjectionTrace(c.includeInjectionTrace);
    if trace.Err? {
      return Err(trace.error);
    }
    compileOptions := compileOptions + trace.value;

    var prop := ReadTracingPropagation(c);
    if prop.Err? {
      return Err(prop.error);
    }
    compileOptions := compileOptions + prop.value.flags;
    notices := notices + prop.value.notices;
    return Ok(Translation(compileOptions, prop.value.genDotGraph, notices));
  }
}
