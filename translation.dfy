/**
 * What readCompileOption computes from the `compileOption` mapping: the ordered
 * flag list handed to the profiling and fault-injection passes, the genDotGraph
 * option, and the notices it prints without stopping. The four groups are
 * instruction selection, register selection, injection trace and tracing
 * propagation, appended in that order.
 */
module Translation {
  import opened Wrappers
  import opened Text
  import opened Config

  /** Console output of the translator that does not stop it. */
  datatype Notice =
    | SelectorNameUnresolved   // the Automatic/SoftwareFault name could not be looked up
    | TracingWarning           // tracingPropagation makes the executables slower

  /** A successful translation. */
  datatype Translation = Translation(flags: seq<string>, genDotGraph: bool, notices: seq<Notice>)

  // ---------------------------------------------------------------- instruction selection

  predicate IsValidMethod(name: string) {
    name == "insttype" || name == "funcname" || name == "customInstselector"
  }

  /** What the validation loop objects to in one entry: no key at all, or an unknown first key. */
  function EntryError(e: Entry): Option<Error> {
    if e == [] then Some(EmptyEntry)
    else if !IsValidMethod(e[0].name) then Some(UnknownInstSelMethod)
    else None
  }

  predicate ValidEntries(es: seq<Entry>) {
    forall i :: 0 <= i < |es| ==> EntryError(es[i]) == None
  }

  /** The validation loop over the entries, in order: the error of the first malformed one. */
  function CheckEntries(es: seq<Entry>): Option<Error>
  {
    if es == [] then None
    else
      var prior := CheckEntries(es[..|es| - 1]);
      if prior.Some? then prior else EntryError(es[|es| - 1])
  }

  /** The loop reports an error exactly when some entry is malformed, and then the first one's. */
  lemma {:induction false} CheckEntriesFirstFailure(es: seq<Entry>)
    ensures CheckEntries(es) == None <==> ValidEntries(es)
    ensures CheckEntries(es).Some? ==>
      exists k :: 0 <= k < |es| && EntryError(es[k]) == CheckEntries(es) &&
        forall i :: 0 <= i < k ==> EntryError(es[i]) == None
  {
    if es != [] {
      var init := es[..|es| - 1];
      CheckEntriesFirstFailure(init);
      assert forall i :: 0 <= i < |init| ==> init[i] == es[i];
      if CheckEntries(init).Some? {
        var k :| 0 <= k < |init| && EntryError(init[k]) == CheckEntries(init) &&
          forall i :: 0 <= i < k ==> EntryError(init[i]) == None;
        assert EntryError(es[k]) == CheckEntries(es);
      } else if CheckEntries(es).Some? {
        assert EntryError(es[|es| - 1]) == CheckEntries(es);
      }
    }
  }

  /** Once a prefix of the entries is rejected, so is the whole list, with the same error. */
  lemma {:induction false} CheckEntriesPrefix(es: seq<Entry>, i: nat)
    requires i <= |es| && CheckEntries(es[..i]).Some?
    ensures CheckEntries(es) == CheckEntries(es[..i])
    decreases |es| - i
  {
    if i < |es| {
      assert es[..i + 1][..i] == es[..i];
      CheckEntriesPrefix(es, i + 1);
    } else {
      assert es[..i] == es;
    }
  }

  /** The rule the loop leaves behind: the first key of the LAST entry. */
  function ActiveSelector(es: seq<Entry>): Result<Selector, Error>
  {
    if CheckEntries(es).Some? then Err(CheckEntries(es).value)
    else if es == [] then Err(EmptyInstSelMethod)
    else Ok(es[|es| - 1][0])
  }

  /** The flag naming the method. */
  function MethodFlag(name: string): string {
    if name == "customInstselector" then "-custominstselector" else "-" + name
  }

  predicate IsSelectionKey(key: string) {
    key == "include" || key == "exclude"
  }

  /** The prefix put before each entry of an include or exclude list. */
  function AttrPrefix(name: string, key: string): string {
    if name == "insttype" then "-" + key + "inst="
    else if name == "funcname" then "-" + key + "func="
    else if name == "customInstselector" then "-fiinstselectorname="
    else "-" + key
  }

  /** The flags one attribute contributes: prefixed list entries, verbatim options, or nothing. */
  function Emitted(name: string, a: Attr): seq<string> {
    if IsSelectionKey(a.key) then Prefixed(AttrPrefix(name, a.key), a.values)
    else if a.key == "options" then a.values
    else []
  }

  /** The number of include/exclude attributes. */
  function SelectionCount(attrs: seq<Attr>): nat {
    if attrs == [] then 0
    else SelectionCount(attrs[..|attrs| - 1]) + (if IsSelectionKey(attrs[|attrs| - 1].key) then 1 else 0)
  }

  /** The attribute loop, in key order; a custom selector may carry only one include/exclude list. */
  function AttrFlags(name: string, attrs: seq<Attr>): Result<seq<string>, Error>
  {
    if attrs == [] then Ok([])
    else
      var init := attrs[..|attrs| - 1];
      var a := attrs[|attrs| - 1];
      match AttrFlags(name, init)
      case Err(e) => Err(e)
      case Ok(f) =>
        if IsSelectionKey(a.key) && name == "customInstselector" && SelectionCount(init) > 0 then
          Err(MultipleCustomInstSelector)
        else Ok(f + Emitted(name, a))
  }

  /** Reference definition: each attribute's contribution, concatenated in key order. */
  function AllEmitted(name: string, attrs: seq<Attr>): seq<string> {
    if attrs == [] then [] else Emitted(name, attrs[0]) + AllEmitted(name, attrs[1..])
  }

  lemma {:induction false} AllEmittedSnoc(name: string, attrs: seq<Attr>, a: Attr)
    ensures AllEmitted(name, attrs + [a]) == AllEmitted(name, attrs) + Emitted(name, a)
  {
    if attrs != [] {
      assert (attrs + [a])[1..] == attrs[1..] + [a];
      AllEmittedSnoc(name, attrs[1..], a);
    }
  }

  /** The attribute loop fails only for a custom selector with two include/exclude lists, and otherwise emits every contribution in key order. */
  lemma {:induction false} AttrFlagsSpec(name: string, attrs: seq<Attr>)
    ensures AttrFlags(name, attrs).Ok? <==> (name != "customInstselector" || SelectionCount(attrs) <= 1)
    ensures AttrFlags(name, attrs).Ok? ==> AttrFlags(name, attrs).value == AllEmitted(name, attrs)
    ensures AttrFlags(name, attrs).Err? ==> AttrFlags(name, attrs).error == MultipleCustomInstSelector
  {
    if attrs != [] {
      var init := attrs[..|attrs| - 1];
      var a := attrs[|attrs| - 1];
      AttrFlagsSpec(name, init);
      assert init + [a] == attrs;
      AllEmittedSnoc(name, init, a);
    }
  }

  /** Once a prefix of the attributes is rejected, so is the whole mapping, with the same error. */
  lemma {:induction false} AttrFlagsPrefix(name: string, attrs: seq<Attr>, j: nat)
    requires j <= |attrs| && AttrFlags(name, attrs[..j]).Err?
    ensures AttrFlags(name, attrs) == AttrFlags(name, attrs[..j])
    decreases |attrs| - j
  {
    if j < |attrs| {
      assert attrs[..j + 1][..j] == attrs[..j];
      AttrFlagsPrefix(name, attrs, j + 1);
    } else {
      assert attrs[..j] == attrs;
    }
  }

  predicate HasKey(attrs: seq<Attr>, key: string) {
    exists i :: 0 <= i < |attrs| && attrs[i].key == key
  }

  /** The instruction-selection group. */
  function InstSelFlags(inst: Option<seq<Entry>>): Result<seq<string>, Error>
  {
    match inst
    case None => Err(MissingInstSelMethod)
    case Some(es) =>
      match ActiveSelector(es)
      case Err(e) => Err(e)
      case Ok(sel) =>
        if !HasKey(sel.attrs, "include") then Err(MissingInclude(sel.name))
        else
          match AttrFlags(sel.name, sel.attrs)
          case Err(e) => Err(e)
          case Ok(f) => Ok([MethodFlag(sel.name)] + f)
  }

  /**
   * Instruction selection: every entry is checked in order and the first bad one
   * decides the error; an empty list is an error; otherwise only the first key of
   * the LAST entry matters: it needs an include list, a custom selector may carry
   * only one include/exclude list, and the flags are the method flag followed by
   * every attribute's contribution in key order.
   */
  lemma InstSelFlagsSpec(es: seq<Entry>)
    ensures InstSelFlags(None) == Err(MissingInstSelMethod)
    ensures es == [] ==> InstSelFlags(Some(es)) == Err(EmptyInstSelMethod)
    ensures forall k :: 0 <= k < |es| ==>
      (EntryError(es[k]).Some? && forall i :: 0 <= i < k ==> EntryError(es[i]) == None) ==>
      InstSelFlags(Some(es)) == Err(EntryError(es[k]).value)
    ensures es != [] && ValidEntries(es) ==>
      var sel := es[|es| - 1][0];
      InstSelFlags(Some(es)) ==
        if !HasKey(sel.attrs, "include") then Err(MissingInclude(sel.name))
        else if sel.name == "customInstselector" && SelectionCount(sel.attrs) > 1 then Err(MultipleCustomInstSelector)
        else Ok([MethodFlag(sel.name)] + AllEmitted(sel.name, sel.attrs))
  {
    CheckEntriesFirstFailure(es);
    if es != [] && ValidEntries(es) {
      assert EntryError(es[|es| - 1]) == None;
      AttrFlagsSpec(es[|es| - 1][0].name, es[|es| - 1][0].attrs);
    }
    forall k | 0 <= k < |es| && EntryError(es[k]).Some? && (forall i :: 0 <= i < k ==> EntryError(es[i]) == None)
      ensures InstSelFlags(Some(es)) == Err(EntryError(es[k]).value)
    {
      var j :| 0 <= j < |es| && EntryError(es[j]) == CheckEntries(es) &&
        forall i :: 0 <= i < j ==> EntryError(es[i]) == None;
      assert j == k;
    }
  }

  /** Built-in methods prefix each listed entry with `-include`/`-exclude` and `inst=`/`func=`; the custom method uses `-fiinstselectorname=` for both lists. */
  lemma SelectionFlagsShape(name: string, a: Attr)
    requires IsValidMethod(name) && IsSelectionKey(a.key)
    ensures |Emitted(name, a)| == |a.values|
    ensures forall i :: 0 <= i < |a.values| ==>
      Emitted(name, a)[i] ==
        if name == "insttype" then "-" + a.key + "inst=" + a.values[i]
        else if name == "funcname" then "-" + a.key + "func=" + a.values[i]
        else "-fiinstselectorname=" + a.values[i]
  {
  }

  // ---------------------------------------------------------------- register selection

  /** `k` is the first position of an entry holding the selector `name`. */
  predicate FirstSelectorAt(e: Entry, name: string, k: int) {
    0 <= k < |e| && e[k].name == name && forall j :: 0 <= j < k ==> e[j].name != name
  }

  /** `m` is the first position of an attribute with key `key`. */
  predicate FirstAttrAt(attrs: seq<Attr>, key: string, m: int) {
    0 <= m < |attrs| && attrs[m].key == key && forall j :: 0 <= j < m ==> attrs[j].key != key
  }

  /** `entry[name]`: the first key of the mapping with that name. */
  function LookupSelector(e: Entry, name: string): (r: Option<Selector>)
    ensures r.None? <==> forall i :: 0 <= i < |e| ==> e[i].name != name
    ensures r.Some? ==> exists k :: FirstSelectorAt(e, name, k) && r.value == e[k]
  {
    if e == [] then None
    else if e[0].name == name then
      assert FirstSelectorAt(e, name, 0);
      Some(e[0])
    else
      var r := LookupSelector(e[1..], name);
      assert r.Some? ==> exists k :: FirstSelectorAt(e, name, k) && r.value == e[k] by {
        if r.Some? {
          var k :| FirstSelectorAt(e[1..], name, k) && r.value == e[1..][k];
          assert FirstSelectorAt(e, name, k + 1);
        }
      }
      r
  }

  /** `attrs[key]`: the first attribute with that key. */
  function LookupAttr(attrs: seq<Attr>, key: string): (r: Option<Attr>)
    ensures r.None? <==> !HasKey(attrs, key)
    ensures r.Some? ==> exists m :: FirstAttrAt(attrs, key, m) && r.value == attrs[m]
  {
    if attrs == [] then None
    else if attrs[0].key == key then
      assert FirstAttrAt(attrs, key, 0);
      Some(attrs[0])
    else
      var r := LookupAttr(attrs[1..], key);
      assert HasKey(attrs, key) ==> HasKey(attrs[1..], key) by {
        if HasKey(attrs, key) {
          var i :| 0 <= i < |attrs| && attrs[i].key == key;
          assert attrs[1..][i - 1].key == key;
        }
      }
      assert r.Some? ==> exists m :: FirstAttrAt(attrs, key, m) && r.value == attrs[m] by {
        if r.Some? {
          var m :| FirstAttrAt(attrs[1..], key, m) && r.value == attrs[1..][m];
          assert FirstAttrAt(attrs, key, m + 1);
        }
      }
      r
  }

  /** `instSelMethod[0]["customInstselector"]["include"][0]`, or None where Python raises (the error is caught). */
  function AutomaticSelectorName(inst: Option<seq<Entry>>): Option<string> {
    if inst.None? || inst.value == [] then None
    else
      match LookupSelector(inst.value[0], "customInstselector")
      case None => None
      case Some(sel) =>
        match LookupAttr(sel.attrs, "include")
        case None => None
        case Some(a) => if a.values == [] then None else Some(a.values[0])
  }

  datatype RegSel = RegSel(flags: seq<string>, notices: seq<Notice>)

  function OptionList(o: Option<seq<string>>): seq<string> {
    if o.Some? then o.value else []
  }

  /** The register-selection group. */
  function RegSelFlags(c: CompileOption): Result<RegSel, Error>
  {
    match c.regSelMethod
    case None => Err(MissingRegSelMethod)
    case Some(m) =>
      if m == "regloc" then
        match c.regloc
        case None => Err(MissingRegloc)
        case Some(loc) => Ok(RegSel(["-regloc", "-" + loc], []))
      else if m == "customregselector" then
        match c.customRegSelector
        case None => Err(MissingCustomRegSelector)
        case Some(n) =>
          var extra := OptionList(c.customRegSelectorOption);
          if n == "SoftwareFault" || n == "Automatic" then
            match AutomaticSelectorName(c.instSelMethod)
            case None => Ok(RegSel(["-customregselector"] + extra, [SelectorNameUnresolved]))
            case Some(x) => Ok(RegSel(["-customregselector", "-firegselectorname=" + x] + extra, []))
          else Ok(RegSel(["-customregselector", "-firegselectorname=" + n] + extra, []))
      else Err(UnknownRegSelMethod)
  }

  /**
   * Register selection: the method key is required; `regloc` needs a `regloc` key and
   * yields `-regloc` immediately followed by `-<regloc>`; `customregselector` needs a
   * `customRegSelector` key; any other method is an error.
   */
  lemma RegSelValidation(c: CompileOption)
    ensures c.regSelMethod.None? ==> RegSelFlags(c) == Err(MissingRegSelMethod)
    ensures c.regSelMethod == Some("regloc") ==>
      RegSelFlags(c) == if c.regloc.None? then Err(MissingRegloc) else Ok(RegSel(["-regloc", "-" + c.regloc.value], []))
    ensures c.regSelMethod == Some("customregselector") ==>
      (RegSelFlags(c).Err? <==> c.customRegSelector.None?) &&
      (RegSelFlags(c).Err? ==> RegSelFlags(c).error == MissingCustomRegSelector)
    ensures c.regSelMethod.Some? && c.regSelMethod.value != "regloc" && c.regSelMethod.value != "customregselector" ==>
      RegSelFlags(c) == Err(UnknownRegSelMethod)
  {
  }

  /**
   * Independent description of `instSelMethod[0]["customInstselector"]["include"][0]`:
   * the first entry, its first `customInstselector` selector, that selector's first
   * `include` attribute, and the first name in it.
   */
  ghost predicate NamesSelector(inst: Option<seq<Entry>>, x: string) {
    inst.Some? && inst.value != [] &&
    exists k, m :: FirstSelectorAt(inst.value[0], "customInstselector", k) &&
      FirstAttrAt(inst.value[0][k].attrs, "include", m) &&
      inst.value[0][k].attrs[m].values != [] && inst.value[0][k].attrs[m].values[0] == x
  }

  lemma FirstSelectorUnique(e: Entry, name: string, k: int, k': int)
    requires FirstSelectorAt(e, name, k) && FirstSelectorAt(e, name, k')
    ensures k == k'
  {
  }

  lemma FirstAttrUnique(attrs: seq<Attr>, key: string, m: int, m': int)
    requires FirstAttrAt(attrs, key, m) && FirstAttrAt(attrs, key, m')
    ensures m == m'
  {
  }

  lemma NamedSelectorIsFound(inst: Option<seq<Entry>>, x: string)
    requires NamesSelector(inst, x)
    ensures AutomaticSelectorName(inst) == Some(x)
  {
    var e := inst.value[0];
    var k, m :| FirstSelectorAt(e, "customInstselector", k) &&
      FirstAttrAt(e[k].attrs, "include", m) && e[k].attrs[m].values != [] && e[k].attrs[m].values[0] == x;
    var sel := LookupSelector(e, "customInstselector");
    assert sel.Some?;
    var k' :| FirstSelectorAt(e, "customInstselector", k') && sel.value == e[k'];
    FirstSelectorUnique(e, "customInstselector", k, k');
    var a := LookupAttr(sel.value.attrs, "include");
    assert HasKey(sel.value.attrs, "include");
    var m' :| FirstAttrAt(sel.value.attrs, "include", m') && a.value == sel.value.attrs[m'];
    FirstAttrUnique(e[k].attrs, "include", m, m');
  }

  lemma FoundSelectorIsNamed(inst: Option<seq<Entry>>, x: string)
    requires AutomaticSelectorName(inst) == Some(x)
    ensures NamesSelector(inst, x)
  {
    var e := inst.value[0];
    var sel := LookupSelector(e, "customInstselector");
    var k :| FirstSelectorAt(e, "customInstselector", k) && sel.value == e[k];
    var a := LookupAttr(sel.value.attrs, "include");
    var m :| FirstAttrAt(sel.value.attrs, "include", m) && a.value == sel.value.attrs[m];
    assert FirstAttrAt(e[k].attrs, "include", m);
  }

  /** The Automatic lookup yields x exactly when the first entry names x as described above; it fails when no x is named. */
  lemma AutomaticSelectorNameSpec(inst: Option<seq<Entry>>)
    ensures forall x :: AutomaticSelectorName(inst) == Some(x) <==> NamesSelector(inst, x)
    ensures AutomaticSelectorName(inst).None? <==> forall x :: !NamesSelector(inst, x)
  {
    forall x
      ensures AutomaticSelectorName(inst) == Some(x) <==> NamesSelector(inst, x)
    {
      if NamesSelector(inst, x) {
        NamedSelectorIsFound(inst, x);
      }
      if AutomaticSelectorName(inst) == Some(x) {
        FoundSelectorIsNamed(inst, x);
      }
    }
  }

  // ---------------------------------------------------------------- injection trace

  function TraceFlag(t: string): Option<string> {
    if t == "forward" then Some("-includeforwardtrace")
    else if t == "backward" then Some("-includebackwardtrace")
    else None
  }

  /** The loop over `includeInjectionTrace`, in order. */
  function TraceFlagsOf(ts: seq<string>): Result<seq<string>, Error>
  {
    if ts == [] then Ok([])
    else
      match TraceFlagsOf(ts[..|ts| - 1])
      case Err(e) => Err(e)
      case Ok(f) =>
        var t := TraceFlag(ts[|ts| - 1]);
        if t.None? then Err(InvalidTraceDirection) else Ok(f + [t.value])
  }

  /** The injection-trace group; an absent key adds nothing. */
  function TraceFlags(t: Option<seq<string>>): Result<seq<string>, Error> {
    if t.None? then Ok([]) else TraceFlagsOf(t.value)
  }

  /** Every entry must be `forward` or `backward`; anything else is InvalidTraceDirection. */
  lemma {:induction false} TraceFlagsAccepted(ts: seq<string>)
    ensures TraceFlagsOf(ts).Ok? <==> forall i :: 0 <= i < |ts| ==> ts[i] == "forward" || ts[i] == "backward"
    ensures TraceFlagsOf(ts).Err? ==> TraceFlagsOf(ts).error == InvalidTraceDirection
  {
    if ts != [] {
      var init := ts[..|ts| - 1];
      TraceFlagsAccepted(init);
      assert forall i :: 0 <= i < |init| ==> init[i] == ts[i];
    }
  }

  /** An accepted list maps each entry to its own flag, in order. */
  lemma {:induction false} TraceFlagsSpec(ts: seq<string>)
    requires TraceFlagsOf(ts).Ok?
    ensures var f := TraceFlagsOf(ts).value;
      |f| == |ts| &&
      forall i :: 0 <= i < |ts| ==>
        f[i] == if ts[i] == "forward" then "-includeforwardtrace" else "-includebackwardtrace"
  {
    if ts != [] {
      var init := ts[..|ts| - 1];
      TraceFlagsSpec(init);
      assert forall i :: 0 <= i < |init| ==> init[i] == ts[i];
    }
  }

  // ---------------------------------------------------------------- tracing propagation

  datatype Propagation = Propagation(flags: seq<string>, genDotGraph: bool, notices: seq<Notice>)

  /** `-maxtrace` and `str(N)`; N must be an int (a bool is one) greater than 0. */
  function MaxTraceFlags(v: Option<Scalar>): Result<seq<string>, Error> {
    match v
    case None => Ok([])
    case Some(n) =>
      if !IsPyInt(n) then Err(MaxTraceNotInteger)
      else if PyInt(n) <= 0 then Err(MaxTraceNotPositive)
      else Ok(["-maxtrace", PyStr(n)])
  }

  predicate OptionIsTrue(v: Option<Scalar>) {
    v.Some? && StrIsTrue(v.value)
  }

  /** The tracing-propagation group, and the genDotGraph option it alone can set. */
  function PropagationFlags(c: CompileOption): Result<Propagation, Error> {
    if !(c.tracingPropagation.Some? && IsPyTrue(c.tracingPropagation.value)) then Ok(Propagation([], false, []))
    else
      match c.tracingPropagationOption
      case None => Ok(Propagation(["-insttracepass"], false, [TracingWarning]))
      case Some(o) =>
        match MaxTraceFlags(o.maxTrace)
        case Err(e) => Err(e)
        case Ok(mt) =>
          Ok(Propagation(["-insttracepass"] + (if OptionIsTrue(o.debugTrace) then ["-debugtrace"] else []) + mt,
                         OptionIsTrue(o.generateCDFG), [TracingWarning]))
  }

  /** An integer maxTrace is accepted exactly when positive, and is then written in decimal right after `-maxtrace`. */
  lemma MaxTraceSpec(n: int, s: string)
    ensures MaxTraceFlags(Some(SInt(n))).Ok? <==> n > 0
    ensures MaxTraceFlags(Some(SInt(n))).Err? ==> MaxTraceFlags(Some(SInt(n))).error == MaxTraceNotPositive
    ensures n > 0 ==>
      var f := MaxTraceFlags(Some(SInt(n))).value;
      |f| == 2 && f[0] == "-maxtrace" && f[1] == Decimal(n) && DecimalValue(f[1]) == n
    ensures MaxTraceFlags(Some(SStr(s))) == Err(MaxTraceNotInteger)
    ensures MaxTraceFlags(Some(SBool(false))) == Err(MaxTraceNotPositive)
    ensures MaxTraceFlags(Some(SBool(true))) == Ok(["-maxtrace", "True"])
  {
    if n > 0 {
      DecimalRoundTrip(n);
    }
  }

  /**
   * Tracing propagation happens only when `tracingPropagation == True`; it then starts
   * with `-insttracepass`, adds `-debugtrace` when debugTrace reads as true, and sets
   * genDotGraph only from generateCDFG.
   */
  lemma PropagationSpec(c: CompileOption)
    ensures !(c.tracingPropagation.Some? && IsPyTrue(c.tracingPropagation.value)) ==>
      PropagationFlags(c) == Ok(Propagation([], false, []))
    ensures PropagationFlags(c).Ok? && PropagationFlags(c).value.flags != [] ==>
      PropagationFlags(c).value.flags[0] == "-insttracepass" && PropagationFlags(c).value.notices == [TracingWarning]
    ensures PropagationFlags(c).Ok? ==>
      (PropagationFlags(c).value.genDotGraph <==>
        c.tracingPropagation.Some? && IsPyTrue(c.tracingPropagation.value) &&
        c.tracingPropagationOption.Some? && OptionIsTrue(c.tracingPropagationOption.value.generateCDFG))
    ensures PropagationFlags(c).Ok? ==>
      ("-debugtrace" in PropagationFlags(c).value.flags <==>
        c.tracingPropagation.Some? && IsPyTrue(c.tracingPropagation.value) &&
        c.tracingPropagationOption.Some? && OptionIsTrue(c.tracingPropagationOption.value.debugTrace))
    ensures PropagationFlags(c).Err? <==>
      c.tracingPropagation.Some? && IsPyTrue(c.tracingPropagation.value) &&
      c.tracingPropagationOption.Some? && MaxTraceFlags(c.tracingPropagationOption.value.maxTrace).Err?
    ensures PropagationFlags(c).Err? ==>
      PropagationFlags(c).error == MaxTraceFlags(c.tracingPropagationOption.value.maxTrace).error
    ensures c.tracingPropagation.Some? && IsPyTrue(c.tracingPropagation.value) && c.tracingPropagationOption.None? ==>
      PropagationFlags(c) == Ok(Propagation(["-insttracepass"], false, [TracingWarning]))
    ensures (c.tracingPropagation.Some? && IsPyTrue(c.tracingPropagation.value) && c.tracingPropagationOption.Some? &&
             MaxTraceFlags(c.tracingPropagationOption.value.maxTrace).Ok?) ==>
      var o := c.tracingPropagationOption.value;
      PropagationFlags(c).Ok? &&
      PropagationFlags(c).value.flags ==
        ["-insttracepass"] + (if OptionIsTrue(o.debugTrace) then ["-debugtrace"] else []) + MaxTraceFlags(o.maxTrace).value
  {
    if c.tracingPropagationOption.Some? {
      var v := c.tracingPropagationOption.value.maxTrace;
      if v.Some? && v.value.SInt? && v.value.i > 0 {
        DecimalRoundTrip(v.value.i);
        assert PyStr(v.value)[0] != '-';
      }
    }
  }

  // ---------------------------------------------------------------- the whole translation

  /** readCompileOption: the four groups in their fixed order. */
  function Translate(c: CompileOption): Result<Translation, Error>
  {
    var inst :- InstSelFlags(c.instSelMethod);
    var reg :- RegSelFlags(c);
    var trace :- TraceFlags(c.includeInjectionTrace);
    var prop :- PropagationFlags(c);
    Ok(Translation(inst + reg.flags + trace + prop.flags, prop.genDotGraph, reg.notices + prop.notices))
  }

  /** A successful translation is the four groups' flags, concatenated in their fixed order. */
  lemma TranslateConcat(c: CompileOption)
    requires Translate(c).Ok?
    ensures InstSelFlags(c.instSelMethod).Ok? && RegSelFlags(c).Ok? &&
      TraceFlags(c.includeInjectionTrace).Ok? && PropagationFlags(c).Ok?
    ensures Translate(c).value.flags ==
      InstSelFlags(c.instSelMethod).value + RegSelFlags(c).value.flags +
      TraceFlags(c.includeInjectionTrace).value + PropagationFlags(c).value.flags
  {
  }

  /** The output starts with the method flag of the last entry's rule. */
  lemma TranslateStartsWithMethod(c: CompileOption)
    requires Translate(c).Ok?
    ensures var es := c.instSelMethod.value;
      |es| > 0 && es[|es| - 1] != [] &&
      |Translate(c).value.flags| > 0 && Translate(c).value.flags[0] == MethodFlag(es[|es| - 1][0].name)
  {
    TranslateConcat(c);
    var es := c.instSelMethod.value;
    InstSelFlagsSpec(es);
    CheckEntriesFirstFailure(es);
    assert EntryError(es[|es| - 1]) == None;
  }

  /** The register group follows the instruction group: a regloc location comes right after `-regloc`. */
  lemma TranslateReglocPair(c: CompileOption)
    requires Translate(c).Ok? && c.regSelMethod == Some("regloc")
    ensures var f := Translate(c).value.flags;
      var k := |InstSelFlags(c.instSelMethod).value|;
      c.regloc.Some? && k + 2 <= |f| && f[k] == "-regloc" && f[k + 1] == "-" + c.regloc.value
  {
    TranslateConcat(c);
  }

  /**
   * The `customregselector` group: `-customregselector`, then `-firegselectorname=` with the
   * given name or, for Automatic/SoftwareFault, with the name the first entry gives; failing
   * that lookup only drops the name flag and adds a notice. The options follow verbatim.
   */
  lemma CustomRegSelectorGroup(c: CompileOption)
    requires c.regSelMethod == Some("customregselector") && c.customRegSelector.Some?
    ensures RegSelFlags(c).Ok?
    ensures var r := RegSelFlags(c).value;
      var n := c.customRegSelector.value;
      var extra := OptionList(c.customRegSelectorOption);
      var auto := n == "Automatic" || n == "SoftwareFault";
      |r.flags| > 0 && r.flags[0] == "-customregselector" &&
      (!auto ==> r.flags[1..] == ["-firegselectorname=" + n] + extra) &&
      (auto ==> forall x :: NamesSelector(c.instSelMethod, x) ==> r.flags[1..] == ["-firegselectorname=" + x] + extra) &&
      (auto && (forall x :: !NamesSelector(c.instSelMethod, x)) ==> r.flags[1..] == extra) &&
      (SelectorNameUnresolved in r.notices <==> auto && forall x :: !NamesSelector(c.instSelMethod, x))
  {
    var n := c.customRegSelector.value;
    var extra := OptionList(c.customRegSelectorOption);
    if n == "Automatic" || n == "SoftwareFault" {
      AutomaticSelectorNameSpec(c.instSelMethod);
      match AutomaticSelectorName(c.instSelMethod)
      case None =>
        assert RegSelFlags(c) == Ok(RegSel(["-customregselector"] + extra, [SelectorNameUnresolved]));
      case Some(y) =>
        assert RegSelFlags(c) == Ok(RegSel(["-customregselector", "-firegselectorname=" + y] + extra, []));
        assert NamesSelector(c.instSelMethod, y);
        assert forall x :: NamesSelector(c.instSelMethod, x) ==> x == y;
    } else {
      assert RegSelFlags(c) == Ok(RegSel(["-customregselector", "-firegselectorname=" + n] + extra, []));
    }
  }

  /**
   * In the whole translation, the `customregselector` group sits right after the
   * instruction-selection group, and an unresolved Automatic name still lets the
   * translation succeed when the other groups do.
   */
  lemma TranslateCustomRegSelector(c: CompileOption)
    requires c.regSelMethod == Some("customregselector") && c.customRegSelector.Some?
    requires InstSelFlags(c.instSelMethod).Ok? && TraceFlags(c.includeInjectionTrace).Ok? && PropagationFlags(c).Ok?
    ensures Translate(c).Ok?
    ensures var f := Translate(c).value.flags;
      var k := |InstSelFlags(c.instSelMethod).value|;
      var r := RegSelFlags(c).value;
      k + |r.flags| <= |f| && f[k..k + |r.flags|] == r.flags && r.flags[0] == "-customregselector" &&
      (SelectorNameUnresolved in Translate(c).value.notices <==> SelectorNameUnresolved in r.notices)
  {
    CustomRegSelectorGroup(c);
    TranslateErrorOrder(c);
    TranslateConcat(c);
    PropagationSpec(c);
    var inst := InstSelFlags(c.instSelMethod).value;
    var r := RegSelFlags(c).value;
    var f := Translate(c).value.flags;
    assert f == inst + r.flags + TraceFlags(c.includeInjectionTrace).value + PropagationFlags(c).value.flags;
    assert f[|inst|..|inst| + |r.flags|] == r.flags;
  }

  /** The propagation group comes last: a maxTrace bound N makes the output end with `-maxtrace` and `str(N)`. */
  lemma TranslateEndsWithMaxTrace(c: CompileOption)
    requires Translate(c).Ok?
    requires c.tracingPropagation.Some? && IsPyTrue(c.tracingPropagation.value)
    requires c.tracingPropagationOption.Some? && c.tracingPropagationOption.value.maxTrace.Some?
    requires c.tracingPropagationOption.value.maxTrace.value.SInt?
    ensures var f := Translate(c).value.flags;
      var n := c.tracingPropagationOption.value.maxTrace.value.i;
      n > 0 && |f| >= 2 && f[|f| - 2] == "-maxtrace" && f[|f| - 1] == Decimal(n)
  {
    TranslateConcat(c);
  }

  /**
   * Under tracing propagation, a maxTrace that is not an integer, or not above 0, stops the
   * whole translation (the failed asserts); when the earlier groups succeed, that is the error.
   */
  lemma TranslateRejectsMaxTrace(c: CompileOption)
    requires c.tracingPropagation.Some? && IsPyTrue(c.tracingPropagation.value)
    requires c.tracingPropagationOption.Some? && c.tracingPropagationOption.value.maxTrace.Some?
    requires var v := c.tracingPropagationOption.value.maxTrace.value; !IsPyInt(v) || PyInt(v) <= 0
    ensures Translate(c).Err?
    ensures InstSelFlags(c.instSelMethod).Ok? && RegSelFlags(c).Ok? && TraceFlags(c.includeInjectionTrace).Ok? ==>
      var v := c.tracingPropagationOption.value.maxTrace.value;
      Translate(c).error == if !IsPyInt(v) then MaxTraceNotInteger else MaxTraceNotPositive
  {
    PropagationSpec(c);
    TranslateErrorOrder(c);
  }

  /** The groups are checked in order: the error reported is the first failing group's. */
  lemma TranslateErrorOrder(c: CompileOption)
    ensures InstSelFlags(c.instSelMethod).Err? ==> Translate(c) == Err(InstSelFlags(c.instSelMethod).error)
    ensures InstSelFlags(c.instSelMethod).Ok? && RegSelFlags(c).Err? ==> Translate(c) == Err(RegSelFlags(c).error)
    ensures InstSelFlags(c.instSelMethod).Ok? && RegSelFlags(c).Ok? && TraceFlags(c.includeInjectionTrace).Err? ==>
      Translate(c) == Err(TraceFlags(c.includeInjectionTrace).error)
    ensures (InstSelFlags(c.instSelMethod).Ok? && RegSelFlags(c).Ok? && TraceFlags(c.includeInjectionTrace).Ok? &&
             PropagationFlags(c).Err?) ==> Translate(c) == Err(PropagationFlags(c).error)
    ensures Translate(c).Ok? <==>
      InstSelFlags(c.instSelMethod).Ok? && RegSelFlags(c).Ok? &&
      TraceFlags(c.includeInjectionTrace).Ok? && PropagationFlags(c).Ok?
    ensures Translate(c).Ok? ==>
      Translate(c).value.genDotGraph == PropagationFlags(c).value.genDotGraph &&
      Translate(c).value.notices == RegSelFlags(c).value.notices + PropagationFlags(c).value.notices
  {
  }

  function Minimal(inst: seq<Entry>, reg: Option<string>, loc: Option<string>): CompileOption {
    CompileOption(Some(inst), reg, loc, None, None, None, None, None)
  }

  /** `funcname` with include [foo, bar] and regloc `dst` gives exactly these flags. */
  lemma FuncnameExample()
    ensures Translate(Minimal([[Selector("funcname", [Attr("include", ["foo", "bar"])])]], Some("regloc"), Some("dst"))) ==
      Ok(Translation(["-funcname", "-includefunc=foo", "-includefunc=bar", "-regloc", "-dst"], false, []))
  {
    var attrs := [Attr("include", ["foo", "bar"])];
    assert HasKey(attrs, "include") by { assert attrs[0].key == "include"; }
    var es := [[Selector("funcname", attrs)]];
    assert ValidEntries(es);
    InstSelFlagsSpec(es);
    assert attrs[1..] == [];
    assert AttrPrefix("funcname", "include") == "-includefunc=";
    var p := Prefixed("-includefunc=", ["foo", "bar"]);
    assert p[0] == "-includefunc=" + "foo" == "-includefunc=foo";
    assert p[1] == "-includefunc=" + "bar" == "-includefunc=bar";
    assert p == ["-includefunc=foo", "-includefunc=bar"];
    assert Emitted("funcname", attrs[0]) == p;
    assert AllEmitted("funcname", attrs) == p + AllEmitted("funcname", []);
    assert MethodFlag("funcname") == "-funcname";
    assert InstSelFlags(Some(es)) == Ok([MethodFlag("funcname")] + AllEmitted("funcname", attrs));
    assert [MethodFlag("funcname")] + AllEmitted("funcname", attrs) == ["-funcname", "-includefunc=foo", "-includefunc=bar"];
    var c := Minimal(es, Some("regloc"), Some("dst"));
    assert "-" + "dst" == "-dst";
    assert RegSelFlags(c) == Ok(RegSel(["-regloc", "-dst"], []));
    assert PropagationFlags(c) == Ok(Propagation([], false, []));
    assert ["-funcname", "-includefunc=foo", "-includefunc=bar"] + ["-regloc", "-dst"] + [] + [] == ["-funcname", "-includefunc=foo", "-includefunc=bar", "-regloc", "-dst"];
    assert TraceFlags(c.includeInjectionTrace) == Ok([]);
    assert Translate(c).Ok?;
    assert Translate(c).value.notices == [];
    assert Translate(c).value.genDotGraph == false;
    assert Translate(c).value.flags == ["-funcname", "-includefunc=foo", "-includefunc=bar", "-regloc", "-dst"];
  }

  /** With several entries, the last one's method wins and the earlier ones only have to be well formed. */
  lemma LastEntryWinsExample()
    ensures Translate(Minimal([[Selector("insttype", [])], [Selector("funcname", [Attr("include", ["main"])])]], Some("regloc"), Some("dst"))) ==
      Ok(Translation(["-funcname", "-includefunc=main", "-regloc", "-dst"], false, []))
  {
    var attrs := [Attr("include", ["main"])];
    assert HasKey(attrs, "include") by { assert attrs[0].key == "include"; }
    var es := [[Selector("insttype", [])], [Selector("funcname", attrs)]];
    assert ValidEntries(es);
    InstSelFlagsSpec(es);
    assert attrs[1..] == [];
    assert AttrPrefix("funcname", "include") == "-includefunc=";
    var p := Prefixed("-includefunc=", ["main"]);
    assert p[0] == "-includefunc=" + "main" == "-includefunc=main";
    assert p == ["-includefunc=main"];
    assert Emitted("funcname", attrs[0]) == p;
    assert AllEmitted("funcname", attrs) == p + AllEmitted("funcname", []);
    assert MethodFlag("funcname") == "-funcname";
    assert es[|es| - 1][0] == Selector("funcname", attrs);
    assert InstSelFlags(Some(es)) == Ok([MethodFlag("funcname")] + AllEmitted("funcname", attrs));
    assert [MethodFlag("funcname")] + AllEmitted("funcname", attrs) == ["-funcname", "-includefunc=main"];
    var c := Minimal(es, Some("regloc"), Some("dst"));
    assert "-" + "dst" == "-dst";
    assert RegSelFlags(c) == Ok(RegSel(["-regloc", "-dst"], []));
    assert PropagationFlags(c) == Ok(Propagation([], false, []));
    assert ["-funcname", "-includefunc=main"] + ["-regloc", "-dst"] + [] + [] == ["-funcname", "-includefunc=main", "-regloc", "-dst"];
    assert TraceFlags(c.includeInjectionTrace) == Ok([]);
    assert Translate(c).Ok?;
    assert Translate(c).value.flags == ["-funcname", "-includefunc=main", "-regloc", "-dst"];
    assert Translate(c).value.notices == [];
    assert Translate(c).value.genDotGraph == false;
  }

  /** A custom selector whose rule carries both include and exclude is rejected. */
  lemma CustomSelectorTwoListsExample()
    ensures Translate(Minimal([[Selector("customInstselector", [Attr("include", ["a"]), Attr("exclude", ["b"])])]], Some("regloc"), Some("dst"))) ==
      Err(MultipleCustomInstSelector)
  {
    var attrs := [Attr("include", ["a"]), Attr("exclude", ["b"])];
    assert HasKey(attrs, "include") by { assert attrs[0].key == "include"; }
    AttrFlagsSpec("customInstselector", attrs);
    assert attrs[..1] == [attrs[0]];
    assert attrs[..1][..0] == [];
  }
}
