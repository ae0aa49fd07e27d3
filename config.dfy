/**
 * The decoded `compileOption` mapping of input.yaml, as the translator reads it.
 * A YAML mapping whose key order matters is an ordered list of pairs; a key the
 * driver tests with `in` is an Option; a value the driver compares or converts
 * with Python's own rules is a Scalar.
 */
module Config {
  import opened Wrappers
  import opened Text

  /** A YAML scalar: a boolean, an integer or a string. */
  datatype Scalar = SBool(b: bool) | SInt(i: int) | SStr(s: string)

  /** `str(v)`. */
  function PyStr(v: Scalar): string {
    match v
    case SBool(b) => if b then "True" else "False"
    case SInt(i) => IntToString(i)
    case SStr(s) => s
  }

  /** `v == True`: Python's True equals the integer 1. */
  predicate IsPyTrue(v: Scalar) {
    v == SBool(true) || v == SInt(1)
  }

  /** `str(v).lower() == "true"`, the test applied to debugTrace and generateCDFG. */
  predicate StrIsTrue(v: Scalar) {
    Lower(PyStr(v)) == "true"
  }

  /** `isinstance(v, int)`: a Python bool is an int. */
  predicate IsPyInt(v: Scalar) {
    v.SInt? || v.SBool?
  }

  /** `int(v)` for an integer-like scalar. */
  function PyInt(v: Scalar): int
    requires IsPyInt(v)
  {
    if v.SInt? then v.i else if v.b then 1 else 0
  }

  /** An attribute of a selection rule (`include`, `exclude`, `options`, or any other key) and its list. */
  datatype Attr = Attr(key: string, values: seq<string>)

  /** One key of an instSelMethod entry: a method name and its attribute mapping, in key order. */
  datatype Selector = Selector(name: string, attrs: seq<Attr>)

  /** One instSelMethod entry, a mapping from method names to attribute mappings; its first key is its method. */
  type Entry = seq<Selector>

  /** The `tracingPropagationOption` mapping. */
  datatype TraceOptions = TraceOptions(
    debugTrace: Option<Scalar>,
    maxTrace: Option<Scalar>,
    generateCDFG: Option<Scalar>)

  /** The `compileOption` mapping; `None` is an absent key. */
  datatype CompileOption = CompileOption(
    instSelMethod: Option<seq<Entry>>,
    regSelMethod: Option<string>,
    regloc: Option<string>,
    customRegSelector: Option<string>,
    customRegSelectorOption: Option<seq<string>>,
    includeInjectionTrace: Option<seq<string>>,
    tracingPropagation: Option<Scalar>,
    tracingPropagationOption: Option<TraceOptions>)

  /** Every way the translator stops the program; each ends it with status 1. */
  datatype Error =
    | MissingInstSelMethod          // explicit exit(1)
    | EmptyInstSelMethod            // NameError: `methodName` is never bound
    | EmptyEntry                    // IndexError on `list(method.keys())[0]`
    | UnknownInstSelMethod          // explicit exit(1)
    | MissingInclude(methodName: string)
    | MultipleCustomInstSelector
    | MissingRegSelMethod
    | MissingRegloc
    | MissingCustomRegSelector
    | UnknownRegSelMethod
    | InvalidTraceDirection
    | MaxTraceNotInteger            // failed assert
    | MaxTraceNotPositive           // failed assert

  /** Only `True`, and strings that lower-case to "true", pass the `str(v).lower()` test. */
  lemma StrIsTrueCases(v: Scalar)
    ensures StrIsTrue(v) <==> v == SBool(true) || (v.SStr? && Lower(v.s) == "true")
  {
    match v
    case SBool(b) =>
      if b {
        assert Lower("True") == "true" by {
          assert Lower("True")[0] == LowerChar('T');
        }
      } else {
        assert |Lower("False")| == 5;
      }
    case SInt(i) =>
      if i < 0 {
        assert Lower(PyStr(v))[0] == '-';
      } else {
        DecimalRoundTrip(i);
        assert IsDigit(Decimal(i)[0]);
        assert Lower(PyStr(v))[0] == Decimal(i)[0];
      }
    case SStr(s) =>
  }
}
