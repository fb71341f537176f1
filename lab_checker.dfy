/**
 * The function-calling lab's checker (checker/lab01.py): assertion chains
 * over a student's schema and calculator. Each check stops at the first
 * assertion that fails; an assertion failure and any other exception both
 * make the check return False, with different messages.
 */
module LabChecker {
  import opened Wrappers
  import opened Dict
  import opened Json
  import opened PluginBase
  import Calculator

  /** How a check ended: all assertions held, one failed (its message), or something raised. */
  datatype Verdict = Passed | AssertionFailed(message: string) | Errored

  /** `assert key in props, message`. */
  function AssertIn(key: string, j: Json, message: string, next: Verdict): Verdict {
    match In(key, j)
    case None => Errored
    case Some(b) => if b then next else AssertionFailed(message)
  }

  /** What a passing hotel schema looks like, stated as one condition. */
  ghost predicate HotelSchemaValid(schema: Json) {
    && Index(schema, "function").Some?
    && Index(Index(schema, "function").value, "name") == Some(Str("search_hotels"))
    && Index(Index(schema, "function").value, "parameters").Some?
    && var props := Index(Index(Index(schema, "function").value, "parameters").value, "properties");
       && props.Some?
       && In("location", props.value) == Some(true)
       && In("price_range", props.value) == Some(true)
       && In("amenities", props.value) == Some(true)
       && Index(props.value, "price_range").Some?
       && In("enum", Index(props.value, "price_range").value) == Some(true)
       && Index(props.value, "amenities").Some?
       && Index(Index(props.value, "amenities").value, "type") == Some(Str("array"))
  }

  /** `check_hotel_schema(schema)`. */
  function CheckHotelSchema(schema: Json): (v: Verdict)
    ensures v.Passed? <==> HotelSchemaValid(schema)
    ensures Index(schema, "function").None? ==> v == Errored
  {
    match Index(schema, "function")
    case None => Errored
    case Some(fn) =>
      match Index(fn, "name")
      case None => Errored
      case Some(name) =>
        if !PyEquals(name, Str("search_hotels")) then AssertionFailed("")
        else
          match Index(fn, "parameters")
          case None => Errored
          case Some(params) =>
            match Index(params, "properties")
            case None => Errored
            case Some(props) =>
              AssertIn("location", props, "Missing 'location' property",
              AssertIn("price_range", props, "Missing 'price_range' property",
              AssertIn("amenities", props, "Missing 'amenities' property",
                match Index(props, "price_range")
                case None => Errored
                case Some(pr) =>
                  AssertIn("enum", pr, "price_range should use enum",
                    match Index(props, "amenities")
                    case None => Errored
                    case Some(am) =>
                      match Index(am, "type")
                      case None => Errored
                      case Some(t) =>
                        if PyEquals(t, Str("array")) then Passed
                        else AssertionFailed("amenities should be an array")))))
  }

  /** A student's `execute_calculation`: what it returns for one call, or the exception it raises. */
  type ExecuteFunc = (string, real, real) -> Result<Json, string>

  /** `execute_func(op, a, b)[field] == expected`, or the exception on the way. */
  function Probe(f: ExecuteFunc, op: string, a: real, b: real, field: string, expected: Json, next: Verdict): Verdict {
    match f(op, a, b)
    case Failure(_) => Errored
    case Success(d) =>
      match Index(d, field)
      case None => Errored
      case Some(v) => if PyEquals(v, expected) then next else AssertionFailed("")
  }

  ghost predicate ProbeHolds(f: ExecuteFunc, op: string, a: real, b: real, field: string, expected: Json) {
    f(op, a, b).Success? && Index(f(op, a, b).value, field).Some?
    && PyEquals(Index(f(op, a, b).value, field).value, expected)
  }

  /** `check_calculator_logic(execute_func)`. */
  function CheckCalculatorLogic(f: ExecuteFunc): (v: Verdict)
    ensures v.Passed? <==>
      && ProbeHolds(f, "add", 10.0, 5.0, "result", Num(15.0))
      && ProbeHolds(f, "multiply", 500.0, 0.15, "result", Num(75.0))
      && ProbeHolds(f, "divide", 10.0, 0.0, "success", Bool(false))
      && ProbeHolds(f, "pow", 2.0, 10.0, "result", Num(1024.0))
      && ProbeHolds(f, "sqrt", 9.0, 0.0, "success", Bool(false))
  {
    Probe(f, "add", 10.0, 5.0, "result", Num(15.0),
    Probe(f, "multiply", 500.0, 0.15, "result", Num(75.0),
    Probe(f, "divide", 10.0, 0.0, "success", Bool(false),
    Probe(f, "pow", 2.0, 10.0, "result", Num(1024.0),
    Probe(f, "sqrt", 9.0, 0.0, "success", Bool(false), Passed)))))
  }

  /** A wrong function name fails the first assertion, whatever the rest of the schema holds. */
  lemma WrongNameFailsFirst(schema: Json)
    requires Index(schema, "function").Some?
    requires Index(Index(schema, "function").value, "name").Some?
    requires Index(Index(schema, "function").value, "name") != Some(Str("search_hotels"))
    ensures CheckHotelSchema(schema) == AssertionFailed("")
  {
  }

  /** A function whose first probe raises is reported as an error, whatever the later probes would do. */
  lemma FirstProbeRaising(f: ExecuteFunc)
    requires f("add", 10.0, 5.0).Failure?
    ensures CheckCalculatorLogic(f) == Errored
  {
  }

  /** The calculator tool's `execute`, called positionally. */
  function CalculatorExecute(fracPow: (real, real) -> Result<real, string>): ExecuteFunc {
    (op, a, b) => Success(ResultDict(Calculator.Execute(op, a, b, fracPow)))
  }

  /** The calculator tool passes the calculator check, whatever its non-integral power does. */
  lemma CalculatorPassesCheck(fracPow: (real, real) -> Result<real, string>)
    ensures CheckCalculatorLogic(CalculatorExecute(fracPow)) == Passed
  {
    var f := CalculatorExecute(fracPow);
    assert ProbeHolds(f, "add", 10.0, 5.0, "result", Num(15.0));
    assert ProbeHolds(f, "multiply", 500.0, 0.15, "result", Num(75.0));
    assert ProbeHolds(f, "divide", 10.0, 0.0, "success", Bool(false));
    PowProbe(fracPow);
    assert ProbeHolds(f, "sqrt", 9.0, 0.0, "success", Bool(false));
  }

  lemma PowProbe(fracPow: (real, real) -> Result<real, string>)
    ensures ProbeHolds(CalculatorExecute(fracPow), "pow", 2.0, 10.0, "result", Num(1024.0))
  {
    assert Calculator.PosPow(2.0, 10) == 1024.0 by {
      assert Calculator.PosPow(2.0, 5) == 32.0;
    }
  }

  /** The schema the lab asks the student to write. */
  function ReferenceHotelSchema(): Json {
    Obj([("type", Str("function")),
         ("function", Obj([
            ("name", Str("search_hotels")),
            ("description", Str("Search for hotels in a city.")),
            ("parameters", Obj([
               ("type", Str("object")),
               ("properties", Obj([
                  ("location", Obj([("type", Str("string"))])),
                  ("price_range", Obj([("type", Str("string")), ("enum", Arr([Str("budget"), Str("mid"), Str("luxury")]))])),
                  ("amenities", Obj([("type", Str("array")), ("items", Obj([("type", Str("string"))]))]))]))]))]))])
  }

  /** The schema the lab asks for passes the check. */
  lemma ReferenceHotelSchemaChecks()
    ensures CheckHotelSchema(ReferenceHotelSchema()) == Passed
  {
    var top := ReferenceHotelSchema().fields;
    assert Get(top, "function") == Get(top[1..], "function");
    var fn := Get(top, "function").value.fields;
    assert Get(fn, "parameters") == Get(fn[1..], "parameters") == Get(fn[2..], "parameters");
    var params := Get(fn, "parameters").value.fields;
    assert Get(params, "properties") == Get(params[1..], "properties");
    var props := Get(params, "properties").value.fields;
    assert Get(props, "price_range") == Get(props[1..], "price_range");
    assert Get(props, "amenities") == Get(props[1..], "amenities") == Get(props[2..], "amenities");
    var pr := Get(props, "price_range").value.fields;
    assert Get(pr, "enum") == Get(pr[1..], "enum");
  }
}
