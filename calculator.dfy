/**
 * The calculator plugin (plugin lab, calculator_tool.py): a case dispatch
 * on the operation name that always answers with a result record.
 * Arithmetic is exact over `real`.
 */
module Calculator {
  import opened Wrappers
  import opened Dict
  import opened Json
  import opened PluginBase

  const Name := "execute_calculation"
  const Operations: seq<string> := ["add", "subtract", "multiply", "divide", "pow"]
  const DivisionByZero := "Division by zero"

  /** The JSON-Schema of the three arguments, all required. */
  const Parameters: Json :=
    Obj([("type", Str("object")),
         ("properties", Obj([
            ("operation", Obj([("type", Str("string")),
                               ("enum", Arr([Str("add"), Str("subtract"), Str("multiply"), Str("divide"), Str("pow")]))])),
            ("operand_a", Obj([("type", Str("number"))])),
            ("operand_b", Obj([("type", Str("number"))]))])),
         ("required", Arr([Str("operation"), Str("operand_a"), Str("operand_b")]))])

  const Description := "Executes basic arithmetic (add, subtract, multiply, divide, pow)."

  /** `a ** n` for a natural exponent. */
  function PosPow(a: real, n: nat): (p: real)
    ensures a != 0.0 ==> p != 0.0
  {
    if n == 0 then 1.0 else a * PosPow(a, n - 1)
  }

  /** `a ** n` for an integer exponent; `None` is the ZeroDivisionError of `0 ** n` with `n < 0`. */
  function IntPow(a: real, n: int): Option<real> {
    if n >= 0 then Some(PosPow(a, n))
    else if a == 0.0 then None
    else Some(1.0 / PosPow(a, -n))
  }

  function Ok(r: real): ToolResult { ToolResult(true, Num(r), None) }
  function Err(e: string): ToolResult { ToolResult(false, Null, Some(e)) }

  /**
   * `execute(operation, operand_a, operand_b)`. A non-integral exponent is
   * computed by the floating-point `fracPow`, which is outside the model.
   */
  function Execute(operation: string, a: real, b: real, fracPow: (real, real) -> Result<real, string>): (r: ToolResult)
    ensures r.success <==> r.error.None?
    ensures r.success ==> r.result.Num?
    ensures operation == "add" ==> r == Ok(a + b)
    ensures operation == "subtract" ==> r == Ok(a - b)
    ensures operation == "multiply" ==> r == Ok(a * b)
    ensures operation == "divide" ==> r == if b == 0.0 then Err(DivisionByZero) else Ok(a / b)
    ensures operation == "pow" && b == b.Floor as real && b >= 0.0 ==> r == Ok(PosPow(a, b.Floor))
    ensures operation !in Operations ==> r == Err("Unsupported operation: " + operation)
  {
    if operation == "add" then Ok(a + b)
    else if operation == "subtract" then Ok(a - b)
    else if operation == "multiply" then Ok(a * b)
    else if operation == "divide" then
      if b == 0.0 then Err(DivisionByZero) else Ok(a / b)
    else if operation == "pow" then
      if b == b.Floor as real then
        match IntPow(a, b.Floor)
        case Some(p) => Ok(p)
        case None => Err("0.0 cannot be raised to a negative power")
      else
        match fracPow(a, b)
        case Success(p) => Ok(p)
        case Failure(e) => Err(e)
    else Err("Unsupported operation: " + operation)
  }

  /** Subtraction undoes addition. */
  lemma SubtractUndoesAdd(a: real, b: real, fracPow: (real, real) -> Result<real, string>)
    ensures Execute("add", a, b, fracPow).result.Num?
    ensures Execute("subtract", Execute("add", a, b, fracPow).result.n, b, fracPow) == Ok(a)
  {
  }

  /** Division by a non-zero operand undoes multiplication; division by zero is always the error record. */
  lemma DivideUndoesMultiply(a: real, b: real, fracPow: (real, real) -> Result<real, string>)
    ensures b != 0.0 ==> Execute("divide", Execute("multiply", a, b, fracPow).result.n, b, fracPow) == Ok(a)
    ensures b == 0.0 ==> !Execute("divide", a, b, fracPow).success
  {
    if b != 0.0 {
      assert Execute("multiply", a, b, fracPow).result.n == a * b;
      assert (a * b) / b == a;
    }
  }

  /** The exponent law `a ** (m + n) == a ** m * a ** n` for the integral power. */
  lemma {:induction false} PosPowAdd(a: real, m: nat, n: nat)
    ensures PosPow(a, m + n) == PosPow(a, m) * PosPow(a, n)
  {
    if m > 0 {
      PosPowAdd(a, m - 1, n);
      assert PosPow(a, m + n) == a * PosPow(a, m - 1 + n);
    }
  }

  /** A negative integral exponent is the reciprocal of the positive one, and `0 ** -n` is the error record. */
  lemma NegativePower(a: real, n: nat, fracPow: (real, real) -> Result<real, string>)
    requires n > 0
    ensures a != 0.0 ==> Execute("pow", a, -(n as real), fracPow) == Ok(1.0 / PosPow(a, n))
    ensures a == 0.0 ==> Execute("pow", a, -(n as real), fracPow) == Err("0.0 cannot be raised to a negative power")
  {
    assert (-(n as real)).Floor == -(n as int);
  }

  /** A number as Python arithmetic sees it: `True` and `False` count as 1 and 0. */
  function AsNumber(j: Json): Option<real> {
    match j
    case Num(n) => Some(n)
    case Bool(b) => Some(if b then 1.0 else 0.0)
    case _ => None
  }

  /**
   * Binding the keyword arguments of `execute(operation, operand_a, operand_b, **kwargs)`:
   * a missing argument is the TypeError Python raises at the call. The lab
   * leaves wrong-typed arguments open; this model answers them with an error
   * record: an operation that is not a text is unsupported (shown by its JSON
   * text), and an operand that is neither a number nor a boolean is refused.
   */
  function ExecuteArgs(args: Json, fracPow: (real, real) -> Result<real, string>): (o: ToolOutcome)
    ensures o.Returned? <==> args.Obj? && HasKey(args.fields, "operation") && HasKey(args.fields, "operand_a") && HasKey(args.fields, "operand_b")
  {
    match (Index(args, "operation"), Index(args, "operand_a"), Index(args, "operand_b"))
    case (Some(op), Some(x), Some(y)) =>
      var name := if op.Str? then op.s else Dumps(op);
      if name !in Operations || !op.Str? then Returned(Err("Unsupported operation: " + name))
      else if AsNumber(x).None? || AsNumber(y).None? then Returned(Err("unsupported operand type(s) for " + name))
      else Returned(Execute(name, AsNumber(x).value, AsNumber(y).value, fracPow))
    case _ => Raised("execute() missing a required argument")
  }

  /** Called with all three keyword arguments well-typed, the tool does exactly what the positional call does. */
  lemma KeywordCallIsPositional(op: string, a: real, b: real, fracPow: (real, real) -> Result<real, string>)
    requires op in Operations
    ensures ExecuteArgs(Obj([("operation", Str(op)), ("operand_a", Num(a)), ("operand_b", Num(b))]), fracPow)
            == Returned(Execute(op, a, b, fracPow))
  {
    var f := [("operation", Str(op)), ("operand_a", Num(a)), ("operand_b", Num(b))];
    assert Get(f, "operand_a") == Get(f[1..], "operand_a");
    assert Get(f, "operand_b") == Get(f[1..], "operand_b") == Get(f[2..], "operand_b");
  }

  /** The calculator as a registrable plugin: no special permissions needed. */
  function CalculatorTool(fracPow: (real, real) -> Result<real, string>): (t: BaseTool)
    ensures t.name == "execute_calculation" && t.permissions == []
  {
    NewTool(Name, Description, Parameters, args => ExecuteArgs(args, fracPow))
  }

  /** The schema names the tool, enumerates exactly the five operations and requires all three arguments. */
  lemma CalculatorSchema(fracPow: (real, real) -> Result<real, string>)
    ensures SchemaName(GetSchema(CalculatorTool(fracPow))) == Some("execute_calculation")
    ensures OperationEnum() == Some(Arr([Str("add"), Str("subtract"), Str("multiply"), Str("divide"), Str("pow")]))
    ensures Index(Parameters, "required") == Some(Arr([Str("operation"), Str("operand_a"), Str("operand_b")]))
  {
    var f := Parameters.fields;
    assert Get(f, "properties") == Get(f[1..], "properties");
    assert Get(f, "required") == Get(f[1..], "required") == Get(f[2..], "required");
    var op := Index(Index(Parameters, "properties").value, "operation").value;
    assert Get(op.fields, "enum") == Get(op.fields[1..], "enum");
  }

  /** `parameters["properties"]["operation"]["enum"]`. */
  function OperationEnum(): Option<Json> {
    match Index(Parameters, "properties")
    case Some(props) =>
      (match Index(props, "operation")
       case Some(op) => Index(op, "enum")
       case None => None)
    case None => None
  }
}
