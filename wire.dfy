/** Values exchanged between the browser client and the Express server, shared by both sides. */
module Wire {

  datatype Option<T> = None | Some(value: T)

  /** JavaScript truthiness of an optional string: `undefined`, `null` and `""` are falsy. */
  predicate Truthy(o: Option<string>) {
    o.Some? && o.value != ""
  }

  /**
   * One property of a parsed JSON request body, as the handlers see it after destructuring.
   * `NonText` is null, a number, a boolean, or an object or array that a template literal can
   * print, with that text. `Unconvertible` is an object whose own `toString` is not a function,
   * or an array holding one: `${value}` throws a TypeError on it.
   */
  datatype Field =
    | Absent                   // the key is missing: `undefined`
    | Text(s: string)          // a JSON string
    | NonText(shown: string)   // any other value that converts, with its template-literal text
    | Unconvertible            // a value whose conversion to a string throws

  /**
   * What `${value}` prints for a field, or nothing when the conversion throws: an object's own
   * non-function `toString` hides the inherited one, and the inherited `valueOf` returns the object.
   */
  function Shown(f: Field): (r: Option<string>)
    ensures r.None? <==> f.Unconvertible?
    ensures f.Absent? ==> r == Some("undefined")
    ensures f.Text? ==> r == Some(f.s)
  {
    match f
    case Absent => Some("undefined")
    case Text(s) => Some(s)
    case NonText(shown) => Some(shown)
    case Unconvertible => None
  }

  /** The `{stdout, stderr, error}` object of `/api/execute`, also the client's `ExecutionResult`. */
  datatype ExecBody = ExecBody(stdout: Option<string>, stderr: Option<string>, error: Option<string>)

  /** Body of an `/api/chat` reply: `{error}` or `{response}`. */
  datatype ChatBody = ErrorBody(error: string) | ResponseBody(response: string)

  /** `response.ok` of the Fetch API. */
  predicate IsOk(status: nat) {
    200 <= status <= 299
  }

  function DigitChar(d: nat): (c: char)
    requires d < 10
    ensures '0' <= c <= '9' && DigitValue(c) == d
  {
    ('0' as int + d) as char
  }

  function DigitValue(c: char): nat
    requires '0' <= c <= '9'
  {
    c as int - '0' as int
  }

  /** Decimal value of a string of digits. */
  function ValueOf(s: string): nat
    requires forall i :: 0 <= i < |s| ==> '0' <= s[i] <= '9'
  {
    if s == [] then 0 else 10 * ValueOf(s[..|s| - 1]) + DigitValue(s[|s| - 1])
  }

  /** `${n}` for a natural number: its decimal digits without leading zeros. */
  function Decimal(n: nat): (r: string)
    ensures |r| > 0 && (forall i :: 0 <= i < |r| ==> '0' <= r[i] <= '9')
    ensures ValueOf(r) == n
    ensures r[0] == '0' ==> r == "0"
  {
    if n < 10 then [DigitChar(n)]
    else
      var prefix := Decimal(n / 10);
      var r := prefix + [DigitChar(n % 10)];
      assert r[..|r| - 1] == prefix;
      assert ValueOf("0") == 0 by {
        assert "0"[..0] == [];
      }
      assert r[0] == prefix[0] != '0';
      r
  }
}
