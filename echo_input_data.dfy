/** The echo endpoint module: a request body is wrapped as the module's input and
    processing copies that input into the module's output unchanged. */
module EchoInputData {
  import opened Wrappers

  /** The input fields the echo endpoint understands: one string to echo back. */
  datatype EchoInputDataFields = InputString(s: string)

  /** The output fields the echo endpoint produces: the echoed string. */
  datatype EchoInputDataOutputFields = EchoedString(s: string)

  /** Input and output of one echo request-response cycle. */
  datatype EchoInputDataModuleData = EchoInputDataModuleData(
    input: EchoInputDataFields,
    output: EchoInputDataOutputFields)

  /** The string carried by the input, whatever its variant. */
  function InputText(input: EchoInputDataFields): string {
    match input
    case InputString(s) => s
  }

  /** The string carried by the output, whatever its variant. */
  function OutputText(output: EchoInputDataOutputFields): string {
    match output
    case EchoedString(s) => s
  }

  /** Wraps a raw request body; never fails, and the output starts empty. */
  function ParseEchoInputData(requestBody: string): (r: Result<EchoInputDataModuleData>)
    ensures r.Ok?
    ensures InputText(r.value.input) == requestBody
    ensures OutputText(r.value.output) == ""
  {
    var inputFields := InputString(requestBody);
    var outputFields := EchoedString([]);
    Ok(EchoInputDataModuleData(inputFields, outputFields))
  }

  /** Echoes the input into the output; never fails and leaves the input as it was. */
  function ProcessEchoRequest(moduleData: EchoInputDataModuleData): (r: Result<EchoInputDataModuleData>)
    ensures r.Ok?
    ensures r.value.input == moduleData.input
    ensures OutputText(r.value.output) == InputText(moduleData.input)
  {
    var inputString := match moduleData.input case InputString(s) => s;
    Ok(moduleData.(output := EchoedString(inputString)))
  }

  /** Parsing loses nothing: two bodies that parse alike are the same body. */
  lemma ParseInjective(a: string, b: string)
    ensures ParseEchoInputData(a) == ParseEchoInputData(b) ==> a == b
  {
    if ParseEchoInputData(a) == ParseEchoInputData(b) {
      assert InputText(ParseEchoInputData(a).value.input) == a;
    }
  }

  /** The output a processed request carries does not depend on the output it came in with. */
  lemma ProcessIgnoresPriorOutput(d: EchoInputDataModuleData, e: EchoInputDataModuleData)
    requires d.input == e.input
    ensures ProcessEchoRequest(d) == ProcessEchoRequest(e)
  {
  }

  /** Processing an already processed request changes nothing. */
  lemma ProcessIdempotent(d: EchoInputDataModuleData)
    ensures ProcessEchoRequest(ProcessEchoRequest(d).value) == ProcessEchoRequest(d)
  {
  }

  /** The echo property: parsing then processing any body yields that body as output. */
  lemma EchoRoundTrip(body: string)
    ensures var p := ParseEchoInputData(body);
            p.Ok? && ProcessEchoRequest(p.value).Ok? &&
            ProcessEchoRequest(p.value).value.output == EchoedString(body)
  {
  }
}
