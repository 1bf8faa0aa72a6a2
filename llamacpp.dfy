/** The request parser of the llamacpp endpoint module. The server reads every request
    into a fixed zero-filled buffer, so a body arrives padded with NUL characters; the
    parser removes every NUL and takes what remains as the prompt. */
module Llamacpp {
  import opened Wrappers

  /** The input fields of the llamacpp endpoint: the prompt text. */
  datatype LlamacppInputFields = Prompt(s: string)

  /** The output fields of the llamacpp endpoint: the generated text. */
  datatype LlamacppOutputFields = OutputText(s: string)

  /** Input and output of one llamacpp request. */
  datatype LlamacppModuleData = LlamacppModuleData(
    input: LlamacppInputFields,
    output: LlamacppOutputFields)

  function PromptText(input: LlamacppInputFields): string {
    match input
    case Prompt(s) => s
  }

  /** A run of `n` NUL characters, the padding the server's read buffer leaves. */
  function NulPadding(n: nat): (r: string)
    ensures |r| == n
    ensures forall i :: 0 <= i < n ==> r[i] == '\0'
  {
    seq(n, _ => '\0')
  }

  /** `s` with every NUL removed and every other character kept, in order. */
  function RemoveNul(s: string): (r: string)
    ensures '\0' !in r
    ensures |r| <= |s|
    ensures multiset(r) <= multiset(s)
    ensures forall c :: c != '\0' ==> multiset(r)[c] == multiset(s)[c]
  {
    if s == [] then []
    else
      assert s == [s[0]] + s[1..];
      (if s[0] == '\0' then [] else [s[0]]) + RemoveNul(s[1..])
  }

  /** Wraps the NUL-free body as the prompt; never fails, and the output starts empty. */
  function ParseLlamacppRequest(requestBody: string): (r: Result<LlamacppModuleData>)
    ensures r.Ok?
    ensures PromptText(r.value.input) == RemoveNul(requestBody)
    ensures '\0' !in PromptText(r.value.input)
    ensures |PromptText(r.value.input)| <= |requestBody|
    ensures r.value.output == OutputText([])
  {
    var requestDataWithoutNulls := RemoveNul(requestBody);
    var input := Prompt(requestDataWithoutNulls);
    Ok(LlamacppModuleData(input, OutputText([])))
  }

  /** Removing NULs works piecewise: it distributes over concatenation. Together with
      its action on one character this fixes RemoveNul completely, so the characters
      it keeps stay in their original order. */
  lemma {:induction false} RemoveNulAppend(a: string, b: string)
    ensures RemoveNul(a + b) == RemoveNul(a) + RemoveNul(b)
  {
    if a == [] {
      assert a + b == b;
    } else {
      assert (a + b)[1..] == a[1..] + b;
      RemoveNulAppend(a[1..], b);
    }
  }

  /** On one character RemoveNul drops it exactly when it is NUL. */
  lemma RemoveNulSingle(c: char)
    ensures RemoveNul([c]) == if c == '\0' then [] else [c]
  {
    assert [c][1..] == [];
  }

  /** A body without NULs is its own prompt. */
  lemma {:induction false} RemoveNulIdentity(s: string)
    requires '\0' !in s
    ensures RemoveNul(s) == s
  {
    if s != [] {
      assert s == [s[0]] + s[1..];
      assert s[0] != '\0' && '\0' !in s[1..];
      RemoveNulIdentity(s[1..]);
    }
  }

  /** Removing NULs twice is removing them once. */
  lemma RemoveNulIdempotent(s: string)
    ensures RemoveNul(RemoveNul(s)) == RemoveNul(s)
  {
    RemoveNulIdentity(RemoveNul(s));
  }

  /** A run of NULs disappears entirely. */
  lemma {:induction false} RemoveNulOfPadding(n: nat)
    ensures RemoveNul(NulPadding(n)) == []
  {
    if n > 0 {
      assert NulPadding(n)[1..] == NulPadding(n - 1);
      RemoveNulOfPadding(n - 1);
    }
  }

  /** The buffer's NUL padding does not reach the prompt: a body padded with any
      number of NULs parses to the same module data as the bare body. */
  lemma PaddingDoesNotReachPrompt(body: string, n: nat)
    ensures ParseLlamacppRequest(body + NulPadding(n)) == ParseLlamacppRequest(body)
  {
    RemoveNulAppend(body, NulPadding(n));
    RemoveNulOfPadding(n);
    assert RemoveNul(body) + [] == RemoveNul(body);
  }

  /** Parsing the prompt of a parsed request again gives the same prompt. */
  lemma ParseIdempotentOnPrompt(body: string)
    ensures var p := PromptText(ParseLlamacppRequest(body).value.input);
            PromptText(ParseLlamacppRequest(p).value.input) == p
  {
    RemoveNulIdempotent(body);
  }
}
