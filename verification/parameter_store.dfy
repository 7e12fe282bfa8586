/**
 * The conversion of one `getParametersByPath` reply into records
 * (src/fetchFromParameterStore.ts). The request itself is made by the caller;
 * exactly one request is made and its continuation token is never followed.
 */
module ParameterStore {
  import opened Wrappers
  import opened Errors
  import opened Strings
  import opened Records

  /** One parameter of a reply; the SDK types both fields as optional. */
  datatype Parameter = Parameter(name: Option<string>, value: Option<string>)

  /** A `GetParametersByPathResult`: an optional list and an optional `NextToken`. */
  datatype ParametersByPathResult =
    ParametersByPathResult(parameters: Option<seq<Parameter>>, nextToken: Option<string>)

  /** How the single request settled. */
  datatype Reply = Answered(data: ParametersByPathResult) | Rejected(error: AwsError)

  const UndefinedMessage := "ParameterStore is undefined"
  const NotRegisteredMessage := "Parameter is not registered in ParameterStore"

  /** `String(name)`: an absent name reads "undefined". */
  function NameText(name: Option<string>): string {
    if name.Some? then name.value else "undefined"
  }

  function ValueOf(value: Option<string>): Value {
    if value.Some? then Str(value.value) else Undefined
  }

  /** The record key: the name with the first occurrence of `path + "/"` cut out. */
  function KeyOf(p: Parameter, path: string): string {
    RemoveFirst(NameText(p.name), path + "/")
  }

  /** The one-entry record `{ [key]: value.Value }` built for one parameter. */
  function ParameterRecord(p: Parameter, path: string): Record {
    [(KeyOf(p, path), ValueOf(p.value))]
  }

  /**
   * The fulfilment handler: the two guard checks, then one record per
   * parameter. Its rejections are AwsEnvCreatorErrors, which have no `code`.
   */
  function FromResult(data: ParametersByPathResult, path: string): Result<seq<Record>, AwsError> {
    if data.parameters.None? then
      Failure(AwsError("AwsEnvCreatorError", None, UndefinedMessage))
    else if |data.parameters.value| == 0 then
      Failure(AwsError("AwsEnvCreatorError", None, NotRegisteredMessage))
    else
      var ps := data.parameters.value;
      Success(seq(|ps|, i requires 0 <= i < |ps| => ParameterRecord(ps[i], path)))
  }

  /** `fetchFromParameterStore`: the handler above, followed by the catch that re-wraps. */
  function FetchFromParameterStore(reply: Reply, path: string): (r: Result<seq<Record>, EnvError>)
    // every rejection is an AwsEnvCreatorError
    ensures r.Failure? ==> r.error.AwsEnvCreator?
    // an SDK failure keeps its code, or its message when it has none
    ensures reply.Rejected? && reply.error.code.Some? ==> r == Failure(AwsEnvCreator(reply.error.code.value))
    ensures reply.Rejected? && reply.error.code.None? ==> r == Failure(AwsEnvCreator(reply.error.message))
    // the two guards, whose messages survive the re-wrap
    ensures reply.Answered? && reply.data.parameters.None? ==> r == Failure(AwsEnvCreator(UndefinedMessage))
    ensures reply.Answered? && reply.data.parameters == Some([]) ==> r == Failure(AwsEnvCreator(NotRegisteredMessage))
    // otherwise one single-entry record per parameter, same order
    ensures r.Success? <==> reply.Answered? && reply.data.parameters.Some? && |reply.data.parameters.value| > 0
    ensures r.Success? ==>
      var ps := reply.data.parameters.value;
      |r.value| == |ps| &&
      forall i :: 0 <= i < |ps| ==>
        |r.value[i]| == 1 && r.value[i][0].1 == ValueOf(ps[i].value) &&
        r.value[i][0].0 == RemoveFirst(NameText(ps[i].name), path + "/")
  {
    match reply
    case Rejected(e) => Failure(Rewrap(e))
    case Answered(data) =>
      match FromResult(data, path)
      case Success(records) => Success(records)
      case Failure(e) => Failure(Rewrap(e))
  }

  /** A parameter named `path/KEY` yields the key `KEY`. */
  lemma {:induction false} KeyUnderPath(reply: Reply, path: string, i: nat, key: string)
    requires reply.Answered? && reply.data.parameters.Some?
    requires i < |reply.data.parameters.value|
    requires reply.data.parameters.value[i].name == Some(path + "/" + key)
    ensures FetchFromParameterStore(reply, path).Success?
    ensures FetchFromParameterStore(reply, path).value[i] == [(key, ValueOf(reply.data.parameters.value[i].value))]
  {
  }

  /** The continuation token plays no part: a single page is all the result reflects. */
  lemma NextTokenIgnored(ps: Option<seq<Parameter>>, t1: Option<string>, t2: Option<string>, path: string)
    ensures FetchFromParameterStore(Answered(ParametersByPathResult(ps, t1)), path)
         == FetchFromParameterStore(Answered(ParametersByPathResult(ps, t2)), path)
  {
  }

  /** The prefix is not anchored: it is cut wherever it first occurs in the name. */
  lemma UnanchoredStrip()
    ensures KeyOf(Parameter(Some("/x/dev/K"), None), "/dev") == "/xK"
  {
    var s, pat := "/x/dev/K", "/dev/";
    assert !OccursAt(s, pat, 0) by { assert s[1] != pat[1]; }
    assert !OccursAt(s, pat, 1) by { assert s[1] != pat[0]; }
    assert OccursAt(s, pat, 2);
    assert FindFrom(s, pat, 2) == Some(2);
    assert FindFrom(s, pat, 1) == Some(2);
    assert IndexOf(s, pat) == Some(2);
    assert s[..2] + s[7..] == "/xK";
  }
}
