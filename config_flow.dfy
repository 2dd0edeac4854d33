/**
 * The user step of the integration's config flow: with no input it shows the
 * form; with input it builds the wrapper from the user's address and
 * credentials, queries the device once through `info`, and either creates
 * the entry or shows the form again with one error entry for the kind of
 * error raised.
 */
module ConfigFlow {
  import opened Wrappers
  import opened Json
  import opened Tapocli

  /** The validated form fields (address, username, password). */
  datatype UserInput = UserInput(ipAddress: string, username: string, password: string)

  /** What the step hands back to the flow manager. */
  datatype FlowResult =
    /** `async_show_form(step_id=..., errors=...)` */
    | ShowForm(stepId: string, errors: map<string, string>)
    /**
     * `async_create_entry(title=..., data=...)`, after the flow's unique id was
     * set to `uniqueId`.
     */
    | CreateEntry(uniqueId: Json, title: Json, data: UserInput)
    /** A subscript of the decoded device info raised: not caught by the step. */
    | Unhandled

  /** The `errors` entry (field, translation key) the step records for each error kind. */
  function FormError(e: TapoError): (entry: (string, string))
    ensures entry.0 == "ip" <==> e == InvalidIpError
    ensures entry.0 != "ip" ==> entry.0 == "base"
    ensures e == InvalidResponseError <==> entry.1 == "response_error"
    ensures e == InvalidIpError <==> entry.1 == "ip_error"
    ensures e == CannotConnectError <==> entry.1 == "connect_error"
    ensures e == AuthError <==> entry.1 == "auth_error"
    ensures e == UnknownError <==> entry.1 == "unknown_error"
  {
    match e
    case InvalidResponseError => ("base", "response_error")
    case InvalidIpError => ("ip", "ip_error")
    case CannotConnectError => ("base", "connect_error")
    case AuthError => ("base", "auth_error")
    case UnknownError => ("base", "unknown_error")
  }

  /** Each error kind shows the user its own message. */
  lemma FormErrorDistinct(e1: TapoError, e2: TapoError)
    requires e1 != e2
    ensures FormError(e1).1 != FormError(e2).1
  {
  }

  /**
   * The step's answer once `info` has returned `info`: the form with a
   * single error entry when it raised, the created entry when the device
   * info carries both keys, and an unhandled failure when it lacks one.
   */
  function StepOutcome(input: UserInput, info: Result<Json, TapoError>, uniqueIdKey: string, deviceNameKey: string): (r: FlowResult)
    ensures r.ShowForm? <==> info.Err?
    ensures r.ShowForm? ==> r.stepId == "user" && |r.errors| == 1
    ensures r.ShowForm? ==> var (field, key) := FormError(info.error);
      field in r.errors && r.errors[field] == key
    ensures r.CreateEntry? ==> info.Ok? && r.data == input
    ensures r.CreateEntry? ==> Lookup(info.value, uniqueIdKey) == Some(r.uniqueId)
    ensures r.CreateEntry? ==> Lookup(info.value, deviceNameKey) == Some(r.title)
    ensures r.Unhandled? <==>
      info.Ok? && (Lookup(info.value, uniqueIdKey).None? || Lookup(info.value, deviceNameKey).None?)
  {
    match info
    case Err(e) => ShowForm("user", map[FormError(e).0 := FormError(e).1])
    case Ok(devInfo) =>
      match (Lookup(devInfo, uniqueIdKey), Lookup(devInfo, deviceNameKey))
      case (Some(uid), Some(name)) => CreateEntry(uid, name, input)
      case _ => Unhandled
  }

  /**
   * `async_step_user(user_input)`. `configDir` is the host's configuration
   * directory; `runs` answers the helper runs `info` makes and `parse` is
   * the JSON decoder; `uniqueIdKey` and `deviceNameKey` are the keys of the
   * device info that hold its unique id and its name. `calls` are the
   * helper argument vectors issued.
   */
  method AsyncStepUser(configDir: string, userInput: Option<UserInput>, runs: seq<RunOutcome>, parse: Parser,
                       uniqueIdKey: string, deviceNameKey: string)
    returns (result: FlowResult, calls: seq<seq<string>>)
    requires MaxAttempts <= |runs|
    ensures userInput.None? ==> result == ShowForm("user", map[]) && calls == []
    ensures userInput.Some? ==>
      result == StepOutcome(userInput.value, InfoResult(runs, parse), uniqueIdKey, deviceNameKey)
    ensures userInput.Some? ==> |calls| == Attempts(runs) && 1 <= |calls| <= MaxAttempts
    ensures userInput.Some? ==> forall c :: c in calls ==>
      c == [HelperPath(configDir), userInput.value.ipAddress, userInput.value.username,
            userInput.value.password, "info"]
  {
    var errors: map<string, string> := map[];
    calls := [];
    if userInput.Some? {
      var input := userInput.value;
      var cli := new TapoCli(configDir, input.ipAddress, input.username, input.password);
      var info;
      info, calls := cli.Info(runs, parse);
      match info {
        case Err(InvalidResponseError) =>
          errors := errors["base" := "response_error"];
        case Err(InvalidIpError) =>
          errors := errors["ip" := "ip_error"];
        case Err(CannotConnectError) =>
          errors := errors["base" := "connect_error"];
        case Err(AuthError) =>
          errors := errors["base" := "auth_error"];
        case Err(UnknownError) =>
          errors := errors["base" := "unknown_error"];
        case Ok(devInfo) =>
          var uid := Lookup(devInfo, uniqueIdKey);
          if uid.None? {
            return Unhandled, calls;
          }
          var name := Lookup(devInfo, deviceNameKey);
          if name.None? {
            return Unhandled, calls;
          }
          return CreateEntry(uid.value, name.value, input), calls;
      }
    }
    result := ShowForm("user", errors);
  }
}
